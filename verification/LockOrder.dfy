/**
 The locks of the blob transactions, as a wait system: each transaction acquires the
 resources of its plan in order, keeps them to its end, and waits while another has the
 next one. Acquiring a resource it already holds is free.
 */
module LockOrder {
  import opened Types

  datatype Resource =
    | Advisory(digest: Digest)   // pg_advisory_xact_lock
    | BlobRow(digest: Digest)    // FOR UPDATE, FOR NO KEY UPDATE, or the trigger's UPDATE
    | ObjectRow(key: Key)        // a cache_objects row

  type Plan = seq<Resource>

  datatype Tx = Tx(plan: Plan, taken: nat)

  datatype Waits = Waits(owner: map<Resource, Tid>, txs: map<Tid, Tx>)

  datatype Step = Begin(t: Tid, plan: Plan) | Acquire(t: Tid) | End(t: Tid)

  const IDLE := Waits(map[], map[])

  predicate Enabled(s: Waits, step: Step) {
    match step
    case Begin(t, plan) => t !in s.txs
    case Acquire(t) =>
      && t in s.txs && s.txs[t].taken < |s.txs[t].plan|
      && var r := s.txs[t].plan[s.txs[t].taken];
         r in s.owner ==> s.owner[r] == t
    case End(t) => t in s.txs
  }

  /** `End` is a commit or a rollback; a rollback may come at any point. */
  function Next(s: Waits, step: Step): Waits
    requires Enabled(s, step)
  {
    match step
    case Begin(t, plan) => s.(txs := s.txs[t := Tx(plan, 0)])
    case Acquire(t) =>
      var tx := s.txs[t];
      Waits(s.owner[tx.plan[tx.taken] := t], s.txs[t := tx.(taken := tx.taken + 1)])
    case End(t) =>
      Waits(map r | r in s.owner && s.owner[r] != t :: s.owner[r], s.txs - {t})
  }

  /** An execution in which every transaction's plan is one of `allowed`. */
  ghost predicate IsRun(states: seq<Waits>, steps: seq<Step>, allowed: Plan -> bool) {
    && |states| == |steps| + 1 && states[0] == IDLE
    && (forall i :: 0 <= i < |steps| ==> Enabled(states[i], steps[i]) && states[i + 1] == Next(states[i], steps[i]))
    && (forall i :: 0 <= i < |steps| && steps[i].Begin? ==> allowed(steps[i].plan))
  }

  /** A resource is owned exactly by the transaction whose taken part of the plan holds it. */
  ghost predicate Inv(s: Waits, allowed: Plan -> bool) {
    && (forall t :: t in s.txs ==> s.txs[t].taken <= |s.txs[t].plan| && allowed(s.txs[t].plan))
    && (forall t, i :: t in s.txs && 0 <= i < s.txs[t].taken ==>
          s.txs[t].plan[i] in s.owner && s.owner[s.txs[t].plan[i]] == t)
    && (forall r :: r in s.owner ==> s.owner[r] in s.txs && Took(s.txs[s.owner[r]], r))
  }

  ghost predicate Took(tx: Tx, r: Resource) {
    exists i :: 0 <= i < tx.taken && i < |tx.plan| && tx.plan[i] == r
  }

  lemma AcquireKeeps(s: Waits, t: Tid, allowed: Plan -> bool)
    requires Inv(s, allowed) && Enabled(s, Acquire(t))
    ensures Inv(Next(s, Acquire(t)), allowed)
  {
    var s' := Next(s, Acquire(t));
    var n := s.txs[t].taken;
    forall r | r in s'.owner ensures s'.owner[r] in s'.txs && Took(s'.txs[s'.owner[r]], r) {
      if r == s.txs[t].plan[n] {
        assert s'.txs[t].plan[n] == r;
      } else {
        var u := s.owner[r];
        var i :| 0 <= i < s.txs[u].taken && i < |s.txs[u].plan| && s.txs[u].plan[i] == r;
        assert s'.txs[u].plan[i] == r;
      }
    }
  }

  lemma StepKeeps(s: Waits, step: Step, allowed: Plan -> bool)
    requires Inv(s, allowed) && Enabled(s, step) && (step.Begin? ==> allowed(step.plan))
    ensures Inv(Next(s, step), allowed)
  {
    var s' := Next(s, step);
    if step.Acquire? {
      AcquireKeeps(s, step.t, allowed);
    } else {
      forall r | r in s'.owner ensures s'.owner[r] in s'.txs && Took(s'.txs[s'.owner[r]], r) {
        assert s'.txs[s.owner[r]] == s.txs[s.owner[r]];
      }
    }
  }

  lemma {:induction false} RunKeeps(states: seq<Waits>, steps: seq<Step>, allowed: Plan -> bool, i: nat)
    requires IsRun(states, steps, allowed) && i < |states|
    ensures Inv(states[i], allowed)
  {
    if i > 0 {
      RunKeeps(states, steps, allowed, i - 1);
      StepKeeps(states[i - 1], steps[i - 1], allowed);
    }
  }

  // ---- who waits for whom --------------------------------------------------

  predicate Unfinished(s: Waits, t: Tid) {
    t in s.txs && s.txs[t].taken < |s.txs[t].plan|
  }

  function Wanted(s: Waits, t: Tid): Resource
    requires Unfinished(s, t)
  {
    s.txs[t].plan[s.txs[t].taken]
  }

  predicate WaitsFor(s: Waits, t: Tid, u: Tid) {
    Unfinished(s, t) && u != t && Wanted(s, t) in s.owner && s.owner[Wanted(s, t)] == u
  }

  ghost predicate Cycle(s: Waits, ts: seq<Tid>) {
    && ts != []
    && (forall i :: 0 <= i < |ts| - 1 ==> WaitsFor(s, ts[i], ts[i + 1]))
    && WaitsFor(s, ts[|ts| - 1], ts[0])
  }

  // ---- the global order ----------------------------------------------------

  /** Advisory locks before blob rows, each by digest. */
  predicate Before(a: Resource, b: Resource) {
    match (a, b)
    case (Advisory(d), Advisory(e)) => d < e
    case (Advisory(_), BlobRow(_)) => true
    case (BlobRow(d), BlobRow(e)) => d < e
    case _ => false
  }

  /** Where the object rows of a plan start. */
  ghost predicate SplitAt(plan: Plan, n: nat, digestOf: Key -> Digest) {
    && n <= |plan|
    && (forall i, j :: 0 <= i < j < n ==> plan[i] == plan[j] || Before(plan[i], plan[j]))
    && (forall i :: 0 <= i < n ==> !plan[i].ObjectRow?)
    && (forall i :: n <= i < |plan| ==>
          plan[i].ObjectRow? && exists j :: 0 <= j < n && plan[j] == BlobRow(digestOf(plan[i].key)))
  }

  /** Digest locks in ascending order, then object rows in any order, each under its blob row. */
  ghost predicate Ordered(plan: Plan, digestOf: Key -> Digest) {
    exists n :: SplitAt(plan, n, digestOf)
  }

  /** The transactions under way are ordered, each key's rows under one digest; those before and after may differ. */
  ghost predicate LiveOrdered(s: Waits, digestOf: Key -> Digest) {
    forall t :: t in s.txs ==> Ordered(s.txs[t].plan, digestOf)
  }

  /** A transaction that wants or holds an object row holds the blob row over it. */
  lemma RowOverObject(s: Waits, t: Tid, i: nat, allowed: Plan -> bool, digestOf: Key -> Digest)
    requires Inv(s, allowed) && t in s.txs && i <= s.txs[t].taken && i < |s.txs[t].plan|
    requires LiveOrdered(s, digestOf)
    ensures s.txs[t].plan[i].ObjectRow? ==>
              var row := BlobRow(digestOf(s.txs[t].plan[i].key)); row in s.owner && s.owner[row] == t
  {
    if s.txs[t].plan[i].ObjectRow? {
      var n :| SplitAt(s.txs[t].plan, n, digestOf);
      var j :| 0 <= j < n && s.txs[t].plan[j] == BlobRow(digestOf(s.txs[t].plan[i].key));
    }
  }

  /** An object row is never waited for: both transactions would hold the same blob row. */
  lemma NeverWaitsForObject(s: Waits, t: Tid, u: Tid, allowed: Plan -> bool, digestOf: Key -> Digest)
    requires Inv(s, allowed) && WaitsFor(s, t, u)
    requires LiveOrdered(s, digestOf)
    ensures !Wanted(s, t).ObjectRow?
  {
    var i: nat :| i < s.txs[u].taken && i < |s.txs[u].plan| && s.txs[u].plan[i] == Wanted(s, t);
    RowOverObject(s, t, s.txs[t].taken, allowed, digestOf);
    RowOverObject(s, u, i, allowed, digestOf);
  }

  /** Along the wait graph the wanted resource only goes up. */
  lemma WaitClimbs(s: Waits, t: Tid, u: Tid, allowed: Plan -> bool, digestOf: Key -> Digest)
    requires Inv(s, allowed) && WaitsFor(s, t, u) && Unfinished(s, u) && !Wanted(s, u).ObjectRow?
    requires Wanted(s, u) in s.owner && s.owner[Wanted(s, u)] != u
    requires LiveOrdered(s, digestOf)
    ensures Before(Wanted(s, t), Wanted(s, u))
  {
    NeverWaitsForObject(s, t, u, allowed, digestOf);
    var n :| SplitAt(s.txs[u].plan, n, digestOf);
    var i :| 0 <= i < s.txs[u].taken && s.txs[u].plan[i] == Wanted(s, t);
    assert s.txs[u].plan[s.txs[u].taken] == Wanted(s, u);
  }

  lemma {:induction false} ChainClimbs(s: Waits, ts: seq<Tid>, i: nat, allowed: Plan -> bool, digestOf: Key -> Digest)
    requires Inv(s, allowed) && Cycle(s, ts) && 0 < i < |ts|
    requires LiveOrdered(s, digestOf)
    ensures Unfinished(s, ts[0]) && Unfinished(s, ts[i]) && Before(Wanted(s, ts[0]), Wanted(s, ts[i]))
  {
    assert WaitsFor(s, ts[0], ts[1]);
    assert WaitsFor(s, ts[i - 1], ts[i]);
    var after := if i == |ts| - 1 then ts[0] else ts[i + 1];
    assert WaitsFor(s, ts[i], after);
    NeverWaitsForObject(s, ts[i], after, allowed, digestOf);
    WaitClimbs(s, ts[i - 1], ts[i], allowed, digestOf);
    if i > 1 { ChainClimbs(s, ts, i - 1, allowed, digestOf); }
  }

  /** However many such transactions run and however they interleave, the wait graph has no cycle. */
  lemma NoDeadlock(states: seq<Waits>, steps: seq<Step>, i: nat, allowed: Plan -> bool, digestOf: Key -> Digest,
                   ts: seq<Tid>)
    requires IsRun(states, steps, allowed) && i < |states|
    requires LiveOrdered(states[i], digestOf)
    ensures !Cycle(states[i], ts)
  {
    RunKeeps(states, steps, allowed, i);
    var s := states[i];
    if Cycle(s, ts) {
      if |ts| > 1 {
        ChainClimbs(s, ts, |ts| - 1, allowed, digestOf);
        assert WaitsFor(s, ts[0], ts[1]);
        NeverWaitsForObject(s, ts[0], ts[1], allowed, digestOf);
        WaitClimbs(s, ts[|ts| - 1], ts[0], allowed, digestOf);
      }
    }
  }

  predicate Waiting(s: Waits, t: Tid) {
    Unfinished(s, t) && Wanted(s, t) in s.owner && s.owner[Wanted(s, t)] != t
  }

  lemma BeforeOrder(a: Resource, b: Resource, c: Resource)
    ensures !Before(a, a) && (Before(a, b) && Before(b, c) ==> Before(a, c))
  {
  }

  lemma NextClimbs(s: Waits, t: Tid, allowed: Plan -> bool, digestOf: Key -> Digest)
    requires Inv(s, allowed) && Waiting(s, t)
    requires LiveOrdered(s, digestOf)
    ensures var u := s.owner[Wanted(s, t)];
            u in s.txs && (Waiting(s, u) ==> Before(Wanted(s, t), Wanted(s, u)))
  {
    var u := s.owner[Wanted(s, t)];
    assert WaitsFor(s, t, u);
    if Waiting(s, u) {
      var v := s.owner[Wanted(s, u)];
      assert WaitsFor(s, u, v);
      NeverWaitsForObject(s, u, v, allowed, digestOf);
      WaitClimbs(s, t, u, allowed, digestOf);
    }
  }

  /** Every transaction of `seen` wants something before what `t` waits for. */
  ghost predicate Below(s: Waits, seen: set<Tid>, t: Tid) {
    seen <= s.txs.Keys &&
    forall v :: v in seen ==> Unfinished(s, v) && (Waiting(s, t) ==> Before(Wanted(s, v), Wanted(s, t)))
  }

  lemma BelowNext(s: Waits, seen: set<Tid>, t: Tid, u: Tid)
    requires Below(s, seen, t) && Waiting(s, t) && (Waiting(s, u) ==> Before(Wanted(s, t), Wanted(s, u)))
    ensures Below(s, seen + {t}, u) && |s.txs.Keys - (seen + {t})| < |s.txs.Keys - seen|
  {
    BeforeOrder(Wanted(s, t), Wanted(s, t), Wanted(s, t));
    assert t !in seen;
    SmallerSet(s.txs.Keys - (seen + {t}), s.txs.Keys - seen);
    forall v | v in seen && Waiting(s, u) { BeforeOrder(Wanted(s, v), Wanted(s, t), Wanted(s, u)); }
  }

  /** Following the waits from any transaction reaches one that can proceed. */
  lemma {:induction false} FollowWaits(s: Waits, t: Tid, seen: set<Tid>, allowed: Plan -> bool, digestOf: Key -> Digest)
    returns (u: Tid)
    requires Inv(s, allowed) && t in s.txs && Below(s, seen, t)
    requires LiveOrdered(s, digestOf)
    ensures u in s.txs && !Waiting(s, u)
    decreases |s.txs.Keys - seen|
  {
    if !Waiting(s, t) {
      u := t;
    } else {
      var next := s.owner[Wanted(s, t)];
      NextClimbs(s, t, allowed, digestOf);
      BelowNext(s, seen, t, next);
      u := FollowWaits(s, next, seen + {t}, allowed, digestOf);
    }
  }

  lemma SmallerSet(a: set<Tid>, b: set<Tid>)
    requires a < b
    ensures |a| < |b|
  {
    assert b == a + (b - a);
    assert |b| == |a| + |b - a|;
  }

  /** The same as progress: while transactions remain, one of them is not waiting. */
  lemma SomeoneProceeds(states: seq<Waits>, steps: seq<Step>, i: nat, allowed: Plan -> bool, digestOf: Key -> Digest)
    requires IsRun(states, steps, allowed) && i < |states| && states[i].txs != map[]
    requires LiveOrdered(states[i], digestOf)
    ensures exists t :: t in states[i].txs && !Waiting(states[i], t)
  {
    RunKeeps(states, steps, allowed, i);
    assert states[i].txs.Keys != {};
    var t :| t in states[i].txs.Keys;
    var u := FollowWaits(states[i], t, {}, allowed, digestOf);
  }

  // ---- the plans of the blob transactions ----------------------------------

  predicate Ascending(ds: seq<Digest>) {
    forall i, j :: 0 <= i < j < |ds| ==> ds[i] <= ds[j]
  }

  function BlobRows(ds: seq<Digest>): Plan {
    seq(|ds|, i requires 0 <= i < |ds| => BlobRow(ds[i]))
  }

  function ObjectRows(ks: seq<Key>): Plan {
    seq(|ks|, i requires 0 <= i < |ks| => ObjectRow(ks[i]))
  }

  /** A batch: LockBlobDigests over the sorted digests, then the DELETE's rows in the planner's order. */
  function BatchPlan(locks: seq<Digest>, ks: seq<Key>): Plan {
    BlobRows(locks) + ObjectRows(ks)
  }

  function ReapPlan(d: Digest): Plan {
    [Advisory(d), BlobRow(d)]
  }

  /** A first upload under a key: the digest locks, then the new object row. */
  function PutNewPlan(d: Digest, k: Key): Plan {
    [Advisory(d), BlobRow(d), ObjectRow(k)]
  }

  /** An overwrite: the new digest first (GetBlobForWrite), the object row, then the trigger's two rows in digest order. */
  function OverwritePlan(new_: Digest, k: Key, was: Digest): Plan {
    [Advisory(new_), BlobRow(new_), ObjectRow(k)] +
    if new_ < was then [BlobRow(new_), BlobRow(was)] else [BlobRow(was), BlobRow(new_)]
  }

  /** A single Delete: the object row, then the trigger's blob row. */
  function DeletePlan(k: Key, d: Digest): Plan {
    [ObjectRow(k), BlobRow(d)]
  }

  /** What the GC runs: batches over rows with their own digests, and reaps. */
  ghost predicate GcPlan(plan: Plan, digestOf: Key -> Digest) {
    || (exists d :: plan == ReapPlan(d))
    || exists locks, ks ::
         plan == BatchPlan(locks, ks) && Ascending(locks) && forall k :: k in ks ==> digestOf(k) in locks
  }

  lemma BatchPlanOrdered(locks: seq<Digest>, ks: seq<Key>, digestOf: Key -> Digest)
    requires Ascending(locks) && forall k :: k in ks ==> digestOf(k) in locks
    ensures Ordered(BatchPlan(locks, ks), digestOf)
  {
    var plan, n := BatchPlan(locks, ks), |locks|;
    forall i | n <= i < |plan|
      ensures plan[i].ObjectRow? && exists j :: 0 <= j < n && plan[j] == BlobRow(digestOf(plan[i].key))
    {
      assert plan[i] == ObjectRow(ks[i - n]) && ks[i - n] in ks;
      var j :| 0 <= j < n && locks[j] == digestOf(ks[i - n]);
      assert plan[j] == BlobRow(locks[j]);
    }
    assert SplitAt(plan, n, digestOf);
  }

  lemma GcPlanOrdered(plan: Plan, digestOf: Key -> Digest)
    requires GcPlan(plan, digestOf)
    ensures Ordered(plan, digestOf)
  {
    if d :| plan == ReapPlan(d) {
      assert SplitAt(plan, 2, digestOf);
    } else {
      var locks, ks :|
        plan == BatchPlan(locks, ks) && Ascending(locks) && forall k :: k in ks ==> digestOf(k) in locks;
      BatchPlanOrdered(locks, ks, digestOf);
    }
  }

  /**
   While every transaction under way is a DeleteBatch or a ReapDigest, however many they are and
   whatever ran before them: no cycle, and always one that can go on. A key may have had other
   digests at other times.
   */
  lemma GcNeverDeadlocks(states: seq<Waits>, steps: seq<Step>, i: nat, allowed: Plan -> bool, digestOf: Key -> Digest,
                         ts: seq<Tid>)
    requires IsRun(states, steps, allowed) && i < |states|
    requires forall t :: t in states[i].txs ==> GcPlan(states[i].txs[t].plan, digestOf)
    ensures !Cycle(states[i], ts)
    ensures states[i].txs != map[] ==> exists t :: t in states[i].txs && !Waiting(states[i], t)
  {
    forall t | t in states[i].txs ensures Ordered(states[i].txs[t].plan, digestOf) {
      GcPlanOrdered(states[i].txs[t].plan, digestOf);
    }
    NoDeadlock(states, steps, i, allowed, digestOf, ts);
    if states[i].txs != map[] { SomeoneProceeds(states, steps, i, allowed, digestOf); }
  }

  lemma PutNewOrdered(d: Digest, k: Key, digestOf: Key -> Digest)
    ensures Ordered(PutNewPlan(d, k), digestOf) <==> digestOf(k) == d
  {
    var plan := PutNewPlan(d, k);
    assert plan[1] == BlobRow(d) && plan[2] == ObjectRow(k);
    if digestOf(k) == d { assert SplitAt(plan, 2, digestOf); }
    if n :| SplitAt(plan, n, digestOf) { assert n == 2; }
  }

  // ---- two transactions, exactly -------------------------------------------

  /** Each stops at a resource the other has already taken, and what they have taken is disjoint. */
  ghost predicate CanBlock(p: Plan, q: Plan) {
    exists i, j :: 0 <= i < |p| && 0 <= j < |q| && BlockAt(p, q, i, j)
  }

  ghost predicate BlockAt(p: Plan, q: Plan, i: nat, j: nat)
    requires i < |p| && j < |q|
  {
    p[i] in q[..j] && q[j] in p[..i] && forall r :: r in p[..i] ==> r !in q[..j]
  }

  predicate OneOf(p: Plan, q: Plan, plan: Plan) {
    plan == p || plan == q
  }

  /** Reachable: transaction 0 under `p` and transaction 1 under `q`, each waiting for the other. */
  ghost predicate Deadlocks(p: Plan, q: Plan) {
    exists states, steps ::
      && IsRun(states, steps, plan => OneOf(p, q, plan))
      && DeadlockAt(states[|steps|], p, q)
  }

  ghost predicate DeadlockAt(s: Waits, p: Plan, q: Plan) {
    && 0 in s.txs && 1 in s.txs && s.txs[0].plan == p && s.txs[1].plan == q
    && WaitsFor(s, 0, 1) && WaitsFor(s, 1, 0)
  }

  lemma TookPrefix(tx: Tx, r: Resource)
    requires tx.taken <= |tx.plan|
    ensures Took(tx, r) <==> r in tx.plan[..tx.taken]
  {
    if r in tx.plan[..tx.taken] {
      var i :| 0 <= i < tx.taken && tx.plan[..tx.taken][i] == r;
      assert tx.plan[i] == r;
    }
  }

  lemma DeadlockBlocks(states: seq<Waits>, steps: seq<Step>, p: Plan, q: Plan)
    requires IsRun(states, steps, plan => OneOf(p, q, plan)) && DeadlockAt(states[|steps|], p, q)
    ensures CanBlock(p, q)
  {
    RunKeeps(states, steps, plan => OneOf(p, q, plan), |steps|);
    var s := states[|steps|];
    var i, j := s.txs[0].taken, s.txs[1].taken;
    TookPrefix(s.txs[1], p[i]);
    TookPrefix(s.txs[0], q[j]);
    forall r | r in p[..i] ensures r !in q[..j] {
      var a :| 0 <= a < i && p[..i][a] == r;
      assert s.owner[p[a]] == 0;
    }
    assert BlockAt(p, q, i, j);
  }

  function Owned(p: Plan, t: Tid, base: map<Resource, Tid>): map<Resource, Tid> {
    if p == [] then base else Owned(p[..|p| - 1], t, base)[p[|p| - 1] := t]
  }

  lemma {:induction false} OwnedAt(p: Plan, t: Tid, base: map<Resource, Tid>, r: Resource)
    ensures r in Owned(p, t, base) <==> r in p || r in base
    ensures r in Owned(p, t, base) ==> Owned(p, t, base)[r] == if r in p then t else base[r]
  {
    if p != [] {
      OwnedAt(p[..|p| - 1], t, base, r);
      assert p == p[..|p| - 1] + [p[|p| - 1]];
    }
  }

  /** `n` acquisitions by `t` in a row, the first `n` of its plan being free. */
  lemma {:induction false} TakeRun(states: seq<Waits>, steps: seq<Step>, allowed: Plan -> bool, t: Tid, n: nat)
    returns (states': seq<Waits>, steps': seq<Step>)
    requires IsRun(states, steps, allowed)
    requires var s := states[|steps|];
             && t in s.txs && s.txs[t].taken == 0 && n <= |s.txs[t].plan|
             && forall r :: r in s.txs[t].plan[..n] ==> r !in s.owner
    ensures IsRun(states', steps', allowed)
    ensures var s, s' := states[|steps|], states'[|steps'|];
            s' == Waits(Owned(s.txs[t].plan[..n], t, s.owner), s.txs[t := s.txs[t].(taken := n)])
    decreases n
  {
    var s := states[|steps|];
    var plan := s.txs[t].plan;
    if n == 0 {
      assert s.txs[t := s.txs[t].(taken := 0)] == s.txs;
      return states, steps;
    }
    assert forall r :: r in plan[..n - 1] ==> r in plan[..n];
    states', steps' := TakeRun(states, steps, allowed, t, n - 1);
    var s1 := states'[|steps'|];
    OwnedAt(plan[..n - 1], t, s.owner, plan[n - 1]);
    assert plan[n - 1] in plan[..n];
    assert plan[..n][..n - 1] == plan[..n - 1];
    states', steps' := Extended(states', steps', allowed, Acquire(t));
  }

  lemma Extended(states: seq<Waits>, steps: seq<Step>, allowed: Plan -> bool, step: Step)
    returns (states': seq<Waits>, steps': seq<Step>)
    requires IsRun(states, steps, allowed) && Enabled(states[|steps|], step) && (step.Begin? ==> allowed(step.plan))
    ensures IsRun(states', steps', allowed) && states'[|steps'|] == Next(states[|steps|], step)
  {
    states', steps' := states + [Next(states[|steps|], step)], steps + [step];
  }

  lemma BlockDeadlocks(p: Plan, q: Plan, i: nat, j: nat)
    requires i < |p| && j < |q| && BlockAt(p, q, i, j)
    ensures Deadlocks(p, q)
  {
    var allowed := plan => OneOf(p, q, plan);
    var states, steps := [IDLE], [];
    states, steps := Extended(states, steps, allowed, Begin(0, p));
    states, steps := Extended(states, steps, allowed, Begin(1, q));
    states, steps := TakeRun(states, steps, allowed, 0, i);
    var owner := Owned(p[..i], 0, map[]);
    forall r | r in q[..j] ensures r !in owner { OwnedAt(p[..i], 0, map[], r); }
    states, steps := TakeRun(states, steps, allowed, 1, j);
    OwnedAt(q[..j], 1, owner, p[i]);
    OwnedAt(q[..j], 1, owner, q[j]);
    OwnedAt(p[..i], 0, map[], q[j]);
    assert DeadlockAt(states[|steps|], p, q);
  }

  /** Two transactions can deadlock exactly when their plans cross. */
  lemma DeadlockIff(p: Plan, q: Plan)
    ensures Deadlocks(p, q) <==> CanBlock(p, q)
  {
    if Deadlocks(p, q) {
      var states, steps :|
        IsRun(states, steps, plan => OneOf(p, q, plan)) && DeadlockAt(states[|steps|], p, q);
      DeadlockBlocks(states, steps, p, q);
    }
    if CanBlock(p, q) {
      var i, j :| 0 <= i < |p| && 0 <= j < |q| && BlockAt(p, q, i, j);
      BlockDeadlocks(p, q, i, j);
    }
  }

  /**
   A PUT into the mutable namespace over a row that names `was`. Uploading what is already
   there moves no reference, so the trigger locks nothing; anything else is an overwrite.
   */
  function PutPlan(new_: Digest, k: Key, was: Digest): Plan {
    if new_ == was then PutNewPlan(new_, k) else OverwritePlan(new_, k, was)
  }

  /** Which two such PUTs can deadlock, by their digests: a swap over two keys, or over one key one re-putting the content it holds. */
  predicate PutsClash(n1: Digest, k1: Key, o1: Digest, n2: Digest, k2: Key, o2: Digest) {
    if k1 != k2 then n1 != o1 && n1 == o2 && n2 == o1
    else n1 != n2 && (n1 == o1 || n2 == o1)
  }

  /** Where a PUT's plan first takes the digest it moves away from. */
  function TakesOld(new_: Digest, was: Digest): nat {
    if new_ < was then 4 else 3
  }

  lemma PutPlanShape(new_: Digest, k: Key, was: Digest)
    ensures var p := PutPlan(new_, k, was);
            && p[..3] == [Advisory(new_), BlobRow(new_), ObjectRow(k)]
            && |p| == (if new_ == was then 3 else 5)
            && (forall i :: 3 <= i < |p| ==> p[i] == BlobRow(new_) || p[i] == BlobRow(was))
            && (new_ != was ==>
                  p[TakesOld(new_, was)] == BlobRow(was) && BlobRow(was) !in p[..TakesOld(new_, was)]
                  && ObjectRow(k) in p[..TakesOld(new_, was)] && BlobRow(new_) in p[..TakesOld(new_, was)])
  {
    var p := PutPlan(new_, k, was);
    assert p[0] == Advisory(new_) && p[1] == BlobRow(new_) && p[2] == ObjectRow(k);
    if new_ != was {
      var t := TakesOld(new_, was);
      assert p[..t][1] == p[1] && p[..t][2] == p[2];
      assert p[3] == (if new_ < was then BlobRow(new_) else BlobRow(was));
    }
  }

  /** Two overwrites that swap a pair of digests: each has locked its new one and wants the other's. */
  lemma SwapBlocks(n1: Digest, k1: Key, o1: Digest, n2: Digest, k2: Key, o2: Digest)
    requires k1 != k2 && PutsClash(n1, k1, o1, n2, k2, o2)
    ensures CanBlock(PutPlan(n1, k1, o1), PutPlan(n2, k2, o2))
  {
    var p, q := PutPlan(n1, k1, o1), PutPlan(n2, k2, o2);
    PutPlanShape(n1, k1, o1);
    PutPlanShape(n2, k2, o2);
    var i, j := TakesOld(n1, o1), TakesOld(n2, o2);
    assert BlockAt(p, q, i, j);
  }

  /** One key: the overwrite holds the row and wants the old digest, which the re-PUT holds while it wants the row. */
  lemma RePutBlocks(n: Digest, k: Key, o: Digest)
    requires n != o
    ensures CanBlock(PutPlan(n, k, o), PutPlan(o, k, o)) && CanBlock(PutPlan(o, k, o), PutPlan(n, k, o))
  {
    var p, q := PutPlan(n, k, o), PutPlan(o, k, o);
    PutPlanShape(n, k, o);
    PutPlanShape(o, k, o);
    var i := TakesOld(n, o);
    assert q[2] == ObjectRow(k) && q[..2] == [Advisory(o), BlobRow(o)];
    assert forall r :: r in p[..i] ==> r == Advisory(n) || r == BlobRow(n) || r == ObjectRow(k);
    assert q[..2][1] == BlobRow(o);
    assert BlockAt(p, q, i, 2) && BlockAt(q, p, 2, i);
  }

  /** Neither stops before it holds its new digest's row, nor at that row. */
  lemma BlocksLate(n1: Digest, k1: Key, o1: Digest, n2: Digest, k2: Key, o2: Digest, i: nat, j: nat)
    requires i < |PutPlan(n1, k1, o1)| && j < |PutPlan(n2, k2, o2)|
    requires BlockAt(PutPlan(n1, k1, o1), PutPlan(n2, k2, o2), i, j)
    ensures n1 != n2 && i >= 2 && j >= 2
    ensures var p, q := PutPlan(n1, k1, o1), PutPlan(n2, k2, o2);
            BlobRow(n1) in p[..i] && BlobRow(n2) in q[..j] && p[i] != BlobRow(n1) && q[j] != BlobRow(n2) && p[i] != q[j]
  {
    var p, q := PutPlan(n1, k1, o1), PutPlan(n2, k2, o2);
    PutPlanShape(n1, k1, o1);
    PutPlanShape(n2, k2, o2);
    assert p[0] == p[..3][0] && p[1] == p[..3][1] && q[0] == q[..3][0] && q[1] == q[..3][1];
    assert p[..i][0] == Advisory(n1) && q[..j][0] == Advisory(n2);
    assert i >= 2 && j >= 2;
    assert p[..i][1] == BlobRow(n1) && q[..j][1] == BlobRow(n2);
  }

  lemma BlocksClash(n1: Digest, k1: Key, o1: Digest, n2: Digest, k2: Key, o2: Digest, i: nat, j: nat)
    requires k1 == k2 ==> o1 == o2
    requires i < |PutPlan(n1, k1, o1)| && j < |PutPlan(n2, k2, o2)|
    requires BlockAt(PutPlan(n1, k1, o1), PutPlan(n2, k2, o2), i, j)
    ensures PutsClash(n1, k1, o1, n2, k2, o2)
  {
    var p, q := PutPlan(n1, k1, o1), PutPlan(n2, k2, o2);
    BlocksLate(n1, k1, o1, n2, k2, o2, i, j);
    PutPlanShape(n1, k1, o1);
    PutPlanShape(n2, k2, o2);
    assert p[2] == p[..3][2] && q[2] == q[..3][2];
    var a :| 0 <= a < j && q[..j][a] == p[i];
    var b :| 0 <= b < i && p[..i][b] == q[j];
    assert q[a] == p[i] && p[b] == q[j];
    assert p[i] == ObjectRow(k1) || p[i] == BlobRow(o1);
    assert q[j] == ObjectRow(k2) || q[j] == BlobRow(o2);
  }

  /**
   Two PUTs over existing rows deadlock exactly when they move two keys and swap a pair of
   digests, or name one key and exactly one of them re-puts the content it already holds. The
   trigger's ordered lock comes too late: GetBlobForWrite has locked the new digest's row.
   */
  lemma OverwritesDeadlockIff(n1: Digest, k1: Key, o1: Digest, n2: Digest, k2: Key, o2: Digest)
    requires k1 == k2 ==> o1 == o2
    ensures Deadlocks(PutPlan(n1, k1, o1), PutPlan(n2, k2, o2)) <==> PutsClash(n1, k1, o1, n2, k2, o2)
  {
    var p, q := PutPlan(n1, k1, o1), PutPlan(n2, k2, o2);
    DeadlockIff(p, q);
    if PutsClash(n1, k1, o1, n2, k2, o2) {
      if k1 != k2 {
        SwapBlocks(n1, k1, o1, n2, k2, o2);
      } else if n1 == o1 {
        RePutBlocks(n2, k2, o2);
      } else {
        RePutBlocks(n1, k1, o1);
      }
    }
    if CanBlock(p, q) {
      var i, j :| 0 <= i < |p| && 0 <= j < |q| && BlockAt(p, q, i, j);
      BlocksClash(n1, k1, o1, n2, k2, o2, i, j);
    }
  }

  lemma FirstAt(ks: seq<Key>, k: Key) returns (a: nat)
    requires k in ks
    ensures a < |ks| && ks[a] == k && forall b :: 0 <= b < a ==> ks[b] != k
  {
    a := 0;
    while ks[a] != k
      invariant a < |ks| && forall b :: 0 <= b < a ==> ks[b] != k
      decreases |ks| - a
    {
      a := a + 1;
    }
  }

  lemma DeleteBlocksBatch(locks: seq<Digest>, ks: seq<Key>, k: Key, d: Digest)
    requires d in locks && k in ks
    ensures CanBlock(DeletePlan(k, d), BatchPlan(locks, ks))
  {
    var p, q := DeletePlan(k, d), BatchPlan(locks, ks);
    var a := FirstAt(ks, k);
    var l :| 0 <= l < |locks| && locks[l] == d;
    var j := |locks| + a;
    assert q[..j][l] == BlobRow(d) && q[j] == ObjectRow(k);
    assert p[..1] == [ObjectRow(k)];
    assert forall b :: 0 <= b < j ==> q[..j][b] != ObjectRow(k);
    assert BlockAt(p, q, 1, j);
  }

  lemma BatchBlocksDelete(locks: seq<Digest>, ks: seq<Key>, k: Key, d: Digest, i: nat, j: nat)
    requires i < 2 && j < |BatchPlan(locks, ks)| && BlockAt(DeletePlan(k, d), BatchPlan(locks, ks), i, j)
    ensures d in locks && k in ks
  {
    var p, q := DeletePlan(k, d), BatchPlan(locks, ks);
    var b :| 0 <= b < i && p[..i][b] == q[j];
    assert q[j] == ObjectRow(k) && q[j] == ObjectRow(ks[j - |locks|]);
    var a :| 0 <= a < j && q[..j][a] == p[i];
    assert q[a] == BlobRow(d) && q[a] == BlobRow(locks[a]);
  }

  /**
   A single Delete and a batch take the object row and the blob row in opposite orders: they
   deadlock exactly when the batch names the key and locks its digest.
   */
  lemma DeleteAgainstBatch(locks: seq<Digest>, ks: seq<Key>, k: Key, d: Digest)
    ensures Deadlocks(DeletePlan(k, d), BatchPlan(locks, ks)) <==> d in locks && k in ks
  {
    var p, q := DeletePlan(k, d), BatchPlan(locks, ks);
    DeadlockIff(p, q);
    if d in locks && k in ks { DeleteBlocksBatch(locks, ks, k, d); }
    if CanBlock(p, q) {
      var i, j :| 0 <= i < |p| && 0 <= j < |q| && BlockAt(p, q, i, j);
      BatchBlocksDelete(locks, ks, k, d, i, j);
    }
  }
  // ---- an overwrite against a batch ----------------------------------------

  /**
   Which PUT and which batch can deadlock: the batch locks the digest the PUT moves away from,
   and either locks the PUT's new digest after it, or deletes the PUT's key.
   */
  predicate PutBatchClash(new_: Digest, k: Key, was: Digest, locks: seq<Digest>, ks: seq<Key>) {
    new_ != was && was in locks && if new_ in locks then was < new_ else k in ks
  }

  lemma FirstLock(ds: seq<Digest>, d: Digest) returns (a: nat)
    requires d in ds && Ascending(ds)
    ensures a < |ds| && ds[a] == d && forall b :: 0 <= b < a ==> ds[b] < d
  {
    a := 0;
    while ds[a] != d
      invariant a < |ds| && forall b :: 0 <= b < a ==> ds[b] != d
      invariant exists b :: a <= b < |ds| && ds[b] == d
      decreases |ds| - a
    {
      a := a + 1;
    }
  }

  lemma BatchPlanAt(locks: seq<Digest>, ks: seq<Key>, j: nat)
    requires j < |locks| + |ks|
    ensures var q := BatchPlan(locks, ks);
            && |q| == |locks| + |ks| && q[j] == (if j < |locks| then BlobRow(locks[j]) else ObjectRow(ks[j - |locks|]))
            && forall r :: r in q[..j] ==>
                 (exists a :: 0 <= a < j && a < |locks| && r == BlobRow(locks[a])) || (exists a :: 0 <= a < j - |locks| && r == ObjectRow(ks[a]))
  {
    var q := BatchPlan(locks, ks);
    forall r | r in q[..j]
      ensures (exists a :: 0 <= a < j && a < |locks| && r == BlobRow(locks[a])) || (exists a :: 0 <= a < j - |locks| && r == ObjectRow(ks[a]))
    {
      var b :| 0 <= b < j && q[..j][b] == r;
      if b < |locks| { assert r == BlobRow(locks[b]); } else { assert r == ObjectRow(ks[b - |locks|]); }
    }
  }

  lemma PutBlocksBatch(new_: Digest, k: Key, was: Digest, locks: seq<Digest>, ks: seq<Key>)
    requires Ascending(locks) && PutBatchClash(new_, k, was, locks, ks)
    ensures CanBlock(PutPlan(new_, k, was), BatchPlan(locks, ks))
  {
    var p, q := PutPlan(new_, k, was), BatchPlan(locks, ks);
    PutPlanShape(new_, k, was);
    var i := TakesOld(new_, was);
    var l := FirstLock(locks, was);
    var j := l;
    if new_ in locks {
      j := FirstLock(locks, new_);
    } else {
      var a := FirstAt(ks, k);
      j := |locks| + a;
    }
    BatchPlanAt(locks, ks, j);
    assert q[..j][l] == BlobRow(was);
    assert forall r :: r in p[..i] ==> r == Advisory(new_) || r == BlobRow(new_) || r == ObjectRow(k) by {
      forall r | r in p[..i] ensures r == Advisory(new_) || r == BlobRow(new_) || r == ObjectRow(k) {
        var b :| 0 <= b < i && p[..i][b] == r;
        assert b < 3 ==> p[..3][b] == r;
      }
    }
    assert BlockAt(p, q, i, j);
  }

  lemma BatchBlocksPut(new_: Digest, k: Key, was: Digest, locks: seq<Digest>, ks: seq<Key>, i: nat, j: nat)
    requires Ascending(locks) && i < |PutPlan(new_, k, was)| && j < |BatchPlan(locks, ks)|
    requires BlockAt(PutPlan(new_, k, was), BatchPlan(locks, ks), i, j)
    ensures PutBatchClash(new_, k, was, locks, ks)
  {
    var p, q := PutPlan(new_, k, was), BatchPlan(locks, ks);
    PutPlanShape(new_, k, was);
    BatchPlanAt(locks, ks, j);
    assert p[0] == p[..3][0] && p[1] == p[..3][1] && p[2] == p[..3][2];
    var b :| 0 <= b < i && p[..i][b] == q[j];
    assert p[b] == q[j] && i >= 2;
    assert p[..i][1] == BlobRow(new_) && BlobRow(new_) !in q[..j];
    assert i >= 3 && p[i] == BlobRow(was);
    var a :| 0 <= a < j && q[..j][a] == p[i];
    assert q[a] == BlobRow(was) && a < |locks| && locks[a] == was;
    if new_ in locks {
      var c :| 0 <= c < |locks| && locks[c] == new_;
      assert forall x :: 0 <= x < j ==> q[x] in q[..j];
      assert q[c] == BlobRow(new_);
    }
  }

  /**
   The ordered locks of a batch do not rule a deadlock with an overwrite out: the overwrite has
   locked its new digest's row first, and its object row before the old digest's.
   */
  lemma OverwriteAgainstBatch(new_: Digest, k: Key, was: Digest, locks: seq<Digest>, ks: seq<Key>)
    requires Ascending(locks)
    ensures Deadlocks(PutPlan(new_, k, was), BatchPlan(locks, ks)) <==> PutBatchClash(new_, k, was, locks, ks)
  {
    var p, q := PutPlan(new_, k, was), BatchPlan(locks, ks);
    DeadlockIff(p, q);
    if PutBatchClash(new_, k, was, locks, ks) { PutBlocksBatch(new_, k, was, locks, ks); }
    if CanBlock(p, q) {
      var i, j :| 0 <= i < |p| && 0 <= j < |q| && BlockAt(p, q, i, j);
      BatchBlocksPut(new_, k, was, locks, ks, i, j);
    }
  }
}
