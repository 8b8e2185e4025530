/**
 The GC's veto over whole runs. Reads mark, any number of flushers collect, write and clear
 in separate steps, and at any moment the sweep may ask whether a key has an unflushed read.
 */
module Veto {
  import opened Types
  import L = Lru
  import opened LruCaches
  import opened CoherenceProofs

  /** The ticker's flushes and the GC's forced ones; nothing keeps two from overlapping. */
  type Flusher = nat

  /**
   How far one flush has come. It gathers shard by shard, then from the auxiliary marks;
   `since` is the clock when it had them all. A flush that fails, or has finished, is gone.
   */
  datatype Phase =
    | Gathering(cutoff: int, next: nat, marks: seq<L.TouchMark>, auxMarks: map<Key, int>)
    | Collected(since: int, marks: seq<L.TouchMark>, auxMarks: map<Key, int>)
    | Written(since: int, marks: seq<L.TouchMark>, auxMarks: map<Key, int>)

  datatype State = State(cache: seq<L.Shard>, aux: map<Key, int>, clock: int, flushes: map<Flusher, Phase>)

  datatype Step =
    | Read(k: Key)
    | Fill(k: Key, meta: L.Meta, seen: nat)
    | Publish(k: Key, meta: L.Meta)
    | Drop(i: nat, ks: seq<Key>)
    | MarkAux(k: Key)
    | Start(f: Flusher, cutoff: int)
    | CollectShard(f: Flusher)
    | CollectAux(f: Flusher, among: set<Key>)   // one shard of the auxiliary marks
    | Collect(f: Flusher)                    // the last of them
    | Write(f: Flusher, ok: bool)
    | ClearShard(f: Flusher, i: nat)
    | ClearAux(f: Flusher, k: Key)
    | Finish(f: Flusher)

  /** PendingTouch: the answer the sweep gets. */
  predicate Pending(h: Hash, s: State, k: Key)
    requires |s.cache| == LRU_SHARDS
  {
    L.Pending(s.cache[ShardOf(h, k)].entries, k) || k in s.aux
  }

  predicate IsGathering(s: State, f: Flusher) {
    f in s.flushes && s.flushes[f].Gathering?
  }

  predicate HasWritten(s: State, f: Flusher) {
    f in s.flushes && s.flushes[f].Written?
  }

  predicate Enabled(s: State, step: Step) {
    match step
    case Drop(i, _) => i < LRU_SHARDS
    case Start(f, _) => f !in s.flushes
    case CollectShard(f) => IsGathering(s, f) && s.flushes[f].next < LRU_SHARDS
    case CollectAux(f, _) => IsGathering(s, f) && s.flushes[f].next >= LRU_SHARDS
    case Collect(f) => IsGathering(s, f) && s.flushes[f].next >= LRU_SHARDS
    case Write(f, _) => f in s.flushes && s.flushes[f].Collected?
    case ClearShard(f, i) => HasWritten(s, f) && i < LRU_SHARDS
    case ClearAux(f, k) => HasWritten(s, f) && k in s.flushes[f].auxMarks
    case Finish(f) => HasWritten(s, f)
    case _ => true
  }

  /** The auxiliary marks of `among` that are due. */
  function DueAux(aux: map<Key, int>, among: set<Key>, cutoff: int): map<Key, int> {
    map k | k in aux && k in among && aux[k] <= cutoff :: aux[k]
  }

  /** One step of a flush, which sees the marks but changes none unless it clears. */
  function NextPhase(s: State, step: Step): map<Flusher, Phase>
    requires |s.cache| == LRU_SHARDS && Enabled(s, step)
  {
    match step
    case Start(f, cutoff) => s.flushes[f := Gathering(cutoff, 0, [], map[])]
    case CollectShard(f) =>
      var p := s.flushes[f];
      s.flushes[f := Gathering(p.cutoff, p.next + 1, p.marks + L.Collect(s.cache[p.next].entries, p.cutoff), p.auxMarks)]
    case CollectAux(f, among) =>
      var p := s.flushes[f];
      s.flushes[f := Gathering(p.cutoff, p.next, p.marks, p.auxMarks + DueAux(s.aux, among, p.cutoff))]
    case Collect(f) => s.flushes[f := Collected(s.clock, s.flushes[f].marks, s.flushes[f].auxMarks)]
    case Write(f, ok) =>
      var p := s.flushes[f];
      if ok then s.flushes[f := Written(p.since, p.marks, p.auxMarks)] else s.flushes - {f}
    case Finish(f) => s.flushes - {f}
    case _ => s.flushes
  }

  /** The shard after `f` has cleared its marks there. */
  function ClearedShard(h: Hash, s: State, f: Flusher, i: nat): L.Shard
    requires f in s.flushes && i < |s.cache|
  {
    s.cache[i].(entries := L.ClearAll(s.cache[i].entries, MarksOfShard(h, s.flushes[f].marks, i)))
  }

  /** Every stamp is a fresh clock reading: distinct reads carry distinct stamps. */
  function Next(h: Hash, s: State, step: Step): (s': State)
    requires |s.cache| == LRU_SHARDS && Enabled(s, step)
    ensures |s'.cache| == LRU_SHARDS
  {
    match step
    case Read(k) =>
      var i := ShardOf(h, k);
      s.(cache := s.cache[i := L.Get(s.cache[i], k, s.clock + 1).0], clock := s.clock + 1)
    case Fill(k, meta, seen) =>
      var i := ShardOf(h, k);
      s.(cache := s.cache[i := L.PutIfUnchanged(s.cache[i], k, meta, seen, s.clock + 1).0], clock := s.clock + 1)
    case Publish(k, meta) =>
      var i := ShardOf(h, k);
      s.(cache := s.cache[i := L.Put(s.cache[i], k, meta)])
    case Drop(i, ks) => s.(cache := s.cache[i := L.DelAll(s.cache[i], ks)])
    case MarkAux(k) =>
      s.(aux := if k in s.aux then s.aux else s.aux[k := s.clock + 1], clock := s.clock + 1)
    case ClearShard(f, i) => s.(cache := s.cache[i := ClearedShard(h, s, f, i)])
    case ClearAux(f, k) =>
      s.(aux := if k in s.aux && s.aux[k] == s.flushes[f].auxMarks[k] then s.aux - {k} else s.aux)
    case _ => s.(flushes := NextPhase(s, step))
  }

  // ---- what a clear clears -------------------------------------------------

  /** A clear unmarks `k` if and only if its entry still carries a stamp that was collected. */
  lemma {:induction false} ClearExact(es: seq<L.Entry>, ms: seq<L.TouchMark>, k: Key)
    requires forall i :: 0 <= i < |ms| ==> ms[i].markedAt != 0
    ensures var e, r := L.Lookup(es, k), L.Lookup(L.ClearAll(es, ms), k);
            r == if e.Some? && L.TouchMark(k, e.value.markedAt) in ms then Some(e.value.(markedAt := 0)) else e
    decreases ms
  {
    if ms != [] {
      L.LookupClearOne(es, ms[0], k);
      ClearExact(L.ClearOne(es, ms[0]), ms[1..], k);
      L.LookupKey(es, k);
      assert forall m :: m in ms <==> m == ms[0] || m in ms[1..];
    }
  }

  /** Two reads that share a stamp cannot be told apart: the second is cleared by a flush that saw the first. */
  lemma SharedStampLosesRead(k: Key, meta: L.Meta, stamp: int)
    requires stamp != 0 && meta.present
    ensures var first := L.Insert([], 1, k, meta, stamp);
            var marks := L.Collect(first, stamp);
            var second := L.Insert(L.Without(first, k), 1, k, meta, stamp);
            L.Pending(second, k) && !L.Pending(L.ClearAll(second, marks), k)
  {
    var e := L.Entry(k, meta, stamp);
    assert L.Insert([], 1, k, meta, stamp) == [e];
    assert L.Without([e], k) == [];
    assert L.Collect([e], stamp) == [L.TouchMark(k, stamp)];
    assert L.ClearAll([e], [L.TouchMark(k, stamp)]) == L.ClearOne([e], L.TouchMark(k, stamp));
  }

  // ---- one step ------------------------------------------------------------

  /** `k` left the cache: evicted, deleted or invalidated. */
  ghost predicate Removed(h: Hash, s: State, s': State, k: Key)
    requires |s.cache| == |s'.cache| == LRU_SHARDS
  {
    CachedEntry(h, s.cache, k).Some? && CachedEntry(h, s'.cache, k).None?
  }

  /** A flush whose writes have all committed clears the very mark it collected of the entry of `k`. */
  ghost predicate ClearsEntry(h: Hash, s: State, step: Step, k: Key)
    requires |s.cache| == LRU_SHARDS
  {
    && step.ClearShard? && HasWritten(s, step.f) && step.i == ShardOf(h, k) && CachedEntry(h, s.cache, k).Some?
    && L.TouchMark(k, CachedEntry(h, s.cache, k).value.markedAt) in s.flushes[step.f].marks
  }

  /** The same of its auxiliary mark. */
  ghost predicate ClearsAux(s: State, step: Step, k: Key) {
    && step.ClearAux? && HasWritten(s, step.f) && step.k == k && k in s.aux
    && k in s.flushes[step.f].auxMarks && s.aux[k] == s.flushes[step.f].auxMarks[k]
  }

  predicate EntryPending(h: Hash, s: State, k: Key)
    requires |s.cache| == LRU_SHARDS
  {
    L.Pending(s.cache[ShardOf(h, k)].entries, k)
  }

  /** Every source of the pending answer goes: the entry's mark with the entry or by its flush, the auxiliary one by its flush alone. */
  ghost predicate Loses(h: Hash, s: State, step: Step, s': State, k: Key)
    requires |s.cache| == |s'.cache| == LRU_SHARDS
  {
    && (EntryPending(h, s, k) ==> Removed(h, s, s', k) || ClearsEntry(h, s, step, k))
    && (k in s.aux ==> ClearsAux(s, step, k))
  }

  /** What a flush holds was stamped no later than it was collected. */
  ghost predicate PhaseOk(p: Phase, clock: int) {
    var since := if p.Gathering? then clock else p.since;
    && since <= clock
    && (forall m :: m in p.marks ==> m.markedAt != 0 && m.markedAt <= since)
    && (forall k :: k in p.auxMarks ==> p.auxMarks[k] <= since)
  }

  ghost predicate FlushesOk(flushes: map<Flusher, Phase>, clock: int) {
    forall f :: f in flushes ==> PhaseOk(flushes[f], clock)
  }

  ghost predicate Ok(h: Hash, s: State) {
    && WellFormed(h, s.cache)
    && s.clock >= 0
    && FlushesOk(s.flushes, s.clock)
    && (forall k :: k in s.aux ==> s.aux[k] <= s.clock)
    && (forall k :: CachedEntry(h, s.cache, k).Some? ==> CachedEntry(h, s.cache, k).value.markedAt <= s.clock)
  }

  lemma {:induction false} MarksOfShardIn(h: Hash, ms: seq<L.TouchMark>, i: nat, m: L.TouchMark)
    ensures m in MarksOfShard(h, ms, i) <==> m in ms && ShardOf(h, m.ck) == i
  {
    if ms != [] { MarksOfShardIn(h, ms[1..], i, m); }
  }

  /** A read of a cached object, and a reachability mark, both make the answer true at once. */
  lemma ReadMarks(h: Hash, s: State, k: Key)
    requires Ok(h, s)
    ensures CachedEntry(h, s.cache, k).Some? && CachedEntry(h, s.cache, k).value.meta.present ==> Pending(h, Next(h, s, Read(k)), k)
    ensures Pending(h, Next(h, s, MarkAux(k)), k)
  {
    var es := s.cache[ShardOf(h, k)].entries;
    var e := L.Lookup(es, k);
    if e.Some? {
      L.LookupKey(es, k);
      L.LookupHit(es, e.value, s.clock + 1, k);
    }
  }

  /** The only ways a pending answer turns false in one step. */
  lemma PendingLost(h: Hash, s: State, step: Step, k: Key)
    requires Ok(h, s) && Enabled(s, step)
    requires Pending(h, s, k) && !Pending(h, Next(h, s, step), k)
    ensures Loses(h, s, step, Next(h, s, step), k)
  {
    if EntryPending(h, s, k) { EntryLost(h, s, step, k); }
    if k in s.aux { AuxLost(h, s, step, k); }
  }

  lemma EntryLost(h: Hash, s: State, step: Step, k: Key)
    requires Ok(h, s) && Enabled(s, step)
    requires EntryPending(h, s, k) && !EntryPending(h, Next(h, s, step), k)
    ensures Removed(h, s, Next(h, s, step), k) || ClearsEntry(h, s, step, k)
  {
    match step
    case Read(j) => ReadKeepsMark(h, s, j, k);
    case Fill(j, meta, seen) => InsertKeepsMark(h, s, j, meta, if meta.present then s.clock + 1 else 0, k);
    case Publish(j, meta) => InsertKeepsMark(h, s, j, meta, 0, k);
    case Drop(i, ks) => L.LookupWithoutAll(s.cache[i].entries, ks, k);
    case ClearShard(f, i) => ClearedEntry(h, s, f, i, k);
    case _ =>
  }

  /** No eviction, deletion or invalidation takes an auxiliary mark, and a later one does not replace it. */
  lemma AuxLost(h: Hash, s: State, step: Step, k: Key)
    requires |s.cache| == LRU_SHARDS && Enabled(s, step) && k in s.aux
    ensures var s' := Next(h, s, step);
            if ClearsAux(s, step, k) then k !in s'.aux else k in s'.aux && s'.aux[k] == s.aux[k]
  {
  }

  lemma ReadKeepsMark(h: Hash, s: State, j: Key, k: Key)
    requires Ok(h, s) && EntryPending(h, s, k)
    ensures EntryPending(h, Next(h, s, Read(j)), k)
  {
    var es := s.cache[ShardOf(h, j)].entries;
    L.LookupKey(es, j);
    L.LookupWithout(es, j, k);
    var e := L.Lookup(es, j);
    if e.Some? { assert L.Hit(es, e.value, s.clock + 1)[1..] == L.Without(es, j); }
  }

  lemma InsertKeepsMark(h: Hash, s: State, j: Key, meta: L.Meta, stamp: int, k: Key)
    requires Ok(h, s) && L.Pending(s.cache[ShardOf(h, k)].entries, k)
    ensures var es, cap := s.cache[ShardOf(h, j)].entries, s.cache[ShardOf(h, j)].cap;
            ShardOf(h, k) == ShardOf(h, j) && L.Lookup(L.Insert(es, cap, j, meta, stamp), k).Some? ==>
              L.Pending(L.Insert(es, cap, j, meta, stamp), k)
  {
    var es, cap := s.cache[ShardOf(h, j)].entries, s.cache[ShardOf(h, j)].cap;
    L.LookupInsert(es, cap, j, meta, stamp, k);
  }

  /** What `f` clears in a shard: the entries whose stamp is one it collected. */
  lemma ClearedEntry(h: Hash, s: State, f: Flusher, i: nat, k: Key)
    requires Ok(h, s) && f in s.flushes && i < LRU_SHARDS
    ensures var e, r := L.Lookup(s.cache[i].entries, k), L.Lookup(ClearedShard(h, s, f, i).entries, k);
            r == if e.Some? && ShardOf(h, k) == i && L.TouchMark(k, e.value.markedAt) in s.flushes[f].marks
                 then Some(e.value.(markedAt := 0)) else e
  {
    var mine := MarksOfShard(h, s.flushes[f].marks, i);
    assert PhaseOk(s.flushes[f], s.clock);
    forall m | m in mine ensures m.markedAt != 0 { MarksOfShardIn(h, s.flushes[f].marks, i, m); }
    ClearExact(s.cache[i].entries, mine, k);
    var e := L.Lookup(s.cache[i].entries, k);
    if e.Some? { MarksOfShardIn(h, s.flushes[f].marks, i, L.TouchMark(k, e.value.markedAt)); }
  }

  /** A mark stamped after a flush had collected outlives that flush's clears. */
  lemma NewerSurvives(h: Hash, s: State, step: Step, k: Key)
    requires Ok(h, s) && Enabled(s, step) && (step.ClearShard? || step.ClearAux?)
    ensures var e := CachedEntry(h, s.cache, k);
            e.Some? && e.value.markedAt > s.flushes[step.f].since ==> CachedEntry(h, Next(h, s, step).cache, k) == e
    ensures k in s.aux && s.aux[k] > s.flushes[step.f].since ==>
              k in Next(h, s, step).aux && Next(h, s, step).aux[k] == s.aux[k]
  {
    assert PhaseOk(s.flushes[step.f], s.clock);
    if step.ClearShard? { ClearedEntry(h, s, step.f, step.i, k); }
  }

  /** What a clear does, and no more: it takes exactly the marks its flush collected, if they are still those. */
  lemma ClearTakes(h: Hash, s: State, step: Step, k: Key)
    requires Ok(h, s) && Enabled(s, step) && (step.ClearShard? || step.ClearAux?)
    ensures var e, s' := CachedEntry(h, s.cache, k), Next(h, s, step);
            && CachedEntry(h, s'.cache, k) == (if ClearsEntry(h, s, step, k) then Some(e.value.(markedAt := 0)) else e)
            && (k in s'.aux <==> k in s.aux && !ClearsAux(s, step, k))
  {
    if step.ClearShard? { ClearedEntry(h, s, step.f, step.i, k); }
  }

  /** What a flush gathers from a shard: every mark in it that is due. */
  lemma FlushGathers(h: Hash, s: State, f: Flusher, m: L.TouchMark)
    requires Ok(h, s) && Enabled(s, CollectShard(f))
    ensures var p, p' := s.flushes[f], Next(h, s, CollectShard(f)).flushes[f];
            var e := CachedEntry(h, s.cache, m.ck);
            && p'.Gathering? && p'.next == p.next + 1 && p'.auxMarks == p.auxMarks
            && (m in p'.marks <==>
                  || m in p.marks
                  || (ShardOf(h, m.ck) == p.next && e.Some? && e.value.markedAt == m.markedAt
                      && m.markedAt != 0 && m.markedAt <= p.cutoff))
  {
    var p := s.flushes[f];
    var es := s.cache[p.next].entries;
    L.CollectExact(es, p.cutoff, m);
    L.LookupKey(es, m.ck);
  }

  /** And from the auxiliary marks. */
  lemma FlushGathersAux(h: Hash, s: State, f: Flusher, among: set<Key>, k: Key)
    requires Ok(h, s) && Enabled(s, CollectAux(f, among))
    ensures var p, p' := s.flushes[f], Next(h, s, CollectAux(f, among)).flushes[f];
            && p'.Gathering? && p'.marks == p.marks
            && (k in p'.auxMarks <==> k in p.auxMarks || (k in among && k in s.aux && s.aux[k] <= p.cutoff))
            && (k in among && k in s.aux && s.aux[k] <= p.cutoff ==> p'.auxMarks[k] == s.aux[k])
  {
  }

  /**
   A flush carries what it gathered to its clears, and no other flush sees it: the collect stamps
   it with the clock, a write that commits keeps it, and one that fails gives it up.
   */
  lemma FlushCarries(h: Hash, s: State, step: Step, f: Flusher)
    requires Ok(h, s) && Enabled(s, step) && f in s.flushes
    ensures var p, flushes := s.flushes[f], Next(h, s, step).flushes;
            && (step == Collect(f) ==> f in flushes && flushes[f] == Collected(s.clock, p.marks, p.auxMarks))
            && (step == Write(f, true) ==> f in flushes && flushes[f] == Written(p.since, p.marks, p.auxMarks))
            && (step == Write(f, false) || step == Finish(f) ==> f !in flushes)
            && (step.ClearShard? || step.ClearAux? || step.Read? || step.Fill? || step.Publish? || step.Drop? || step.MarkAux? || step.f != f
                ==> f in flushes && flushes[f] == p)
  {
  }

  // ---- every run -----------------------------------------------------------

  ghost predicate Initial(s: State) {
    && |s.cache| == LRU_SHARDS && s.aux == map[] && s.clock >= 0 && s.flushes == map[]
    && forall i :: 0 <= i < LRU_SHARDS ==> s.cache[i].entries == [] && s.cache[i].cap >= 1
  }

  predicate Follows(h: Hash, s: State, step: Step, s': State) {
    |s.cache| == LRU_SHARDS && Enabled(s, step) && s' == Next(h, s, step)
  }

  ghost predicate IsRun(h: Hash, states: seq<State>, steps: seq<Step>) {
    && |states| == |steps| + 1
    && Initial(states[0])
    && (forall i :: 0 <= i < |states| ==> |states[i].cache| == LRU_SHARDS)
    && forall i :: 0 <= i < |steps| ==> Follows(h, states[i], steps[i], states[i + 1])
  }

  lemma RunStep(h: Hash, states: seq<State>, steps: seq<Step>, n: nat)
    requires IsRun(h, states, steps) && n < |steps|
    ensures Follows(h, states[n], steps[n], states[n + 1])
  {
  }

  lemma ShardStamps(h: Hash, s: State, i: nat, k: Key)
    requires Ok(h, s) && i < LRU_SHARDS && L.Lookup(s.cache[i].entries, k).Some?
    ensures L.Lookup(s.cache[i].entries, k).value.markedAt <= s.clock
  {
    L.LookupKey(s.cache[i].entries, k);
    assert CachedEntry(h, s.cache, k) == L.Lookup(s.cache[i].entries, k);
  }

  lemma CollectOld(h: Hash, s: State, i: nat, cutoff: int)
    requires Ok(h, s) && i < LRU_SHARDS
    ensures forall m :: m in L.Collect(s.cache[i].entries, cutoff) ==> m.markedAt != 0 && m.markedAt <= s.clock
  {
    forall m | m in L.Collect(s.cache[i].entries, cutoff)
      ensures m.markedAt != 0 && m.markedAt <= s.clock
    {
      L.CollectExact(s.cache[i].entries, cutoff, m);
      ShardStamps(h, s, i, m.ck);
    }
  }

  /** Gathering, writing and finishing keep what every flush holds old enough. */
  lemma PhasesOk(h: Hash, s: State, step: Step)
    requires Ok(h, s) && Enabled(s, step)
    ensures FlushesOk(NextPhase(s, step), s.clock)
  {
    match step
    case CollectShard(f) =>
      assert PhaseOk(s.flushes[f], s.clock);
      CollectOld(h, s, s.flushes[f].next, s.flushes[f].cutoff);
    case CollectAux(f, among) => assert PhaseOk(s.flushes[f], s.clock);
    case Collect(f) => assert PhaseOk(s.flushes[f], s.clock);
    case Write(f, ok) => assert PhaseOk(s.flushes[f], s.clock);
    case _ =>
  }

  lemma LaterFlushesOk(flushes: map<Flusher, Phase>, clock: int, later: int)
    requires FlushesOk(flushes, clock) && clock <= later
    ensures FlushesOk(flushes, later)
  {
    forall f | f in flushes ensures PhaseOk(flushes[f], later) { assert PhaseOk(flushes[f], clock); }
  }

  /** Replacing one shard keeps `Ok` when its stamps are no later than the new clock. */
  lemma ShardOkKeeps(h: Hash, s: State, s': State, i: nat, sh: L.Shard)
    requires Ok(h, s) && i < LRU_SHARDS && ShardOk(h, i, sh)
    requires s' == s.(cache := s.cache[i := sh], clock := s'.clock) && s.clock <= s'.clock
    requires forall k :: L.Lookup(sh.entries, k).Some? ==> L.Lookup(sh.entries, k).value.markedAt <= s'.clock
    ensures Ok(h, s')
  {
    ShardUpdate(h, s.cache, i, sh);
    LaterFlushesOk(s.flushes, s.clock, s'.clock);
    assert forall k :: CachedEntry(h, s'.cache, k).Some? ==>
        CachedEntry(h, s'.cache, k) == if ShardOf(h, k) == i then L.Lookup(sh.entries, k) else CachedEntry(h, s.cache, k);
  }

  lemma InsertOk(h: Hash, s: State, j: Key, meta: L.Meta, stamp: int, gen: nat, s': State)
    requires Ok(h, s) && stamp <= s'.clock && s.clock <= s'.clock
    requires var i := ShardOf(h, j);
             s' == s.(cache := s.cache[i := L.Shard(L.Insert(s.cache[i].entries, s.cache[i].cap, j, meta, stamp), s.cache[i].cap, gen)],
                      clock := s'.clock)
    ensures Ok(h, s')
  {
    var i := ShardOf(h, j);
    var es, cap := s.cache[i].entries, s.cache[i].cap;
    L.InsertShape(es, cap, j, meta, stamp);
    PlacedInsert(h, i, es, cap, j, meta, stamp);
    var r := L.Insert(es, cap, j, meta, stamp);
    forall k | L.Lookup(r, k).Some?
      ensures L.Lookup(r, k).value.markedAt <= s'.clock
    {
      L.LookupInsert(es, cap, j, meta, stamp, k);
      if L.Lookup(es, k).Some? { ShardStamps(h, s, i, k); }
    }
    ShardOkKeeps(h, s, s', i, s'.cache[i]);
  }

  lemma ReadOk(h: Hash, s: State, j: Key)
    requires Ok(h, s)
    ensures Ok(h, Next(h, s, Read(j)))
  {
    var i := ShardOf(h, j);
    var es := s.cache[i].entries;
    var s' := Next(h, s, Read(j));
    HitOk(h, s.cache, j, s.clock + 1);
    L.LookupKey(es, j);
    var e := L.Lookup(es, j);
    forall k | L.Lookup(s'.cache[i].entries, k).Some?
      ensures L.Lookup(s'.cache[i].entries, k).value.markedAt <= s'.clock
    {
      if e.Some? { L.LookupHit(es, e.value, s.clock + 1, k); }
      if L.Lookup(es, k).Some? { ShardStamps(h, s, i, k); }
    }
    ShardOkKeeps(h, s, s', i, s'.cache[i]);
  }

  lemma DropOk(h: Hash, s: State, i: nat, ks: seq<Key>)
    requires Ok(h, s) && i < LRU_SHARDS
    ensures Ok(h, Next(h, s, Drop(i, ks)))
  {
    var s' := Next(h, s, Drop(i, ks));
    DelAllOk(h, s.cache, i, ks);
    forall k | L.Lookup(s'.cache[i].entries, k).Some?
      ensures L.Lookup(s'.cache[i].entries, k).value.markedAt <= s'.clock
    {
      L.LookupWithoutAll(s.cache[i].entries, ks, k);
      ShardStamps(h, s, i, k);
    }
    ShardOkKeeps(h, s, s', i, s'.cache[i]);
  }

  lemma ClearOk(h: Hash, s: State, f: Flusher, i: nat)
    requires Ok(h, s) && Enabled(s, ClearShard(f, i))
    ensures Ok(h, Next(h, s, ClearShard(f, i)))
  {
    var s' := Next(h, s, ClearShard(f, i));
    ClearMine(h, i, s.cache[i].entries, MarksOfShard(h, s.flushes[f].marks, i));
    forall k | L.Lookup(s'.cache[i].entries, k).Some?
      ensures L.Lookup(s'.cache[i].entries, k).value.markedAt <= s'.clock
    {
      ClearedEntry(h, s, f, i, k);
      ShardStamps(h, s, i, k);
    }
    ShardOkKeeps(h, s, s', i, s'.cache[i]);
  }

  lemma FillOk(h: Hash, s: State, j: Key, meta: L.Meta, seen: nat)
    requires Ok(h, s)
    ensures Ok(h, Next(h, s, Fill(j, meta, seen)))
  {
    var i := ShardOf(h, j);
    var s' := Next(h, s, Fill(j, meta, seen));
    if s.cache[i].gen == seen {
      InsertOk(h, s, j, meta, if meta.present then s.clock + 1 else 0, s.cache[i].gen, s');
    } else {
      assert s'.cache == s.cache;
      LaterFlushesOk(s.flushes, s.clock, s'.clock);
    }
  }

  lemma StepOk(h: Hash, s: State, step: Step)
    requires Ok(h, s) && Enabled(s, step)
    ensures Ok(h, Next(h, s, step))
  {
    match step
    case Read(j) => ReadOk(h, s, j);
    case Fill(j, meta, seen) => FillOk(h, s, j, meta, seen);
    case Publish(j, meta) => InsertOk(h, s, j, meta, 0, s.cache[ShardOf(h, j)].gen + 1, Next(h, s, step));
    case Drop(i, ks) => DropOk(h, s, i, ks);
    case MarkAux(k) => LaterFlushesOk(s.flushes, s.clock, s.clock + 1);
    case ClearShard(f, i) => ClearOk(h, s, f, i);
    case ClearAux(f, k) =>
    case _ => PhasesOk(h, s, step);
  }

  lemma {:induction false} RunOk(h: Hash, states: seq<State>, steps: seq<Step>, n: nat)
    requires IsRun(h, states, steps) && n < |states|
    ensures Ok(h, states[n])
  {
    if n > 0 {
      RunOk(h, states, steps, n - 1);
      RunStep(h, states, steps, n - 1);
      StepOk(h, states[n - 1], steps[n - 1]);
    }
  }

  /** The step leaves one source of the pending answer. */
  ghost predicate Spares(h: Hash, s: State, step: Step, s': State, k: Key)
    requires |s.cache| == |s'.cache| == LRU_SHARDS
  {
    !Loses(h, s, step, s', k)
  }

  lemma StepVeto(h: Hash, s: State, step: Step, s': State, k: Key)
    requires Ok(h, s) && Follows(h, s, step, s') && Pending(h, s, k) && Spares(h, s, step, s', k)
    ensures Pending(h, s', k)
  {
    if !Pending(h, s', k) { PendingLost(h, s, step, k); }
  }

  /**
   The veto has no gap: from the moment a key holds an unflushed read the answer stays
   true through further reads and any number of overlapping flushes, through their collects,
   writes and failures, until a step that leaves no source of it: the entry's mark goes with
   the entry or when a flush that has finished writing clears the very mark it collected, the
   auxiliary mark only when such a flush clears it.
   */
  lemma {:induction false} VetoHolds(h: Hash, states: seq<State>, steps: seq<Step>, i: nat, j: nat, k: Key)
    requires IsRun(h, states, steps) && i <= j < |states| && Pending(h, states[i], k)
    requires forall n :: i <= n < j ==> Spares(h, states[n], steps[n], states[n + 1], k)
    ensures Pending(h, states[j], k)
  {
    if i < j {
      VetoHolds(h, states, steps, i, j - 1, k);
      RunOk(h, states, steps, j - 1);
      RunStep(h, states, steps, j - 1);
      assert Spares(h, states[j - 1], steps[j - 1], states[j - 1 + 1], k);
      StepVeto(h, states[j - 1], steps[j - 1], states[j], k);
    }
  }

  /** No eviction touches an auxiliary mark: it stays, at its stamp, until a finished flush clears that very stamp. */
  lemma {:induction false} AuxHolds(h: Hash, states: seq<State>, steps: seq<Step>, i: nat, j: nat, k: Key)
    requires IsRun(h, states, steps) && i <= j < |states| && k in states[i].aux
    requires forall n :: i <= n < j ==> !ClearsAux(states[n], steps[n], k)
    ensures k in states[j].aux && states[j].aux[k] == states[i].aux[k]
  {
    if i < j {
      AuxHolds(h, states, steps, i, j - 1, k);
      RunStep(h, states, steps, j - 1);
      AuxLost(h, states[j - 1], steps[j - 1], k);
    }
  }

  /** Over a run, no clear of any flush ever takes a read that happened after that flush had collected. */
  lemma ClearsOnlyCollected(h: Hash, states: seq<State>, steps: seq<Step>, n: nat, k: Key)
    requires IsRun(h, states, steps) && n < |steps| && (steps[n].ClearShard? || steps[n].ClearAux?)
    ensures HasWritten(states[n], steps[n].f)
    ensures var e, since := CachedEntry(h, states[n].cache, k), states[n].flushes[steps[n].f].since;
            && (e.Some? && e.value.markedAt > since ==> CachedEntry(h, states[n + 1].cache, k) == e)
            && (k in states[n].aux && states[n].aux[k] > since ==>
                  k in states[n + 1].aux && states[n + 1].aux[k] == states[n].aux[k])
  {
    RunOk(h, states, steps, n);
    RunStep(h, states, steps, n);
    NewerSurvives(h, states[n], steps[n], k);
  }
}
