/**
 Writers of one key taken one at a time: from the statement that reaches the row until
 the publish. That discipline makes every publish timely, and with the storage protocol
 below it a cached positive answer always has its bytes.
 */
module Serialised {
  import opened Types
  import P = BlobProtocol
  import Safety = BlobSafety
  import opened LruCaches
  import opened Coherence
  import opened CoherenceProofs

  /** `t` has reached the row of `k` and has not yet rolled back or published. */
  ghost predicate Active(s: Sys, t: Tid, k: Key) {
    || (t in s.p.txs && k in Reached(s.p.txs[t].job))
    || (t in s.publishing && Covers(s.publishing[t], k))
  }

  /** A writer that never learns it committed cannot keep its turn until it has published. */
  ghost predicate OneAtATime(s: Sys, step: Step) {
    match step
    case Storage(DoRecord(t)) =>
      P.IsPut(s.p, t) ==> forall u :: u != t ==> !Active(s, u, s.p.txs[t].job.args.key)
    case Storage(DoDelete(t, k)) => forall u :: u != t ==> !Active(s, u, k)
    case CommitLost(_) => false
    case _ => true
  }

  /** What the transaction will leave in the row is what it will publish. */
  ghost predicate WriteMatches(s: Sys, tx: P.Tx) {
    match tx.job
    case Put(a, Recorded(true)) => a.key in tx.w.objects && tx.w.objects[a.key] == Some(P.RowOf(a))
    case Delete(touched, false) =>
      && |touched| <= 1
      && forall k :: k in touched ==>
           if k in tx.w.objects then tx.w.objects[k].None? else k !in s.p.db.objects
    case _ => true
  }

  ghost predicate SerialInv(s: Sys) {
    && s.p.txs.Keys !! s.publishing.Keys
    && WritesWithin(s.p)
    && (forall t, u, k :: Active(s, t, k) && Active(s, u, k) ==> t == u)
    && (forall t :: t in s.p.txs ==> WriteMatches(s, s.p.txs[t]))
    && (forall t :: t in s.publishing && s.publishing[t].Assert? ==>
          Agrees(s.publishing[t].meta, s.p.db.objects, s.publishing[t].key))
  }

  lemma SerialTimely(h: Hash, s: Sys, t: Tid)
    requires |s.cache| == LRU_SHARDS && SerialInv(s)
    ensures Timely(h, s, Publish(t))
  {
  }

  lemma RecordMatches(s: Sys, t: Tid)
    requires SerialInv(s) && P.CanRecord(s.p, t)
    ensures WriteMatches(s, P.RecordObject(s.p, t).txs[t])
  {
    var a, w := s.p.txs[t].job.args, s.p.txs[t].w;
    var named := w.(objects := w.objects[a.key := Some(P.RowOf(a))]);
    if a.key in s.p.db.objects {
      Safety.BumpObjects(s.p.db, named, s.p.db.objects[a.key].digest, -1);
      Safety.BumpObjects(s.p.db, P.Bump(s.p.db, named, s.p.db.objects[a.key].digest, -1), a.digest, 1);
    } else {
      Safety.BumpObjects(s.p.db, named, a.digest, 1);
    }
  }

  lemma DeleteMatches(s: Sys, t: Tid, k: Key)
    requires SerialInv(s) && P.CanDelete(s.p, t, k)
    ensures WriteMatches(s, P.DeleteRow(s.p, t, k).txs[t])
  {
    var w := s.p.txs[t].w;
    var objects := P.View(s.p.db, w).objects;
    assert WriteMatches(s, s.p.txs[t]);
    if k in objects {
      Safety.BumpObjects(s.p.db, w.(objects := w.objects[k := None]), objects[k].digest, -1);
    }
  }

  lemma StorageMatches(s: Sys, s': Sys, st: P.Step, t: Tid)
    requires SerialInv(s) && P.Enabled(s.p, st) && !st.Commit? && s' == s.(p := P.Next(s.p, st)) && t in s'.p.txs
    ensures WriteMatches(s', s'.p.txs[t])
  {
    assert s'.p.db == s.p.db;
    if st.DoRecord? && st.t == t {
      RecordMatches(s, t);
    } else if st.DoDelete? && st.t == t {
      DeleteMatches(s, t, st.k);
    } else {
      StorageTouches(s.p, st, t);
      if t in s.p.txs { assert WriteMatches(s, s.p.txs[t]); }
    }
  }

  lemma StorageActive(s: Sys, s': Sys, st: P.Step, t: Tid, k: Key)
    requires P.Enabled(s.p, st) && s' == s.(p := P.Next(s.p, st)) && Active(s', t, k)
    ensures Active(s, t, k) || (st == P.DoRecord(t) && k == s.p.txs[t].job.args.key) || st == P.DoDelete(t, k)
  {
    if t in s'.p.txs && st != P.DoRecord(t) && !(st.DoDelete? && st.t == t) { StorageTouches(s.p, st, t); }
  }

  lemma StorageSerial(h: Hash, s: Sys, st: P.Step)
    requires |s.cache| == LRU_SHARDS && SerialInv(s) && Enabled(h, s, Storage(st)) && OneAtATime(s, Storage(st))
    ensures SerialInv(Next(h, s, Storage(st)))
  {
    var s' := Next(h, s, Storage(st));
    forall t | t in s'.p.txs
      ensures forall k :: k in s'.p.txs[t].w.objects ==> k in Reached(s'.p.txs[t].job)
      ensures WriteMatches(s', s'.p.txs[t])
    {
      StorageWritesWithin(s.p, st, t);
      StorageMatches(s, s', st, t);
    }
    forall t, u, k | Active(s', t, k) && Active(s', u, k)
      ensures t == u
    {
      StorageActive(s, s', st, t, k);
      StorageActive(s, s', st, u, k);
    }
  }

  lemma CommitSerial(h: Hash, s: Sys, t: Tid, at: int)
    requires |s.cache| == LRU_SHARDS && SerialInv(s) && Enabled(h, s, CommitWriter(t, at))
    ensures SerialInv(Next(h, s, CommitWriter(t, at)))
  {
    var s' := Next(h, s, CommitWriter(t, at));
    var tx := s.p.txs[t];
    assert WriteMatches(s, tx);
    forall u, k | Active(s', u, k)
      ensures Active(s, u, k)
    {
    }
    forall u | u in s'.p.txs
      ensures WriteMatches(s', s'.p.txs[u])
    {
      assert WriteMatches(s, s.p.txs[u]);
      forall k | k in Reached(s.p.txs[u].job)
        ensures k !in tx.w.objects
      {
        if k in tx.w.objects { assert Active(s, t, k) && Active(s, u, k); }
      }
    }
    forall u | u in s'.publishing && s'.publishing[u].Assert?
      ensures Agrees(s'.publishing[u].meta, s'.p.db.objects, s'.publishing[u].key)
    {
      var k := s'.publishing[u].key;
      if u != t && k in tx.w.objects { assert Active(s, t, k) && Active(s, u, k); }
    }
  }

  lemma PublishSerial(h: Hash, s: Sys, step: Step)
    requires |s.cache| == LRU_SHARDS && SerialInv(s) && Enabled(h, s, step)
    requires !step.Storage? && !step.CommitWriter? && !step.CommitLost?
    ensures SerialInv(Next(h, s, step))
  {
    var s' := Next(h, s, step);
    forall u, k | Active(s', u, k)
      ensures Active(s, u, k)
    {
      if step.PublishShard? && u == step.t && u in s'.publishing {
        InNotOfShard(h, s.publishing[u].keys, step.i, k);
      }
    }
    forall u | u in s'.p.txs
      ensures WriteMatches(s', s'.p.txs[u])
    {
      assert WriteMatches(s, s.p.txs[u]);
    }
  }

  lemma SerialStep(h: Hash, s: Sys, step: Step)
    requires |s.cache| == LRU_SHARDS && SerialInv(s) && Enabled(h, s, step) && OneAtATime(s, step)
    ensures SerialInv(Next(h, s, step))
  {
    match step
    case Storage(st) => StorageSerial(h, s, st);
    case CommitWriter(t, at) => CommitSerial(h, s, t, at);
    case _ => PublishSerial(h, s, step);
  }

  ghost predicate SerialRun(h: Hash, states: seq<Sys>, steps: seq<Step>) {
    IsRun(h, states, steps) && forall i :: 0 <= i < |steps| ==> OneAtATime(states[i], steps[i])
  }

  lemma {:induction false} SerialRunInv(h: Hash, states: seq<Sys>, steps: seq<Step>, n: nat)
    requires SerialRun(h, states, steps) && n < |states|
    ensures SerialInv(states[n])
  {
    if n > 0 {
      SerialRunInv(h, states, steps, n - 1);
      SerialStep(h, states[n - 1], steps[n - 1]);
    }
  }

  /** With same-key writers taken one at a time, and any number of fills in flight, the cache is coherent. */
  lemma SerialCoherent(h: Hash, states: seq<Sys>, steps: seq<Step>, n: nat)
    requires SerialRun(h, states, steps) && n < |states|
    ensures CacheInv(h, states[n]) && FillsOk(h, states[n])
  {
    forall i | 0 <= i < n && steps[i].Publish? ensures TimelyAt(h, states, steps, i) {
      SerialRunInv(h, states, steps, i);
      SerialTimely(h, states[i], steps[i].t);
    }
    assert NoneLost(steps) by {
      forall i | 0 <= i < |steps| ensures !steps[i].CommitLost? { assert OneAtATime(states[i], steps[i]); }
    }
    PutsTimelyKeeps(h, states, steps, n);
  }

  /** The storage protocol is safe underneath any cache traffic. */
  lemma {:induction false} StorageUnder(h: Hash, states: seq<Sys>, steps: seq<Step>, n: nat)
    requires IsRun(h, states, steps) && n < |states|
    ensures P.Inv(states[n].p)
  {
    if n > 0 {
      StorageUnder(h, states, steps, n - 1);
      RunStep(h, states, steps, n - 1);
      StepUnder(h, states[n - 1], steps[n - 1]);
    }
  }

  lemma StepUnder(h: Hash, s: Sys, step: Step)
    requires |s.cache| == LRU_SHARDS && Enabled(h, s, step) && P.Inv(s.p)
    ensures P.Inv(Next(h, s, step).p)
  {
    match step
    case Storage(st) => Safety.StepKeeps(s.p, st);
    case CommitWriter(t, _) => Safety.StepKeeps(s.p, P.Commit(t));
    case CommitLost(t) => Safety.StepKeeps(s.p, P.Commit(t));
    case Crash => Safety.StepKeeps(s.p, P.Crash);
    case _ =>
  }

  /**
   A Get answered from the cache finds its bytes: at every moment without a committed and
   unpublished writer of the key, a positive entry names a digest present in storage.
   */
  lemma CachedPositiveHasBytes(h: Hash, states: seq<Sys>, steps: seq<Step>, n: nat, k: Key)
    requires SerialRun(h, states, steps) && n < |states|
    requires var e := CachedEntry(h, states[n].cache, k); e.Some? && e.value.meta.present
    requires !Publisher(states[n], k)
    ensures CachedEntry(h, states[n].cache, k).value.meta.digest in states[n].p.bytes
  {
    SerialCoherent(h, states, steps, n);
    StorageUnder(h, states, steps, n);
  }
}
