/** The cache agrees with the tables, and exactly when it does. */
module CoherenceProofs {
  import opened Types
  import P = BlobProtocol
  import Safety = BlobSafety
  import L = Lru
  import opened LruCaches
  import opened Coherence

  // ---- the cache, one shard at a time --------------------------------------

  ghost predicate ShardOk(h: Hash, i: nat, sh: L.Shard) {
    L.Distinct(sh.entries) && |sh.entries| <= sh.cap && sh.cap >= 1 && Placed(h, i, sh.entries)
  }

  lemma ShardUpdate(h: Hash, c: seq<L.Shard>, i: nat, sh: L.Shard)
    requires WellFormed(h, c) && i < LRU_SHARDS && ShardOk(h, i, sh)
    ensures WellFormed(h, c[i := sh])
    ensures forall k :: CachedEntry(h, c[i := sh], k) ==
              if ShardOf(h, k) == i then L.Lookup(sh.entries, k) else CachedEntry(h, c, k)
  {
  }

  lemma PutOk(h: Hash, c: seq<L.Shard>, k: Key, meta: L.Meta)
    requires WellFormed(h, c)
    ensures var i := ShardOf(h, k); ShardOk(h, i, L.Put(c[i], k, meta))
  {
    var i := ShardOf(h, k);
    L.InsertShape(c[i].entries, c[i].cap, k, meta, 0);
    PlacedInsert(h, i, c[i].entries, c[i].cap, k, meta, 0);
  }

  lemma LandOk(h: Hash, c: seq<L.Shard>, k: Key, meta: L.Meta, seen: nat, now: int)
    requires WellFormed(h, c)
    ensures var i := ShardOf(h, k); ShardOk(h, i, L.PutIfUnchanged(c[i], k, meta, seen, now).0)
  {
    var i := ShardOf(h, k);
    var stamp := if meta.present then now else 0;
    L.InsertShape(c[i].entries, c[i].cap, k, meta, stamp);
    PlacedInsert(h, i, c[i].entries, c[i].cap, k, meta, stamp);
  }

  lemma DelAllOk(h: Hash, c: seq<L.Shard>, i: nat, ks: seq<Key>)
    requires WellFormed(h, c) && i < LRU_SHARDS
    ensures ShardOk(h, i, L.DelAll(c[i], ks))
  {
    PlacedWithoutAll(h, i, c[i].entries, ks);
  }

  lemma HitOk(h: Hash, c: seq<L.Shard>, k: Key, now: int)
    requires WellFormed(h, c)
    ensures var i := ShardOf(h, k); ShardOk(h, i, L.Get(c[i], k, now).0)
  {
    var i := ShardOf(h, k);
    var es := c[i].entries;
    PlacedHit(h, i, es, k, now);
    var e := L.Lookup(es, k);
    if e.Some? {
      L.WithoutShape(es, k);
      L.LookupWithout(es, k, k);
      L.LookupKey(es, k);
      L.DistinctFresh(L.Without(es, k), L.Hit(es, e.value, now)[0]);
    }
  }

  lemma {:induction false} ClearAllMetas(es: seq<L.Entry>, ms: seq<L.TouchMark>, k: Key)
    ensures var r, e := L.Lookup(L.ClearAll(es, ms), k), L.Lookup(es, k);
            (r.Some? <==> e.Some?) && (r.Some? ==> r.value.meta == e.value.meta)
    decreases ms
  {
    if ms != [] {
      L.LookupClearOne(es, ms[0], k);
      ClearAllMetas(L.ClearOne(es, ms[0]), ms[1..], k);
    }
  }

  // ---- the storage side ----------------------------------------------------

  /** `t` has neither reached a row it had not nor changed what it will do to one. */
  ghost predicate Untouched(before: P.Tx, after: P.Tx) {
    && after.w.objects == before.w.objects && Reached(after.job) == Reached(before.job)
    && (after.job == before.job || (Reached(after.job) == [] && !after.job.Delete?))
  }

  /** A step leaves every transaction but its own as it was. */
  lemma OthersUntouched(p: P.State, st: P.Step, t: Tid)
    requires P.Enabled(p, st) && !st.Crash? && st.t != t
    ensures t in P.Next(p, st).txs <==> t in p.txs
    ensures t in p.txs ==> P.Next(p, st).txs[t] == p.txs[t]
  {
  }

  lemma PutUntouched(p: P.State, st: P.Step)
    requires P.Enabled(p, st)
    requires st.SyncBytes? || st.DoCheck? || st.DoCommitBytes? || st.DoRevive?
    ensures st.t in p.txs && st.t in P.Next(p, st).txs && Untouched(p.txs[st.t], P.Next(p, st).txs[st.t])
  {
  }

  lemma GcUntouched(p: P.State, st: P.Step)
    requires P.Enabled(p, st)
    requires st.DoLock? || st.DoMark? || st.DoRecheck? || st.DoUnlink? || st.DoReapRow?
    ensures st.t in p.txs && st.t in P.Next(p, st).txs && Untouched(p.txs[st.t], P.Next(p, st).txs[st.t])
  {
  }

  /** Only the object statements change which rows a transaction has reached or written. */
  lemma StorageTouches(p: P.State, st: P.Step, t: Tid)
    requires P.Enabled(p, st) && t in P.Next(p, st).txs
    requires st != P.DoRecord(t) && !(st.DoDelete? && st.t == t)
    ensures var tx := P.Next(p, st).txs[t];
            if t in p.txs then Untouched(p.txs[t], tx) else tx.w == P.NO_WRITES && P.Fresh(tx.job)
  {
    match st
    case Begin(u, job) => if u != t { OthersUntouched(p, st, t); }
    case Crash =>
    case DoRecord(u) => OthersUntouched(p, st, t);
    case DoDelete(u, k) => OthersUntouched(p, st, t);
    case Commit(u) => if u != t { OthersUntouched(p, st, t); }
    case Rollback(u) => if u != t { OthersUntouched(p, st, t); }
    case _ =>
      if st.t != t {
        OthersUntouched(p, st, t);
      } else if st.SyncBytes? || st.DoCheck? || st.DoCommitBytes? || st.DoRevive? {
        PutUntouched(p, st);
      } else {
        GcUntouched(p, st);
      }
  }

  lemma StorageWritesWithin(p: P.State, st: P.Step, t: Tid)
    requires P.Enabled(p, st) && WritesWithin(p) && t in P.Next(p, st).txs
    ensures forall k :: k in P.Next(p, st).txs[t].w.objects ==> k in Reached(P.Next(p, st).txs[t].job)
  {
    if st.DoRecord? && st.t == t {
      var a, w := p.txs[t].job.args, p.txs[t].w;
      assert w.objects.Keys == {};
      var named := w.(objects := w.objects[a.key := Some(P.RowOf(a))]);
      if a.key in p.db.objects {
        Safety.BumpObjects(p.db, named, p.db.objects[a.key].digest, -1);
        Safety.BumpObjects(p.db, P.Bump(p.db, named, p.db.objects[a.key].digest, -1), a.digest, 1);
      } else {
        Safety.BumpObjects(p.db, named, a.digest, 1);
      }
    } else if st.DoDelete? && st.t == t {
      var w := p.txs[t].w;
      var objects := P.View(p.db, w).objects;
      if st.k in objects {
        Safety.BumpObjects(p.db, w.(objects := w.objects[st.k := None]), objects[st.k].digest, -1);
      }
    } else {
      StorageTouches(p, st, t);
    }
  }

  /** The cache agrees after the step; and so do the fills in flight, if they did before. */
  ghost predicate Keeps(h: Hash, s: Sys, s': Sys)
    requires |s.cache| == |s'.cache| == LRU_SHARDS
  {
    CacheInv(h, s') && (FillsOk(h, s) ==> FillsOk(h, s'))
  }

  lemma StorageKeeps(h: Hash, s: Sys, st: P.Step)
    requires CacheInv(h, s) && Enabled(h, s, Storage(st))
    ensures Keeps(h, s, Next(h, s, Storage(st)))
  {
    var s' := Next(h, s, Storage(st));
    StorageLeaves(h, s, st);
    StorageReaches(s.p, st);
    SameCacheKeeps(h, s, s');
  }

  lemma StorageReaches(p: P.State, st: P.Step)
    requires P.Enabled(p, st) && WritesWithin(p) && SingleDeletes(p)
    ensures WritesWithin(P.Next(p, st)) && SingleDeletes(P.Next(p, st))
  {
    var p' := P.Next(p, st);
    forall t | t in p'.txs
      ensures forall k :: k in p'.txs[t].w.objects ==> k in Reached(p'.txs[t].job)
    {
      StorageWritesWithin(p, st, t);
    }
    forall t | t in p'.txs && p'.txs[t].job.Delete? && !p'.txs[t].job.batch ensures |p'.txs[t].job.touched| <= 1 {
      StorageSingle(p, st, t);
    }
  }

  lemma StorageSingle(p: P.State, st: P.Step, t: Tid)
    requires P.Enabled(p, st) && SingleDeletes(p) && t in P.Next(p, st).txs
    ensures P.Next(p, st).txs[t].job.Delete? && !P.Next(p, st).txs[t].job.batch ==> |P.Next(p, st).txs[t].job.touched| <= 1
  {
    if !(st.DoRecord? && st.t == t) && !(st.DoDelete? && st.t == t) { StorageTouches(p, st, t); }
  }

  /** Short of a commit, storage moves neither the committed tables nor the cache. */
  lemma StorageLeaves(h: Hash, s: Sys, st: P.Step)
    requires |s.cache| == LRU_SHARDS && Enabled(h, s, Storage(st))
    ensures var s' := Next(h, s, Storage(st));
            s'.p == P.Next(s.p, st) && s'.p.db == s.p.db && s'.cache == s.cache && s'.publishing == s.publishing && s'.fills == s.fills
  {
  }

  /** Coherence reads the rows, the cache, the fills and the publications, nothing else. */
  lemma SameCacheKeeps(h: Hash, s: Sys, s': Sys)
    requires CacheInv(h, s) && s'.p.db.objects == s.p.db.objects
    requires s'.cache == s.cache && s'.publishing == s.publishing && s'.fills == s.fills
    ensures Coherent(h, s') && (FillsOk(h, s) ==> FillsOk(h, s'))
  {
    forall k
      ensures Publisher(s', k) <==> Publisher(s, k)
    {
    }
    if FillsOk(h, s) {
      forall f | f in s'.fills ensures FillOk(h, s', s'.fills[f]) {
        assert FillOk(h, s, s.fills[f]);
      }
    }
  }

  /** Every row a commit changes is covered by the publication the writer now owes. */
  lemma CommitCovered(s: Sys, t: Tid, at: int, k: Key)
    requires t in s.p.txs && P.Finished(s.p.txs[t].job) && WritesWithin(s.p)
    requires s.p.txs[t].job.Delete? && !s.p.txs[t].job.batch ==> |s.p.txs[t].job.touched| <= 1
    ensures var pub := PublicationOf(s.p.txs[t].job, at);
            k in s.p.txs[t].w.objects ==> pub.Some? && Covers(pub.value, k)
  {
    if k in s.p.txs[t].w.objects {
      assert k in Reached(s.p.txs[t].job);
    }
  }

  lemma CommitKeeps(h: Hash, s: Sys, t: Tid, at: int)
    requires CacheInv(h, s) && Enabled(h, s, CommitWriter(t, at))
    ensures Keeps(h, s, Next(h, s, CommitWriter(t, at)))
  {
    var s' := Next(h, s, CommitWriter(t, at));
    forall k
      ensures Publisher(s, k) ==> Publisher(s', k)
      ensures !Publisher(s', k) ==> k !in s.p.txs[t].w.objects
    {
      CommitCovered(s, t, at, k);
      if k in s.p.txs[t].w.objects { assert t in s'.publishing && Covers(s'.publishing[t], k); }
      if Publisher(s, k) {
        var u :| u in s.publishing && Covers(s.publishing[u], k);
        assert u in s'.publishing && Covers(s'.publishing[u], k);
      }
    }
    forall k, meta
      ensures !Publisher(s', k) ==> (Agrees(meta, s'.p.db.objects, k) <==> Agrees(meta, s.p.db.objects, k))
    {
    }
    if FillsOk(h, s) {
      forall f | f in s'.fills ensures FillOk(h, s', s'.fills[f]) {
        assert FillOk(h, s, s.fills[f]);
      }
    }
  }

  /** A timely loss: what is cached of the rows it changed still agrees. Fills in flight may not. */
  lemma LossKeeps(h: Hash, s: Sys, t: Tid)
    requires CacheInv(h, s) && Enabled(h, s, CommitLost(t)) && TimelyLoss(h, s, s.p.txs[t].w)
    ensures CacheInv(h, Next(h, s, CommitLost(t)))
  {
    var s' := Next(h, s, CommitLost(t));
    assert s'.p.db == P.View(s.p.db, s.p.txs[t].w);
    forall k | CachedEntry(h, s'.cache, k).Some? && !Publisher(s', k)
      ensures Agrees(CachedEntry(h, s'.cache, k).value.meta, s'.p.db.objects, k)
    {
      assert !Publisher(s, k);
    }
  }

  // ---- the cache side ------------------------------------------------------

  lemma PublishKeeps(h: Hash, s: Sys, t: Tid)
    requires CacheInv(h, s) && Enabled(h, s, Publish(t)) && TimelyPut(s, t)
    ensures Keeps(h, s, Next(h, s, Publish(t)))
  {
    var s' := Next(h, s, Publish(t));
    var k, meta := s.publishing[t].key, s.publishing[t].meta;
    var i := ShardOf(h, k);
    PutOk(h, s.cache, k, meta);
    ShardUpdate(h, s.cache, i, L.Put(s.cache[i], k, meta));
    forall j
      ensures Publisher(s', j) ==> Publisher(s, j)
      ensures j != k && Publisher(s, j) ==> Publisher(s', j)
    {
      if Publisher(s, j) && j != k {
        var u :| u in s.publishing && Covers(s.publishing[u], j);
        assert u in s'.publishing && Covers(s'.publishing[u], j);
      }
    }
    forall j | CachedEntry(h, s'.cache, j).Some? && !Publisher(s', j)
      ensures Agrees(CachedEntry(h, s'.cache, j).value.meta, s'.p.db.objects, j)
    {
      L.LookupInsert(s.cache[i].entries, s.cache[i].cap, k, meta, 0, j);
      if j == k {
        assert forall u :: u in s.publishing && u != t && Covers(s.publishing[u], k) ==> u in s'.publishing;
      }
    }
    if FillsOk(h, s) {
      forall f | f in s'.fills ensures FillOk(h, s', s'.fills[f]) {
        assert FillOk(h, s, s.fills[f]);
      }
    }
  }

  lemma {:induction false} InNotOfShard(h: Hash, ks: seq<Key>, i: nat, k: Key)
    ensures k in NotOfShard(h, ks, i) <==> k in ks && ShardOf(h, k) != i
  {
    if ks != [] { InNotOfShard(h, ks[1..], i, k); }
  }

  lemma PublishShardPublisher(h: Hash, s: Sys, t: Tid, i: nat, j: Key)
    requires |s.cache| == LRU_SHARDS && Enabled(h, s, PublishShard(t, i))
    ensures var s' := Next(h, s, PublishShard(t, i));
            && (Publisher(s', j) ==> Publisher(s, j))
            && (Publisher(s, j) && !(j in s.publishing[t].keys && ShardOf(h, j) == i) ==> Publisher(s', j))
  {
    var s' := Next(h, s, PublishShard(t, i));
    InNotOfShard(h, s.publishing[t].keys, i, j);
    if Publisher(s, j) {
      var u :| u in s.publishing && Covers(s.publishing[u], j);
      if u != t {
        assert u in s'.publishing && Covers(s'.publishing[u], j);
      } else if ShardOf(h, j) != i {
        assert t in s'.publishing && Covers(s'.publishing[t], j);
      }
    }
    if Publisher(s', j) {
      var u :| u in s'.publishing && Covers(s'.publishing[u], j);
      assert u in s.publishing && Covers(s.publishing[u], j);
    }
  }

  lemma PublishShardKeeps(h: Hash, s: Sys, t: Tid, i: nat)
    requires CacheInv(h, s) && Enabled(h, s, PublishShard(t, i))
    ensures Keeps(h, s, Next(h, s, PublishShard(t, i)))
  {
    var s' := Next(h, s, PublishShard(t, i));
    var ks := KeysOfShard(h, s.publishing[t].keys, i);
    DelAllOk(h, s.cache, i, ks);
    ShardUpdate(h, s.cache, i, L.DelAll(s.cache[i], ks));
    forall j | CachedEntry(h, s'.cache, j).Some? && !Publisher(s', j)
      ensures Agrees(CachedEntry(h, s'.cache, j).value.meta, s'.p.db.objects, j)
    {
      PublishShardPublisher(h, s, t, i, j);
      InKeysOfShard(h, s.publishing[t].keys, i, j);
      L.LookupWithoutAll(s.cache[i].entries, ks, j);
    }
    if FillsOk(h, s) {
      forall f | f in s'.fills ensures FillOk(h, s', s'.fills[f]) {
        assert FillOk(h, s, s.fills[f]);
        PublishShardPublisher(h, s, t, i, s.fills[f].key);
      }
    }
  }

  lemma FillStepKeeps(h: Hash, s: Sys, step: Step)
    requires CacheInv(h, s) && Enabled(h, s, step)
    requires step.StartFill? || step.AskDb? || step.DropFill?
    ensures Keeps(h, s, Next(h, s, step))
  {
    var s' := Next(h, s, step);
    assert forall k :: Publisher(s', k) <==> Publisher(s, k);
    if FillsOk(h, s) {
      forall f | f in s'.fills ensures FillOk(h, s', s'.fills[f]) {
        if f in s.fills { assert FillOk(h, s, s.fills[f]); }
      }
    }
  }

  lemma LandKeeps(h: Hash, s: Sys, f: nat, now: int)
    requires CacheInv(h, s) && Enabled(h, s, LandFill(f, now)) && TimelyLanding(h, s, s.fills[f])
    ensures Keeps(h, s, Next(h, s, LandFill(f, now)))
  {
    var s' := Next(h, s, LandFill(f, now));
    var k, seen, meta := s.fills[f].key, s.fills[f].seen, s.fills[f].answer.value;
    var i := ShardOf(h, k);
    LandOk(h, s.cache, k, meta, seen, now);
    ShardUpdate(h, s.cache, i, L.PutIfUnchanged(s.cache[i], k, meta, seen, now).0);
    assert forall j :: Publisher(s', j) <==> Publisher(s, j);
    forall j | CachedEntry(h, s'.cache, j).Some? && !Publisher(s', j)
      ensures Agrees(CachedEntry(h, s'.cache, j).value.meta, s'.p.db.objects, j)
    {
      L.LookupInsert(s.cache[i].entries, s.cache[i].cap, k, meta, if meta.present then now else 0, j);
    }
    if FillsOk(h, s) {
      forall g | g in s'.fills ensures FillOk(h, s', s'.fills[g]) {
        assert FillOk(h, s, s.fills[g]);
      }
    }
  }

  lemma HitKeeps(h: Hash, s: Sys, k: Key, now: int)
    requires CacheInv(h, s)
    ensures Keeps(h, s, Next(h, s, Hit(k, now)))
  {
    var s' := Next(h, s, Hit(k, now));
    var i := ShardOf(h, k);
    HitOk(h, s.cache, k, now);
    ShardUpdate(h, s.cache, i, L.Get(s.cache[i], k, now).0);
    assert forall j :: Publisher(s', j) <==> Publisher(s, j);
    L.LookupKey(s.cache[i].entries, k);
    var e := L.Lookup(s.cache[i].entries, k);
    forall j | CachedEntry(h, s'.cache, j).Some? && !Publisher(s', j)
      ensures Agrees(CachedEntry(h, s'.cache, j).value.meta, s'.p.db.objects, j)
    {
      if e.Some? { L.LookupHit(s.cache[i].entries, e.value, now, j); }
    }
    if FillsOk(h, s) {
      forall g | g in s'.fills ensures FillOk(h, s', s'.fills[g]) {
        assert FillOk(h, s, s.fills[g]);
      }
    }
  }

  /** A read brings its entry to the front and marks a positive unmarked one; it changes no other entry. */
  lemma ReadEffect(h: Hash, s: Sys, k: Key, now: int, j: Key)
    requires |s.cache| == LRU_SHARDS
    ensures var e, e' := CachedEntry(h, s.cache, j), CachedEntry(h, Next(h, s, Hit(k, now)).cache, j);
            e' == if j == k && e.Some? && e.value.meta.present && e.value.markedAt == 0
                  then Some(e.value.(markedAt := now)) else e
    ensures CachedEntry(h, s.cache, k).Some? ==> Next(h, s, Hit(k, now)).cache[ShardOf(h, k)].entries[0].key == k
  {
    var es := s.cache[ShardOf(h, k)].entries;
    var e := L.Lookup(es, k);
    L.LookupKey(es, k);
    if e.Some? { L.LookupHit(es, e.value, now, j); }
  }

  /** An invalidation forgets the keys it names in its shard, and voids the fills in flight there. */
  lemma DropEffect(h: Hash, s: Sys, i: nat, ks: seq<Key>, j: Key)
    requires |s.cache| == LRU_SHARDS && i < LRU_SHARDS
    ensures var s' := Next(h, s, Invalidate(i, ks));
            && CachedEntry(h, s'.cache, j) == (if ShardOf(h, j) == i && j in ks then None else CachedEntry(h, s.cache, j))
            && (ks != [] ==> s'.cache[i].gen == s.cache[i].gen + 1)
  {
    L.LookupWithoutAll(s.cache[i].entries, ks, j);
  }

  lemma ClearKeeps(h: Hash, s: Sys, i: nat, marks: seq<L.TouchMark>)
    requires CacheInv(h, s) && i < LRU_SHARDS
    ensures Keeps(h, s, Next(h, s, ClearMarks(i, marks)))
  {
    var s' := Next(h, s, ClearMarks(i, marks));
    ClearMine(h, i, s.cache[i].entries, marks);
    ShardUpdate(h, s.cache, i, s'.cache[i]);
    assert forall j :: Publisher(s', j) <==> Publisher(s, j);
    forall j | CachedEntry(h, s'.cache, j).Some? && !Publisher(s', j)
      ensures Agrees(CachedEntry(h, s'.cache, j).value.meta, s'.p.db.objects, j)
    {
      ClearAllMetas(s.cache[i].entries, marks, j);
    }
    if FillsOk(h, s) {
      forall g | g in s'.fills ensures FillOk(h, s', s'.fills[g]) {
        assert FillOk(h, s, s.fills[g]);
      }
    }
  }

  lemma InvalidateKeeps(h: Hash, s: Sys, i: nat, ks: seq<Key>)
    requires CacheInv(h, s) && i < LRU_SHARDS
    ensures Keeps(h, s, Next(h, s, Invalidate(i, ks)))
  {
    var s' := Next(h, s, Invalidate(i, ks));
    DelAllOk(h, s.cache, i, ks);
    ShardUpdate(h, s.cache, i, s'.cache[i]);
    assert forall j :: Publisher(s', j) <==> Publisher(s, j);
    forall j | CachedEntry(h, s'.cache, j).Some? && !Publisher(s', j)
      ensures Agrees(CachedEntry(h, s'.cache, j).value.meta, s'.p.db.objects, j)
    {
      L.LookupWithoutAll(s.cache[i].entries, ks, j);
    }
    if FillsOk(h, s) {
      forall g | g in s'.fills ensures FillOk(h, s', s'.fills[g]) {
        assert FillOk(h, s, s.fills[g]);
      }
    }
  }

  lemma CrashKeeps(h: Hash, s: Sys)
    requires CacheInv(h, s)
    ensures Keeps(h, s, Next(h, s, Crash))
  {
  }

  lemma StepKeeps(h: Hash, s: Sys, step: Step)
    requires CacheInv(h, s) && Enabled(h, s, step) && Timely(h, s, step)
    ensures CacheInv(h, Next(h, s, step))
    ensures FillsOk(h, s) && !step.CommitLost? ==> FillsOk(h, Next(h, s, step))
  {
    match step
    case Storage(st) => StorageKeeps(h, s, st);
    case CommitWriter(t, at) => CommitKeeps(h, s, t, at);
    case CommitLost(t) => LossKeeps(h, s, t);
    case Publish(t) => PublishKeeps(h, s, t);
    case PublishShard(t, i) => PublishShardKeeps(h, s, t, i);
    case StartFill(_, _) => FillStepKeeps(h, s, step);
    case AskDb(_, _) => FillStepKeeps(h, s, step);
    case DropFill(_) => FillStepKeeps(h, s, step);
    case LandFill(f, now) => LandKeeps(h, s, f, now);
    case Hit(k, now) => HitKeeps(h, s, k, now);
    case ClearMarks(i, marks) => ClearKeeps(h, s, i, marks);
    case Invalidate(i, ks) => InvalidateKeeps(h, s, i, ks);
    case Crash => CrashKeeps(h, s);
  }

  lemma InitialInv(h: Hash, s: Sys)
    requires Initial(s)
    ensures CacheInv(h, s)
  {
  }

  /** The shape of the cache does not depend on anyone's timing. */
  lemma StepWellFormed(h: Hash, s: Sys, step: Step)
    requires WellFormed(h, s.cache) && Enabled(h, s, step)
    ensures WellFormed(h, Next(h, s, step).cache)
  {
    match step
    case Publish(t) => PutOk(h, s.cache, s.publishing[t].key, s.publishing[t].meta);
    case PublishShard(t, i) => DelAllOk(h, s.cache, i, KeysOfShard(h, s.publishing[t].keys, i));
    case LandFill(f, now) => LandOk(h, s.cache, s.fills[f].key, s.fills[f].answer.value, s.fills[f].seen, now);
    case Hit(k, now) => HitOk(h, s.cache, k, now);
    case ClearMarks(i, marks) => ClearMine(h, i, s.cache[i].entries, marks);
    case Invalidate(i, ks) => DelAllOk(h, s.cache, i, ks);
    case _ =>
  }

  lemma {:induction false} RunWellFormed(h: Hash, states: seq<Sys>, steps: seq<Step>, n: nat)
    requires IsRun(h, states, steps) && n < |states|
    ensures WellFormed(h, states[n].cache)
  {
    if n == 0 {
      InitialInv(h, states[0]);
    } else {
      RunWellFormed(h, states, steps, n - 1);
      StepWellFormed(h, states[n - 1], steps[n - 1]);
    }
  }

  // ---- exactly when --------------------------------------------------------

  lemma UntimelyPutBreaks(h: Hash, s: Sys, t: Tid)
    requires CacheInv(h, s) && Enabled(h, s, Publish(t)) && !TimelyPut(s, t)
    ensures !Coherent(h, Next(h, s, Publish(t)))
  {
    var s' := Next(h, s, Publish(t));
    var k, meta := s.publishing[t].key, s.publishing[t].meta;
    var i := ShardOf(h, k);
    PutOk(h, s.cache, k, meta);
    ShardUpdate(h, s.cache, i, L.Put(s.cache[i], k, meta));
    L.LookupInsert(s.cache[i].entries, s.cache[i].cap, k, meta, 0, k);
    assert !Publisher(s', k);
    assert CachedEntry(h, s'.cache, k).value.meta == meta;
  }

  lemma UntimelyLandingBreaks(h: Hash, s: Sys, f: nat, now: int)
    requires CacheInv(h, s) && Enabled(h, s, LandFill(f, now)) && !TimelyLanding(h, s, s.fills[f])
    ensures !Coherent(h, Next(h, s, LandFill(f, now)))
  {
    var s' := Next(h, s, LandFill(f, now));
    var k, meta := s.fills[f].key, s.fills[f].answer.value;
    var i, stamp := ShardOf(h, k), if meta.present then now else 0;
    LandOk(h, s.cache, k, meta, s.fills[f].seen, now);
    ShardUpdate(h, s.cache, i, L.PutIfUnchanged(s.cache[i], k, meta, s.fills[f].seen, now).0);
    L.LookupInsert(s.cache[i].entries, s.cache[i].cap, k, meta, stamp, k);
    assert !Publisher(s', k);
    assert CachedEntry(h, s'.cache, k).value.meta == meta;
  }

  lemma UntimelyLossBreaks(h: Hash, s: Sys, t: Tid)
    requires CacheInv(h, s) && Enabled(h, s, CommitLost(t)) && !TimelyLoss(h, s, s.p.txs[t].w)
    ensures !Coherent(h, Next(h, s, CommitLost(t)))
  {
    var s', w := Next(h, s, CommitLost(t)), s.p.txs[t].w;
    var k :| k in w.objects && CachedEntry(h, s.cache, k).Some? && !Publisher(s, k)
      && !Agrees(CachedEntry(h, s.cache, k).value.meta, P.View(s.p.db, w).objects, k);
    assert !Publisher(s', k);
  }

  /** An untimely step leaves, at once, an entry nobody will correct and the table contradicts. */
  lemma UntimelyBreaks(h: Hash, s: Sys, step: Step)
    requires CacheInv(h, s) && Enabled(h, s, step) && !Timely(h, s, step)
    ensures !Coherent(h, Next(h, s, step))
  {
    match step
    case Publish(t) => UntimelyPutBreaks(h, s, t);
    case LandFill(f, now) => UntimelyLandingBreaks(h, s, f, now);
    case CommitLost(t) => UntimelyLossBreaks(h, s, t);
  }

  ghost predicate TimelyAt(h: Hash, states: seq<Sys>, steps: seq<Step>, i: nat)
    requires i < |steps| && i < |states|
  {
    |states[i].cache| == LRU_SHARDS && Timely(h, states[i], steps[i])
  }

  ghost predicate AllTimely(h: Hash, states: seq<Sys>, steps: seq<Step>, n: nat)
    requires n <= |steps| <= |states|
  {
    forall i :: 0 <= i < n ==> TimelyAt(h, states, steps, i)
  }

  ghost predicate AllCoherent(h: Hash, states: seq<Sys>) {
    forall i :: 0 <= i < |states| ==> |states[i].cache| == LRU_SHARDS && Coherent(h, states[i])
  }

  lemma RunStep(h: Hash, states: seq<Sys>, steps: seq<Step>, n: nat)
    requires IsRun(h, states, steps) && n < |steps|
    ensures |states[n].cache| == |states[n + 1].cache| == LRU_SHARDS && Enabled(h, states[n], steps[n])
    ensures states[n + 1] == Next(h, states[n], steps[n])
  {
  }

  lemma {:induction false} TimelyRunKeeps(h: Hash, states: seq<Sys>, steps: seq<Step>, n: nat)
    requires IsRun(h, states, steps) && n <= |steps| && AllTimely(h, states, steps, n)
    ensures CacheInv(h, states[n])
  {
    if n == 0 {
      InitialInv(h, states[0]);
    } else {
      TimelyRunKeeps(h, states, steps, n - 1);
      RunStep(h, states, steps, n - 1);
      assert TimelyAt(h, states, steps, n - 1);
      StepKeeps(h, states[n - 1], steps[n - 1]);
    }
  }

  /**
   Over any run, lost commits and all: the cache agrees with the tables in every state (for
   every key without a committed and unpublished writer) if and only if every step is timely.
   */
  lemma {:induction false} CoherentIffTimely(h: Hash, states: seq<Sys>, steps: seq<Step>)
    requires IsRun(h, states, steps)
    ensures AllCoherent(h, states) <==> AllTimely(h, states, steps, |steps|)
  {
    if AllTimely(h, states, steps, |steps|) {
      forall i | 0 <= i < |states| ensures |states[i].cache| == LRU_SHARDS && Coherent(h, states[i]) {
        TimelyRunKeeps(h, states, steps, i);
      }
    } else {
      var n := FirstUntimely(h, states, steps, 0);
      TimelyRunKeeps(h, states, steps, n);
      RunStep(h, states, steps, n);
      UntimelyBreaks(h, states[n], steps[n]);
      assert !Coherent(h, states[n + 1]);
    }
  }

  ghost function FirstUntimely(h: Hash, states: seq<Sys>, steps: seq<Step>, from: nat): (n: nat)
    requires from <= |steps| <= |states| && AllTimely(h, states, steps, from) && !AllTimely(h, states, steps, |steps|)
    ensures from <= n < |steps| && AllTimely(h, states, steps, n) && !TimelyAt(h, states, steps, n)
    decreases |steps| - from
  {
    if TimelyAt(h, states, steps, from) then FirstUntimely(h, states, steps, from + 1) else from
  }

  // ---- while no commit's answer is lost ------------------------------------

  ghost predicate NoneLost(steps: seq<Step>) {
    forall i :: 0 <= i < |steps| ==> !steps[i].CommitLost?
  }

  ghost predicate PutsTimely(h: Hash, states: seq<Sys>, steps: seq<Step>, n: nat)
    requires n <= |steps| <= |states|
  {
    forall i :: 0 <= i < n ==> steps[i].Publish? ==> TimelyAt(h, states, steps, i)
  }

  /** A generation that has not moved since the miss vouches for the answer. */
  lemma LandingsTimely(h: Hash, s: Sys, step: Step)
    requires CacheInv(h, s) && FillsOk(h, s) && Enabled(h, s, step) && step.LandFill?
    ensures Timely(h, s, step)
  {
    assert FillOk(h, s, s.fills[step.f]);
  }

  lemma {:induction false} PutsTimelyKeeps(h: Hash, states: seq<Sys>, steps: seq<Step>, n: nat)
    requires IsRun(h, states, steps) && NoneLost(steps) && n <= |steps| && PutsTimely(h, states, steps, n)
    ensures CacheInv(h, states[n]) && FillsOk(h, states[n]) && AllTimely(h, states, steps, n)
  {
    if n == 0 {
      InitialInv(h, states[0]);
    } else {
      PutsTimelyKeeps(h, states, steps, n - 1);
      RunStep(h, states, steps, n - 1);
      var s, step := states[n - 1], steps[n - 1];
      if step.LandFill? { LandingsTimely(h, s, step); }
      if step.Publish? { assert TimelyAt(h, states, steps, n - 1); }
      assert Timely(h, s, step);
      StepKeeps(h, s, step);
    }
  }

  /** While no commit's answer is lost, the puts alone decide: a fill that lands is timely of itself. */
  lemma CoherentIffPutsTimely(h: Hash, states: seq<Sys>, steps: seq<Step>)
    requires IsRun(h, states, steps) && NoneLost(steps)
    ensures AllCoherent(h, states) <==> PutsTimely(h, states, steps, |steps|)
  {
    CoherentIffTimely(h, states, steps);
    if PutsTimely(h, states, steps, |steps|) { PutsTimelyKeeps(h, states, steps, |steps|); }
  }
}
