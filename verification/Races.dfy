/** Executions in which the cache and the tables part: what serialising the writers of a key rules out. */
module Races {
  import opened Types
  import P = BlobProtocol
  import L = Lru
  import opened LruCaches
  import opened Coherence
  import opened CoherenceProofs

  ghost predicate Reachable(h: Hash, s: Sys) {
    exists states, steps :: IsRun(h, states, steps) && states[|steps|] == s
  }

  lemma Start(h: Hash, s: Sys)
    requires Initial(s)
    ensures Reachable(h, s)
  {
    assert IsRun(h, [s], []);
  }

  lemma ReachableStep(h: Hash, s: Sys, step: Step)
    requires |s.cache| == LRU_SHARDS && Reachable(h, s) && Enabled(h, s, step)
    ensures Reachable(h, Next(h, s, step))
  {
    var states, steps :| IsRun(h, states, steps) && states[|steps|] == s;
    RunExtends(h, states, steps, step);
    assert (states + [Next(h, s, step)])[|steps + [step]|] == Next(h, s, step);
  }

  lemma RunExtends(h: Hash, states: seq<Sys>, steps: seq<Step>, step: Step)
    requires IsRun(h, states, steps) && Enabled(h, states[|steps|], step)
    ensures IsRun(h, states + [Next(h, states[|steps|], step)], steps + [step])
  {
    var s' := Next(h, states[|steps|], step);
    var longer, all := states + [s'], steps + [step];
    forall i | 0 <= i < |all|
      ensures |longer[i].cache| == LRU_SHARDS && Enabled(h, longer[i], all[i]) && longer[i + 1] == Next(h, longer[i], all[i])
    {
      assert longer[i] == states[i];
      if i < |steps| { assert longer[i + 1] == states[i + 1]; }
    }
  }

  /** A set of states that no step leaves. */
  ghost predicate Closed(h: Hash, r: Sys -> bool) {
    forall s: Sys, step: Step :: |s.cache| == LRU_SHARDS && r(s) && Enabled(h, s, step) ==> r(Next(h, s, step))
  }

  lemma Extend(h: Hash, r: Sys -> bool, s: Sys, step: Step)
    requires Closed(h, r) && |s.cache| == LRU_SHARDS && r(s) && Enabled(h, s, step)
    ensures r(Next(h, s, step))
  {
  }

  const K: Key := "k"
  const D: Digest := 1
  const A := P.PutArgs(K, D, 0, "", false)
  const LIVE := P.Blob(0, 1, P.Live)
  const ROW := P.Row(D, 0, "")
  const POSITIVE := L.Meta(true, D, 0, 0, "")

  /** No transaction but `others`, which hold no lock. */
  ghost predicate Quiet(s: Sys, blobs: map<Digest, P.Blob>, objects: map<Key, P.Row>, others: map<Tid, P.Tx>) {
    && |s.cache| == LRU_SHARDS
    && s.p.db == P.Tables(blobs, objects)
    && s.p.advisory == map[] && s.p.rowLock == map[] && s.p.keyLock == map[]
    && s.p.txs == others
  }

  /** One storage step, its effect spelled out by the caller. */
  lemma Advance(h: Hash, r: Sys -> bool, s: Sys, st: P.Step, p: P.State) returns (s': Sys)
    requires Closed(h, r)
    requires |s.cache| == LRU_SHARDS && r(s) && Enabled(h, s, Storage(st)) && P.Next(s.p, st) == p
    ensures s' == s.(p := p) && r(s')
  {
    Extend(h, r, s, Storage(st));
    s' := Next(h, s, Storage(st));
  }

  /** Transaction 1 half-way through a first PUT of K, holding its locks, among `others` that hold none. */
  function MidPut(bytes: set<Digest>, row: map<Digest, Tid>, key: map<Key, Tid>, tx: P.Tx, others: map<Tid, P.Tx>): P.State {
    P.State(P.Tables(map[], map[]), bytes, map[D := 1], row, key, others[1 := tx])
  }

  const REVIVED := P.Tx(P.Put(A, P.Revived), P.Writes(map[D := Some(P.Blob(0, 0, P.Live))], map[]))
  const RECORDED := P.Tx(P.Put(A, P.Recorded(true)), P.Writes(map[D := Some(LIVE)], map[K := Some(ROW)]))

  const LOCKED := P.Tx(P.Put(A, P.Locked), P.NO_WRITES)
  const CHECKED := P.Tx(P.Put(A, P.Checked(false)), P.NO_WRITES)
  const DURABLE := P.Tx(P.Put(A, P.BytesDurable), P.NO_WRITES)

  /** The statements of the PUT up to the revive, one by one. */
  lemma PutStatements(b: set<Digest>, others: map<Tid, P.Tx>)
    ensures var p := MidPut(b, map[], map[], LOCKED, others);
            P.Enabled(p, P.DoCheck(1)) && P.Next(p, P.DoCheck(1)) == MidPut(b, map[], map[], CHECKED, others)
    ensures var p := MidPut(b, map[], map[], CHECKED, others);
            && P.Enabled(p, P.DoCommitBytes(1))
            && P.Next(p, P.DoCommitBytes(1)) == MidPut(b + {D}, map[], map[], DURABLE, others)
  {
  }

  lemma PutRevives(b: set<Digest>, others: map<Tid, P.Tx>)
    ensures var p := MidPut(b, map[], map[], DURABLE, others);
            P.Enabled(p, P.DoRevive(1)) && P.Next(p, P.DoRevive(1)) == MidPut(b, map[D := 1], map[], REVIVED, others)
  {
  }

  lemma PutUntilLocked(h: Hash, r: Sys -> bool, s0: Sys, others: map<Tid, P.Tx>) returns (s: Sys)
    requires Closed(h, r)
    requires r(s0) && Quiet(s0, map[], map[], others) && 1 !in others && 1 !in s0.publishing
    ensures s == s0.(p := MidPut(s0.p.bytes, map[], map[], LOCKED, others))
    ensures r(s)
  {
    s := Advance(h, r, s0, P.Begin(1, P.Put(A, P.Staged)), s0.p.(txs := others[1 := P.Tx(P.Put(A, P.Staged), P.NO_WRITES)]));
    s := Advance(h, r, s, P.DoLock(1), MidPut(s.p.bytes, map[], map[], LOCKED, others));
  }

  lemma PutUntilDurable(h: Hash, r: Sys -> bool, s0: Sys, others: map<Tid, P.Tx>) returns (s: Sys)
    requires Closed(h, r)
    requires r(s0) && Quiet(s0, map[], map[], others) && 1 !in others && 1 !in s0.publishing
    ensures s == s0.(p := MidPut(s0.p.bytes + {D}, map[], map[], DURABLE, others))
    ensures r(s)
  {
    var b := s0.p.bytes;
    s := PutUntilLocked(h, r, s0, others);
    PutStatements(b, others);
    s := Advance(h, r, s, P.DoCheck(1), MidPut(b, map[], map[], CHECKED, others));
    s := Advance(h, r, s, P.DoCommitBytes(1), MidPut(b + {D}, map[], map[], DURABLE, others));
  }

  lemma PutUntilRecorded(h: Hash, r: Sys -> bool, s0: Sys, others: map<Tid, P.Tx>) returns (s: Sys)
    requires Closed(h, r)
    requires r(s0) && Quiet(s0, map[], map[], others) && 1 !in others && 1 !in s0.publishing
    ensures s == s0.(p := MidPut(s0.p.bytes + {D}, map[D := 1], map[K := 1], RECORDED, others))
    ensures r(s)
  {
    var b := s0.p.bytes + {D};
    s := PutUntilDurable(h, r, s0, others);
    PutRevives(b, others);
    s := Advance(h, r, s, P.DoRevive(1), MidPut(b, map[D := 1], map[], REVIVED, others));
    RecordFirst(s.p, others);
    s := Advance(h, r, s, P.DoRecord(1), MidPut(b, map[D := 1], map[K := 1], RECORDED, others));
  }

  lemma RecordFirst(p: P.State, others: map<Tid, P.Tx>)
    requires p == MidPut(p.bytes, map[D := 1], map[], REVIVED, others)
    ensures P.CanRecord(p, 1)
    ensures P.RecordObject(p, 1) == MidPut(p.bytes, map[D := 1], map[K := 1], RECORDED, others)
  {
    assert P.RecordWrites(p.db, p.txs[1].w, A) == RECORDED.w;
  }

  /** The PUT has committed and owes the cache its positive entry. */
  lemma PutUntilCommitted(h: Hash, r: Sys -> bool, s0: Sys, others: map<Tid, P.Tx>) returns (s: Sys)
    requires Closed(h, r)
    requires r(s0) && Quiet(s0, map[], map[], others) && 1 !in others && 1 !in s0.publishing
    ensures r(s) && Quiet(s, map[D := LIVE], map[K := ROW], others)
    ensures s.cache == s0.cache && s.fills == s0.fills
    ensures s.publishing == s0.publishing[1 := Assert(K, POSITIVE)]
  {
    s := PutUntilRecorded(h, r, s0, others);
    PutCommits(s.p, others);
    Extend(h, r, s, CommitWriter(1, 0));
    s := Next(h, s, CommitWriter(1, 0));
  }

  lemma PutCommits(p: P.State, others: map<Tid, P.Tx>)
    requires p == MidPut(p.bytes, map[D := 1], map[K := 1], RECORDED, others) && 1 !in others
    ensures P.Enabled(p, P.Commit(1))
    ensures P.Next(p, P.Commit(1)) ==
            P.State(P.Tables(map[D := LIVE], map[K := ROW]), p.bytes, map[], map[], map[], others)
  {
    var q := P.Next(p, P.Commit(1));
    assert q.txs == others;
    assert q.db.blobs == map[D := LIVE];
    assert q.db.objects == map[K := ROW];
  }

  // ---- a Delete that found no row ------------------------------------------

  const DELETED_NOTHING := P.Tx(P.Delete([K], false), P.NO_WRITES)

  lemma AbsentDelete(h: Hash, r: Sys -> bool, s0: Sys) returns (s: Sys)
    requires Closed(h, r) && Initial(s0) && r(s0) && WellFormed(h, s0.cache)
    ensures |s.cache| == LRU_SHARDS && r(s) && s.publishing == map[]
    ensures K in s.p.db.objects
    ensures CachedEntry(h, s.cache, K).Some? && !CachedEntry(h, s.cache, K).value.meta.present
  {
    s := DeleteNothing(h, r, s0);
    s := PutUntilCommitted(h, r, s, map[2 := DELETED_NOTHING]);
    s := PublishOne(h, r, s, 1, POSITIVE);
    Extend(h, r, s, CommitWriter(2, 0));
    s := Next(h, s, CommitWriter(2, 0));
    s := PublishOne(h, r, s, 2, NEGATIVE);
  }

  /**
   A Delete whose statement finds no row locks nothing. A PUT of the key may then run
   from start to publish before the Delete commits and publishes its negative entry:
   the cache hides an object that exists, and nobody is left to publish the key.
   */
  lemma AbsentDeleteHidesObject(h: Hash, s0: Sys) returns (s: Sys)
    requires Initial(s0)
    ensures |s.cache| == LRU_SHARDS && Reachable(h, s) && !Publisher(s, K)
    ensures K in s.p.db.objects
    ensures CachedEntry(h, s.cache, K).Some? && !CachedEntry(h, s.cache, K).value.meta.present
  {
    var r := ReachableSet(h, s0);
    s := AbsentDelete(h, r, s0);
  }

  lemma ReachableSet(h: Hash, s0: Sys) returns (r: Sys -> bool)
    requires Initial(s0)
    ensures Closed(h, r) && r(s0) && WellFormed(h, s0.cache)
    ensures forall s :: r(s) ==> Reachable(h, s)
  {
    r := s => Reachable(h, s);
    Start(h, s0);
    InitialInv(h, s0);
    forall s: Sys, step: Step | |s.cache| == LRU_SHARDS && r(s) && Enabled(h, s, step)
      ensures r(Next(h, s, step))
    {
      ReachableStep(h, s, step);
    }
  }

  lemma DeleteNothing(h: Hash, r: Sys -> bool, s0: Sys) returns (s: Sys)
    requires Closed(h, r)
    requires Initial(s0) && r(s0)
    ensures s == s0.(p := s0.p.(txs := map[2 := DELETED_NOTHING]))
    ensures r(s)
  {
    s := Advance(h, r, s0, P.Begin(2, P.Delete([], false)),
                 s0.p.(txs := map[2 := P.Tx(P.Delete([], false), P.NO_WRITES)]));
    assert s.p.txs[2].job.touched + [K] == [K];
    s := Advance(h, r, s, P.DoDelete(2, K), s0.p.(txs := map[2 := DELETED_NOTHING]));
  }

  // ---- publishing in the opposite order to committing ----------------------

  const UNREFERENCED := P.Blob(0, 0, P.Live)
  const TOMBSTONE := P.Blob(0, 0, P.PendingDelete)
  const DELETED_ROW := P.Tx(P.Delete([K], false), P.Writes(map[D := Some(UNREFERENCED)], map[K := None]))
  const MARKED := P.Tx(P.Mark, P.Writes(map[D := Some(TOMBSTONE)], map[]))

  /** The tables between transactions, when nobody holds a lock. */
  function Calm(blobs: map<Digest, P.Blob>, objects: map<Key, P.Row>, bytes: set<Digest>): P.State {
    P.State(P.Tables(blobs, objects), bytes, map[], map[], map[], map[])
  }

  const DELETING := P.Tx(P.Delete([], false), P.NO_WRITES)
  const MARKING := P.Tx(P.Mark, P.NO_WRITES)

  function Deleted(p: P.State): P.State {
    p.(rowLock := map[D := 2], keyLock := map[K := 2], txs := map[2 := DELETED_ROW])
  }

  lemma DeleteRuns(h: Hash, r: Sys -> bool, s0: Sys) returns (s: Sys)
    requires Closed(h, r)
    requires |s0.cache| == LRU_SHARDS && r(s0) && 2 !in s0.publishing
    requires s0.p == Calm(map[D := LIVE], map[K := ROW], s0.p.bytes)
    ensures r(s) && s == s0.(p := Deleted(s0.p))
  {
    s := Advance(h, r, s0, P.Begin(2, P.Delete([], false)), s0.p.(txs := map[2 := DELETING]));
    DeleteStatement(s.p);
    s := Advance(h, r, s, P.DoDelete(2, K), Deleted(s0.p));
  }

  lemma DeleteCommits(h: Hash, r: Sys -> bool, s0: Sys) returns (s: Sys)
    requires Closed(h, r)
    requires |s0.cache| == LRU_SHARDS && r(s0) && 2 !in s0.publishing
    requires s0.p == Calm(map[D := LIVE], map[K := ROW], s0.p.bytes)
    ensures r(s) && s.p == Calm(map[D := UNREFERENCED], map[], s0.p.bytes)
    ensures s.cache == s0.cache && s.publishing == s0.publishing[2 := Assert(K, NEGATIVE)]
  {
    s := DeleteRuns(h, r, s0);
    DeleteEnds(s.p);
    Extend(h, r, s, CommitWriter(2, 0));
    s := Next(h, s, CommitWriter(2, 0));
  }

  lemma DeleteStatement(p: P.State)
    requires p == Calm(map[D := LIVE], map[K := ROW], p.bytes).(txs := map[2 := P.Tx(P.Delete([], false), P.NO_WRITES)])
    ensures P.CanDelete(p, 2, K)
    ensures P.DeleteRow(p, 2, K) == p.(rowLock := map[D := 2], keyLock := map[K := 2], txs := map[2 := DELETED_ROW])
  {
    assert P.View(p.db, P.NO_WRITES) == p.db;
    assert p.txs[2].job.touched + [K] == [K];
    assert P.View(p.db, P.Writes(map[], map[K := None])).blobs == p.db.blobs;
  }

  lemma DeleteEnds(p: P.State)
    requires p == P.State(P.Tables(map[D := LIVE], map[K := ROW]), p.bytes, map[], map[D := 2], map[K := 2], map[2 := DELETED_ROW])
    ensures P.Next(p, P.Commit(2)) == Calm(map[D := UNREFERENCED], map[], p.bytes)
  {
    var q := P.Next(p, P.Commit(2));
    assert q.txs == map[];
    assert q.db.blobs == map[D := UNREFERENCED];
    assert q.db.objects == map[];
  }

  lemma MarkRuns(h: Hash, r: Sys -> bool, s0: Sys) returns (s: Sys)
    requires Closed(h, r)
    requires |s0.cache| == LRU_SHARDS && r(s0) && s0.publishing == map[]
    requires s0.p == Calm(map[D := UNREFERENCED], map[], s0.p.bytes)
    ensures r(s) && s == s0.(p := s0.p.(rowLock := map[D := 3], txs := map[3 := MARKED]))
  {
    s := Advance(h, r, s0, P.Begin(3, P.Mark), s0.p.(txs := map[3 := MARKING]));
    s := Advance(h, r, s, P.DoMark(3, D), s0.p.(rowLock := map[D := 3], txs := map[3 := MARKED]));
  }

  lemma MarkCommits(h: Hash, r: Sys -> bool, s0: Sys) returns (s: Sys)
    requires Closed(h, r)
    requires |s0.cache| == LRU_SHARDS && r(s0) && s0.publishing == map[]
    requires s0.p == Calm(map[D := UNREFERENCED], map[], s0.p.bytes)
    ensures r(s) && s == s0.(p := Calm(map[D := TOMBSTONE], map[], s0.p.bytes))
  {
    s := MarkRuns(h, r, s0);
    MarkEnds(s.p);
    Extend(h, r, s, CommitWriter(3, 0));
    s := Next(h, s, CommitWriter(3, 0));
  }

  lemma ReapLocks(h: Hash, r: Sys -> bool, s0: Sys) returns (s: Sys)
    requires Closed(h, r)
    requires |s0.cache| == LRU_SHARDS && r(s0) && s0.publishing == map[]
    requires s0.p == Calm(map[D := TOMBSTONE], map[], s0.p.bytes)
    ensures r(s)
    ensures s == s0.(p := s0.p.(advisory := map[D := 4], txs := map[4 := P.Tx(P.Reap(D, P.Holding), P.NO_WRITES)]))
  {
    s := Advance(h, r, s0, P.Begin(4, P.Reap(D, P.Queued)), s0.p.(txs := map[4 := P.Tx(P.Reap(D, P.Queued), P.NO_WRITES)]));
    s := Advance(h, r, s, P.DoLock(4), s0.p.(advisory := map[D := 4], txs := map[4 := P.Tx(P.Reap(D, P.Holding), P.NO_WRITES)]));
  }

  /** The GC finds the blob unreferenced, marks it, and unlinks its bytes. */
  lemma GcUnlinks(h: Hash, r: Sys -> bool, s0: Sys) returns (s: Sys)
    requires Closed(h, r)
    requires |s0.cache| == LRU_SHARDS && r(s0) && s0.publishing == map[]
    requires s0.p == Calm(map[D := UNREFERENCED], map[], s0.p.bytes)
    ensures |s.cache| == LRU_SHARDS && r(s) && s.cache == s0.cache && s.publishing == map[]
    ensures D !in s.p.bytes
  {
    s := MarkCommits(h, r, s0);
    s := ReapLocks(h, r, s);
    s := Advance(h, r, s, P.DoRecheck(4), P.Recheck(s.p, 4));
    s := Advance(h, r, s, P.DoUnlink(4), P.Unlink(s.p, 4));
  }

  lemma MarkEnds(p: P.State)
    requires p == Calm(map[D := UNREFERENCED], map[], p.bytes).(rowLock := map[D := 3], txs := map[3 := MARKED])
    ensures P.Next(p, P.Commit(3)) == Calm(map[D := TOMBSTONE], map[], p.bytes)
  {
    var q := P.Next(p, P.Commit(3));
    assert q.txs == map[];
    assert q.db.blobs == map[D := TOMBSTONE];
    assert q.db.objects == map[];
  }

  lemma ReversedPublish(h: Hash, r: Sys -> bool, s0: Sys) returns (s: Sys)
    requires Closed(h, r) && Initial(s0) && r(s0) && WellFormed(h, s0.cache)
    ensures |s.cache| == LRU_SHARDS && r(s) && s.publishing == map[]
    ensures var e := CachedEntry(h, s.cache, K);
            e.Some? && e.value.meta.present && e.value.meta.digest !in s.p.bytes
  {
    s := PutUntilCommitted(h, r, s0, map[]);
    s := DeleteCommits(h, r, s);
    s := PublishOne(h, r, s, 2, NEGATIVE);
    s := PublishOne(h, r, s, 1, POSITIVE);
    assert s.publishing == map[];
    s := GcUnlinks(h, r, s);
  }

  /**
   A PUT commits, a Delete of the same key commits, the Delete publishes, and only then
   the PUT does: the positive entry stays, the GC reaps the bytes, and a Get served from
   the cache is dangling metadata.
   */
  lemma ReversedPublishDangles(h: Hash, s0: Sys) returns (s: Sys)
    requires Initial(s0)
    ensures |s.cache| == LRU_SHARDS && Reachable(h, s) && !Publisher(s, K)
    ensures var e := CachedEntry(h, s.cache, K);
            e.Some? && e.value.meta.present && e.value.meta.digest !in s.p.bytes
  {
    var r := ReachableSet(h, s0);
    s := ReversedPublish(h, r, s0);
  }

  // ---- a fill ----------------------------------------------------------------

  lemma StartedFill(h: Hash, r: Sys -> bool, s0: Sys) returns (s: Sys)
    requires Closed(h, r) && Initial(s0) && r(s0)
    ensures r(s) && s == s0.(fills := map[0 := Fill(K, s0.cache[ShardOf(h, K)].gen, Some(NEGATIVE))])
  {
    Extend(h, r, s0, StartFill(0, K));
    s := Next(h, s0, StartFill(0, K));
    Extend(h, r, s, AskDb(0, 0));
    s := Next(h, s, AskDb(0, 0));
    assert s.fills == map[0 := Fill(K, s0.cache[ShardOf(h, K)].gen, Some(NEGATIVE))];
  }

  /** A fill that nothing overtakes lands, and the next lookup is answered from memory. */
  lemma FillLands(h: Hash, s0: Sys) returns (s: Sys)
    requires Initial(s0)
    ensures |s.cache| == LRU_SHARDS && Reachable(h, s) && s.p == s0.p
    ensures CachedEntry(h, s.cache, K).Some? && CachedEntry(h, s.cache, K).value.meta == NEGATIVE
  {
    var r := ReachableSet(h, s0);
    s := StartedFill(h, r, s0);
    s := Landed(h, r, s);
  }

  lemma Landed(h: Hash, r: Sys -> bool, s0: Sys) returns (s: Sys)
    requires Closed(h, r) && WellFormed(h, s0.cache) && r(s0)
    requires 0 in s0.fills && s0.fills[0] == Fill(K, s0.cache[ShardOf(h, K)].gen, Some(NEGATIVE))
    ensures |s.cache| == LRU_SHARDS && r(s) && s.p == s0.p
    ensures CachedEntry(h, s.cache, K).Some? && CachedEntry(h, s.cache, K).value.meta == NEGATIVE
  {
    var i := ShardOf(h, K);
    LandOk(h, s0.cache, K, NEGATIVE, s0.cache[i].gen, 0);
    ShardUpdate(h, s0.cache, i, L.PutIfUnchanged(s0.cache[i], K, NEGATIVE, s0.cache[i].gen, 0).0);
    L.LookupInsert(s0.cache[i].entries, s0.cache[i].cap, K, NEGATIVE, 0, K);
    Extend(h, r, s0, LandFill(0, 0));
    s := Next(h, s0, LandFill(0, 0));
  }

  // ---- a commit whose answer is lost ---------------------------------------

  lemma LostDelete(h: Hash, r: Sys -> bool, s0: Sys) returns (s: Sys)
    requires Closed(h, r) && Initial(s0) && r(s0) && WellFormed(h, s0.cache)
    ensures |s.cache| == LRU_SHARDS && r(s) && s.publishing == map[]
    ensures var e := CachedEntry(h, s.cache, K);
            e.Some? && e.value.meta.present && e.value.meta.digest !in s.p.bytes
  {
    s := PutUntilCommitted(h, r, s0, map[]);
    s := PublishOne(h, r, s, 1, POSITIVE);
    assert s.publishing == map[];
    s := DeleteRuns(h, r, s);
    DeleteEnds(s.p);
    Extend(h, r, s, CommitLost(2));
    s := Next(h, s, CommitLost(2));
    s := GcUnlinks(h, r, s);
  }

  /**
   A Delete commits, the connection goes before the answer comes back, and the Delete returns
   an error without a publish: the positive entry outlives the row and, once the GC has run,
   the bytes.
   */
  lemma LostCommitDangles(h: Hash, s0: Sys) returns (s: Sys)
    requires Initial(s0)
    ensures |s.cache| == LRU_SHARDS && Reachable(h, s) && !Publisher(s, K)
    ensures var e := CachedEntry(h, s.cache, K);
            e.Some? && e.value.meta.present && e.value.meta.digest !in s.p.bytes
  {
    var r := ReachableSet(h, s0);
    s := LostDelete(h, r, s0);
  }

  lemma PublishOne(h: Hash, r: Sys -> bool, s0: Sys, t: Tid, meta: L.Meta) returns (s: Sys)
    requires Closed(h, r) && WellFormed(h, s0.cache) && r(s0)
    requires t in s0.publishing && s0.publishing[t] == Assert(K, meta)
    ensures r(s) && WellFormed(h, s.cache)
    ensures s.p == s0.p && s.publishing == s0.publishing - {t}
    ensures CachedEntry(h, s.cache, K).Some? && CachedEntry(h, s.cache, K).value.meta == meta
  {
    var i := ShardOf(h, K);
    PutOk(h, s0.cache, K, meta);
    ShardUpdate(h, s0.cache, i, L.Put(s0.cache[i], K, meta));
    L.LookupInsert(s0.cache[i].entries, s0.cache[i].cap, K, meta, 0, K);
    Extend(h, r, s0, Publish(t));
    s := Next(h, s0, Publish(t));
  }
}
