/**
 The metadata cache in front of the storage protocol.

 A writer commits first and publishes to the cache afterwards; a lookup that misses
 captures the shard's write generation, asks the database, and lands its answer only
 if the generation has not moved. All of these interleave freely.
 */
module Coherence {
  import opened Types
  import P = BlobProtocol
  import L = Lru
  import opened LruCaches

  /** What a committed writer still owes the cache. */
  datatype Publication =
    | Assert(key: Key, meta: L.Meta)   // lru.put: a PUT that created its row, or a Delete
    | Forget(keys: seq<Key>)           // lru.del / lru.delBatch: anything else

  /** An in-flight database fill. */
  datatype Fill = Fill(key: Key, seen: nat, answer: Option<L.Meta>)

  datatype Sys = Sys(
    p: P.State,
    cache: seq<L.Shard>,
    fills: map<nat, Fill>,
    publishing: map<Tid, Publication>)

  const NEGATIVE := L.Meta(false, 0, 0, 0, "")

  function MetaOf(objects: map<Key, P.Row>, k: Key, at: int): L.Meta {
    if k in objects then L.Meta(true, objects[k].digest, objects[k].size, at, objects[k].contentType) else NEGATIVE
  }

  /** Agreement is on presence, digest, size and content type; `updatedAt` is the writer's own clock. */
  predicate Agrees(meta: L.Meta, objects: map<Key, P.Row>, k: Key) {
    meta.(updatedAt := 0) == MetaOf(objects, k, 0)
  }

  /** Service.cache after a PUT; a negative entry after a Delete; a drop after a batch. */
  function PublicationOf(job: P.Job, at: int): Option<Publication> {
    match job
    case Put(a, Recorded(true)) => Some(Assert(a.key, L.Meta(true, a.digest, a.size, at, a.contentType)))
    case Put(a, Recorded(false)) => Some(Forget([a.key]))
    case Delete(touched, batch) =>
      if batch || touched == [] then Some(Forget(touched)) else Some(Assert(touched[0], NEGATIVE))
    case _ => None
  }

  predicate Covers(pub: Publication, k: Key) {
    match pub
    case Assert(key, _) => key == k
    case Forget(keys) => k in keys
  }

  function NotOfShard(h: Hash, ks: seq<Key>, i: nat): seq<Key> {
    if ks == [] then []
    else (if ShardOf(h, ks[0]) == i then [] else [ks[0]]) + NotOfShard(h, ks[1..], i)
  }

  // ---- steps ---------------------------------------------------------------

  datatype Step =
    | Storage(step: P.Step)
    | CommitWriter(t: Tid, at: int)
    | CommitLost(t: Tid)              // committed, but the answer was lost: the writer publishes nothing
    | Publish(t: Tid)                 // a single put
    | PublishShard(t: Tid, i: nat)    // one shard's slice of a drop
    | StartFill(f: nat, k: Key)
    | AskDb(f: nat, at: int)
    | LandFill(f: nat, now: int)
    | DropFill(f: nat)
    | Hit(k: Key, now: int)
    | ClearMarks(i: nat, marks: seq<L.TouchMark>)
    | Invalidate(i: nat, ks: seq<Key>)
    | Crash

  predicate Enabled(h: Hash, s: Sys, step: Step)
    requires |s.cache| == LRU_SHARDS
  {
    match step
    case Storage(st) =>
      && !st.Commit? && !st.Crash? && P.Enabled(s.p, st)
      && (st.Begin? ==> st.t !in s.publishing)
    case CommitWriter(t, _) => P.Enabled(s.p, P.Commit(t)) && t !in s.publishing
    case CommitLost(t) => P.Enabled(s.p, P.Commit(t)) && t !in s.publishing
    case Publish(t) => t in s.publishing && s.publishing[t].Assert?
    case PublishShard(t, i) =>
      i < LRU_SHARDS && t in s.publishing && s.publishing[t].Forget? && KeysOfShard(h, s.publishing[t].keys, i) != []
    case StartFill(f, _) => f !in s.fills
    case AskDb(f, _) => f in s.fills && s.fills[f].answer.None?
    case LandFill(f, now) => f in s.fills && s.fills[f].answer.Some?
    case DropFill(f) => f in s.fills
    case Hit(_, _) => true
    case ClearMarks(i, _) => i < LRU_SHARDS
    case Invalidate(i, _) => i < LRU_SHARDS
    case Crash => true
  }

  function Unpublish(publishing: map<Tid, Publication>, t: Tid, rest: seq<Key>): map<Tid, Publication> {
    if rest == [] then publishing - {t} else publishing[t := Forget(rest)]
  }

  function Next(h: Hash, s: Sys, step: Step): (s': Sys)
    requires |s.cache| == LRU_SHARDS && Enabled(h, s, step)
    ensures |s'.cache| == LRU_SHARDS
  {
    match step
    case Storage(st) => s.(p := P.Next(s.p, st))
    case CommitWriter(t, at) =>
      var pub := PublicationOf(s.p.txs[t].job, at);
      s.(p := P.Next(s.p, P.Commit(t)),
         publishing := if pub.Some? then s.publishing[t := pub.value] else s.publishing)
    case CommitLost(t) => s.(p := P.Next(s.p, P.Commit(t)))
    case Publish(t) =>
      var Assert(k, meta) := s.publishing[t];
      var i := ShardOf(h, k);
      s.(cache := s.cache[i := L.Put(s.cache[i], k, meta)], publishing := s.publishing - {t})
    case PublishShard(t, i) =>
      var keys := s.publishing[t].keys;
      s.(cache := s.cache[i := L.DelAll(s.cache[i], KeysOfShard(h, keys, i))],
         publishing := Unpublish(s.publishing, t, NotOfShard(h, keys, i)))
    case StartFill(f, k) => s.(fills := s.fills[f := Fill(k, s.cache[ShardOf(h, k)].gen, None)])
    case AskDb(f, at) => s.(fills := s.fills[f := s.fills[f].(answer := Some(MetaOf(s.p.db.objects, s.fills[f].key, at)))])
    case LandFill(f, now) =>
      var Fill(k, seen, answer) := s.fills[f];
      var i := ShardOf(h, k);
      s.(cache := s.cache[i := L.PutIfUnchanged(s.cache[i], k, answer.value, seen, now).0], fills := s.fills - {f})
    case DropFill(f) => s.(fills := s.fills - {f})
    case Hit(k, now) =>
      var i := ShardOf(h, k);
      s.(cache := s.cache[i := L.Get(s.cache[i], k, now).0])
    case ClearMarks(i, marks) =>
      s.(cache := s.cache[i := s.cache[i].(entries := L.ClearAll(s.cache[i].entries, marks))])
    case Invalidate(i, ks) => s.(cache := s.cache[i := L.DelAll(s.cache[i], ks)])
    case Crash =>
      Sys(P.Next(s.p, P.Crash), seq(LRU_SHARDS, i requires 0 <= i < |s.cache| => L.Shard([], s.cache[i].cap, 0)), map[], map[])
  }

  ghost predicate Initial(s: Sys) {
    && s.p == P.INIT && s.fills == map[] && s.publishing == map[]
    && |s.cache| == LRU_SHARDS
    && forall i :: 0 <= i < LRU_SHARDS ==> s.cache[i].entries == [] && s.cache[i].cap >= 1
  }

  ghost predicate IsRun(h: Hash, states: seq<Sys>, steps: seq<Step>) {
    && |states| == |steps| + 1
    && Initial(states[0])
    && (forall i :: 0 <= i < |states| ==> |states[i].cache| == LRU_SHARDS)
    && forall i :: 0 <= i < |steps| ==>
         Enabled(h, states[i], steps[i]) && states[i + 1] == Next(h, states[i], steps[i])
  }

  // ---- what holds ----------------------------------------------------------

  /** Some writer of `k` has committed and not yet published. */
  ghost predicate Publisher(s: Sys, k: Key) {
    exists t :: t in s.publishing && Covers(s.publishing[t], k)
  }

  /** Whenever no writer of a key sits between commit and publish, a cached entry for it agrees with the table. */
  ghost predicate Coherent(h: Hash, s: Sys)
    requires |s.cache| == LRU_SHARDS
  {
    forall k ::
      CachedEntry(h, s.cache, k).Some? && !Publisher(s, k) ==>
        Agrees(CachedEntry(h, s.cache, k).value.meta, s.p.db.objects, k)
  }

  /** A fill whose generation is still current saw the current row or is about to be overtaken. */
  ghost predicate FillOk(h: Hash, s: Sys, fill: Fill)
    requires |s.cache| == LRU_SHARDS
  {
    var gen := s.cache[ShardOf(h, fill.key)].gen;
    && fill.seen <= gen
    && (fill.answer.Some? && fill.seen == gen && !Publisher(s, fill.key) ==>
          Agrees(fill.answer.value, s.p.db.objects, fill.key))
  }

  /** The keys a transaction's object statements have reached. */
  function Reached(job: P.Job): seq<Key> {
    match job
    case Put(a, Recorded(_)) => [a.key]
    case Delete(touched, _) => touched
    case _ => []
  }

  ghost predicate WritesWithin(p: P.State) {
    forall t :: t in p.txs ==> forall k :: k in p.txs[t].w.objects ==> k in Reached(p.txs[t].job)
  }

  /** A Delete that is no batch reaches one row. */
  ghost predicate SingleDeletes(p: P.State) {
    forall t :: t in p.txs && p.txs[t].job.Delete? && !p.txs[t].job.batch ==> |p.txs[t].job.touched| <= 1
  }

  ghost predicate CacheInv(h: Hash, s: Sys) {
    && WellFormed(h, s.cache)
    && WritesWithin(s.p)
    && SingleDeletes(s.p)
    && Coherent(h, s)
  }

  ghost predicate FillsOk(h: Hash, s: Sys)
    requires |s.cache| == LRU_SHARDS
  {
    forall f :: f in s.fills ==> FillOk(h, s, s.fills[f])
  }

  /**
   A single put is timely when the row it describes is still the current one, or when another
   writer of the key has yet to publish; a fill that lands, when its answer is still the row or
   a writer of the key has yet to publish; a commit whose answer is lost, when nothing is cached
   of the rows it changed but what agrees or will be overwritten. Every other step is timely.
   */
  ghost predicate Timely(h: Hash, s: Sys, step: Step)
    requires |s.cache| == LRU_SHARDS
  {
    match step
    case Publish(t) => t in s.publishing && s.publishing[t].Assert? ==> TimelyPut(s, t)
    case LandFill(f, _) => f in s.fills && s.fills[f].answer.Some? ==> TimelyLanding(h, s, s.fills[f])
    case CommitLost(t) => t in s.p.txs ==> TimelyLoss(h, s, s.p.txs[t].w)
    case _ => true
  }

  ghost predicate TimelyPut(s: Sys, t: Tid)
    requires t in s.publishing && s.publishing[t].Assert?
  {
    var Assert(k, meta) := s.publishing[t];
    Agrees(meta, s.p.db.objects, k) || OtherPublisher(s, t, k)
  }

  ghost predicate OtherPublisher(s: Sys, t: Tid, k: Key) {
    exists u :: u in s.publishing && u != t && Covers(s.publishing[u], k)
  }

  ghost predicate TimelyLanding(h: Hash, s: Sys, fill: Fill)
    requires |s.cache| == LRU_SHARDS && fill.answer.Some?
  {
    fill.seen == s.cache[ShardOf(h, fill.key)].gen && !Publisher(s, fill.key) ==>
      Agrees(fill.answer.value, s.p.db.objects, fill.key)
  }

  ghost predicate TimelyLoss(h: Hash, s: Sys, w: P.Writes)
    requires |s.cache| == LRU_SHARDS
  {
    forall k :: k in w.objects && CachedEntry(h, s.cache, k).Some? && !Publisher(s, k) ==>
      Agrees(CachedEntry(h, s.cache, k).value.meta, P.View(s.p.db, w).objects, k)
  }
}
