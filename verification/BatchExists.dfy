/** FindMissingBlobs: one answer per position from the cache and one query per (backend, namespace). */
module BatchExists {
  import opened Types
  import opened Lru
  import opened LruCaches
  import opened CacheKey

  datatype Ref = Ref(backend: int, namespace: string, key: string)

  datatype GroupKey = GroupKey(backend: int, namespace: string)

  /** A cache_objects row as the query returns it; `digest` is None when its bytes do not decode. */
  datatype Row = Row(digest: Option<Digest>, size: nat, updatedAt: int, contentType: string)

  /** The table, and the groups whose query returns an error. */
  datatype Database = Database(rows: map<Ref, Row>, down: set<GroupKey>)

  /** One missed key: where it goes in the cache, the generation before the query, and who asked. */
  datatype PendingKey = PendingKey(ck: Key, seen: nat, indices: seq<nat>)

  type Groups = map<GroupKey, map<string, PendingKey>>

  const NOTHING := Database(map[], {})

  const ABSENT := Meta(false, 0, 0, 0, "")

  function CacheKeyOf(r: Ref): Key {
    Compose(r.backend, r.namespace, r.key)
  }

  function GroupOf(r: Ref): GroupKey {
    GroupKey(r.backend, r.namespace)
  }

  function RefIn(g: GroupKey, key: string): Ref {
    Ref(g.backend, g.namespace, key)
  }

  function MetaOf(row: Row): Meta
    requires row.digest.Some?
  {
    Meta(true, row.digest.value, row.size, row.updatedAt, row.contentType)
  }

  // ---- a single lookup -----------------------------------------------------

  predicate Missed(h: Hash, c: seq<Shard>, r: Ref)
    requires |c| == LRU_SHARDS
  {
    CachedEntry(h, c, CacheKeyOf(r)).None?
  }

  /** The query for `r` alone would fail. */
  predicate Broken(db: Database, r: Ref) {
    GroupOf(r) in db.down || (r in db.rows && db.rows[r].digest.None?)
  }

  /** What Exists answers for `r` alone: the cached entry, else the row. */
  predicate Exists(h: Hash, c: seq<Shard>, db: Database, r: Ref)
    requires |c| == LRU_SHARDS
  {
    var e := CachedEntry(h, c, CacheKeyOf(r));
    if e.Some? then e.value.meta.present else r in db.rows
  }

  /** What the database says of `r`, as it is cached; negative answers are cached too. */
  function Found(db: Database, r: Ref): Meta {
    if r in db.rows && db.rows[r].digest.Some? then MetaOf(db.rows[r]) else ABSENT
  }

  // ---- what a batch does to the cache --------------------------------------

  function Looked(h: Hash, c: seq<Shard>, k: Key, now: int): (r: seq<Shard>)
    requires |c| == LRU_SHARDS
    ensures |r| == LRU_SHARDS
  {
    c[ShardOf(h, k) := Lru.Get(c[ShardOf(h, k)], k, now).0]
  }

  /** The scan: one LRU lookup per position, in order. */
  function Scanned(h: Hash, c: seq<Shard>, refs: seq<Ref>, now: int): (r: seq<Shard>)
    requires |c| == LRU_SHARDS
    ensures |r| == LRU_SHARDS
  {
    if refs == [] then c
    else Looked(h, Scanned(h, c, refs[..|refs| - 1], now), CacheKeyOf(refs[|refs| - 1]), now)
  }

  /** A fill that landed. */
  function FillOne(h: Hash, c: seq<Shard>, k: Key, meta: Meta, now: int): (r: seq<Shard>)
    requires |c| == LRU_SHARDS
    ensures |r| == LRU_SHARDS
  {
    var i := ShardOf(h, k);
    c[i := c[i].(entries := Insert(c[i].entries, c[i].cap, k, meta, if meta.present then now else 0))]
  }

  /** The fills of `order`, one after the other, every one of them landed. */
  function Filled(h: Hash, c: seq<Shard>, db: Database, order: seq<Ref>, now: int): (r: seq<Shard>)
    requires |c| == LRU_SHARDS
    ensures |r| == LRU_SHARDS
  {
    if order == [] then c
    else
      var r := order[|order| - 1];
      FillOne(h, Filled(h, c, db, order[..|order| - 1], now), CacheKeyOf(r), Found(db, r), now)
  }

  ghost predicate SameGens(c: seq<Shard>, d: seq<Shard>) {
    |c| == |d| && forall i :: 0 <= i < |c| ==> c[i].gen == d[i].gen
  }

  /** A lookup moves entries and stamps them; it neither adds nor removes one, nor changes an answer. */
  lemma {:induction false} ScannedAnswers(h: Hash, c: seq<Shard>, refs: seq<Ref>, now: int, k: Key)
    requires |c| == LRU_SHARDS
    ensures var e, e' := CachedEntry(h, c, k), CachedEntry(h, Scanned(h, c, refs, now), k);
            e.Some? == e'.Some? && (e.Some? ==> e'.value.meta == e.value.meta)
    ensures SameGens(c, Scanned(h, c, refs, now))
  {
    if refs != [] {
      var front, ck := refs[..|refs| - 1], CacheKeyOf(refs[|refs| - 1]);
      ScannedAnswers(h, c, front, now, k);
      var d := Scanned(h, c, front, now);
      var e := CachedEntry(h, d, ck);
      if e.Some? {
        LookupKey(d[ShardOf(h, ck)].entries, ck);
        LookupHit(d[ShardOf(h, ck)].entries, e.value, now, k);
      }
    }
  }

  lemma {:induction false} FilledGens(h: Hash, c: seq<Shard>, db: Database, order: seq<Ref>, now: int)
    requires |c| == LRU_SHARDS
    ensures SameGens(c, Filled(h, c, db, order, now))
  {
    if order != [] { FilledGens(h, c, db, order[..|order| - 1], now); }
  }

  lemma FillNext(h: Hash, c: seq<Shard>, db: Database, order: seq<Ref>, r: Ref, now: int)
    requires |c| == LRU_SHARDS
    ensures Filled(h, c, db, order + [r], now) ==
            FillOne(h, Filled(h, c, db, order, now), CacheKeyOf(r), Found(db, r), now)
  {
    assert (order + [r])[..|order|] == order;
  }

  // ---- the residue ---------------------------------------------------------

  ghost predicate Asked(groups: Groups, r: Ref) {
    GroupOf(r) in groups && r.key in groups[GroupOf(r)]
  }

  /** `p` carries the key's generation in `c` and exactly the positions that asked for it. */
  ghost predicate PendingOk(h: Hash, c: seq<Shard>, refs: seq<Ref>, r: Ref, p: PendingKey)
    requires |c| == LRU_SHARDS
  {
    && p.ck == CacheKeyOf(r) && p.seen == c[ShardOf(h, p.ck)].gen
    && (forall j :: j in p.indices ==> j < |refs| && refs[j] == r)
    && (forall j :: 0 <= j < |refs| && refs[j] == r ==> j in p.indices)
  }

  /** The groups hold exactly the missed refs. */
  ghost predicate Residue(h: Hash, c: seq<Shard>, refs: seq<Ref>, groups: Groups)
    requires |c| == LRU_SHARDS
  {
    && (forall r :: Asked(groups, r) <==> r in refs && Missed(h, c, r))
    && (forall r :: Asked(groups, r) ==> PendingOk(h, c, refs, r, groups[GroupOf(r)][r.key]))
    && (forall g :: g in groups ==> groups[g] != map[])
  }

  function Pend(groups: Groups, r: Ref, seen: nat, i: nat): Groups {
    var g := GroupOf(r);
    var byKey := if g in groups then groups[g] else map[];
    var p := if r.key in byKey then byKey[r.key] else PendingKey(CacheKeyOf(r), seen, []);
    groups[g := byKey[r.key := p.(indices := p.indices + [i])]]
  }

  lemma PendAsked(groups: Groups, r: Ref, seen: nat, i: nat, q: Ref)
    ensures Asked(Pend(groups, r, seen, i), q) <==> Asked(groups, q) || q == r
    ensures q != r && Asked(groups, q) ==>
              Pend(groups, r, seen, i)[GroupOf(q)][q.key] == groups[GroupOf(q)][q.key]
  {
  }

  lemma PendKeeps(h: Hash, c: seq<Shard>, refs: seq<Ref>, groups: Groups, r: Ref)
    requires |c| == LRU_SHARDS && Residue(h, c, refs, groups) && Missed(h, c, r)
    ensures Residue(h, c, refs + [r], Pend(groups, r, c[ShardOf(h, CacheKeyOf(r))].gen, |refs|))
  {
    var seen := c[ShardOf(h, CacheKeyOf(r))].gen;
    var groups' := Pend(groups, r, seen, |refs|);
    var was := if Asked(groups, r) then groups[GroupOf(r)][r.key].indices else [];
    forall q
      ensures Asked(groups', q) <==> q in refs + [r] && Missed(h, c, q)
      ensures Asked(groups', q) ==> PendingOk(h, c, refs + [r], q, groups'[GroupOf(q)][q.key])
    {
      PendAsked(groups, r, seen, |refs|, q);
      if Asked(groups', q) {
        var p := groups'[GroupOf(q)][q.key];
        if q == r {
          assert p.indices == was + [|refs|];
          forall j | 0 <= j < |refs + [r]| && (refs + [r])[j] == r ensures j in p.indices {
            if j == |refs| { assert p.indices[|was|] == j; } else { assert refs[j] == r; assert j in was; }
          }
        } else {
          assert PendingOk(h, c, refs, q, p);
          assert (refs + [r])[|refs|] != q;
        }
      }
    }
  }

  lemma HitKeeps(h: Hash, c: seq<Shard>, refs: seq<Ref>, groups: Groups, r: Ref)
    requires |c| == LRU_SHARDS && Residue(h, c, refs, groups) && !Missed(h, c, r)
    ensures Residue(h, c, refs + [r], groups)
  {
    forall q | Asked(groups, q) ensures PendingOk(h, c, refs + [r], q, groups[GroupOf(q)][q.key]) {
      assert PendingOk(h, c, refs, q, groups[GroupOf(q)][q.key]);
      assert (refs + [r])[|refs|] != q;
    }
  }

  // ---- the answers ---------------------------------------------------------

  /** The answer at a position once the fills of `order` are in. */
  predicate Resolved(h: Hash, c: seq<Shard>, db: Database, order: seq<Ref>, r: Ref)
    requires |c| == LRU_SHARDS
  {
    if Missed(h, c, r) then r in order && r in db.rows else Exists(h, c, db, r)
  }

  ghost predicate OutOk(h: Hash, c: seq<Shard>, db: Database, refs: seq<Ref>, order: seq<Ref>, out: seq<bool>)
    requires |c| == LRU_SHARDS
  {
    |out| == |refs| && forall j :: 0 <= j < |refs| ==> out[j] == Resolved(h, c, db, order, refs[j])
  }

  ghost predicate NoTwice(order: seq<Ref>) {
    forall i, j :: 0 <= i < j < |order| ==> order[i] != order[j]
  }

  /** One position: the LRU lookup, and on a miss the shard's generation before any query. */
  method LookUp(lru: LruCache, r: Ref, now: int, ghost c: seq<Shard>, ghost done: seq<Ref>)
    returns (present: Option<bool>, seen: nat)
    requires lru.Valid() && now != 0 && |c| == LRU_SHARDS
    requires lru.Model() == Scanned(lru.hash, c, done, now)
    modifies lru.shards
    ensures lru.Valid() && lru.Model() == Scanned(lru.hash, c, done + [r], now)
    ensures present.None? <==> Missed(lru.hash, c, r)
    ensures present.Some? ==> present.value == Exists(lru.hash, c, NOTHING, r)
    ensures present.None? ==> seen == c[ShardOf(lru.hash, CacheKeyOf(r))].gen
  {
    var ck := CacheKeyOf(r);
    ScannedAnswers(lru.hash, c, done, now, ck);
    assert (done + [r])[..|done|] == done;
    var meta := lru.Get(ck, now);
    present, seen := None, 0;
    if meta.Some? {
      present := Some(meta.value.present);
    } else {
      seen := lru.Seq(ck);
    }
  }

  lemma TakeNext<T>(a: seq<T>, i: nat)
    requires i < |a|
    ensures a[..i + 1] == a[..i] + [a[i]]
  {
  }

  /** Answered up to `i`, false from there on. */
  ghost predicate OutTo(h: Hash, c: seq<Shard>, refs: seq<Ref>, i: nat, out: seq<bool>)
    requires |c| == LRU_SHARDS && i <= |refs|
  {
    && |out| == |refs|
    && (forall j :: 0 <= j < i ==> out[j] == Resolved(h, c, NOTHING, [], refs[j]))
    && (forall j :: i <= j < |refs| ==> !out[j])
  }

  lemma OutNext(h: Hash, c: seq<Shard>, refs: seq<Ref>, i: nat, out: seq<bool>)
    requires |c| == LRU_SHARDS && i < |refs| && OutTo(h, c, refs, i, out)
    ensures OutTo(h, c, refs, i + 1, out[i := Resolved(h, c, NOTHING, [], refs[i])])
  {
  }

  /** Where the scan stands after `i` positions. */
  ghost predicate ScanTo(h: Hash, c: seq<Shard>, refs: seq<Ref>, i: nat, now: int,
                         out: seq<bool>, groups: Groups, model: seq<Shard>)
    requires |c| == LRU_SHARDS && i <= |refs|
  {
    && model == Scanned(h, c, refs[..i], now)
    && Residue(h, c, refs[..i], groups)
    && OutTo(h, c, refs, i, out)
  }

  lemma ScanHit(h: Hash, c: seq<Shard>, refs: seq<Ref>, i: nat, now: int,
                out: seq<bool>, groups: Groups, model: seq<Shard>, model': seq<Shard>, present: bool)
    requires |c| == LRU_SHARDS && i < |refs| && ScanTo(h, c, refs, i, now, out, groups, model)
    requires model' == Scanned(h, c, refs[..i] + [refs[i]], now)
    requires !Missed(h, c, refs[i]) && present == Exists(h, c, NOTHING, refs[i])
    ensures ScanTo(h, c, refs, i + 1, now, out[i := present], groups, model')
  {
    TakeNext(refs, i);
    OutNext(h, c, refs, i, out);
    HitKeeps(h, c, refs[..i], groups, refs[i]);
  }

  lemma ScanMiss(h: Hash, c: seq<Shard>, refs: seq<Ref>, i: nat, now: int,
                 out: seq<bool>, groups: Groups, model: seq<Shard>, model': seq<Shard>)
    requires |c| == LRU_SHARDS && i < |refs| && ScanTo(h, c, refs, i, now, out, groups, model)
    requires model' == Scanned(h, c, refs[..i] + [refs[i]], now)
    requires Missed(h, c, refs[i])
    ensures ScanTo(h, c, refs, i + 1, now, out,
                   Pend(groups, refs[i], c[ShardOf(h, CacheKeyOf(refs[i]))].gen, i), model')
  {
    TakeNext(refs, i);
    OutNext(h, c, refs, i, out);
    assert out == out[i := false];
    PendKeeps(h, c, refs[..i], groups, refs[i]);
  }

  lemma ScanEnds(h: Hash, c: seq<Shard>, refs: seq<Ref>, now: int, out: seq<bool>, groups: Groups, model: seq<Shard>)
    requires |c| == LRU_SHARDS
    ensures ScanTo(h, c, refs, 0, now, seq(|refs|, i => false), map[], c)
    ensures ScanTo(h, c, refs, |refs|, now, out, groups, model) ==>
              && model == Scanned(h, c, refs, now) && Residue(h, c, refs, groups)
              && OutOk(h, c, NOTHING, refs, [], out)
  {
    assert refs[..|refs|] == refs;
  }

  /** One turn of the scan loop. */
  method ScanOne(lru: LruCache, refs: seq<Ref>, i: nat, now: int, out0: seq<bool>, groups0: Groups, ghost c: seq<Shard>)
    returns (out: seq<bool>, groups: Groups)
    requires lru.Valid() && now != 0 && |c| == LRU_SHARDS && i < |refs|
    requires ScanTo(lru.hash, c, refs, i, now, out0, groups0, lru.Model())
    modifies lru.shards
    ensures lru.Valid() && ScanTo(lru.hash, c, refs, i + 1, now, out, groups, lru.Model())
  {
    ghost var model := lru.Model();
    var present, seen := LookUp(lru, refs[i], now, c, refs[..i]);
    if present.Some? {
      ScanHit(lru.hash, c, refs, i, now, out0, groups0, model, lru.Model(), present.value);
      out, groups := out0[i := present.value], groups0;
    } else {
      ScanMiss(lru.hash, c, refs, i, now, out0, groups0, model, lru.Model());
      out, groups := out0, Pend(groups0, refs[i], seen, i);
    }
  }

  /** The scan loop. */
  method Scan(lru: LruCache, refs: seq<Ref>, now: int) returns (out: seq<bool>, groups: Groups)
    requires lru.Valid() && now != 0
    modifies lru.shards
    ensures lru.Valid() && lru.Model() == Scanned(lru.hash, old(lru.Model()), refs, now)
    ensures Residue(lru.hash, old(lru.Model()), refs, groups)
    ensures OutOk(lru.hash, old(lru.Model()), NOTHING, refs, [], out)
  {
    ghost var c := lru.Model();
    out, groups := seq(|refs|, i => false), map[];
    ScanEnds(lru.hash, c, refs, now, out, groups, c);
    var i := 0;
    while i < |refs|
      invariant 0 <= i <= |refs| && lru.Valid()
      invariant ScanTo(lru.hash, c, refs, i, now, out, groups, lru.Model())
    {
      out, groups := ScanOne(lru, refs, i, now, out, groups, c);
      i := i + 1;
    }
    ScanEnds(lru.hash, c, refs, now, out, groups, lru.Model());
  }

  // ---- the queries and the fills -------------------------------------------

  /** Where a batch stands: the cache is the scanned one with the fills of `order`, each of a distinct missed ref. */
  ghost predicate Progress(h: Hash, c: seq<Shard>, db: Database, refs: seq<Ref>, now: int,
                           order: seq<Ref>, out: seq<bool>, model: seq<Shard>)
    requires |c| == LRU_SHARDS
  {
    && model == Filled(h, Scanned(h, c, refs, now), db, order, now)
    && OutOk(h, c, db, refs, order, out)
    && NoTwice(order) && (forall r :: r in order ==> r in refs && Missed(h, c, r))
  }

  /** No fill of the batch invalidates another: every generation is still the captured one, so this fill lands. */
  method Land(lru: LruCache, p: PendingKey, meta: Meta, now: int,
              ghost c: seq<Shard>, ghost db: Database, ghost refs: seq<Ref>, ghost order: seq<Ref>, ghost r: Ref)
    requires lru.Valid() && |c| == LRU_SHARDS
    requires lru.Model() == Filled(lru.hash, Scanned(lru.hash, c, refs, now), db, order, now)
    requires PendingOk(lru.hash, c, refs, r, p) && meta == Found(db, r)
    modifies lru.shards
    ensures lru.Valid()
    ensures lru.Model() == Filled(lru.hash, Scanned(lru.hash, c, refs, now), db, order + [r], now)
  {
    ScannedAnswers(lru.hash, c, refs, now, p.ck);
    FilledGens(lru.hash, Scanned(lru.hash, c, refs, now), db, order, now);
    FillNext(lru.hash, Scanned(lru.hash, c, refs, now), db, order, r, now);
    var landed := lru.PutIfUnchanged(p.ck, meta, p.seen, now);
    assert landed;
  }

  /** `out[i] = true` for every position that asked. */
  method SetTrue(out0: seq<bool>, indices: seq<nat>) returns (out: seq<bool>)
    requires forall i :: i in indices ==> i < |out0|
    ensures |out| == |out0| && forall j :: 0 <= j < |out| ==> out[j] == (out0[j] || j in indices)
  {
    out := out0;
    var n := 0;
    while n < |indices|
      invariant 0 <= n <= |indices| && |out| == |out0|
      invariant forall j :: 0 <= j < |out| ==> out[j] == (out0[j] || j in indices[..n])
    {
      assert indices[n] in indices;
      TakeNext(indices, n);
      out := out[indices[n] := true];
      n := n + 1;
    }
    assert indices[..n] == indices;
  }

  lemma OutFilled(h: Hash, c: seq<Shard>, db: Database, refs: seq<Ref>, order: seq<Ref>, out: seq<bool>,
                  r: Ref, p: PendingKey, out': seq<bool>)
    requires |c| == LRU_SHARDS && OutOk(h, c, db, refs, order, out)
    requires PendingOk(h, c, refs, r, p) && Missed(h, c, r)
    requires |out'| == |out| && forall j :: 0 <= j < |out| ==> out'[j] == (out[j] || (r in db.rows && j in p.indices))
    ensures OutOk(h, c, db, refs, order + [r], out')
  {
    forall j | 0 <= j < |refs| ensures out'[j] == Resolved(h, c, db, order + [r], refs[j]) {
      assert refs[j] in order + [r] <==> refs[j] in order || refs[j] == r;
    }
  }

  /** The rows of one query: of the asked keys exactly those that exist, each once, in any order. */
  ghost predicate Replied(db: Database, g: GroupKey, keys: set<string>, rows: seq<(string, Row)>) {
    && (forall i :: 0 <= i < |rows| ==>
          rows[i].0 in keys && RefIn(g, rows[i].0) in db.rows && rows[i].1 == db.rows[RefIn(g, rows[i].0)])
    && (forall i, j :: 0 <= i < j < |rows| ==> rows[i].0 != rows[j].0)
    && (forall key :: key in keys && RefIn(g, key) in db.rows ==> exists i :: 0 <= i < |rows| && rows[i].0 == key)
  }

  /** StatObjectsBatch. */
  method StatObjectsBatch(db: Database, g: GroupKey, keys: set<string>) returns (rows: Option<seq<(string, Row)>>)
    ensures rows.None? <==> g in db.down
    ensures rows.Some? ==> Replied(db, g, keys, rows.value)
  {
    if g in db.down {
      return None;
    }
    var found: seq<(string, Row)> := [];
    var rest := keys;
    while rest != {}
      invariant rest <= keys
      invariant Replied(db, g, keys - rest, found)
    {
      var key :| key in rest;
      ghost var was := found;
      if RefIn(g, key) in db.rows {
        found := found + [(key, db.rows[RefIn(g, key)])];
        assert found[|was|].0 == key;
      }
      rest := rest - {key};
      forall k | k in keys - rest && RefIn(g, k) in db.rows ensures exists i :: 0 <= i < |found| && found[i].0 == k {
        if k != key {
          var i :| 0 <= i < |was| && was[i].0 == k;
          assert found[i].0 == k;
        }
      }
    }
    assert keys - rest == keys;
    rows := Some(found);
  }

  /** Of group `g` exactly the keys in `done` are filled, and of the other groups those of `before`. */
  ghost predicate FilledKeys(g: GroupKey, before: seq<Ref>, done: set<string>, order: seq<Ref>) {
    && (forall key :: RefIn(g, key) in order <==> key in done)
    && (forall r :: GroupOf(r) != g ==> (r in order <==> r in before))
  }

  lemma FilledKeysNext(g: GroupKey, before: seq<Ref>, done: set<string>, order: seq<Ref>, key: string)
    requires FilledKeys(g, before, done, order)
    ensures FilledKeys(g, before, done + {key}, order + [RefIn(g, key)])
    ensures NoTwice(order) && key !in done ==> NoTwice(order + [RefIn(g, key)])
  {
    forall r ensures r in order + [RefIn(g, key)] <==> r in order || r == RefIn(g, key) {}
  }

  lemma ProgressNext(h: Hash, c: seq<Shard>, db: Database, refs: seq<Ref>, now: int, order: seq<Ref>, out: seq<bool>,
                     r: Ref, p: PendingKey, out': seq<bool>, model': seq<Shard>)
    requires |c| == LRU_SHARDS && r in refs && Missed(h, c, r) && NoTwice(order + [r])
    requires OutOk(h, c, db, refs, order, out) && (forall q :: q in order ==> q in refs && Missed(h, c, q))
    requires PendingOk(h, c, refs, r, p)
    requires |out'| == |out| && forall j :: 0 <= j < |out| ==> out'[j] == (out[j] || (r in db.rows && j in p.indices))
    requires model' == Filled(h, Scanned(h, c, refs, now), db, order + [r], now)
    ensures Progress(h, c, db, refs, now, order + [r], out', model')
  {
    OutFilled(h, c, db, refs, order, out, r, p, out');
    forall q | q in order + [r] ensures q in refs && Missed(h, c, q) {}
  }

  lemma AskedPending(h: Hash, c: seq<Shard>, refs: seq<Ref>, groups: Groups, g: GroupKey, key: string)
    requires |c| == LRU_SHARDS && Residue(h, c, refs, groups) && g in groups && key in groups[g]
    ensures var r := RefIn(g, key); r in refs && Missed(h, c, r) && PendingOk(h, c, refs, r, groups[g][key])
  {
    assert Asked(groups, RefIn(g, key));
  }

  /** One fill of one key, with the positions that asked for it. */
  method FillKey(lru: LruCache, g: GroupKey, key: string, p: PendingKey, meta: Meta, now: int, out0: seq<bool>,
                 ghost c: seq<Shard>, ghost db: Database, ghost refs: seq<Ref>, ghost groups: Groups,
                 ghost before: seq<Ref>, ghost done: set<string>, ghost order: seq<Ref>)
    returns (out: seq<bool>)
    requires lru.Valid() && |c| == LRU_SHARDS && Residue(lru.hash, c, refs, groups)
    requires g in groups && key in groups[g] && p == groups[g][key]
    requires Progress(lru.hash, c, db, refs, now, order, out0, lru.Model())
    requires FilledKeys(g, before, done, order) && key !in done
    requires meta == Found(db, RefIn(g, key)) && (meta.present <==> RefIn(g, key) in db.rows)
    modifies lru.shards
    ensures lru.Valid()
    ensures Progress(lru.hash, c, db, refs, now, order + [RefIn(g, key)], out, lru.Model())
    ensures FilledKeys(g, before, done + {key}, order + [RefIn(g, key)])
    ensures !meta.present ==> out == out0
  {
    ghost var r := RefIn(g, key);
    AskedPending(lru.hash, c, refs, groups, g, key);
    FilledKeysNext(g, before, done, order, key);
    Land(lru, p, meta, now, c, db, refs, order, r);
    out := out0;
    if meta.present {
      out := SetTrue(out0, p.indices);
    }
    ProgressNext(lru.hash, c, db, refs, now, order, out0, r, p, out, lru.Model());
  }

  function KeysOfRows(rows: seq<(string, Row)>): set<string> {
    set i | 0 <= i < |rows| :: rows[i].0
  }

  lemma KeysOfRowsNext(db: Database, g: GroupKey, keys: set<string>, rows: seq<(string, Row)>, i: nat)
    requires Replied(db, g, keys, rows) && i < |rows|
    ensures KeysOfRows(rows[..i + 1]) == KeysOfRows(rows[..i]) + {rows[i].0}
    ensures rows[i].0 !in KeysOfRows(rows[..i])
  {
    TakeNext(rows, i);
    forall key ensures key in KeysOfRows(rows[..i + 1]) <==> key in KeysOfRows(rows[..i]) || key == rows[i].0 {
      if key in KeysOfRows(rows[..i]) {
        var j :| 0 <= j < i && rows[..i][j].0 == key;
        assert rows[..i + 1][j].0 == key;
      }
      assert rows[..i + 1][i] == rows[i];
    }
  }

  lemma KeysOfReply(db: Database, g: GroupKey, keys: set<string>, rows: seq<(string, Row)>)
    requires Replied(db, g, keys, rows)
    ensures forall key :: key in KeysOfRows(rows) <==> key in keys && RefIn(g, key) in db.rows
  {
    forall key ensures key in KeysOfRows(rows) <==> key in keys && RefIn(g, key) in db.rows {
      if key in keys && RefIn(g, key) in db.rows { var i :| 0 <= i < |rows| && rows[i].0 == key; }
    }
  }

  /** The rows that exist: each filled positive, and its positions set. A row that does not decode ends the batch. */
  method FillPresent(lru: LruCache, g: GroupKey, byKey: map<string, PendingKey>, rows: seq<(string, Row)>, now: int,
                     out0: seq<bool>, ghost c: seq<Shard>, ghost db: Database, ghost refs: seq<Ref>,
                     ghost groups: Groups, ghost before: seq<Ref>)
    returns (out: seq<bool>, present: set<string>, failed: bool, ghost order: seq<Ref>)
    requires lru.Valid() && |c| == LRU_SHARDS && Residue(lru.hash, c, refs, groups)
    requires g in groups && byKey == groups[g] && Replied(db, g, byKey.Keys, rows)
    requires Progress(lru.hash, c, db, refs, now, before, out0, lru.Model()) && FilledKeys(g, before, {}, before)
    modifies lru.shards
    ensures lru.Valid() && Progress(lru.hash, c, db, refs, now, order, out, lru.Model())
    ensures failed ==> exists key :: key in byKey && Broken(db, RefIn(g, key))
    ensures !failed ==> FilledKeys(g, before, present, order) && present == KeysOfRows(rows)
    ensures !failed ==> forall i :: 0 <= i < |rows| ==> rows[i].1.digest.Some?
  {
    out, present, failed, order := out0, {}, false, before;
    var i := 0;
    while i < |rows|
      invariant 0 <= i <= |rows| && lru.Valid()
      invariant Progress(lru.hash, c, db, refs, now, order, out, lru.Model())
      invariant FilledKeys(g, before, present, order) && present == KeysOfRows(rows[..i])
      invariant forall j :: 0 <= j < i ==> rows[j].1.digest.Some?
    {
      var key, row := rows[i].0, rows[i].1;
      KeysOfRowsNext(db, g, byKey.Keys, rows, i);
      if row.digest.None? {
        failed := true;
        assert Broken(db, RefIn(g, key));
        return;
      }
      out := FillKey(lru, g, key, byKey[key], MetaOf(row), now, out, c, db, refs, groups, before, present, order);
      order := order + [RefIn(g, key)];
      present := present + {key};
      i := i + 1;
    }
    assert rows[..i] == rows;
  }

  /** `done` are the keys of `keys` that a row came back for or that have been visited. */
  ghost predicate Covered(keys: set<string>, present: set<string>, rest: set<string>, done: set<string>) {
    rest <= keys && forall key :: key in done <==> key in keys && (key !in rest || key in present)
  }

  lemma CoveredNext(keys: set<string>, present: set<string>, rest: set<string>, done: set<string>, key: string)
    requires Covered(keys, present, rest, done) && key in rest
    ensures key in done <==> key in present
    ensures Covered(keys, present, rest - {key}, done + {key})
    ensures key in done ==> done + {key} == done
  {
  }

  /** The keys no row came back for: each filled negative, in whatever order the map yields them. */
  method FillAbsent(lru: LruCache, g: GroupKey, byKey: map<string, PendingKey>, present: set<string>, now: int,
                    out: seq<bool>, ghost c: seq<Shard>, ghost db: Database, ghost refs: seq<Ref>,
                    ghost groups: Groups, ghost before: seq<Ref>, ghost order0: seq<Ref>)
    returns (ghost order: seq<Ref>)
    requires lru.Valid() && |c| == LRU_SHARDS && Residue(lru.hash, c, refs, groups)
    requires g in groups && byKey == groups[g]
    requires forall key :: key in present <==> key in byKey && RefIn(g, key) in db.rows
    requires Progress(lru.hash, c, db, refs, now, order0, out, lru.Model()) && FilledKeys(g, before, present, order0)
    modifies lru.shards
    ensures lru.Valid() && Progress(lru.hash, c, db, refs, now, order, out, lru.Model())
    ensures FilledKeys(g, before, byKey.Keys, order)
  {
    order := order0;
    ghost var done := present;
    var rest := byKey.Keys;
    while rest != {}
      invariant lru.Valid()
      invariant Covered(byKey.Keys, present, rest, done)
      invariant Progress(lru.hash, c, db, refs, now, order, out, lru.Model())
      invariant FilledKeys(g, before, done, order)
    {
      var key :| key in rest;
      CoveredNext(byKey.Keys, present, rest, done, key);
      if key !in present {
        var same := FillKey(lru, g, key, byKey[key], ABSENT, now, out, c, db, refs, groups, before, done, order);
        order := order + [RefIn(g, key)];
        done := done + {key};
      }
      rest := rest - {key};
    }
    assert done == byKey.Keys;
  }

  /** Group after group; those in `rest` are still to come. */
  ghost predicate FilledGroups(groups: Groups, rest: set<GroupKey>, db: Database, order: seq<Ref>) {
    && (forall r :: r in order <==> Asked(groups, r) && GroupOf(r) !in rest)
    && (forall r :: r in order ==> !Broken(db, r))
  }

  lemma GroupDone(groups: Groups, rest: set<GroupKey>, db: Database, g: GroupKey, before: seq<Ref>, order: seq<Ref>)
    requires g in groups && FilledGroups(groups, rest, db, before) && g in rest
    requires FilledKeys(g, before, groups[g].Keys, order)
    requires forall key :: key in groups[g] ==> !Broken(db, RefIn(g, key))
    ensures FilledGroups(groups, rest - {g}, db, order)
  {
    forall r ensures r in order <==> Asked(groups, r) && GroupOf(r) !in rest - {g} {
      assert r == RefIn(GroupOf(r), r.key);
    }
    forall r | r in order ensures !Broken(db, r) {
      assert r == RefIn(GroupOf(r), r.key);
    }
  }

  lemma GroupNotStarted(groups: Groups, rest: set<GroupKey>, db: Database, g: GroupKey, before: seq<Ref>)
    requires g in rest && FilledGroups(groups, rest, db, before)
    ensures FilledKeys(g, before, {}, before)
  {
  }

  lemma NoRowBroken(db: Database, g: GroupKey, keys: set<string>, rows: seq<(string, Row)>)
    requires g !in db.down && Replied(db, g, keys, rows)
    requires forall i :: 0 <= i < |rows| ==> rows[i].1.digest.Some?
    ensures forall key :: key in keys ==> !Broken(db, RefIn(g, key))
  {
    forall key | key in keys ensures !Broken(db, RefIn(g, key)) {
      if RefIn(g, key) in db.rows { var i :| 0 <= i < |rows| && rows[i].0 == key; }
    }
  }

  /** One query and its fills. */
  method FillGroup(lru: LruCache, g: GroupKey, db: Database, groups: Groups, now: int, out0: seq<bool>,
                   ghost c: seq<Shard>, ghost refs: seq<Ref>, ghost rest: set<GroupKey>, ghost before: seq<Ref>)
    returns (out: seq<bool>, failed: bool, ghost order: seq<Ref>)
    requires lru.Valid() && |c| == LRU_SHARDS && Residue(lru.hash, c, refs, groups)
    requires g in groups && g in rest && FilledGroups(groups, rest, db, before)
    requires Progress(lru.hash, c, db, refs, now, before, out0, lru.Model())
    modifies lru.shards
    ensures lru.Valid() && Progress(lru.hash, c, db, refs, now, order, out, lru.Model())
    ensures failed ==> exists key :: key in groups[g] && Broken(db, RefIn(g, key))
    ensures !failed ==> FilledGroups(groups, rest - {g}, db, order)
  {
    GroupNotStarted(groups, rest, db, g, before);
    var byKey := groups[g];
    var rows := StatObjectsBatch(db, g, byKey.Keys);
    if rows.None? {
      var key :| key in byKey;
      assert Broken(db, RefIn(g, key));
      out, failed, order := out0, true, before;
      return;
    }
    var present;
    out, present, failed, order := FillPresent(lru, g, byKey, rows.value, now, out0, c, db, refs, groups, before);
    if !failed {
      KeysOfReply(db, g, byKey.Keys, rows.value);
      NoRowBroken(db, g, byKey.Keys, rows.value);
      order := FillAbsent(lru, g, byKey, present, now, out, c, db, refs, groups, before, order);
      GroupDone(groups, rest, db, g, before, order);
    }
  }

  /** Some missed ref cannot be answered by the database. */
  ghost predicate Unanswerable(h: Hash, c: seq<Shard>, db: Database, refs: seq<Ref>)
    requires |c| == LRU_SHARDS
  {
    exists r :: r in refs && Missed(h, c, r) && Broken(db, r)
  }

  /** The groups in turn, in whatever order the map yields them. */
  method FillGroups(lru: LruCache, db: Database, groups: Groups, now: int, out0: seq<bool>,
                    ghost c: seq<Shard>, ghost refs: seq<Ref>)
    returns (out: seq<bool>, failed: bool, ghost order: seq<Ref>)
    requires lru.Valid() && |c| == LRU_SHARDS && Residue(lru.hash, c, refs, groups)
    requires Progress(lru.hash, c, db, refs, now, [], out0, lru.Model())
    modifies lru.shards
    ensures lru.Valid() && Progress(lru.hash, c, db, refs, now, order, out, lru.Model())
    ensures failed <==> Unanswerable(lru.hash, c, db, refs)
    ensures !failed ==> forall r :: r in refs && Missed(lru.hash, c, r) ==> r in order
  {
    out, failed, order := out0, false, [];
    var rest := groups.Keys;
    while rest != {}
      invariant rest <= groups.Keys && lru.Valid() && !failed
      invariant Progress(lru.hash, c, db, refs, now, order, out, lru.Model())
      invariant FilledGroups(groups, rest, db, order)
    {
      var g :| g in rest;
      out, failed, order := FillGroup(lru, g, db, groups, now, out, c, refs, rest, order);
      if failed {
        var key :| key in groups[g] && Broken(db, RefIn(g, key));
        assert Asked(groups, RefIn(g, key));
        return;
      }
      rest := rest - {g};
    }
    assert forall r :: r in refs && Missed(lru.hash, c, r) ==> Asked(groups, r);
  }

  /**
   At every position the answer a single lookup of that ref would give against the same cache
   and database; an error exactly when one of the lookups the cache cannot answer would fail.
   The cache ends as the scan left it with one landed fill for each distinct missed ref.
   */
  method ExistsBatch(lru: LruCache, db: Database, refs: seq<Ref>, now: int)
    returns (answers: Option<seq<bool>>, ghost order: seq<Ref>)
    requires lru.Valid() && now != 0
    modifies lru.shards
    ensures lru.Valid()
    ensures lru.Model() == Filled(lru.hash, Scanned(lru.hash, old(lru.Model()), refs, now), db, order, now)
    ensures NoTwice(order) && forall r :: r in order ==> r in refs && Missed(lru.hash, old(lru.Model()), r)
    ensures answers.None? <==> Unanswerable(lru.hash, old(lru.Model()), db, refs)
    ensures answers.Some? ==>
              && |answers.value| == |refs|
              && (forall i :: 0 <= i < |refs| ==> answers.value[i] == Exists(lru.hash, old(lru.Model()), db, refs[i]))
              && (forall r :: r in refs && Missed(lru.hash, old(lru.Model()), r) ==> r in order)
  {
    ghost var c := lru.Model();
    if refs == [] {
      return Some([]), [];
    }
    var out, groups := Scan(lru, refs, now);
    var failed;
    out, failed, order := FillGroups(lru, db, groups, now, out, c, refs);
    AllResolved(lru.hash, c, db, refs, order, out);
    answers := if failed then None else Some(out);
  }

  lemma AllResolved(h: Hash, c: seq<Shard>, db: Database, refs: seq<Ref>, order: seq<Ref>, out: seq<bool>)
    requires |c| == LRU_SHARDS && OutOk(h, c, db, refs, order, out)
    ensures (forall r :: r in refs && Missed(h, c, r) ==> r in order) ==>
              forall i :: 0 <= i < |refs| ==> out[i] == Exists(h, c, db, refs[i])
  {
  }

  /** The meta says what the database holds of `r`: its row, or that there is none. */
  predicate Tells(db: Database, r: Ref, meta: Meta) {
    if r in db.rows && db.rows[r].digest.Some? then
      && meta.present && Some(meta.digest) == db.rows[r].digest && meta.size == db.rows[r].size
      && meta.updatedAt == db.rows[r].updatedAt && meta.contentType == db.rows[r].contentType
    else !meta.present
  }

  /** What is cached of `k` afterwards: what was, or the database's answer for the ref that was filled under it. */
  lemma {:induction false} FilledAnswers(h: Hash, c: seq<Shard>, db: Database, order: seq<Ref>, now: int, k: Key)
    requires WellFormed(h, c)
    ensures WellFormed(h, Filled(h, c, db, order, now))
    ensures var e := CachedEntry(h, Filled(h, c, db, order, now), k);
            e.Some? ==>
              || (CachedEntry(h, c, k).Some? && e.value.meta == CachedEntry(h, c, k).value.meta)
              || exists r :: r in order && CacheKeyOf(r) == k && Tells(db, r, e.value.meta)
  {
    if order != [] {
      var front, r := order[..|order| - 1], order[|order| - 1];
      FilledAnswers(h, c, db, front, now, k);
      var d, ck, meta := Filled(h, c, db, front, now), CacheKeyOf(r), Found(db, r);
      var i := ShardOf(h, ck);
      var stamp := if meta.present then now else 0;
      InsertShape(d[i].entries, d[i].cap, ck, meta, stamp);
      PlacedInsert(h, i, d[i].entries, d[i].cap, ck, meta, stamp);
      LookupInsert(d[i].entries, d[i].cap, ck, meta, stamp, k);
    }
  }
}
