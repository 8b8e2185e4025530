/** The cache in front of Postgres: 64 shards, each under its own lock, placed by a fixed hash. */
module LruCaches {
  import opened Types
  import opened Lru
  import opened LruShards

  const LRU_SHARDS: nat := 64

  /** Any fixed function from keys to shards; maphash in the program. */
  type Hash = Key -> nat

  function ShardOf(h: Hash, k: Key): (i: nat)
    ensures i < LRU_SHARDS
  {
    h(k) % LRU_SHARDS
  }

  function KeysOfShard(h: Hash, ks: seq<Key>, i: nat): seq<Key> {
    if ks == [] then []
    else (if ShardOf(h, ks[0]) == i then [ks[0]] else []) + KeysOfShard(h, ks[1..], i)
  }

  function MarksOfShard(h: Hash, ms: seq<TouchMark>, i: nat): seq<TouchMark> {
    if ms == [] then []
    else (if ShardOf(h, ms[0].ck) == i then [ms[0]] else []) + MarksOfShard(h, ms[1..], i)
  }

  /** The marks of every shard, shard by shard. */
  function CollectFrom(c: seq<Shard>, cutoff: int): seq<TouchMark> {
    if c == [] then [] else Collect(c[0].entries, cutoff) + CollectFrom(c[1..], cutoff)
  }

  /** Every entry sits in the shard its key hashes to. */
  ghost predicate Placed(h: Hash, i: nat, es: seq<Entry>) {
    forall e :: e in es ==> ShardOf(h, e.key) == i
  }

  ghost predicate WellFormed(h: Hash, c: seq<Shard>) {
    && |c| == LRU_SHARDS
    && forall i :: 0 <= i < |c| ==>
         Distinct(c[i].entries) && |c[i].entries| <= c[i].cap && c[i].cap >= 1 && Placed(h, i, c[i].entries)
  }

  function CachedEntry(h: Hash, c: seq<Shard>, k: Key): Option<Entry>
    requires |c| == LRU_SHARDS
  {
    Lookup(c[ShardOf(h, k)].entries, k)
  }

  class LruCache {
    const hash: Hash
    const shards: seq<LruShard>

    ghost predicate Valid()
      reads this, shards
    {
      && |shards| == LRU_SHARDS
      && (forall i, j :: 0 <= i < j < LRU_SHARDS ==> shards[i] != shards[j])
      && (forall i :: 0 <= i < LRU_SHARDS ==> shards[i].Valid() && Placed(hash, i, shards[i].Model().entries))
    }

    ghost function Model(): (c: seq<Shard>)
      reads this, shards
      requires Valid()
      ensures |c| == LRU_SHARDS && forall i :: 0 <= i < LRU_SHARDS ==> c[i] == shards[i].Model()
    {
      seq(LRU_SHARDS, i requires 0 <= i < LRU_SHARDS && Valid() reads this, shards => shards[i].Model())
    }

    constructor (h: Hash, capacity: nat)
      ensures Valid() && fresh(shards) && hash == h
      ensures forall i :: 0 <= i < LRU_SHARDS ==>
                Model()[i] == Shard([], if capacity / LRU_SHARDS < 1 then 1 else capacity / LRU_SHARDS, 0)
    {
      var built: seq<LruShard> := [];
      var perShard := capacity / LRU_SHARDS;
      while |built| < LRU_SHARDS
        invariant |built| <= LRU_SHARDS && fresh(built)
        invariant forall i, j :: 0 <= i < j < |built| ==> built[i] != built[j]
        invariant forall i :: 0 <= i < |built| ==>
                    built[i].Valid() && built[i].Model() == Shard([], if perShard < 1 then 1 else perShard, 0)
      {
        var s := new LruShard(perShard);
        built := built + [s];
      }
      hash := h;
      shards := built;
    }

    method Get(k: Key, now: int) returns (meta: Option<Meta>)
      requires Valid() && now != 0
      modifies shards[ShardOf(hash, k)]
      ensures Valid()
      ensures var i := ShardOf(hash, k);
              var r := Lru.Get(old(Model())[i], k, now);
              Model() == old(Model())[i := r.0] && meta == r.1
    {
      var i := ShardOf(hash, k);
      EntriesDistinct(shards[i].ll, shards[i].m);
      PlacedHit(hash, i, shards[i].Model().entries, k, now);
      meta := shards[i].Get(k, now);
    }

    method Seq(k: Key) returns (g: nat)
      requires Valid()
      ensures g == Model()[ShardOf(hash, k)].gen
    {
      g := shards[ShardOf(hash, k)].Seq();
    }

    method Put(k: Key, meta: Meta)
      requires Valid()
      modifies shards[ShardOf(hash, k)]
      ensures Valid()
      ensures var i := ShardOf(hash, k);
              Model() == old(Model())[i := Lru.Put(old(Model())[i], k, meta)]
    {
      var i := ShardOf(hash, k);
      EntriesDistinct(shards[i].ll, shards[i].m);
      PlacedInsert(hash, i, shards[i].Model().entries, shards[i].cap, k, meta, 0);
      var added, evicted := shards[i].Put(k, meta);
    }

    method PutIfUnchanged(k: Key, meta: Meta, seen: nat, now: int) returns (landed: bool)
      requires Valid()
      modifies shards[ShardOf(hash, k)]
      ensures Valid()
      ensures var i := ShardOf(hash, k);
              var r := Lru.PutIfUnchanged(old(Model())[i], k, meta, seen, now);
              Model() == old(Model())[i := r.0] && landed == r.1
    {
      var i := ShardOf(hash, k);
      EntriesDistinct(shards[i].ll, shards[i].m);
      PlacedInsert(hash, i, shards[i].Model().entries, shards[i].cap, k, meta, if meta.present then now else 0);
      landed := shards[i].PutIfUnchanged(k, meta, seen, now);
    }

    method Del(k: Key)
      requires Valid()
      modifies shards[ShardOf(hash, k)]
      ensures Valid()
      ensures var i := ShardOf(hash, k);
              Model() == old(Model())[i := Lru.Del(old(Model())[i], k)]
    {
      var i := ShardOf(hash, k);
      EntriesDistinct(shards[i].ll, shards[i].m);
      WithoutShape(shards[i].Model().entries, k);
      shards[i].Del(k);
    }

    method PendingMark(k: Key) returns (pending: bool)
      requires Valid()
      ensures pending <==> Pending(Model()[ShardOf(hash, k)].entries, k)
    {
      pending := shards[ShardOf(hash, k)].PendingMark(k);
    }

    /** Every due mark of every shard, although each walk stops at its shard's last mark. */
    method CollectMarks(cutoff: int) returns (dst: seq<TouchMark>)
      requires Valid()
      ensures dst == CollectFrom(Model(), cutoff)
    {
      ghost var c := Model();
      dst := [];
      var i := 0;
      while i < LRU_SHARDS
        invariant 0 <= i <= LRU_SHARDS
        invariant dst + CollectFrom(c[i..], cutoff) == CollectFrom(c, cutoff)
      {
        var local := shards[i].CollectMarks(cutoff);
        CollectFromSplit(c, i, dst, cutoff);
        dst := dst + local;
        i := i + 1;
      }
    }

    /** Unmarks exactly the stamps reported, each in its own shard. */
    method ClearMarks(marks: seq<TouchMark>)
      requires Valid() && forall j :: 0 <= j < |marks| ==> marks[j].markedAt != 0
      modifies shards
      ensures Valid()
      ensures forall i :: 0 <= i < LRU_SHARDS ==>
                shards[i].Model() == old(shards[i].Model()).(entries := ClearAll(old(shards[i].Model()).entries, marks))
    {
      ghost var was := Model();
      var i := 0;
      while i < LRU_SHARDS
        invariant 0 <= i <= LRU_SHARDS && Valid()
        invariant forall j :: 0 <= j < LRU_SHARDS ==>
                    Model()[j] == if j < i then was[j].(entries := ClearAll(was[j].entries, marks)) else was[j]
      {
        ClearShard(i, marks);
        i := i + 1;
      }
    }

    method ClearShard(i: nat, marks: seq<TouchMark>)
      requires i < LRU_SHARDS && Valid()
      requires forall j :: 0 <= j < |marks| ==> marks[j].markedAt != 0
      modifies shards[i]
      ensures Valid()
      ensures Model() == old(Model())[i := old(Model())[i].(entries := ClearAll(old(Model())[i].entries, marks))]
    {
      var mine := MarksOfShard(hash, marks, i);
      MarksOfShardNonzero(hash, marks, i);
      EntriesDistinct(shards[i].ll, shards[i].m);
      ClearMine(hash, i, shards[i].Model().entries, marks);
      if mine != [] {
        shards[i].ClearMarks(mine);
      }
    }

    /** The GC's invalidation: one generation bump for each shard that holds one of the keys. */
    method DelBatch(keys: seq<Key>)
      requires Valid()
      modifies shards
      ensures Valid()
      ensures forall i :: 0 <= i < LRU_SHARDS ==>
                shards[i].Model() == DelAll(old(shards[i].Model()), KeysOfShard(hash, keys, i))
    {
      ghost var was := Model();
      var i := 0;
      while i < LRU_SHARDS
        invariant 0 <= i <= LRU_SHARDS && Valid()
        invariant forall j :: 0 <= j < LRU_SHARDS ==>
                    Model()[j] == if j < i then DelAll(was[j], KeysOfShard(hash, keys, j)) else was[j]
      {
        DelShard(i, KeysOfShard(hash, keys, i));
        i := i + 1;
      }
    }

    method DelShard(i: nat, mine: seq<Key>)
      requires i < LRU_SHARDS && Valid()
      modifies shards[i]
      ensures Valid() && Model() == old(Model())[i := DelAll(old(Model())[i], mine)]
    {
      EntriesDistinct(shards[i].ll, shards[i].m);
      PlacedWithoutAll(hash, i, shards[i].Model().entries, mine);
      if mine != [] {
        var removed := shards[i].DelBatch(mine);
      }
    }
  }

  // ---- placement is kept ---------------------------------------------------

  lemma PlacedHit(h: Hash, i: nat, es: seq<Entry>, k: Key, now: int)
    requires Distinct(es) && Placed(h, i, es)
    ensures Lookup(es, k).Some? ==> Placed(h, i, Hit(es, Lookup(es, k).value, now))
  {
    WithoutShape(es, k);
    LookupKey(es, k);
  }

  lemma PlacedInsert(h: Hash, i: nat, es: seq<Entry>, cap: nat, k: Key, meta: Meta, stamp: int)
    requires Distinct(es) && Placed(h, i, es) && ShardOf(h, k) == i
    ensures Placed(h, i, Insert(es, cap, k, meta, stamp))
  {
    WithoutShape(es, k);
  }

  lemma {:induction false} PlacedWithoutAll(h: Hash, i: nat, es: seq<Entry>, ks: seq<Key>)
    requires Distinct(es) && Placed(h, i, es)
    ensures Distinct(WithoutAll(es, ks)) && Placed(h, i, WithoutAll(es, ks)) && |WithoutAll(es, ks)| <= |es|
    decreases ks
  {
    if ks != [] {
      WithoutShape(es, ks[0]);
      PlacedWithoutAll(h, i, Without(es, ks[0]), ks[1..]);
    }
  }

  lemma {:induction false} ClearOneSameKeys(es: seq<Entry>, m: TouchMark)
    ensures var r := ClearOne(es, m);
            |r| == |es| && forall j :: 0 <= j < |es| ==> r[j].key == es[j].key
  {
    if es != [] { ClearOneSameKeys(es[1..], m); }
  }

  lemma {:induction false} ClearElsewhere(h: Hash, i: nat, es: seq<Entry>, m: TouchMark)
    requires Placed(h, i, es) && ShardOf(h, m.ck) != i
    ensures ClearOne(es, m) == es
  {
    if es != [] {
      assert es[0] in es;
      ClearElsewhere(h, i, es[1..], m);
    }
  }

  lemma ClearOneShape(h: Hash, i: nat, es: seq<Entry>, m: TouchMark)
    requires Distinct(es) && Placed(h, i, es)
    ensures var r := ClearOne(es, m);
            |r| == |es| && Distinct(r) && Placed(h, i, r) && (ShardOf(h, m.ck) != i ==> r == es)
  {
    ClearOneSameKeys(es, m);
    if ShardOf(h, m.ck) != i { ClearElsewhere(h, i, es, m); }
    var r := ClearOne(es, m);
    forall e | e in r ensures ShardOf(h, e.key) == i {
      var j :| 0 <= j < |r| && r[j] == e;
      assert es[j] in es;
    }
  }

  /** Marks of other shards clear nothing here, so grouping them by shard loses nothing. */
  lemma {:induction false} ClearMine(h: Hash, i: nat, es: seq<Entry>, ms: seq<TouchMark>)
    requires Distinct(es) && Placed(h, i, es)
    ensures ClearAll(es, MarksOfShard(h, ms, i)) == ClearAll(es, ms)
    ensures Distinct(ClearAll(es, ms)) && Placed(h, i, ClearAll(es, ms)) && |ClearAll(es, ms)| == |es|
    decreases ms
  {
    if ms != [] {
      ClearOneShape(h, i, es, ms[0]);
      ClearMine(h, i, ClearOne(es, ms[0]), ms[1..]);
      var mine, rest := MarksOfShard(h, ms, i), MarksOfShard(h, ms[1..], i);
      if ShardOf(h, ms[0].ck) == i {
        assert mine == [ms[0]] + rest;
        assert mine[0] == ms[0] && mine[1..] == rest;
        assert ClearAll(es, mine) == ClearAll(ClearOne(es, ms[0]), rest);
      } else {
        assert mine == rest;
      }
    }
  }

  lemma MarksOfShardNonzero(h: Hash, ms: seq<TouchMark>, i: nat)
    requires forall j :: 0 <= j < |ms| ==> ms[j].markedAt != 0
    ensures forall j :: 0 <= j < |MarksOfShard(h, ms, i)| ==> MarksOfShard(h, ms, i)[j].markedAt != 0
  {
  }

  lemma {:induction false} InKeysOfShard(h: Hash, ks: seq<Key>, i: nat, k: Key)
    ensures k in KeysOfShard(h, ks, i) <==> k in ks && ShardOf(h, k) == i
  {
    if ks != [] { InKeysOfShard(h, ks[1..], i, k); }
  }

  lemma CollectFromSplit(c: seq<Shard>, i: nat, dst: seq<TouchMark>, cutoff: int)
    requires i < |c|
    ensures dst + CollectFrom(c[i..], cutoff) == (dst + Collect(c[i].entries, cutoff)) + CollectFrom(c[i + 1..], cutoff)
  {
    assert c[i..][0] == c[i] && c[i..][1..] == c[i + 1..];
  }

  /** What a collect reports: exactly the marks old enough, each with the stamp its entry carries. */
  lemma {:induction false} CollectFromExact(c: seq<Shard>, cutoff: int, m: TouchMark)
    requires forall i :: 0 <= i < |c| ==> Distinct(c[i].entries)
    ensures m in CollectFrom(c, cutoff) <==>
            exists i :: 0 <= i < |c| && m in Collect(c[i].entries, cutoff)
  {
    if c != [] {
      CollectFromExact(c[1..], cutoff, m);
      assert forall i :: 1 <= i < |c| ==> c[i] == c[1..][i - 1];
    }
  }
}
