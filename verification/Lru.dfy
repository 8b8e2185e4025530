/**
 One shard of the metadata LRU, as a value: the sequence of entries from most to least
 recently used, the capacity and the write generation. LruShard refines this.
 */
module Lru {
  import opened Types

  /** What is known about an object; `present == false` is a cached negative answer. */
  datatype Meta = Meta(present: bool, digest: Digest, size: nat, updatedAt: int, contentType: string)

  /** `markedAt` is the oldest unflushed read, 0 when there is none. */
  datatype Entry = Entry(key: Key, meta: Meta, markedAt: int)

  datatype Shard = Shard(entries: seq<Entry>, cap: nat, gen: nat)

  datatype TouchMark = TouchMark(ck: Key, markedAt: int)

  // ---- reading a shard -----------------------------------------------------

  function Lookup(es: seq<Entry>, k: Key): Option<Entry> {
    if es == [] then None else if es[0].key == k then Some(es[0]) else Lookup(es[1..], k)
  }

  ghost predicate Distinct(es: seq<Entry>) {
    forall i, j :: 0 <= i < j < |es| ==> es[i].key != es[j].key
  }

  predicate Pending(es: seq<Entry>, k: Key) {
    var e := Lookup(es, k);
    e.Some? && e.value.markedAt != 0
  }

  /** How many entries carry an unflushed read. */
  function Marks(es: seq<Entry>): nat {
    if es == [] then 0 else (if es[0].markedAt != 0 then 1 else 0) + Marks(es[1..])
  }

  /** The full walk: every mark at or before the cutoff, in list order. */
  function Collect(es: seq<Entry>, cutoff: int): seq<TouchMark> {
    if es == [] then []
    else
      var rest := Collect(es[1..], cutoff);
      if es[0].markedAt != 0 && es[0].markedAt <= cutoff then [TouchMark(es[0].key, es[0].markedAt)] + rest else rest
  }

  // ---- changing a shard ----------------------------------------------------

  function Without(es: seq<Entry>, k: Key): seq<Entry> {
    if es == [] then [] else if es[0].key == k then Without(es[1..], k) else [es[0]] + Without(es[1..], k)
  }

  function WithoutAll(es: seq<Entry>, ks: seq<Key>): seq<Entry>
    decreases ks
  {
    if ks == [] then es else WithoutAll(Without(es, ks[0]), ks[1..])
  }

  /** insertLocked: refresh in place of the old entry and keep its stamp, or push front and drop the tail. */
  function Insert(es: seq<Entry>, cap: nat, k: Key, meta: Meta, stamp: int): seq<Entry> {
    var e := Lookup(es, k);
    if e.Some? then
      [Entry(k, meta, if e.value.markedAt == 0 then stamp else e.value.markedAt)] + Without(es, k)
    else
      var grown := [Entry(k, meta, stamp)] + es;
      if |grown| > cap then grown[..|grown| - 1] else grown
  }

  /** The entries after a hit: to the front, marked if positive and not yet marked. */
  function Hit(es: seq<Entry>, e: Entry, now: int): seq<Entry> {
    [if e.meta.present && e.markedAt == 0 then e.(markedAt := now) else e] + Without(es, e.key)
  }

  function Get(s: Shard, k: Key, now: int): (Shard, Option<Meta>) {
    var e := Lookup(s.entries, k);
    if e.None? then (s, None) else (s.(entries := Hit(s.entries, e.value, now)), Some(e.value.meta))
  }

  /** The authoritative publish of a writer. */
  function Put(s: Shard, k: Key, meta: Meta): Shard {
    s.(entries := Insert(s.entries, s.cap, k, meta, 0), gen := s.gen + 1)
  }

  /** A database fill: lands only while the generation is the one captured before the query. */
  function PutIfUnchanged(s: Shard, k: Key, meta: Meta, seen: nat, now: int): (Shard, bool) {
    if s.gen != seen then (s, false)
    else (s.(entries := Insert(s.entries, s.cap, k, meta, if meta.present then now else 0)), true)
  }

  function Del(s: Shard, k: Key): Shard {
    s.(entries := Without(s.entries, k), gen := s.gen + 1)
  }

  /** A whole batch under one lock hold and one generation bump. */
  function DelAll(s: Shard, ks: seq<Key>): Shard {
    if ks == [] then s else s.(entries := WithoutAll(s.entries, ks), gen := s.gen + 1)
  }

  /** Unmark `m.ck` only if its stamp is still the one that was collected. */
  function ClearOne(es: seq<Entry>, m: TouchMark): seq<Entry> {
    if es == [] then []
    else if es[0].key == m.ck then
      [if es[0].markedAt == m.markedAt then es[0].(markedAt := 0) else es[0]] + es[1..]
    else [es[0]] + ClearOne(es[1..], m)
  }

  function ClearAll(es: seq<Entry>, ms: seq<TouchMark>): seq<Entry>
    decreases ms
  {
    if ms == [] then es else ClearAll(ClearOne(es, ms[0]), ms[1..])
  }

  // ---- lookups after each change -------------------------------------------

  lemma {:induction false} LookupKey(es: seq<Entry>, k: Key)
    ensures Lookup(es, k).Some? ==> Lookup(es, k).value.key == k && Lookup(es, k).value in es
    ensures Lookup(es, k).Some? <==> exists i :: 0 <= i < |es| && es[i].key == k
  {
    if es != [] { LookupKey(es[1..], k); }
  }

  lemma {:induction false} LookupWithout(es: seq<Entry>, k: Key, j: Key)
    ensures Lookup(Without(es, k), j) == if j == k then None else Lookup(es, j)
  {
    if es != [] { LookupWithout(es[1..], k, j); }
  }

  lemma {:induction false} LookupWithoutAll(es: seq<Entry>, ks: seq<Key>, j: Key)
    ensures Lookup(WithoutAll(es, ks), j) == if j in ks then None else Lookup(es, j)
    decreases ks
  {
    if ks != [] {
      LookupWithoutAll(Without(es, ks[0]), ks[1..], j);
      LookupWithout(es, ks[0], j);
    }
  }

  lemma {:induction false} LookupDropLast(es: seq<Entry>, j: Key)
    requires es != [] && Distinct(es)
    ensures Lookup(es[..|es| - 1], j) == if j == es[|es| - 1].key then None else Lookup(es, j)
  {
    if |es| > 1 {
      LookupDropLast(es[1..], j);
      assert es[..|es| - 1][1..] == es[1..][..|es| - 2];
    }
  }

  lemma DistinctFresh(es: seq<Entry>, e: Entry)
    requires Distinct(es) && Lookup(es, e.key).None?
    ensures Distinct([e] + es)
  {
    LookupKey(es, e.key);
    forall i, j | 0 <= i < j < |[e] + es| ensures ([e] + es)[i].key != ([e] + es)[j].key {
      assert ([e] + es)[j] == es[j - 1];
      if i > 0 { assert ([e] + es)[i] == es[i - 1]; }
    }
  }

  /** The key just inserted is found with its new meta; every other key kept its entry or was evicted. */
  lemma LookupInsert(es: seq<Entry>, cap: nat, k: Key, meta: Meta, stamp: int, j: Key)
    requires Distinct(es) && cap >= 1
    ensures var r := Lookup(Insert(es, cap, k, meta, stamp), j);
            if j == k then
              r == Some(Entry(k, meta, if Pending(es, k) then Lookup(es, k).value.markedAt else stamp))
            else r.None? || r == Lookup(es, j)
  {
    if Lookup(es, k).Some? {
      LookupWithout(es, k, j);
    } else {
      var grown := [Entry(k, meta, stamp)] + es;
      DistinctFresh(es, Entry(k, meta, stamp));
      if |grown| > cap { LookupDropLast(grown, j); }
      assert grown[1..] == es;
    }
  }

  lemma LookupHit(es: seq<Entry>, e: Entry, now: int, j: Key)
    requires Lookup(es, e.key) == Some(e)
    ensures var r := Lookup(Hit(es, e, now), j);
            r == if j == e.key then Some(if e.meta.present && e.markedAt == 0 then e.(markedAt := now) else e)
                 else Lookup(es, j)
  {
    LookupWithout(es, e.key, j);
    assert Hit(es, e, now)[1..] == Without(es, e.key);
  }

  lemma {:induction false} LookupClearOne(es: seq<Entry>, m: TouchMark, j: Key)
    ensures var r, e := Lookup(ClearOne(es, m), j), Lookup(es, j);
            r == if e.Some? && j == m.ck && e.value.markedAt == m.markedAt then Some(e.value.(markedAt := 0)) else e
  {
    if es != [] {
      LookupClearOne(es[1..], m, j);
      assert ClearOne(es, m)[1..] == if es[0].key == m.ck then es[1..] else ClearOne(es[1..], m);
    }
  }

  // ---- shape ---------------------------------------------------------------

  lemma {:induction false} WithoutShape(es: seq<Entry>, k: Key)
    requires Distinct(es)
    ensures Distinct(Without(es, k))
    ensures forall e :: e in Without(es, k) <==> e in es && e.key != k
    ensures |Without(es, k)| == |es| - if Lookup(es, k).Some? then 1 else 0
    ensures Marks(Without(es, k)) == Marks(es) - if Pending(es, k) then 1 else 0
  {
    if es != [] {
      WithoutShape(es[1..], k);
      if es[0].key == k {
        WithoutAbsent(es[1..], k);
      } else {
        assert Without(es, k) == [es[0]] + Without(es[1..], k);
        LookupWithout(es[1..], k, es[0].key);
        assert Lookup(es[1..], es[0].key).None? by { LookupKey(es[1..], es[0].key); }
        DistinctFresh(Without(es[1..], k), es[0]);
      }
    }
  }

  lemma {:induction false} WithoutAbsent(es: seq<Entry>, k: Key)
    requires forall i :: 0 <= i < |es| ==> es[i].key != k
    ensures Without(es, k) == es && Lookup(es, k).None?
  {
    if es != [] { WithoutAbsent(es[1..], k); }
  }

  lemma {:induction false} MarksConcat(a: seq<Entry>, b: seq<Entry>)
    ensures Marks(a + b) == Marks(a) + Marks(b)
  {
    if a != [] {
      assert (a + b)[1..] == a[1..] + b;
      MarksConcat(a[1..], b);
    } else {
      assert a + b == b;
    }
  }

  lemma {:induction false} CollectConcat(a: seq<Entry>, b: seq<Entry>, cutoff: int)
    ensures Collect(a + b, cutoff) == Collect(a, cutoff) + Collect(b, cutoff)
  {
    if a != [] {
      assert (a + b)[1..] == a[1..] + b;
      CollectConcat(a[1..], b, cutoff);
    } else {
      assert a + b == b;
    }
  }

  lemma CollectUnmarked(es: seq<Entry>, cutoff: int)
    requires Marks(es) == 0
    ensures Collect(es, cutoff) == []
  {
    if es != [] { CollectUnmarked(es[1..], cutoff); }
  }

  /** A mark is collected exactly when some entry carries it and it is old enough. */
  lemma {:induction false} CollectExact(es: seq<Entry>, cutoff: int, m: TouchMark)
    requires Distinct(es)
    ensures m in Collect(es, cutoff) <==>
            var e := Lookup(es, m.ck); e.Some? && e.value.markedAt == m.markedAt && m.markedAt != 0 && m.markedAt <= cutoff
  {
    if es != [] {
      CollectExact(es[1..], cutoff, m);
      if es[0].key == m.ck { WithoutAbsent(es[1..], m.ck); }
    }
  }

  lemma InsertShape(es: seq<Entry>, cap: nat, k: Key, meta: Meta, stamp: int)
    requires Distinct(es) && |es| <= cap && cap >= 1
    ensures var r := Insert(es, cap, k, meta, stamp);
            Distinct(r) && |r| <= cap && r[0].key == k
  {
    WithoutShape(es, k);
    LookupWithout(es, k, k);
    DistinctFresh(Without(es, k), Entry(k, meta, stamp));
    if Lookup(es, k).None? { DistinctFresh(es, Entry(k, meta, stamp)); }
  }

  /** Only the least recently used entry can leave, and only when a new key meets a full shard. */
  lemma EvictsOnlyTheTail(es: seq<Entry>, cap: nat, k: Key, meta: Meta, stamp: int, j: Key)
    requires Distinct(es) && |es| <= cap && cap >= 1 && Lookup(es, j).Some?
    ensures Lookup(Insert(es, cap, k, meta, stamp), j).None? <==>
            Lookup(es, k).None? && |es| == cap && j == es[|es| - 1].key
  {
    LookupWithout(es, k, j);
    LookupKey(es, j);
    if Lookup(es, k).None? {
      var grown := [Entry(k, meta, stamp)] + es;
      DistinctFresh(es, Entry(k, meta, stamp));
      assert grown[1..] == es;
      if |grown| > cap { LookupDropLast(grown, j); }
    }
  }

  // ---- least recently used, from the history alone -------------------------

  /** The keys of a history, each once, most recent use first. */
  function Recency(uses: seq<Key>): seq<Key> {
    if uses == [] then []
    else var k := uses[|uses| - 1]; [k] + Erase(Recency(uses[..|uses| - 1]), k)
  }

  function Erase(ks: seq<Key>, k: Key): seq<Key> {
    if ks == [] then [] else if ks[0] == k then Erase(ks[1..], k) else [ks[0]] + Erase(ks[1..], k)
  }

  function KeysOf(es: seq<Entry>): seq<Key> {
    seq(|es|, i requires 0 <= i < |es| => es[i].key)
  }

  function Prefix(ks: seq<Key>, n: nat): seq<Key> {
    if |ks| <= n then ks else ks[..n]
  }

  lemma {:induction false} EraseKeys(es: seq<Entry>, k: Key)
    ensures KeysOf(Without(es, k)) == Erase(KeysOf(es), k)
  {
    if es != [] {
      EraseKeys(es[1..], k);
      assert KeysOf(es)[1..] == KeysOf(es[1..]);
    }
  }

  lemma {:induction false} EraseConcat(a: seq<Key>, b: seq<Key>, k: Key)
    ensures Erase(a + b, k) == Erase(a, k) + Erase(b, k)
  {
    if a == [] {
      assert a + b == b;
    } else {
      assert (a + b)[1..] == a[1..] + b;
      EraseConcat(a[1..], b, k);
    }
  }

  ghost predicate NoRepeats(ks: seq<Key>) {
    ks != [] ==> ks[0] !in ks[1..] && NoRepeats(ks[1..])
  }

  lemma {:induction false} NoRepeatsSplit(a: seq<Key>, b: seq<Key>)
    ensures NoRepeats(a + b) <==> NoRepeats(a) && NoRepeats(b) && forall k :: k in a ==> k !in b
  {
    if a == [] {
      assert a + b == b;
    } else {
      assert (a + b)[1..] == a[1..] + b;
      NoRepeatsSplit(a[1..], b);
      assert forall k :: k in a <==> k == a[0] || k in a[1..];
    }
  }

  lemma {:induction false} EraseShape(ks: seq<Key>, k: Key)
    requires NoRepeats(ks)
    ensures NoRepeats(Erase(ks, k))
    ensures forall j :: j in Erase(ks, k) <==> j in ks && j != k
    ensures |Erase(ks, k)| == |ks| - if k in ks then 1 else 0
    ensures k !in ks ==> Erase(ks, k) == ks
  {
    if ks != [] {
      EraseShape(ks[1..], k);
      if ks[0] != k { assert Erase(ks, k)[1..] == Erase(ks[1..], k); }
    }
  }

  lemma ErasePrefix(ks: seq<Key>, n: nat, k: Key)
    requires NoRepeats(ks)
    ensures k in Prefix(ks, n) && n > 0 ==> Erase(Prefix(ks, n), k) == Prefix(Erase(ks, k), n - 1)
    ensures k !in Prefix(ks, n) ==> Prefix(ks, n) == Prefix(Erase(ks, k), n)
  {
    EraseShape(ks, k);
    if |ks| > n {
      var a, b := ks[..n], ks[n..];
      assert ks == a + b;
      EraseConcat(a, b, k);
      NoRepeatsSplit(a, b);
      EraseShape(a, k);
      EraseShape(b, k);
    }
  }

  lemma {:induction false} RecencyShape(uses: seq<Key>)
    ensures NoRepeats(Recency(uses))
    ensures forall k :: k in Recency(uses) <==> k in uses
  {
    if uses != [] {
      var front, k := uses[..|uses| - 1], uses[|uses| - 1];
      RecencyShape(front);
      EraseShape(Recency(front), k);
      assert uses == front + [k];
    }
  }

  lemma UsePrefix(r: seq<Key>, cap: nat, k: Key)
    requires cap >= 1 && NoRepeats(r)
    ensures var ks := Prefix(r, cap);
            Prefix([k] + Erase(r, k), cap) ==
            if k in ks then [k] + Erase(ks, k) else if |ks| == cap then [k] + ks[..cap - 1] else [k] + ks
  {
    EraseShape(r, k);
    ErasePrefix(r, cap, k);
    ErasePrefix(r, cap - 1, k);
    assert Prefix([k] + Erase(r, k), cap) == [k] + Prefix(Erase(r, k), cap - 1);
  }

  /** One more use: the keys are again a prefix of the recency order. */
  lemma UseKeepsPrefix(es: seq<Entry>, cap: nat, k: Key, meta: Meta, stamp: int, r: seq<Key>)
    requires cap >= 1 && NoRepeats(r) && KeysOf(es) == Prefix(r, cap)
    ensures KeysOf(Insert(es, cap, k, meta, stamp)) == Prefix([k] + Erase(r, k), cap)
  {
    UsePrefix(r, cap, k);
    KeysMember(es, k);
    if Lookup(es, k).Some? { EraseKeys(es, k); }
  }

  // ---- any history of the shard --------------------------------------------

  /** Everything that is ever done to a shard. */
  datatype Op =
    | Publish(key: Key, meta: Meta)
    | Land(key: Key, meta: Meta, seen: nat, now: int)
    | Read(key: Key, now: int)
    | Remove(key: Key)
    | RemoveAll(keys: seq<Key>)
    | Unmark(marks: seq<TouchMark>)

  function Apply(s: Shard, op: Op): Shard {
    match op
    case Publish(k, meta) => Put(s, k, meta)
    case Land(k, meta, seen, now) => PutIfUnchanged(s, k, meta, seen, now).0
    case Read(k, now) => Get(s, k, now).0
    case Remove(k) => Del(s, k)
    case RemoveAll(ks) => DelAll(s, ks)
    case Unmark(ms) => s.(entries := ClearAll(s.entries, ms))
  }

  function Run(s: Shard, ops: seq<Op>): Shard {
    if ops == [] then s else Apply(Run(s, ops[..|ops| - 1]), ops[|ops| - 1])
  }

  /** What a shard comes to without metas and stamps: its keys, most recent use first, and its generation. */
  datatype Held = Held(keys: seq<Key>, gen: nat)

  /** A use brings the key to the front, and the last of too many leaves. */
  function Used(ks: seq<Key>, cap: nat, k: Key): seq<Key> {
    Prefix([k] + Erase(ks, k), cap)
  }

  function EraseAll(ks: seq<Key>, drop: seq<Key>): seq<Key>
    decreases drop
  {
    if drop == [] then ks else EraseAll(Erase(ks, drop[0]), drop[1..])
  }

  /** A publish and a fill that lands are uses; a read is one if the key is held; a removal erases and is no use. */
  function ApplyKeys(h: Held, cap: nat, op: Op): Held {
    match op
    case Publish(k, _) => Held(Used(h.keys, cap, k), h.gen + 1)
    case Land(k, _, seen, _) => if h.gen == seen then h.(keys := Used(h.keys, cap, k)) else h
    case Read(k, _) => if k in h.keys then h.(keys := Used(h.keys, cap, k)) else h
    case Remove(k) => Held(Erase(h.keys, k), h.gen + 1)
    case RemoveAll(ks) => if ks == [] then h else Held(EraseAll(h.keys, ks), h.gen + 1)
    case Unmark(_) => h
  }

  function RunKeys(h: Held, cap: nat, ops: seq<Op>): Held {
    if ops == [] then h else ApplyKeys(RunKeys(h, cap, ops[..|ops| - 1]), cap, ops[|ops| - 1])
  }

  ghost predicate Fits(es: seq<Entry>, cap: nat) {
    Distinct(es) && |es| <= cap && cap >= 1
  }

  lemma KeysMember(es: seq<Entry>, k: Key)
    ensures k in KeysOf(es) <==> Lookup(es, k).Some?
  {
    LookupKey(es, k);
    if k in KeysOf(es) { var i :| 0 <= i < |es| && KeysOf(es)[i] == k; assert es[i].key == k; }
    if Lookup(es, k).Some? { var i :| 0 <= i < |es| && es[i].key == k; assert KeysOf(es)[i] == k; }
  }

  lemma {:induction false} KeysNoRepeats(es: seq<Entry>)
    requires Distinct(es)
    ensures NoRepeats(KeysOf(es))
  {
    if es != [] {
      KeysNoRepeats(es[1..]);
      assert KeysOf(es)[1..] == KeysOf(es[1..]);
      assert forall i :: 0 <= i < |es[1..]| ==> KeysOf(es[1..])[i] == es[i + 1].key;
    }
  }

  lemma InsertKeys(es: seq<Entry>, cap: nat, k: Key, meta: Meta, stamp: int)
    requires Fits(es, cap)
    ensures KeysOf(Insert(es, cap, k, meta, stamp)) == Used(KeysOf(es), cap, k) && Fits(Insert(es, cap, k, meta, stamp), cap)
  {
    KeysNoRepeats(es);
    InsertShape(es, cap, k, meta, stamp);
    UseKeepsPrefix(es, cap, k, meta, stamp, KeysOf(es));
  }

  lemma HitKeys(es: seq<Entry>, cap: nat, k: Key, now: int)
    requires Fits(es, cap) && Lookup(es, k).Some?
    ensures var r := Hit(es, Lookup(es, k).value, now);
            KeysOf(r) == Used(KeysOf(es), cap, k) && Fits(r, cap)
  {
    var r := Hit(es, Lookup(es, k).value, now);
    LookupKey(es, k);
    EraseKeys(es, k);
    KeysCons(r[0], Without(es, k));
    FrontFits(es, cap, r[0]);
  }

  lemma KeysCons(e: Entry, es: seq<Entry>)
    ensures KeysOf([e] + es) == [e.key] + KeysOf(es)
  {
  }

  /** Moving an entry to the front keeps the shape. */
  lemma FrontFits(es: seq<Entry>, cap: nat, e: Entry)
    requires Fits(es, cap) && Lookup(es, e.key).Some?
    ensures Fits([e] + Without(es, e.key), cap)
  {
    WithoutShape(es, e.key);
    LookupWithout(es, e.key, e.key);
    DistinctFresh(Without(es, e.key), e);
  }

  lemma {:induction false} RemovedKeys(es: seq<Entry>, cap: nat, ks: seq<Key>)
    requires Fits(es, cap)
    ensures KeysOf(WithoutAll(es, ks)) == EraseAll(KeysOf(es), ks) && Fits(WithoutAll(es, ks), cap)
    decreases ks
  {
    if ks != [] {
      WithoutShape(es, ks[0]);
      EraseKeys(es, ks[0]);
      RemovedKeys(Without(es, ks[0]), cap, ks[1..]);
    }
  }

  lemma {:induction false} ClearOneKeys(es: seq<Entry>, m: TouchMark)
    ensures KeysOf(ClearOne(es, m)) == KeysOf(es)
  {
    if es != [] {
      ClearOneKeys(es[1..], m);
      assert KeysOf(es) == [es[0].key] + KeysOf(es[1..]);
      if es[0].key != m.ck {
        assert KeysOf(ClearOne(es, m)) == [es[0].key] + KeysOf(ClearOne(es[1..], m));
      }
    }
  }

  lemma {:induction false} ClearedKeys(es: seq<Entry>, cap: nat, ms: seq<TouchMark>)
    requires Fits(es, cap)
    ensures KeysOf(ClearAll(es, ms)) == KeysOf(es) && Fits(ClearAll(es, ms), cap)
    decreases ms
  {
    if ms != [] {
      var r := ClearOne(es, ms[0]);
      ClearOneKeys(es, ms[0]);
      assert |KeysOf(r)| == |r| && forall i :: 0 <= i < |r| ==> r[i].key == KeysOf(r)[i] && KeysOf(es)[i] == es[i].key;
      ClearedKeys(r, cap, ms[1..]);
    }
  }

  lemma ApplyRefines(s: Shard, op: Op)
    requires Fits(s.entries, s.cap)
    ensures var s', h := Apply(s, op), ApplyKeys(Held(KeysOf(s.entries), s.gen), s.cap, op);
            s'.cap == s.cap && Fits(s'.entries, s.cap) && KeysOf(s'.entries) == h.keys && s'.gen == h.gen
  {
    match op
    case Publish(k, meta) => InsertKeys(s.entries, s.cap, k, meta, 0);
    case Land(k, meta, seen, now) => InsertKeys(s.entries, s.cap, k, meta, if meta.present then now else 0);
    case Read(k, now) =>
      KeysMember(s.entries, k);
      if Lookup(s.entries, k).Some? { HitKeys(s.entries, s.cap, k, now); }
    case Remove(k) => WithoutShape(s.entries, k); EraseKeys(s.entries, k);
    case RemoveAll(ks) => RemovedKeys(s.entries, s.cap, ks);
    case Unmark(ms) => ClearedKeys(s.entries, s.cap, ms);
  }

  /**
   After any history of publishes, fills, reads, removals and clears, from any state, the
   shard holds the keys the plain recency list holds, in its order: a use brings its key to
   the front, only the last can be pushed out, and a removal takes exactly its keys.
   */
  lemma {:induction false} HistoryIsLru(s: Shard, ops: seq<Op>)
    requires Fits(s.entries, s.cap)
    ensures var s', h := Run(s, ops), RunKeys(Held(KeysOf(s.entries), s.gen), s.cap, ops);
            s'.cap == s.cap && Fits(s'.entries, s.cap) && KeysOf(s'.entries) == h.keys && s'.gen == h.gen
  {
    if ops != [] {
      HistoryIsLru(s, ops[..|ops| - 1]);
      ApplyRefines(Run(s, ops[..|ops| - 1]), ops[|ops| - 1]);
    }
  }

  /** The keys a history uses, in order: a read of a key that is not held is none. */
  function Uses(h: Held, cap: nat, ops: seq<Op>): seq<Key> {
    if ops == [] then []
    else
      var front, op := ops[..|ops| - 1], ops[|ops| - 1];
      var at := RunKeys(h, cap, front);
      Uses(h, cap, front) +
      match op
      case Publish(k, _) => [k]
      case Land(k, _, seen, _) => if at.gen == seen then [k] else []
      case Read(k, _) => if k in at.keys then [k] else []
      case _ => []
  }

  predicate Removes(op: Op) {
    op.Remove? || op.RemoveAll?
  }

  lemma PrefixNoRepeats(r: seq<Key>, n: nat)
    requires NoRepeats(r)
    ensures NoRepeats(Prefix(r, n)) && |Prefix(r, n)| <= n
  {
    if |r| > n {
      assert r == r[..n] + r[n..];
      NoRepeatsSplit(r[..n], r[n..]);
    }
  }

  lemma UsedCases(ks: seq<Key>, cap: nat, k: Key)
    requires cap >= 1 && NoRepeats(ks) && |ks| <= cap
    ensures Used(ks, cap, k) ==
            if k in ks then [k] + Erase(ks, k) else if |ks| == cap then [k] + ks[..cap - 1] else [k] + ks
  {
    EraseShape(ks, k);
    assert |ks| == cap ==> ([k] + ks)[..cap] == [k] + ks[..cap - 1];
  }

  lemma UsedPrefix(r: seq<Key>, cap: nat, k: Key)
    requires cap >= 1 && NoRepeats(r)
    ensures Used(Prefix(r, cap), cap, k) == Prefix([k] + Erase(r, k), cap)
  {
    PrefixNoRepeats(r, cap);
    UsedCases(Prefix(r, cap), cap, k);
    UsePrefix(r, cap, k);
  }

  /**
   The shard is LRU: after any history of publishes, fills and reads it holds exactly the
   `cap` keys used most recently, in order of last use, whatever their metas and stamps.
   */
  lemma {:induction false} ReplayIsLru(ops: seq<Op>, cap: nat, gen: nat)
    requires cap >= 1 && forall i :: 0 <= i < |ops| ==> !Removes(ops[i])
    ensures KeysOf(Run(Shard([], cap, gen), ops).entries) == Prefix(Recency(Uses(Held([], gen), cap, ops)), cap)
  {
    HistoryIsLru(Shard([], cap, gen), ops);
    assert KeysOf([]) == [];
    RecencyHeld(ops, cap, gen);
  }

  lemma {:induction false} RecencyHeld(ops: seq<Op>, cap: nat, gen: nat)
    requires cap >= 1 && forall i :: 0 <= i < |ops| ==> !Removes(ops[i])
    ensures RunKeys(Held([], gen), cap, ops).keys == Prefix(Recency(Uses(Held([], gen), cap, ops)), cap)
  {
    if ops != [] {
      var front, op := ops[..|ops| - 1], ops[|ops| - 1];
      RecencyHeld(front, cap, gen);
      var uses := Uses(Held([], gen), cap, front);
      RecencyShape(uses);
      if !op.Unmark? {
        assert (uses + [op.key])[..|uses|] == uses;
        UsedPrefix(Recency(uses), cap, op.key);
      }
      assert uses + [] == uses;
    }
  }
}
