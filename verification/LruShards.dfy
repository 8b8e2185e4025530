/** The LRU shard as the program holds it: a map, a recency list and two counters, updated in place. */
module LruShards {
  import opened Types
  import opened Lru

  /** The payload a list element carries besides its key. */
  datatype Slot = Slot(meta: Meta, markedAt: int)

  function EntriesOf(ll: seq<Key>, m: map<Key, Slot>): (es: seq<Entry>)
    requires forall k :: k in ll ==> k in m
    ensures |es| == |ll| && forall i :: 0 <= i < |ll| ==> es[i].key == ll[i]
  {
    seq(|ll|, i requires 0 <= i < |ll| => Entry(ll[i], m[ll[i]].meta, m[ll[i]].markedAt))
  }

  class LruShard {
    const cap: nat
    var m: map<Key, Slot>
    var ll: seq<Key>        // front = most recently used
    var gen: nat
    var marked: int

    /** Map keys are the list keys, none twice, at most `cap`; the counter counts the marks. */
    ghost predicate Valid()
      reads this
    {
      cap >= 1 && Holds(cap)
    }

    /** The representation invariant with room for `n` entries; one too many while an insert is evicting. */
    ghost predicate Holds(n: nat)
      reads this
    {
      && NoRepeats(ll) && |ll| <= n
      && (forall k :: k in ll <==> k in m)
      && marked == Marks(EntriesOf(ll, m))
    }

    ghost function Model(): Shard
      reads this
      requires Valid()
    {
      Shard(EntriesOf(ll, m), cap, gen)
    }

    constructor (perShard: nat)
      ensures Valid() && Model() == Shard([], if perShard < 1 then 1 else perShard, 0)
    {
      cap := if perShard < 1 then 1 else perShard;
      m, ll, gen, marked := map[], [], 0, 0;
    }

    method Get(k: Key, now: int) returns (meta: Option<Meta>)
      requires Valid() && now != 0
      modifies this
      ensures Valid()
      ensures (Model(), meta) == Lru.Get(old(Model()), k, now)
    {
      EntriesLookup(ll, m, k);
      if k !in m {
        return None;
      }
      var slot := m[k];
      meta := Some(slot.meta);
      if slot.meta.present && slot.markedAt == 0 {
        slot := slot.(markedAt := now);
      }
      MoveToFront(k, slot);
    }

    /** Moves a cached key to the front with a new payload, keeping the mark counter exact. */
    method MoveToFront(k: Key, slot: Slot)
      requires Valid() && k in m
      modifies this`m, this`ll, this`marked
      ensures Valid()
      ensures Model() == old(Model()).(entries :=
                [Entry(k, slot.meta, slot.markedAt)] + Without(old(Model()).entries, k))
    {
      MoveEntry(ll, m, k, slot);
      marked := marked - (if m[k].markedAt != 0 then 1 else 0) + (if slot.markedAt != 0 then 1 else 0);
      m := m[k := slot];
      ll := [k] + Erase(ll, k);
    }

    /** The write generation a fill captures before it queries the database. */
    method Seq() returns (g: nat)
      requires Valid()
      ensures g == Model().gen
    {
      g := gen;
    }

    method InsertLocked(k: Key, meta: Meta, stamp: int) returns (added: bool, evicted: bool)
      requires Valid()
      modifies this`m, this`ll, this`marked
      ensures Valid()
      ensures Model() == old(Model()).(entries := Insert(old(Model()).entries, cap, k, meta, stamp))
      ensures added <==> Lookup(old(Model()).entries, k).None?
      ensures evicted <==> added && |old(Model()).entries| == cap
    {
      EntriesLookup(ll, m, k);
      if k in m {
        var slot := m[k].(meta := meta);
        if slot.markedAt == 0 {
          slot := slot.(markedAt := stamp);
        }
        MoveToFront(k, slot);
        return false, false;
      }
      PushFront(k, Slot(meta, stamp));
      added, evicted := true, |ll| > cap;
      if evicted {
        EvictBack();
      }
    }

    /** A key not yet cached goes to the front. */
    method PushFront(k: Key, slot: Slot)
      requires Holds(cap) && k !in m
      modifies this`m, this`ll, this`marked
      ensures Holds(cap + 1)
      ensures EntriesOf(ll, m) == [Entry(k, slot.meta, slot.markedAt)] + old(EntriesOf(ll, m))
    {
      PushEntry(ll, m, k, slot);
      m := m[k := slot];
      ll := [k] + ll;
      marked := marked + if slot.markedAt != 0 then 1 else 0;
    }

    /** The tail leaves and takes its mark with it. */
    method EvictBack()
      requires ll != [] && Holds(cap + 1)
      modifies this`m, this`ll, this`marked
      ensures Holds(cap)
      ensures EntriesOf(ll, m) == old(EntriesOf(ll, m))[..old(|ll|) - 1]
    {
      PopEntry(ll, m);
      var back := ll[|ll| - 1];
      marked := marked - if m[back].markedAt != 0 then 1 else 0;
      ll := ll[..|ll| - 1];
      m := m - {back};
    }

    /** A writer's publish. */
    method Put(k: Key, meta: Meta) returns (added: bool, evicted: bool)
      requires Valid()
      modifies this
      ensures Valid() && Model() == Lru.Put(old(Model()), k, meta)
    {
      gen := gen + 1;
      added, evicted := InsertLocked(k, meta, 0);
    }

    /** A database fill, dropped when the generation moved. */
    method PutIfUnchanged(k: Key, meta: Meta, seen: nat, now: int) returns (landed: bool)
      requires Valid()
      modifies this
      ensures Valid() && (Model(), landed) == Lru.PutIfUnchanged(old(Model()), k, meta, seen, now)
    {
      var stamp := 0;
      if meta.present {
        stamp := now;
      }
      if gen != seen {
        return false;
      }
      var added, evicted := InsertLocked(k, meta, stamp);
      landed := true;
    }

    method Remove(k: Key) returns (removed: bool)
      requires Valid()
      modifies this`m, this`ll, this`marked
      ensures Valid()
      ensures Model() == old(Model()).(entries := Without(old(Model()).entries, k))
      ensures removed <==> Lookup(old(Model()).entries, k).Some?
    {
      EntriesLookup(ll, m, k);
      EntriesDistinct(ll, m);
      if k !in m {
        AbsentEntry(ll, m, k);
        return false;
      }
      EraseEntry(ll, m, k);
      if m[k].markedAt != 0 {
        marked := marked - 1;
      }
      ll := Erase(ll, k);
      m := m - {k};
      removed := true;
    }

    method Del(k: Key)
      requires Valid()
      modifies this
      ensures Valid() && Model() == Lru.Del(old(Model()), k)
    {
      gen := gen + 1;
      var removed := Remove(k);
    }

    /** The GC's batch: one bump for the shard, however many keys. */
    method DelBatch(ks: seq<Key>) returns (removed: nat)
      requires Valid()
      modifies this
      ensures Valid() && Model() == DelAll(old(Model()), ks)
      ensures removed == |old(Model()).entries| - |Model().entries|
    {
      removed := 0;
      if ks == [] {
        return;
      }
      gen := gen + 1;
      ghost var es := EntriesOf(ll, m);
      var i := 0;
      while i < |ks|
        invariant 0 <= i <= |ks| && Valid()
        invariant gen == old(gen) + 1
        invariant WithoutAll(es, ks) == WithoutAll(EntriesOf(ll, m), ks[i..])
        invariant removed == |es| - |ll|
      {
        ghost var before := EntriesOf(ll, m);
        EntriesDistinct(ll, m);
        WithoutShape(before, ks[i]);
        var gone := Remove(ks[i]);
        if gone {
          removed := removed + 1;
        }
        assert ks[i..][1..] == ks[i + 1..];
        i := i + 1;
      }
    }

    /** The walk stops once it has seen `marked` marked entries, and still reports every mark due. */
    method CollectMarks(cutoff: int) returns (out: seq<TouchMark>)
      requires Valid()
      ensures out == Collect(Model().entries, cutoff)
    {
      ghost var es := EntriesOf(ll, m);
      out := [];
      if marked == 0 {
        CollectUnmarked(es, cutoff);
        return;
      }
      var i, found := 0, 0;
      while i < |ll| && found < marked
        invariant 0 <= i <= |ll| && found == Marks(es[..i])
        invariant out == Collect(es[..i], cutoff)
      {
        assert es[..i + 1] == es[..i] + [es[i]];
        MarksConcat(es[..i], [es[i]]);
        CollectConcat(es[..i], [es[i]], cutoff);
        var slot := m[ll[i]];
        if slot.markedAt != 0 {
          found := found + 1;
          if slot.markedAt <= cutoff {
            out := out + [TouchMark(ll[i], slot.markedAt)];
          }
        }
        i := i + 1;
      }
      assert es == es[..i] + es[i..];
      MarksConcat(es[..i], es[i..]);
      CollectConcat(es[..i], es[i..], cutoff);
      CollectUnmarked(es[i..], cutoff);
    }

    /** Unmarks exactly the stamps reported, leaving a stamp that changed since. */
    method ClearMarks(ms: seq<TouchMark>)
      requires Valid() && forall i :: 0 <= i < |ms| ==> ms[i].markedAt != 0
      modifies this`m, this`marked
      ensures Valid()
      ensures Model() == old(Model()).(entries := ClearAll(old(Model()).entries, ms))
    {
      ghost var es := EntriesOf(ll, m);
      var i := 0;
      while i < |ms|
        invariant 0 <= i <= |ms| && Valid()
        invariant ll == old(ll) && gen == old(gen)
        invariant ClearAll(es, ms) == ClearAll(EntriesOf(ll, m), ms[i..])
      {
        ClearMark(ms[i]);
        assert ms[i..][1..] == ms[i + 1..];
        i := i + 1;
      }
    }

    method ClearMark(mark: TouchMark)
      requires Valid() && mark.markedAt != 0
      modifies this`m, this`marked
      ensures Valid()
      ensures Model() == old(Model()).(entries := ClearOne(old(Model()).entries, mark))
    {
      ClearEntry(ll, m, mark);
      if mark.ck in m && m[mark.ck].markedAt == mark.markedAt {
        m := m[mark.ck := m[mark.ck].(markedAt := 0)];
        marked := marked - 1;
      }
    }

    method PendingMark(k: Key) returns (pending: bool)
      requires Valid()
      ensures pending <==> Pending(Model().entries, k)
    {
      EntriesLookup(ll, m, k);
      pending := k in m && m[k].markedAt != 0;
    }
  }

  // ---- the list and the map agree ------------------------------------------

  lemma {:induction false} EntriesLookup(ll: seq<Key>, m: map<Key, Slot>, k: Key)
    requires forall j :: j in ll ==> j in m
    ensures Lookup(EntriesOf(ll, m), k) == if k in ll then Some(Entry(k, m[k].meta, m[k].markedAt)) else None
  {
    if ll != [] {
      EntriesLookup(ll[1..], m, k);
      assert EntriesOf(ll, m)[1..] == EntriesOf(ll[1..], m);
    }
  }

  lemma {:induction false} EntriesDistinct(ll: seq<Key>, m: map<Key, Slot>)
    requires NoRepeats(ll) && forall j :: j in ll ==> j in m
    ensures Distinct(EntriesOf(ll, m))
  {
    if ll != [] {
      var es := EntriesOf(ll, m);
      EntriesDistinct(ll[1..], m);
      EntriesLookup(ll[1..], m, ll[0]);
      assert es == [es[0]] + EntriesOf(ll[1..], m);
      DistinctFresh(EntriesOf(ll[1..], m), es[0]);
    }
  }

  lemma {:induction false} EraseWithout(ll: seq<Key>, m: map<Key, Slot>, k: Key)
    requires forall j :: j in ll ==> j in m
    requires forall j :: j in Erase(ll, k) ==> j in ll
    ensures EntriesOf(Erase(ll, k), m) == Without(EntriesOf(ll, m), k)
  {
    if ll != [] {
      EraseMember(ll[1..], k);
      EraseWithout(ll[1..], m, k);
      EntriesCons(ll[0], ll[1..], m);
      assert ll == [ll[0]] + ll[1..];
      if ll[0] != k { EntriesCons(ll[0], Erase(ll[1..], k), m); }
    }
  }

  lemma EntriesCons(j: Key, ll: seq<Key>, m: map<Key, Slot>)
    requires j in m && forall i :: i in ll ==> i in m
    ensures EntriesOf([j] + ll, m) == [Entry(j, m[j].meta, m[j].markedAt)] + EntriesOf(ll, m)
  {
  }

  lemma {:induction false} EraseMember(ll: seq<Key>, k: Key)
    ensures forall j :: j in Erase(ll, k) <==> j in ll && j != k
  {
    if ll != [] { EraseMember(ll[1..], k); }
  }

  lemma EntriesSame(ll: seq<Key>, m: map<Key, Slot>, n: map<Key, Slot>)
    requires forall j :: j in ll ==> j in m && j in n && m[j] == n[j]
    ensures EntriesOf(ll, m) == EntriesOf(ll, n)
  {
  }

  /** What removing `k` does to the entries and to the number of marks. */
  lemma EraseEntry(ll: seq<Key>, m: map<Key, Slot>, k: Key)
    requires NoRepeats(ll) && forall j :: j in ll <==> j in m
    ensures forall j :: j in Erase(ll, k) <==> j in m && j != k
    ensures NoRepeats(Erase(ll, k)) && |Erase(ll, k)| == |ll| - if k in m then 1 else 0
    ensures EntriesOf(Erase(ll, k), m - {k}) == Without(EntriesOf(ll, m), k)
    ensures Marks(Without(EntriesOf(ll, m), k)) ==
            Marks(EntriesOf(ll, m)) - if k in m && m[k].markedAt != 0 then 1 else 0
  {
    EraseShape(ll, k);
    EraseWithout(ll, m, k);
    EntriesSame(Erase(ll, k), m, m - {k});
    assert Marks(Without(EntriesOf(ll, m), k)) ==
           Marks(EntriesOf(ll, m)) - if k in m && m[k].markedAt != 0 then 1 else 0 by {
      EntriesDistinct(ll, m);
      WithoutShape(EntriesOf(ll, m), k);
      EntriesLookup(ll, m, k);
    }
  }

  /** Moving `k` to the front with a new payload. */
  lemma MoveEntry(ll: seq<Key>, m: map<Key, Slot>, k: Key, slot: Slot)
    requires NoRepeats(ll) && (forall j :: j in ll <==> j in m) && k in m
    ensures var l, n := [k] + Erase(ll, k), m[k := slot];
            && NoRepeats(l) && |l| == |ll| && (forall j :: j in l <==> j in n)
            && EntriesOf(l, n) == [Entry(k, slot.meta, slot.markedAt)] + Without(EntriesOf(ll, m), k)
            && Marks(EntriesOf(l, n)) == Marks(EntriesOf(ll, m))
                 - (if m[k].markedAt != 0 then 1 else 0) + (if slot.markedAt != 0 then 1 else 0)
  {
    EraseEntry(ll, m, k);
    var rest, n := Erase(ll, k), m[k := slot];
    EntriesSame(rest, m - {k}, n);
    PushedEntries(rest, n, k);
  }

  lemma PushedEntries(rest: seq<Key>, n: map<Key, Slot>, k: Key)
    requires k in n && NoRepeats(rest) && k !in rest && forall j :: j in rest ==> j in n
    ensures NoRepeats([k] + rest)
    ensures EntriesOf([k] + rest, n) == [Entry(k, n[k].meta, n[k].markedAt)] + EntriesOf(rest, n)
    ensures Marks(EntriesOf([k] + rest, n)) == Marks(EntriesOf(rest, n)) + if n[k].markedAt != 0 then 1 else 0
  {
    assert ([k] + rest)[1..] == rest;
    assert EntriesOf([k] + rest, n)[1..] == EntriesOf(rest, n);
  }

  lemma AbsentEntry(ll: seq<Key>, m: map<Key, Slot>, k: Key)
    requires k !in ll && forall j :: j in ll ==> j in m
    ensures Without(EntriesOf(ll, m), k) == EntriesOf(ll, m)
  {
    WithoutAbsent(EntriesOf(ll, m), k);
  }

  lemma PushEntry(ll: seq<Key>, m: map<Key, Slot>, k: Key, slot: Slot)
    requires NoRepeats(ll) && (forall j :: j in ll <==> j in m) && k !in m
    ensures var l, n := [k] + ll, m[k := slot];
            && NoRepeats(l) && (forall j :: j in l <==> j in n)
            && EntriesOf(l, n) == [Entry(k, slot.meta, slot.markedAt)] + EntriesOf(ll, m)
            && Marks(EntriesOf(l, n)) == Marks(EntriesOf(ll, m)) + if slot.markedAt != 0 then 1 else 0
  {
    var n := m[k := slot];
    EntriesSame(ll, m, n);
    PushedEntries(ll, n, k);
  }

  lemma PopKeys(ll: seq<Key>)
    requires ll != [] && NoRepeats(ll)
    ensures var l, back := ll[..|ll| - 1], ll[|ll| - 1];
            NoRepeats(l) && forall j :: j in l <==> j in ll && j != back
  {
    var l, back := ll[..|ll| - 1], ll[|ll| - 1];
    assert ll == l + [back];
    NoRepeatsSplit(l, [back]);
    assert forall j :: j in ll <==> j in l || j == back;
  }

  lemma PopEntry(ll: seq<Key>, m: map<Key, Slot>)
    requires ll != [] && NoRepeats(ll) && forall j :: j in ll <==> j in m
    ensures var back := ll[|ll| - 1];
            var l, n := ll[..|ll| - 1], m - {back};
            && NoRepeats(l) && (forall j :: j in l <==> j in n)
            && EntriesOf(l, n) == EntriesOf(ll, m)[..|ll| - 1]
            && Marks(EntriesOf(l, n)) == Marks(EntriesOf(ll, m)) - if m[back].markedAt != 0 then 1 else 0
  {
    PopKeys(ll);
    var es, back := EntriesOf(ll, m), ll[|ll| - 1];
    var l := ll[..|ll| - 1];
    EntriesSame(l, m, m - {back});
    assert EntriesOf(l, m) == es[..|ll| - 1];
    assert es == es[..|ll| - 1] + [es[|ll| - 1]];
    MarksConcat(es[..|ll| - 1], [es[|ll| - 1]]);
  }

  lemma {:induction false} ClearEntry(ll: seq<Key>, m: map<Key, Slot>, mark: TouchMark)
    requires NoRepeats(ll) && (forall j :: j in ll ==> j in m) && mark.markedAt != 0
    ensures var hit := mark.ck in ll && m[mark.ck].markedAt == mark.markedAt;
            var n := if hit then m[mark.ck := m[mark.ck].(markedAt := 0)] else m;
            && EntriesOf(ll, n) == ClearOne(EntriesOf(ll, m), mark)
            && Marks(EntriesOf(ll, n)) == Marks(EntriesOf(ll, m)) - if hit then 1 else 0
  {
    if ll != [] {
      var hit := mark.ck in ll && m[mark.ck].markedAt == mark.markedAt;
      var n := if hit then m[mark.ck := m[mark.ck].(markedAt := 0)] else m;
      ClearEntry(ll[1..], m, mark);
      assert EntriesOf(ll, m)[1..] == EntriesOf(ll[1..], m);
      assert EntriesOf(ll, n)[1..] == EntriesOf(ll[1..], n);
      if ll[0] == mark.ck { assert EntriesOf(ll[1..], n) == EntriesOf(ll[1..], m); }
    }
  }
}
