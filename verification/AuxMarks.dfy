/** Reachability marks that have no cache entry behind them. */
module AuxMarks {
  import opened Types
  import opened Lru
  import opened LruCaches

  const AUX_SHARD_CAP: nat := 0x4000

  type Aux = seq<map<Key, int>>

  function StampOf(h: Hash, a: Aux, ck: Key): Option<int>
    requires |a| == LRU_SHARDS
  {
    var m := a[ShardOf(h, ck)];
    if ck in m then Some(m[ck]) else None
  }

  ghost predicate AuxOk(h: Hash, a: Aux) {
    && |a| == LRU_SHARDS
    && forall i :: 0 <= i < |a| ==> |a[i]| <= AUX_SHARD_CAP && forall ck :: ck in a[i] ==> ShardOf(h, ck) == i
  }

  /** The marks at or before the cutoff, each once, in no particular order. */
  ghost predicate Collected(h: Hash, a: Aux, cutoff: int, out: seq<TouchMark>)
    requires |a| == LRU_SHARDS
  {
    && (forall m :: m in out <==> StampOf(h, a, m.ck) == Some(m.markedAt) && m.markedAt <= cutoff)
    && (forall i, j :: 0 <= i < j < |out| ==> out[i].ck != out[j].ck)
  }

  /** What clearing `ms` leaves: a stamp that changed since it was collected stays. */
  ghost predicate Cleared(h: Hash, a: Aux, ms: seq<TouchMark>, a': Aux)
    requires |a| == |a'| == LRU_SHARDS
  {
    forall ck :: StampOf(h, a', ck) ==
      if StampOf(h, a, ck).Some? && TouchMark(ck, StampOf(h, a, ck).value) in ms then None else StampOf(h, a, ck)
  }

  class AuxPending {
    const hash: Hash
    var shards: Aux

    ghost predicate Valid()
      reads this
    {
      AuxOk(hash, shards)
    }

    constructor (h: Hash)
      ensures Valid() && hash == h && forall ck :: StampOf(h, shards, ck) == None
    {
      hash := h;
      shards := seq(LRU_SHARDS, _ => map[]);
    }

    /** First mark wins; a new mark is dropped when its shard is full. */
    method Mark(ck: Key, now: int) returns (dropped: bool)
      requires Valid()
      modifies this
      ensures Valid()
      ensures dropped <==> StampOf(hash, old(shards), ck).None? && |old(shards)[ShardOf(hash, ck)]| >= AUX_SHARD_CAP
      ensures forall k :: StampOf(hash, shards, k) ==
                if k == ck && !dropped && StampOf(hash, old(shards), ck).None? then Some(now)
                else StampOf(hash, old(shards), k)
    {
      var i := ShardOf(hash, ck);
      if ck in shards[i] {
        return false;
      }
      if |shards[i]| >= AUX_SHARD_CAP {
        return true;
      }
      shards := shards[i := shards[i][ck := now]];
      dropped := false;
    }

    method Collect(cutoff: int) returns (out: seq<TouchMark>)
      requires Valid()
      ensures Collected(hash, shards, cutoff, out)
    {
      out := [];
      var i := 0;
      while i < LRU_SHARDS
        invariant 0 <= i <= LRU_SHARDS
        invariant forall m :: m in out <==>
                    ShardOf(hash, m.ck) < i && StampOf(hash, shards, m.ck) == Some(m.markedAt) && m.markedAt <= cutoff
        invariant forall p, q :: 0 <= p < q < |out| ==> out[p].ck != out[q].ck
      {
        var local := CollectShard(shards[i], cutoff);
        out := out + local;
        i := i + 1;
      }
    }

    method Clear(ms: seq<TouchMark>)
      requires Valid()
      modifies this
      ensures Valid() && Cleared(hash, old(shards), ms, shards)
    {
      var j := 0;
      while j < |ms|
        invariant 0 <= j <= |ms| && Valid()
        invariant Cleared(hash, old(shards), ms[..j], shards)
      {
        ClearOneAux(ms[j]);
        assert ms[..j + 1] == ms[..j] + [ms[j]];
        j := j + 1;
      }
      assert ms[..j] == ms;
    }

    method ClearOneAux(m: TouchMark)
      requires Valid()
      modifies this
      ensures Valid()
      ensures forall k :: StampOf(hash, shards, k) ==
                if k == m.ck && StampOf(hash, old(shards), k) == Some(m.markedAt) then None else StampOf(hash, old(shards), k)
    {
      var i := ShardOf(hash, m.ck);
      if m.ck in shards[i] && shards[i][m.ck] == m.markedAt {
        assert |shards[i]| == |shards[i] - {m.ck}| + 1 by { assert shards[i] == (shards[i] - {m.ck})[m.ck := m.markedAt]; }
        shards := shards[i := shards[i] - {m.ck}];
      }
    }

    method Pending(ck: Key) returns (pending: bool)
      requires Valid()
      ensures pending <==> StampOf(hash, shards, ck).Some?
    {
      pending := ck in shards[ShardOf(hash, ck)];
    }
  }

  /** One shard's marks, in whatever order the map yields them. */
  method CollectShard(m: map<Key, int>, cutoff: int) returns (out: seq<TouchMark>)
    ensures forall t :: t in out <==> t.ck in m && m[t.ck] == t.markedAt && t.markedAt <= cutoff
    ensures forall p, q :: 0 <= p < q < |out| ==> out[p].ck != out[q].ck
  {
    out := [];
    var rest := m.Keys;
    while rest != {}
      invariant rest <= m.Keys
      invariant forall t :: t in out <==> t.ck in m.Keys - rest && m[t.ck] == t.markedAt && t.markedAt <= cutoff
      invariant forall p, q :: 0 <= p < q < |out| ==> out[p].ck != out[q].ck
    {
      var ck :| ck in rest;
      rest := rest - {ck};
      if m[ck] <= cutoff {
        assert forall p :: 0 <= p < |out| ==> out[p] in out;
        out := out + [TouchMark(ck, m[ck])];
      }
    }
  }
}
