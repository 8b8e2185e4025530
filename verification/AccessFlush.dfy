/** One tick of the access toucher: collect, write in chunks, and clear only what was written. */
module AccessFlush {
  import opened Types
  import opened Lru
  import opened LruCaches
  import opened AuxMarks
  import opened CacheKey
  import opened Toucher

  const MAX_CUTOFF := MAX_INT64

  /** Everything the committed statements wrote under one group, in order. */
  function WrittenTo(written: seq<Chunk>, g: TouchGroup): seq<string> {
    if written == [] then []
    else
      var last := written[|written| - 1];
      WrittenTo(written[..|written| - 1], g) + if last.group == g then last.keys else []
  }

  ghost predicate WellSized(written: seq<Chunk>) {
    forall i :: 0 <= i < |written| ==> 0 < |written[i].keys| <= 1000
  }

  /** The rows the first `n` statements touched. */
  function RowsOf(outcome: nat -> Option<nat>, n: nat): nat {
    if n == 0 then 0 else RowsOf(outcome, n - 1) + if outcome(n - 1).Some? then outcome(n - 1).value else 0
  }

  /** The statements in `written` are those that committed, and a tick fails at the one after them. */
  ghost predicate Committed(outcome: nat -> Option<nat>, n: nat, failed: bool) {
    (forall i :: 0 <= i < n ==> outcome(i).Some?) && (failed ==> outcome(n).None?)
  }

  lemma WrittenAppend(written: seq<Chunk>, c: Chunk, g: TouchGroup)
    ensures WrittenTo(written + [c], g) == WrittenTo(written, g) + if c.group == g then c.keys else []
  {
    assert (written + [c])[..|written|] == written;
  }

  /** `written` is `before` and then statements of `g` for `keys`; `rows` are what those touched. */
  ghost predicate Sent(outcome: nat -> Option<nat>, before: seq<Chunk>, written: seq<Chunk>, g: TouchGroup, keys: seq<string>,
                       rows: nat) {
    && WellSized(written) && before <= written && WrittenTo(written, g) == keys
    && (forall g' :: g' != g ==> WrittenTo(written, g') == WrittenTo(before, g'))
    && Committed(outcome, |written|, false) && RowsOf(outcome, |before|) + rows == RowsOf(outcome, |written|)
  }

  lemma SentNext(outcome: nat -> Option<nat>, before: seq<Chunk>, written: seq<Chunk>, g: TouchGroup, keys: seq<string>,
                 rows: nat, more: seq<string>)
    requires Sent(outcome, before, written, g, keys, rows) && 0 < |more| <= 1000 && outcome(|written|).Some?
    ensures Sent(outcome, before, written + [Chunk(g, more)], g, keys + more, rows + outcome(|written|).value)
  {
    var chunk := Chunk(g, more);
    forall g' ensures WrittenTo(written + [chunk], g') == WrittenTo(written, g') + if g' == g then more else [] {
      WrittenAppend(written, chunk, g');
    }
  }

  /** The statements of one group, stopping at the first error; `outcome` answers the n-th statement. */
  method WriteGroup(g: TouchGroup, keys: seq<string>, before: seq<Chunk>, outcome: nat -> Option<nat>)
    returns (written: seq<Chunk>, rows: nat, failed: bool)
    requires WellSized(before) && WrittenTo(before, g) == [] && Committed(outcome, |before|, false)
    ensures WellSized(written) && before <= written
    ensures GroupSent(before, written, g, keys) && (!failed ==> WrittenTo(written, g) == keys)
    ensures Committed(outcome, |written|, failed) && RowsOf(outcome, |before|) + rows == RowsOf(outcome, |written|)
  {
    written, rows, failed := before, 0, false;
    var i := 0;
    while i < |keys|
      invariant 0 <= i <= |keys| && Sent(outcome, before, written, g, keys[..i], rows)
    {
      var end := if i + TOUCH_BATCH_SIZE < |keys| then i + TOUCH_BATCH_SIZE else |keys|;
      var n := outcome(|written|);
      if n.None? {
        failed := true;
        return;
      }
      SentNext(outcome, before, written, g, keys[..i], rows, keys[i..end]);
      assert keys[..end] == keys[..i] + keys[i..end];
      written := written + [Chunk(g, keys[i..end])];
      rows := rows + n.value;
      i := end;
    }
    assert keys[..i] == keys;
  }

  function KeysOfGroup(groups: Groups, rest: set<TouchGroup>, g: TouchGroup): seq<string> {
    if g in groups && g !in rest then groups[g] else []
  }

  /** The groups outside `rest` are written, and nothing else. */
  ghost predicate AllSent(outcome: nat -> Option<nat>, written: seq<Chunk>, groups: Groups, rest: set<TouchGroup>, rows: nat) {
    && WellSized(written) && Committed(outcome, |written|, false) && rows == RowsOf(outcome, |written|)
    && forall g :: WrittenTo(written, g) == KeysOfGroup(groups, rest, g)
  }

  /** One group more, all of it or as far as the first error. */
  ghost predicate GroupSent(before: seq<Chunk>, written: seq<Chunk>, g: TouchGroup, keys: seq<string>) {
    && WrittenTo(written, g) <= keys
    && forall g' :: g' != g ==> WrittenTo(written, g') == WrittenTo(before, g')
  }

  lemma GroupSentIn(groups: Groups, before: seq<Chunk>, written: seq<Chunk>, rest: set<TouchGroup>, g: TouchGroup)
    requires g in rest && rest <= groups.Keys && GroupSent(before, written, g, groups[g])
    requires forall g' :: WrittenTo(before, g') == KeysOfGroup(groups, rest, g')
    ensures forall g', key :: key in WrittenTo(written, g') ==> key in KeysOfGroup(groups, {}, g')
    ensures WrittenTo(written, g) == groups[g] ==> forall g' :: WrittenTo(written, g') == KeysOfGroup(groups, rest - {g}, g')
  {
    forall g', key | key in WrittenTo(written, g') ensures key in KeysOfGroup(groups, {}, g') {
      if g' != g { assert key in KeysOfGroup(groups, rest, g'); }
    }
  }

  /** Every group in turn, in whatever order the map yields them. */
  method WriteGroups(groups: Groups, outcome: nat -> Option<nat>)
    returns (written: seq<Chunk>, rows: nat, failed: bool)
    ensures WellSized(written)
    ensures forall g, key :: key in WrittenTo(written, g) ==> key in KeysOfGroup(groups, {}, g)
    ensures !failed ==> forall g :: WrittenTo(written, g) == KeysOfGroup(groups, {}, g)
    ensures Committed(outcome, |written|, failed) && rows == RowsOf(outcome, |written|)
  {
    written, rows, failed := [], 0, false;
    var rest := groups.Keys;
    while rest != {}
      invariant rest <= groups.Keys && AllSent(outcome, written, groups, rest, rows)
    {
      var g :| g in rest;
      ghost var before := written;
      var n;
      written, n, failed := WriteGroup(g, groups[g], written, outcome);
      GroupSentIn(groups, before, written, rest, g);
      rows := rows + n;
      if failed {
        return;
      }
      rest := rest - {g};
    }
  }

  /** A mark from either source asks for `key` to be touched under `g`. */
  ghost predicate Wanted(marks: seq<TouchMark>, auxMarks: seq<TouchMark>, g: TouchGroup, key: string) {
    exists ck :: (Marked(marks, ck) || Marked(auxMarks, ck)) && Target(ck) == Some((g, key))
  }

  lemma MarkedConcat(a: seq<TouchMark>, b: seq<TouchMark>)
    ensures forall ck :: Marked(a + b, ck) <==> Marked(a, ck) || Marked(b, ck)
  {
    forall ck ensures Marked(a + b, ck) <==> Marked(a, ck) || Marked(b, ck) {
      if Marked(a, ck) { var i :| 0 <= i < |a| && a[i].ck == ck; assert (a + b)[i].ck == ck; }
      if Marked(b, ck) { var i :| 0 <= i < |b| && b[i].ck == ck; assert (a + b)[|a| + i].ck == ck; }
    }
  }

  lemma CollectFromNonzero(c: seq<Shard>, cutoff: int)
    ensures forall i :: 0 <= i < |CollectFrom(c, cutoff)| ==> CollectFrom(c, cutoff)[i].markedAt != 0
  {
    if c != [] { CollectNonzero(c[0].entries, cutoff); }
  }

  lemma CollectNonzero(es: seq<Entry>, cutoff: int)
    ensures forall i :: 0 <= i < |Collect(es, cutoff)| ==> Collect(es, cutoff)[i].markedAt != 0
  {
  }

  /** What a finished tick wrote: each wanted key under its own group, once, in chunks of at most a thousand. */
  ghost predicate WroteExactly(written: seq<Chunk>, marks: seq<TouchMark>, auxMarks: seq<TouchMark>) {
    && (forall g, key :: key in WrittenTo(written, g) <==> Wanted(marks, auxMarks, g, key))
    && ((forall ck :: Marked(marks, ck) || Marked(auxMarks, ck) ==> Canonical(ck)) ==>
          forall g :: Toucher.Distinct(WrittenTo(written, g)))
  }

  lemma WantedGroups(groups: Groups, marks: seq<TouchMark>, auxMarks: seq<TouchMark>, g: TouchGroup, key: string)
    requires GroupsOf(groups, marks + auxMarks)
    ensures key in KeysOfGroup(groups, {}, g) <==> Wanted(marks, auxMarks, g, key)
  {
    MarkedConcat(marks, auxMarks);
    if key in KeysOfGroup(groups, {}, g) {
      var ck :| Marked(marks + auxMarks, ck) && Target(ck) == Some((g, key));
    }
    if Wanted(marks, auxMarks, g, key) {
      var ck :| (Marked(marks, ck) || Marked(auxMarks, ck)) && Target(ck) == Some((g, key));
      assert Marked(marks + auxMarks, ck);
    }
  }

  /** Both sources grouped and written; nothing outside them is ever sent, even before an error. */
  method WritePending(marks: seq<TouchMark>, auxMarks: seq<TouchMark>, outcome: nat -> Option<nat>)
    returns (written: seq<Chunk>, rows: nat, failed: bool)
    ensures WellSized(written)
    ensures forall g, key :: key in WrittenTo(written, g) ==> Wanted(marks, auxMarks, g, key)
    ensures !failed ==> WroteExactly(written, marks, auxMarks)
    ensures Committed(outcome, |written|, failed) && rows == RowsOf(outcome, |written|)
  {
    var groups := GroupMarks([marks, auxMarks]);
    assert Flatten([marks, auxMarks]) == marks + auxMarks by {
      assert [marks, auxMarks][1..] == [auxMarks];
      assert Flatten([auxMarks]) == auxMarks + Flatten([]);
    }
    written, rows, failed := WriteGroups(groups, outcome);
    forall g, key { WantedGroups(groups, marks, auxMarks, g, key); }
    if !failed {
      MarkedConcat(marks, auxMarks);
      assert forall g :: Toucher.Distinct(KeysOfGroup(groups, {}, g)) || g in groups;
    }
  }

  /** Both marks go together, each only if its stamp is still the one collected. */
  method ClearBoth(lru: LruCache, aux: AuxPending, marks: seq<TouchMark>, auxMarks: seq<TouchMark>)
    requires lru.Valid() && aux.Valid() && forall j :: 0 <= j < |marks| ==> marks[j].markedAt != 0
    modifies lru.shards, aux
    ensures lru.Valid() && aux.Valid()
    ensures Cleared(aux.hash, old(aux.shards), auxMarks, aux.shards)
    ensures forall i :: 0 <= i < LRU_SHARDS ==>
              lru.shards[i].Model() ==
              old(lru.shards[i].Model()).(entries := ClearAll(old(lru.shards[i].Model()).entries, marks))
  {
    lru.ClearMarks(marks);
    aux.Clear(auxMarks);
  }

  /** The first half of a tick, which changes no mark: collect from both sources and write. */
  method CollectAndWrite(lru: LruCache, aux: AuxPending, cutoff: int, outcome: nat -> Option<nat>)
    returns (rows: nat, failed: bool, written: seq<Chunk>, marks: seq<TouchMark>, auxMarks: seq<TouchMark>)
    requires lru.Valid() && aux.Valid()
    ensures marks == CollectFrom(lru.Model(), cutoff) && Collected(aux.hash, aux.shards, cutoff, auxMarks)
    ensures forall j :: 0 <= j < |marks| ==> marks[j].markedAt != 0
    ensures WellSized(written) && (!failed ==> WroteExactly(written, marks, auxMarks))
    ensures Committed(outcome, |written|, failed) && rows == RowsOf(outcome, |written|)
  {
    marks := lru.CollectMarks(cutoff);
    CollectFromNonzero(lru.Model(), cutoff);
    auxMarks := aux.Collect(cutoff);
    written, rows, failed := WritePending(marks, auxMarks, outcome);
  }

  /** flushAccess: clear only once every statement has committed, and only what was collected. */
  method FlushAccess(lru: LruCache, aux: AuxPending, now: int, staleness: int, all: bool, outcome: nat -> Option<nat>)
    returns (rows: nat, failed: bool, written: seq<Chunk>, marks: seq<TouchMark>, auxMarks: seq<TouchMark>)
    requires lru.Valid() && aux.Valid()
    modifies lru.shards, aux
    ensures lru.Valid() && aux.Valid() && WellSized(written)
    ensures marks == CollectFrom(old(lru.Model()), if all then MAX_CUTOFF else now - staleness)
    ensures Collected(aux.hash, old(aux.shards), if all then MAX_CUTOFF else now - staleness, auxMarks)
    ensures !failed ==> WroteExactly(written, marks, auxMarks)
    ensures !failed && written != [] ==> Cleared(aux.hash, old(aux.shards), auxMarks, aux.shards)
    ensures !failed && written != [] ==> forall i :: 0 <= i < LRU_SHARDS ==>
              lru.shards[i].Model() ==
              old(lru.shards[i].Model()).(entries := ClearAll(old(lru.shards[i].Model()).entries, marks))
    ensures failed || written == [] ==> unchanged(lru.shards) && unchanged(aux)
    ensures Committed(outcome, |written|, failed) && rows == RowsOf(outcome, |written|)
  {
    var cutoff := if all then MAX_CUTOFF else now - staleness;
    rows, failed, written, marks, auxMarks := CollectAndWrite(lru, aux, cutoff, outcome);
    if !failed && written != [] {
      ClearBoth(lru, aux, marks, auxMarks);
    }
  }
}
