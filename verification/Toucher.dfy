/** The access toucher: marks collected from two sources, written in batches, then cleared. */
module Toucher {
  import opened Types
  import opened Lru
  import opened LruCaches
  import opened CacheKey

  const NS_TAGS := "tags"
  const TOUCH_BATCH_SIZE: nat := 1000

  /** One backend and one namespace: the scope of an UPDATE. */
  datatype TouchGroup = TouchGroup(backend: int, namespace: string)

  /** One committed TouchObjectsAccessed statement. */
  datatype Chunk = Chunk(group: TouchGroup, keys: seq<string>)

  type Groups = map<TouchGroup, seq<string>>

  /** Where a collected mark is written, if anywhere: tags and unreadable keys are not touched. */
  function Target(ck: Key): Option<(TouchGroup, string)> {
    var s := Split(ck);
    if s.None? || s.value.1 == NS_TAGS then None else Some((TouchGroup(s.value.0, s.value.1), s.value.2))
  }

  /** Every canonical mark has a target unless it is a tag's. */
  lemma TargetOfComposed(backend: int, namespace: string, key: string)
    requires IsInt64(backend) && NUL !in namespace
    ensures Target(Compose(backend, namespace, key)) ==
            if namespace == "tags" then None else Some((TouchGroup(backend, namespace), key))
  {
    SplitInvertsCompose(backend, namespace, key);
  }

  function Flatten(sets: seq<seq<TouchMark>>): seq<TouchMark> {
    if sets == [] then [] else sets[0] + Flatten(sets[1..])
  }

  ghost predicate Marked(ms: seq<TouchMark>, ck: Key) {
    exists i :: 0 <= i < |ms| && ms[i].ck == ck
  }

  /** `groups` holds exactly the targets of the marks, and each only once if the keys are canonical. */
  ghost predicate GroupsOf(groups: Groups, ms: seq<TouchMark>) {
    TargetsOf(groups, ms) && NoneEmpty(groups) && (AllCanonical(ms) ==> AllDistinct(groups))
  }

  ghost predicate TargetsOf(groups: Groups, ms: seq<TouchMark>) {
    forall g, key :: g in groups && key in groups[g] <==> exists ck :: Marked(ms, ck) && Target(ck) == Some((g, key))
  }

  ghost predicate NoneEmpty(groups: Groups) {
    forall g :: g in groups ==> groups[g] != []
  }

  ghost predicate AllCanonical(ms: seq<TouchMark>) {
    forall ck :: Marked(ms, ck) ==> Canonical(ck)
  }

  ghost predicate AllDistinct(groups: Groups) {
    forall g :: g in groups ==> Distinct(groups[g])
  }

  ghost predicate Distinct(keys: seq<string>) {
    forall i, j :: 0 <= i < j < |keys| ==> keys[i] != keys[j]
  }

  function Appended(groups: Groups, g: TouchGroup, key: string): Groups {
    groups[g := (if g in groups then groups[g] else []) + [key]]
  }

  /** A mark of a key already seen, or of one with no target, adds nothing. */
  lemma GroupSkip(groups: Groups, ms: seq<TouchMark>, m: TouchMark)
    requires GroupsOf(groups, ms) && (Marked(ms, m.ck) || Target(m.ck).None?)
    ensures GroupsOf(groups, ms + [m])
  {
    MarkedAppend(ms, m);
    forall g, key
      ensures g in groups && key in groups[g] <==> exists ck :: Marked(ms + [m], ck) && Target(ck) == Some((g, key))
    {
      if ck :| Marked(ms + [m], ck) && Target(ck) == Some((g, key)) { assert Marked(ms, ck); }
    }
  }

  lemma GroupOne(groups: Groups, ms: seq<TouchMark>, m: TouchMark)
    requires GroupsOf(groups, ms)
    ensures Marked(ms, m.ck) || Target(m.ck).None? ==> GroupsOf(groups, ms + [m])
    ensures !Marked(ms, m.ck) && Target(m.ck).Some? ==>
              GroupsOf(Appended(groups, Target(m.ck).value.0, Target(m.ck).value.1), ms + [m])
  {
    if Marked(ms, m.ck) || Target(m.ck).None? {
      GroupSkip(groups, ms, m);
    } else {
      AppendedTarget(groups, ms, m);
      if AllCanonical(ms + [m]) { AppendedDistinct(groups, ms, m); }
    }
  }

  lemma MarkedAppend(ms: seq<TouchMark>, m: TouchMark)
    ensures forall ck :: Marked(ms + [m], ck) <==> Marked(ms, ck) || ck == m.ck
  {
    forall ck ensures Marked(ms + [m], ck) <==> Marked(ms, ck) || ck == m.ck {
      if Marked(ms, ck) {
        var i :| 0 <= i < |ms| && ms[i].ck == ck;
        assert (ms + [m])[i].ck == ck;
      }
      assert (ms + [m])[|ms|] == m;
    }
  }

  lemma AppendedTarget(groups: Groups, ms: seq<TouchMark>, m: TouchMark)
    requires GroupsOf(groups, ms) && Target(m.ck).Some?
    ensures var r := Appended(groups, Target(m.ck).value.0, Target(m.ck).value.1);
            TargetsOf(r, ms + [m])
  {
    MarkedAppend(ms, m);
    var (g0, k0) := Target(m.ck).value;
    var r := Appended(groups, g0, k0);
    forall g, key
      ensures g in r && key in r[g] <==> exists ck :: Marked(ms + [m], ck) && Target(ck) == Some((g, key))
    {
      if g in r && key in r[g] {
        if g in groups && key in groups[g] {
          var ck :| Marked(ms, ck) && Target(ck) == Some((g, key));
          assert Marked(ms + [m], ck);
        } else {
          assert g == g0 && key == k0;
          assert Marked(ms + [m], m.ck);
        }
      }
      if ck :| Marked(ms + [m], ck) && Target(ck) == Some((g, key)) {
        if Marked(ms, ck) { assert g in groups && key in groups[g]; }
      }
    }
  }

  lemma AppendedDistinct(groups: Groups, ms: seq<TouchMark>, m: TouchMark)
    requires GroupsOf(groups, ms) && Target(m.ck).Some? && !Marked(ms, m.ck)
    requires AllCanonical(ms + [m])
    ensures AllDistinct(Appended(groups, Target(m.ck).value.0, Target(m.ck).value.1))
  {
    MarkedAppend(ms, m);
    var (g0, k0) := Target(m.ck).value;
    if g0 in groups && k0 in groups[g0] {
      var ck :| Marked(ms, ck) && Target(ck) == Some((g0, k0));
      CanonicalSplit(ck, m.ck);
      assert false;
    }
  }

  /** `seen` is the set of keys already folded into `groups`. */
  ghost predicate Folded(groups: Groups, seen: set<Key>, ms: seq<TouchMark>) {
    GroupsOf(groups, ms) && forall ck :: ck in seen <==> Marked(ms, ck)
  }

  /** One mark: skipped if its key was seen or has no target. */
  function FoldOne(groups: Groups, seen: set<Key>, ck: Key): Groups {
    var target := Target(ck);
    if ck in seen || target.None? then groups else Appended(groups, target.value.0, target.value.1)
  }

  lemma FoldOneKeeps(groups: Groups, seen: set<Key>, ms: seq<TouchMark>, m: TouchMark)
    requires Folded(groups, seen, ms)
    ensures Folded(FoldOne(groups, seen, m.ck), seen + {m.ck}, ms + [m])
  {
    GroupOne(groups, ms, m);
    MarkedAppend(ms, m);
  }

  /** Folds both mark sources into one duplicate-free key list per group. */
  method GroupMarks(sets: seq<seq<TouchMark>>) returns (groups: Groups)
    ensures GroupsOf(groups, Flatten(sets))
  {
    groups := map[];
    var seen: set<Key> := {};
    ghost var done: seq<TouchMark> := [];
    var i := 0;
    while i < |sets|
      invariant 0 <= i <= |sets|
      invariant done + Flatten(sets[i..]) == Flatten(sets)
      invariant Folded(groups, seen, done)
    {
      groups, seen := GroupSet(groups, seen, sets[i], done);
      FlattenNext(sets, i, done);
      done := done + sets[i];
      i := i + 1;
    }
    assert done + Flatten(sets[i..]) == done;
  }

  lemma FlattenNext(sets: seq<seq<TouchMark>>, i: nat, done: seq<TouchMark>)
    requires i < |sets|
    ensures done + Flatten(sets[i..]) == (done + sets[i]) + Flatten(sets[i + 1..])
  {
    assert sets[i..][0] == sets[i] && sets[i..][1..] == sets[i + 1..];
  }

  /** The inner loop: one source. */
  method GroupSet(groups0: Groups, seen0: set<Key>, ms: seq<TouchMark>, ghost done: seq<TouchMark>)
    returns (groups: Groups, seen: set<Key>)
    requires Folded(groups0, seen0, done)
    ensures Folded(groups, seen, done + ms)
  {
    groups, seen := groups0, seen0;
    var j := 0;
    assert done + ms[..0] == done;
    while j < |ms|
      invariant 0 <= j <= |ms|
      invariant Folded(groups, seen, done + ms[..j])
    {
      FoldOneKeeps(groups, seen, done + ms[..j], ms[j]);
      groups, seen := FoldOne(groups, seen, ms[j].ck), seen + {ms[j].ck};
      assert done + ms[..j + 1] == done + ms[..j] + [ms[j]];
      j := j + 1;
    }
    assert ms[..j] == ms;
  }
}
