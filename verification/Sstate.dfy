/** The unihash in an sstate object's name: the sidecar loop, the backtracking match, and what they come to. */
module Sstate {
  import opened Types

  // ---- the regular expression ----------------------------------------------

  /** A pattern: a character, `[^stop]*` or the captured `([^stop]*)`, and what follows. */
  datatype Pattern =
    | End
    | Lit(c: char, next: Pattern)
    | Run(stop: char, next: Pattern)
    | Group(stop: char, next: Pattern)

  /** How far `[^stop]*` can reach. */
  function Span(s: string, stop: char): (n: nat)
    ensures n <= |s| && (n < |s| ==> s[n] == stop)
    ensures forall i :: 0 <= i < n ==> s[i] != stop
  {
    if s == "" || s[0] == stop then 0 else 1 + Span(s[1..], stop)
  }

  /** Leftmost-first matching of a prefix of `s`: each repetition takes all it can, then gives back one at a time. */
  function Match(p: Pattern, s: string): Option<string>
    decreases p, 0
  {
    match p
    case End => Some("")
    case Lit(c, next) => if s != "" && s[0] == c then Match(next, s[1..]) else None
    case Run(stop, next) => TryRun(next, s, Span(s, stop), false)
    case Group(stop, next) => TryRun(next, s, Span(s, stop), true)
  }

  function TryRun(next: Pattern, s: string, n: nat, capture: bool): Option<string>
    requires n <= |s|
    decreases next, n + 1
  {
    var m := Match(next, s[n..]);
    if m.Some? then Some(if capture then s[..n] else m.value)
    else if n == 0 then None
    else TryRun(next, s, n - 1, capture)
  }

  function Lits(s: string, next: Pattern): Pattern {
    if s == "" then next else Lit(s[0], Lits(s[1..], next))
  }

  const PREFIX := "sstate:"

  /** `n` fields `[^:]*:`. */
  function Fields(n: nat, next: Pattern): Pattern {
    if n == 0 then next else Run(':', Lit(':', Fields(n - 1, next)))
  }

  /** `[^_]*:([^_]*)_`. */
  function Tail(): Pattern {
    Run('_', Lit(':', Group('_', Lit('_', End))))
  }

  /** bitbake's RE_SSTATE_PKGSPEC. */
  function Pkgspec(): Pattern {
    Lits(PREFIX, Fields(5, Tail()))
  }

  // ---- the split it comes to -----------------------------------------------

  /** The index of the last `c`, |s| when there is none. */
  function LastAt(s: string, c: char): (i: nat)
    ensures i <= |s| && (i < |s| <==> c in s)
    ensures i < |s| ==> s[i] == c && forall j :: i < j < |s| ==> s[j] != c
  {
    if s == "" then 0
    else
      var i := LastAt(s[1..], c);
      assert s == [s[0]] + s[1..];
      if i < |s| - 1 then i + 1 else if s[0] == c then 0 else |s|
  }

  /** What follows the first `n` colon-ended fields. */
  function AfterFields(n: nat, s: string): Option<string> {
    if n == 0 then Some(s)
    else
      var i := Span(s, ':');
      if i == |s| then None else AfterFields(n - 1, s[i + 1..])
  }

  /** The text between the last colon before the first underscore, and that underscore. */
  function BeforeUnderscore(s: string): Option<string> {
    var p := Span(s, '_');
    if p == |s| then None
    else
      var i := LastAt(s[..p], ':');
      if i == p then None else Some(s[i + 1..p])
  }

  function SplitHash(name: string): Option<string> {
    if |name| < |PREFIX| || name[..|PREFIX|] != PREFIX then None
    else
      var rest := AfterFields(5, name[|PREFIX|..]);
      if rest.None? then None else BeforeUnderscore(rest.value)
  }

  // ---- greedy matching is that split ---------------------------------------

  lemma {:induction false} MatchLits(x: string, next: Pattern, s: string)
    ensures Match(Lits(x, next), s) == if |x| <= |s| && s[..|x|] == x then Match(next, s[|x|..]) else None
  {
    if x == "" {
      assert s[0..] == s;
    } else if s != "" && s[0] == x[0] {
      MatchLits(x[1..], next, s[1..]);
      if |x| <= |s| {
        assert s[..|x|] == [s[0]] + s[1..][..|x| - 1];
        assert x == [x[0]] + x[1..];
        assert s[|x|..] == s[1..][|x| - 1..];
        assert s[..|x|] == x <==> s[1..][..|x| - 1] == x[1..];
      }
    } else if |x| <= |s| {
      assert s[..|x|][0] == s[0];
    }
  }

  lemma LitAt(c: char, next: Pattern, s: string, n: nat)
    requires n <= |s|
    ensures Match(Lit(c, next), s[n..]) == if n < |s| && s[n] == c then Match(next, s[n + 1..]) else None
  {
    if n < |s| { assert s[n..][0] == s[n] && s[n..][1..] == s[n + 1..]; }
  }

  /** `[^c]*` before a literal `c` cannot stop early, so it has one way to match. */
  lemma {:induction false} RunToStop(c: char, next: Pattern, s: string, n: nat, capture: bool)
    requires n <= Span(s, c)
    ensures TryRun(Lit(c, next), s, n, capture) ==
            if n == Span(s, c) && n < |s| && Match(next, s[n + 1..]).Some?
            then Some(if capture then s[..n] else Match(next, s[n + 1..]).value) else None
  {
    LitAt(c, next, s, n);
    if n > 0 { RunToStop(c, next, s, n - 1, capture); }
  }

  lemma {:induction false} MatchFields(n: nat, next: Pattern, s: string)
    ensures Match(Fields(n, next), s) ==
            if AfterFields(n, s).Some? then Match(next, AfterFields(n, s).value) else None
  {
    if n > 0 {
      var i := Span(s, ':');
      RunToStop(':', Fields(n - 1, next), s, i, false);
      if i < |s| { MatchFields(n - 1, next, s[i + 1..]); }
    }
  }

  lemma {:induction false} SpanAfter(s: string, c: char, i: nat)
    requires i <= Span(s, c)
    ensures Span(s[i..], c) == Span(s, c) - i
  {
    if i > 0 {
      SpanAfter(s[1..], c, i - 1);
      assert s[i..] == s[1..][i - 1..];
    } else {
      assert s[0..] == s;
    }
  }

  lemma MatchGroup(s: string)
    ensures Match(Group('_', Lit('_', End)), s) == if Span(s, '_') < |s| then Some(s[..Span(s, '_')]) else None
  {
    RunToStop('_', End, s, Span(s, '_'), true);
  }

  lemma GroupAt(s: string, n: nat)
    requires n < Span(s, '_')
    ensures var p := Span(s, '_');
            Match(Group('_', Lit('_', End)), s[n + 1..]) == if p < |s| then Some(s[n + 1..p]) else None
  {
    var p := Span(s, '_');
    MatchGroup(s[n + 1..]);
    SpanAfter(s, '_', n + 1);
    CutTwice(s, n + 1, p);
  }

  lemma CutTwice(s: string, i: nat, p: nat)
    requires i <= p <= |s|
    ensures s[i..][..p - i] == s[i..p]
  {
  }

  /** What the version field matches when it has given back to `n`. */
  lemma GroupAfterColon(s: string, n: nat)
    requires n <= Span(s, '_')
    ensures var p := Span(s, '_');
            Match(Lit(':', Group('_', Lit('_', End))), s[n..]) ==
            if n < p < |s| && s[n] == ':' then Some(s[n + 1..p]) else None
  {
    LitAt(':', Group('_', Lit('_', End)), s, n);
    if n < Span(s, '_') { GroupAt(s, n); }
  }

  lemma {:induction false} LastDrop(s: string, c: char)
    requires s != ""
    ensures LastAt(s, c) == if s[|s| - 1] == c then |s| - 1
                            else if LastAt(s[..|s| - 1], c) < |s| - 1 then LastAt(s[..|s| - 1], c) else |s|
  {
    assert s == s[..|s| - 1] + [s[|s| - 1]];
  }

  /** The version field gives back until a colon follows it: the last one before the first underscore. */
  lemma {:induction false} VersionGivesBack(s: string, n: nat)
    requires n < Span(s, '_')
    ensures var p, i := Span(s, '_'), LastAt(s[..n + 1], ':');
            TryRun(Lit(':', Group('_', Lit('_', End))), s, n, false) ==
            if p < |s| && i <= n then Some(s[i + 1..p]) else None
  {
    GroupAfterColon(s, n);
    LastDrop(s[..n + 1], ':');
    assert s[..n + 1][..n] == s[..n];
    if n > 0 { VersionGivesBack(s, n - 1); }
  }

  lemma MatchTail(s: string)
    ensures Match(Tail(), s) == BeforeUnderscore(s)
  {
    var p := Span(s, '_');
    GroupAfterColon(s, p);
    if p > 0 { VersionGivesBack(s, p - 1); }
  }

  /** On every name the backtracking match captures exactly what the split yields, and fails exactly when it does. */
  lemma GreedyIsSplit(name: string)
    ensures Match(Pkgspec(), name) == SplitHash(name)
  {
    MatchLits(PREFIX, Fields(5, Tail()), name);
    if |PREFIX| <= |name| {
      MatchFields(5, Tail(), name[|PREFIX|..]);
      var rest := AfterFields(5, name[|PREFIX|..]);
      if rest.Some? { MatchTail(rest.value); }
    }
  }

  // ---- the name under the sidecars -----------------------------------------

  /** Longest first, as the source lists them. */
  const SIDECARS: seq<string> := [".siginfo", ".sig", ".done"]

  predicate EndsWith(s: string, x: string) {
    |x| <= |s| && s[|s| - |x|..] == x
  }

  /** The index of the first suffix that fits, |xs| when none does. */
  function FirstFit(xs: seq<string>, s: string): (j: nat)
    ensures j <= |xs| && (j < |xs| ==> EndsWith(s, xs[j])) && forall k :: 0 <= k < j ==> !EndsWith(s, xs[k])
  {
    if xs == [] || EndsWith(s, xs[0]) then 0 else 1 + FirstFit(xs[1..], s)
  }

  /** What is left when no suffix of `xs` fits any more. */
  function Stripped(xs: seq<string>, s: string): string
    requires "" !in xs
    decreases |s|
  {
    var j := FirstFit(xs, s);
    if j == |xs| then s
    else
      assert xs[j] in xs;
      Stripped(xs, s[..|s| - |xs[j]|])
  }

  predicate ValidHash(h: string) {
    1 <= |h| <= 64 && forall i :: 0 <= i < |h| ==> '0' <= h[i] <= '9' || 'a' <= h[i] <= 'f'
  }

  function BaseName(key: string): string {
    After(key, LastAt(key, '/'))
  }

  /** What follows position `i`; all of it when there is none. */
  function After(key: string, i: nat): string {
    if i < |key| then key[i + 1..] else key
  }

  /** The capture, if the name matches and what it captured is a unihash. */
  function HashIn(spec: Pattern, name: string): Option<string> {
    var m := Match(spec, name);
    if m.Some? && ValidHash(m.value) then m else None
  }

  function Derived(spec: Pattern, xs: seq<string>, key: string): Option<string>
    requires "" !in xs
  {
    HashIn(spec, Stripped(xs, BaseName(key)))
  }

  /** One pass over the list: the first suffix that fits comes off. */
  method StripOnce(xs: seq<string>, name: string) returns (rest: string, stripped: bool)
    requires "" !in xs
    ensures Stripped(xs, rest) == Stripped(xs, name)
    ensures if stripped then |rest| < |name| else rest == name && Stripped(xs, name) == name
  {
    rest, stripped := name, false;
    var j := 0;
    while j < |xs| && !EndsWith(name, xs[j])
      invariant 0 <= j <= |xs| && forall k :: 0 <= k < j ==> !EndsWith(name, xs[k])
    {
      j := j + 1;
    }
    assert j == FirstFit(xs, name);
    if j < |xs| {
      assert xs[j] in xs;
      rest, stripped := name[..|name| - |xs[j]|], true;
    }
  }

  /** deriveUnihash, for the compiled pattern and the suffix list it is given. */
  method DeriveUnihash(spec: Pattern, xs: seq<string>, key: string) returns (hash: string, ok: bool)
    requires "" !in xs
    ensures ok <==> Derived(spec, xs, key).Some?
    ensures hash == if ok then Derived(spec, xs, key).value else ""
  {
    var name := key;
    var i := LastAt(name, '/');
    if i < |name| {
      name := name[i + 1..];
    }
    var stripped := true;
    while stripped
      invariant Stripped(xs, name) == Stripped(xs, BaseName(key))
      invariant !stripped ==> name == Stripped(xs, name)
      decreases |name|, stripped
    {
      name, stripped := StripOnce(xs, name);
    }
    var m := HashIn(spec, name);
    if m.None? {
      return "", false;
    }
    hash, ok := m.value, true;
  }

  // ---- sidecars and directories change nothing -----------------------------

  /** No suffix of the list hides in another, and none holds a separator of the name. */
  ghost predicate Separate(xs: seq<string>) {
    && "" !in xs
    && (forall x, y :: x in xs && y in xs && EndsWith(x, y) ==> x == y)
    && (forall x :: x in xs ==> '/' !in x && '_' !in x)
  }

  lemma EndsOverlap(s: string, x: string, y: string)
    requires EndsWith(s, x) && EndsWith(s, y) && |y| <= |x|
    ensures EndsWith(x, y)
  {
    assert x == s[|s| - |x|..] && y == s[|s| - |y|..];
    assert x[|x| - |y|..] == y;
  }

  /** Taking one suffix off, whichever order the list is tried in. */
  lemma StripOne(xs: seq<string>, s: string, x: string)
    requires Separate(xs) && x in xs
    ensures Stripped(xs, s + x) == Stripped(xs, s)
  {
    var t := s + x;
    assert EndsWith(t, x);
    var i :| 0 <= i < |xs| && xs[i] == x;
    var j := FirstFit(xs, t);
    assert j < |xs|;
    assert xs[j] in xs;
    if |xs[j]| <= |x| { EndsOverlap(t, x, xs[j]); } else { EndsOverlap(t, xs[j], x); }
    assert t[..|t| - |x|] == s;
  }

  function Stacked(stack: seq<string>): string {
    if stack == [] then "" else stack[0] + Stacked(stack[1..])
  }

  lemma {:induction false} StripStack(xs: seq<string>, s: string, stack: seq<string>)
    requires Separate(xs) && forall x :: x in stack ==> x in xs
    ensures Stripped(xs, s + Stacked(stack)) == Stripped(xs, s)
    decreases |stack|
  {
    if stack == [] {
      assert s + "" == s;
    } else {
      assert s + Stacked(stack) == (s + stack[0]) + Stacked(stack[1..]);
      StripStack(xs, s + stack[0], stack[1..]);
      StripOne(xs, s, stack[0]);
    }
  }

  lemma {:induction false} StackShape(xs: seq<string>, stack: seq<string>)
    requires Separate(xs) && forall x :: x in stack ==> x in xs
    ensures '/' !in Stacked(stack)
  {
    if stack != [] { StackShape(xs, stack[1..]); }
  }

  lemma BaseOfSuffixed(key: string, x: string)
    requires '/' !in x
    ensures BaseName(key + x) == BaseName(key) + x
  {
    SlashBefore(key, x);
    CutSuffixed(key, x, LastAt(key, '/'));
  }

  lemma CutSuffixed(key: string, x: string, i: nat)
    requires i <= |key|
    ensures After(key + x, if i < |key| then i else |key + x|) == After(key, i) + x
  {
  }

  lemma SlashBefore(key: string, x: string)
    requires '/' !in x
    ensures LastAt(key + x, '/') == if LastAt(key, '/') < |key| then LastAt(key, '/') else |key + x|
  {
    var t, i := key + x, LastAt(key, '/');
    assert forall k :: |key| <= k < |t| ==> t[k] == x[k - |key|] && t[k] in x;
    assert forall k :: 0 <= k < |key| ==> t[k] == key[k] && key[k] in key;
    if i < |key| { assert t[i] == '/' && '/' in t; } else { assert '/' !in t; }
  }

  lemma BaseUnderDirectory(dir: string, key: string)
    ensures BaseName(dir + "/" + key) == BaseName(key)
  {
    var t := dir + "/" + key;
    var n := |dir| + 1;
    assert t[|dir|] == '/' && '/' in t;
    assert forall k :: n <= k < |t| ==> t[k] == key[k - n];
    var i, j := LastAt(key, '/'), LastAt(t, '/');
    if i < |key| {
      assert t[n + i] == '/';
      assert j == n + i;
      assert t[j + 1..] == key[i + 1..];
    } else {
      assert forall k :: n <= k < |t| ==> t[k] in key;
      assert j == |dir|;
      assert t[j + 1..] == key;
    }
  }

  /** Any stack of sidecar suffixes and any directory in front leave the derived hash as it was. */
  lemma DerivedIgnoresSidecarsAndDirectories(spec: Pattern, xs: seq<string>, dir: string, key: string, stack: seq<string>)
    requires Separate(xs) && forall x :: x in stack ==> x in xs
    ensures Derived(spec, xs, dir + "/" + key + Stacked(stack)) == Derived(spec, xs, key)
    ensures Derived(spec, xs, key + Stacked(stack)) == Derived(spec, xs, key)
  {
    StackShape(xs, stack);
    BaseOfSuffixed(dir + "/" + key, Stacked(stack));
    BaseOfSuffixed(key, Stacked(stack));
    BaseUnderDirectory(dir, key);
    StripStack(xs, BaseName(key), stack);
  }

  // ---- well-formed names ---------------------------------------------------

  function Joined(fs: seq<string>): string {
    if fs == [] then "" else fs[0] + ":" + Joined(fs[1..])
  }

  /** SSTATE_PKGSPEC, the unihash, an underscore and the rest. The version may hold colons. */
  function SpecName(fs: seq<string>, version: string, hash: string, tail: string): string {
    PREFIX + (Joined(fs) + (version + ":" + hash + "_" + tail))
  }

  ghost predicate SpecParts(fs: seq<string>, version: string, hash: string) {
    |fs| == 5 && (forall f :: f in fs ==> ':' !in f) && '_' !in version && '_' !in hash && ':' !in hash
  }

  lemma SpanExact(a: string, c: char, b: string)
    requires c !in a
    ensures Span(a + [c] + b, c) == |a|
  {
    var s := a + [c] + b;
    assert s[|a|] == c;
    assert forall k :: 0 <= k < |a| ==> s[k] == a[k] && a[k] in a;
  }

  lemma {:induction false} AfterJoined(fs: seq<string>, rest: string)
    requires forall f :: f in fs ==> ':' !in f
    ensures AfterFields(|fs|, Joined(fs) + rest) == Some(rest)
  {
    if fs == [] {
      assert "" + rest == rest;
    } else {
      var s := Joined(fs) + rest;
      assert s == fs[0] + [':'] + (Joined(fs[1..]) + rest);
      SpanExact(fs[0], ':', Joined(fs[1..]) + rest);
      assert s[|fs[0]| + 1..] == Joined(fs[1..]) + rest;
      AfterJoined(fs[1..], rest);
    }
  }

  lemma JoinedCons(f: string, more: seq<string>, rest: string)
    ensures Joined([f] + more) + rest == f + [':'] + (Joined(more) + rest)
  {
    assert ([f] + more)[1..] == more;
    assert Joined([f] + more) == f + ":" + Joined(more);
  }

  lemma {:induction false} FieldsBefore(n: nat, s: string, rest: string) returns (fs: seq<string>)
    requires AfterFields(n, s) == Some(rest)
    ensures |fs| == n && (forall f :: f in fs ==> ':' !in f) && s == Joined(fs) + rest
  {
    if n == 0 {
      fs := [];
      assert "" + rest == rest;
    } else {
      var i := Span(s, ':');
      var more := FieldsBefore(n - 1, s[i + 1..], rest);
      fs := [s[..i]] + more;
      JoinedCons(s[..i], more, rest);
      CutAt(s, i, ':');
    }
  }

  lemma CutAt(s: string, i: nat, c: char)
    requires i < |s| && s[i] == c
    ensures s == s[..i] + [c] + s[i + 1..]
  {
  }

  lemma BeforeOf(version: string, hash: string, tail: string)
    requires '_' !in version && '_' !in hash && ':' !in hash
    ensures BeforeUnderscore(version + ":" + hash + "_" + tail) == Some(hash)
  {
    var a, i := version + ":" + hash, |version|;
    var s := version + ":" + hash + "_" + tail;
    assert s == a + ['_'] + tail;
    SpanExact(a, '_', tail);
    assert s[..|a|] == a && a[i] == ':';
    assert forall j :: i < j < |a| ==> a[j] == hash[j - i - 1] && hash[j - i - 1] in hash;
    assert LastAt(a, ':') == i;
    assert s[i + 1..|a|] == hash;
  }

  lemma PartsOfTail(s: string, hash: string) returns (version: string, tail: string)
    requires BeforeUnderscore(s) == Some(hash)
    ensures '_' !in version && '_' !in hash && ':' !in hash && s == version + ":" + hash + "_" + tail
  {
    var p := Span(s, '_');
    var i := LastAt(s[..p], ':');
    version, tail := s[..i], s[p + 1..];
    assert s[i] == ':' && s[p] == '_';
    assert forall k :: 0 <= k < |hash| ==> hash[k] == s[i + 1 + k] && hash[k] == s[..p][i + 1 + k];
  }

  /** A name yields a capture exactly when it is a spec name, and the capture is its hash field. */
  lemma SplitIff(name: string, hash: string)
    ensures SplitHash(name) == Some(hash) <==>
            exists fs, version, tail :: SpecParts(fs, version, hash) && name == SpecName(fs, version, hash, tail)
  {
    var n := |PREFIX|;
    if SplitHash(name) == Some(hash) {
      var rest := AfterFields(5, name[n..]).value;
      var fs := FieldsBefore(5, name[n..], rest);
      var version, tail := PartsOfTail(rest, hash);
      assert name == PREFIX + name[n..];
      assert SpecParts(fs, version, hash) && name == SpecName(fs, version, hash, tail);
    }
    if fs, version, tail :| SpecParts(fs, version, hash) && name == SpecName(fs, version, hash, tail) {
      SpecYields(fs, version, hash, tail);
    }
  }

  lemma SpecYields(fs: seq<string>, version: string, hash: string, tail: string)
    requires SpecParts(fs, version, hash)
    ensures SplitHash(SpecName(fs, version, hash, tail)) == Some(hash)
  {
    var rest := version + ":" + hash + "_" + tail;
    var name := PREFIX + (Joined(fs) + rest);
    assert name[..|PREFIX|] == PREFIX && name[|PREFIX|..] == Joined(fs) + rest;
    AfterJoined(fs, rest);
    BeforeOf(version, hash, tail);
  }

  // ---- the whole derivation ------------------------------------------------

  lemma SidecarsSeparate()
    ensures Separate(SIDECARS)
  {
    forall x, y | x in SIDECARS && y in SIDECARS && EndsWith(x, y) ensures x == y {
      assert x[|x| - 1] == y[|y| - 1];
    }
  }

  predicate EndsUnderscored(q: string) {
    q != "" && q[|q| - 1] == '_'
  }

  lemma EndsPast(q: string, b: string, x: string)
    requires EndsUnderscored(q) && '_' !in x
    ensures EndsWith(q + b, x) <==> EndsWith(b, x)
  {
    var s := q + b;
    if |b| < |x| <= |s| {
      assert s[|s| - |x|..][|x| - |b| - 1] == s[|q| - 1];
    } else if |x| <= |b| {
      assert s[|s| - |x|..] == b[|b| - |x|..];
    }
  }

  lemma {:induction false} SameFit(xs: seq<string>, s: string, t: string)
    requires forall x :: x in xs ==> (EndsWith(s, x) <==> EndsWith(t, x))
    ensures FirstFit(xs, s) == FirstFit(xs, t)
  {
    if xs != [] { SameFit(xs[1..], s, t); }
  }

  lemma FitPast(xs: seq<string>, q: string, b: string)
    requires EndsUnderscored(q) && forall x :: x in xs ==> '_' !in x
    ensures FirstFit(xs, q + b) == FirstFit(xs, b)
  {
    forall x | x in xs ensures EndsWith(q + b, x) <==> EndsWith(b, x) { EndsPast(q, b, x); }
    SameFit(xs, q + b, b);
  }

  /** Stripping stops at the underscore after the hash: no sidecar reaches across it. */
  lemma {:induction false} StripPast(xs: seq<string>, q: string, b: string)
    requires EndsUnderscored(q) && "" !in xs && forall x :: x in xs ==> '_' !in x
    ensures Stripped(xs, q + b) == q + Stripped(xs, b)
    decreases |b|
  {
    if OnceStripped(xs, b) != b { StripPast(xs, q, OnceStripped(xs, b)); }
    OncePast(xs, q, b);
    StrippedOnce(xs, b);
    StrippedOnce(xs, q + b);
  }

  /** The name without the first suffix that fits, if one does. */
  function OnceStripped(xs: seq<string>, s: string): (r: string)
    requires "" !in xs
    ensures r == s || |r| < |s|
  {
    var j := FirstFit(xs, s);
    if j == |xs| then s else assert xs[j] in xs; s[..|s| - |xs[j]|]
  }

  lemma StrippedOnce(xs: seq<string>, s: string)
    requires "" !in xs
    ensures Stripped(xs, s) == if OnceStripped(xs, s) == s then s else Stripped(xs, OnceStripped(xs, s))
  {
    var j := FirstFit(xs, s);
    if j < |xs| { assert xs[j] in xs; }
  }

  lemma OncePast(xs: seq<string>, q: string, b: string)
    requires EndsUnderscored(q) && "" !in xs && forall x :: x in xs ==> '_' !in x
    ensures OnceStripped(xs, q + b) == q + OnceStripped(xs, b)
  {
    FitPast(xs, q, b);
    var j := FirstFit(xs, b);
    if j < |xs| { CutPast(q, b, xs[j]); }
  }

  lemma CutPast(q: string, b: string, x: string)
    requires |x| <= |b|
    ensures (q + b)[..|q + b| - |x|] == q + b[..|b| - |x|]
  {
  }

  lemma BaseOfPlain(name: string)
    requires '/' !in name
    ensures BaseName(name) == name
  {
  }

  lemma SpecNameCut(fs: seq<string>, version: string, hash: string, tail: string)
    ensures SpecName(fs, version, hash, tail) == UpToUnderscore(fs, version, hash) + tail
    ensures EndsUnderscored(UpToUnderscore(fs, version, hash))
  {
  }

  function UpToUnderscore(fs: seq<string>, version: string, hash: string): string {
    PREFIX + (Joined(fs) + (version + ":" + hash)) + "_"
  }

  /** Stripping a spec name shortens its tail and touches nothing before it. */
  lemma StripSpec(xs: seq<string>, fs: seq<string>, version: string, hash: string, tail: string)
    requires Separate(xs)
    ensures Stripped(xs, SpecName(fs, version, hash, tail)) == SpecName(fs, version, hash, Stripped(xs, tail))
  {
    SpecNameCut(fs, version, hash, tail);
    SpecNameCut(fs, version, hash, Stripped(xs, tail));
    StripPast(xs, UpToUnderscore(fs, version, hash), tail);
  }

  lemma RecoversHash(spec: Pattern, xs: seq<string>, name: string, bare: string, dir: string, hash: string, stack: seq<string>)
    requires Separate(xs) && (forall x :: x in stack ==> x in xs) && '/' !in name && ValidHash(hash)
    requires Stripped(xs, name) == bare && Match(spec, bare) == Some(hash)
    ensures Derived(spec, xs, dir + "/" + name + Stacked(stack)) == Some(hash)
    ensures Derived(spec, xs, name + Stacked(stack)) == Some(hash)
  {
    DerivedIgnoresSidecarsAndDirectories(spec, xs, dir, name, stack);
    BaseOfPlain(name);
  }

  /** Whatever its fields, its tail, the directory and the sidecars, a well-formed object gives back its hash. */
  lemma DerivationRecoversHash(xs: seq<string>, dir: string, fs: seq<string>, version: string, hash: string, tail: string,
                               stack: seq<string>)
    requires Separate(xs) && (forall x :: x in stack ==> x in xs)
    requires SpecParts(fs, version, hash) && '/' !in SpecName(fs, version, hash, tail) && ValidHash(hash)
    ensures Derived(Pkgspec(), xs, dir + "/" + SpecName(fs, version, hash, tail) + Stacked(stack)) == Some(hash)
    ensures Derived(Pkgspec(), xs, SpecName(fs, version, hash, tail) + Stacked(stack)) == Some(hash)
  {
    var bare := SpecName(fs, version, hash, Stripped(xs, tail));
    StripSpec(xs, fs, version, hash, tail);
    SpecYields(fs, version, hash, Stripped(xs, tail));
    GreedyIsSplit(bare);
    RecoversHash(Pkgspec(), xs, SpecName(fs, version, hash, tail), bare, dir, hash, stack);
  }

  /** One to sixty-four lower-case hexadecimal digits. */
  lemma ValidHashIff(h: string)
    ensures ValidHash(h) <==> 0 < |h| < 65 && forall c :: c in h ==> c in "0123456789abcdef"
  {
    forall i | 0 <= i < |h|
      ensures h[i] in "0123456789abcdef" <==> '0' <= h[i] <= '9' || 'a' <= h[i] <= 'f'
    {
      HexDigit(h[i]);
    }
    if forall c :: c in h ==> c in "0123456789abcdef" {
      forall i | 0 <= i < |h| ensures h[i] in h {}
    }
  }

  lemma HexDigit(c: char)
    ensures c in "0123456789abcdef" <==> '0' <= c <= '9' || 'a' <= c <= 'f'
  {
    var hex := "0123456789abcdef";
    if '0' <= c <= '9' { assert hex[(c - '0') as int] == c; }
    if 'a' <= c <= 'f' { assert hex[10 + (c - 'a') as int] == c; }
    forall i | 0 <= i < |hex| ensures '0' <= hex[i] <= '9' || 'a' <= hex[i] <= 'f' {}
  }

  function ObjectKey(dir: string, fs: seq<string>, version: string, hash: string, tail: string): string {
    dir + "/" + SpecName(fs, version, hash, tail)
  }

  lemma ObjectDerives(dir: string, fs: seq<string>, version: string, hash: string, tail: string, stack: seq<string>)
    requires SpecParts(fs, version, hash) && '/' !in SpecName(fs, version, hash, tail) && ValidHash(hash)
    requires forall x :: x in stack ==> x in SIDECARS
    ensures Derived(Pkgspec(), SIDECARS, ObjectKey(dir, fs, version, hash, tail) + Stacked(stack)) == Some(hash)
  {
    SidecarsSeparate();
    DerivationRecoversHash(SIDECARS, dir, fs, version, hash, tail, stack);
  }

  lemma TheSidecars()
    ensures ".siginfo" in SIDECARS && ".sig" in SIDECARS && ".done" in SIDECARS
  {
    assert ".siginfo" == SIDECARS[0] && ".sig" == SIDECARS[1] && ".done" == SIDECARS[2];
  }

  /** Each of the three sidecars of an object, and one stacked on another, derives the object's hash. */
  lemma SidecarsOfObject(dir: string, fs: seq<string>, version: string, hash: string, tail: string)
    requires SpecParts(fs, version, hash) && '/' !in SpecName(fs, version, hash, tail) && ValidHash(hash)
    ensures var key := ObjectKey(dir, fs, version, hash, tail);
            && Derived(Pkgspec(), SIDECARS, key + ".siginfo") == Some(hash)
            && Derived(Pkgspec(), SIDECARS, key + ".sig") == Some(hash)
            && Derived(Pkgspec(), SIDECARS, key + ".done") == Some(hash)
            && Derived(Pkgspec(), SIDECARS, key + (".siginfo" + ".done")) == Some(hash)
  {
    TheSidecars();
    StackOfOne(".siginfo");
    StackOfOne(".sig");
    StackOfOne(".done");
    StackOfTwo(".siginfo", ".done");
    ObjectDerives(dir, fs, version, hash, tail, [".siginfo"]);
    ObjectDerives(dir, fs, version, hash, tail, [".sig"]);
    ObjectDerives(dir, fs, version, hash, tail, [".done"]);
    ObjectDerives(dir, fs, version, hash, tail, [".siginfo", ".done"]);
  }

  lemma StackOfOne(x: string)
    ensures Stacked([x]) == x
  {
  }

  lemma StackOfTwo(x: string, y: string)
    ensures Stacked([x, y]) == x + y
  {
    assert [x, y][1..] == [y];
    StackOfOne(y);
  }

  /** And nothing else does: a derived hash is the hash field of the stripped base name, and is a valid unihash. */
  lemma DerivedOnlyFromSpecs(xs: seq<string>, key: string, hash: string)
    requires "" !in xs
    ensures Derived(Pkgspec(), xs, key) == Some(hash) <==>
            && (0 < |hash| < 65 && forall c :: c in hash ==> c in "0123456789abcdef")
            && exists fs, version, tail ::
                 SpecParts(fs, version, hash) && Stripped(xs, BaseName(key)) == SpecName(fs, version, hash, tail)
  {
    ValidHashIff(hash);
    GreedyIsSplit(Stripped(xs, BaseName(key)));
    SplitIff(Stripped(xs, BaseName(key)), hash);
  }
}
