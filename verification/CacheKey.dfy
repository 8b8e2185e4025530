/**
 The composed cache key: the backend id in base 36, NUL, the namespace, NUL, the client's
 key; and the split that the access toucher applies to it.
 */
module CacheKey {
  import opened Types

  const NUL: char := '\0'

  const MIN_INT64: int := -0x8000_0000_0000_0000
  const MAX_INT64: int := 0x7fff_ffff_ffff_ffff

  predicate IsInt64(n: int) {
    MIN_INT64 <= n <= MAX_INT64
  }

  // ---- strconv, base 36 ----------------------------------------------------

  function DigitChar(d: nat): char
    requires d < 36
  {
    if d < 10 then '0' + d as char else 'a' + (d - 10) as char
  }

  function DigitValue(c: char): Option<nat> {
    if '0' <= c <= '9' then Some((c - '0') as nat)
    else if 'a' <= c <= 'z' then Some((c - 'a') as nat + 10)
    else if 'A' <= c <= 'Z' then Some((c - 'A') as nat + 10)
    else None
  }

  function FormatNat(n: nat): string {
    if n < 36 then [DigitChar(n)] else FormatNat(n / 36) + [DigitChar(n % 36)]
  }

  /** strconv.AppendInt(nil, n, 36). */
  function FormatInt(n: int): string {
    if n < 0 then "-" + FormatNat(-n) else FormatNat(n)
  }

  /** The magnitude of a non-empty run of digits. */
  function ParseNat(s: string): Option<nat> {
    if s == "" then None
    else
      var d := DigitValue(s[|s| - 1]);
      if d.None? then None
      else if |s| == 1 then d
      else
        var high := ParseNat(s[..|s| - 1]);
        if high.None? then None else Some(36 * high.value + d.value)
  }

  /** strconv.ParseInt(s, 36, 64): an optional sign, digits of either case, and the int64 range. */
  function ParseInt(s: string): Option<int> {
    var signed := s != "" && (s[0] == '-' || s[0] == '+');
    var magnitude := ParseNat(if signed then s[1..] else s);
    if magnitude.None? then None
    else
      var abs: int := magnitude.value;
      var n := if signed && s[0] == '-' then -abs else abs;
      if IsInt64(n) then Some(n) else None
  }

  lemma {:induction false} ParseFormatNat(n: nat)
    ensures ParseNat(FormatNat(n)) == Some(n)
    ensures FormatNat(n) != "" && NUL !in FormatNat(n)
    ensures FormatNat(n)[0] != '-' && FormatNat(n)[0] != '+'
  {
    if n >= 36 {
      ParseFormatNat(n / 36);
      var s := FormatNat(n);
      assert s[..|s| - 1] == FormatNat(n / 36);
      assert n == 36 * (n / 36) + n % 36;
    }
  }

  lemma ParseFormatInt(n: int)
    ensures ParseInt(FormatInt(n)) == if IsInt64(n) then Some(n) else None
    ensures NUL !in FormatInt(n)
  {
    if n < 0 {
      ParseFormatNat(-n);
      assert FormatInt(n)[1..] == FormatNat(-n);
    } else {
      ParseFormatNat(n);
    }
  }

  // ---- the key -------------------------------------------------------------

  /** Ref.appendCacheKey. */
  function Compose(backend: int, namespace: string, key: string): Key {
    FormatInt(backend) + [NUL] + namespace + [NUL] + key
  }

  /** strings.IndexByte(s, 0), with |s| for "absent". */
  function NulAt(s: string): (i: nat)
    ensures i <= |s| && (i < |s| <==> NUL in s)
    ensures i < |s| ==> s[i] == NUL
    ensures forall k :: 0 <= k < i ==> s[k] != NUL
  {
    if s == "" || s[0] == NUL then 0
    else
      assert s == [s[0]] + s[1..];
      1 + NulAt(s[1..])
  }

  /** splitCacheKey. */
  function Split(ck: Key): Option<(int, string, string)> {
    SplitFrom(ck, NulAt(ck))
  }

  function SplitFrom(ck: Key, i: nat): Option<(int, string, string)>
    requires i <= |ck|
  {
    if i == |ck| then None else SplitRest(ParseInt(ck[..i]), ck[i + 1..])
  }

  function SplitRest(id: Option<int>, rest: string): Option<(int, string, string)> {
    var j := NulAt(rest);
    if j == |rest| || id.None? then None else Some((id.value, rest[..j], rest[j + 1..]))
  }

  lemma NulAtFirst(a: string, b: string)
    requires NUL !in a
    ensures NulAt(a + [NUL] + b) == |a|
  {
    var s := a + [NUL] + b;
    assert s[|a|] == NUL && NUL in s;
    assert forall k :: 0 <= k < |a| ==> s[k] == a[k] && a[k] in a;
  }

  lemma ComposeParts(backend: int, namespace: string, key: string)
    ensures var ck := Compose(backend, namespace, key);
            var i := NulAt(ck);
            i < |ck| && ck[..i] == FormatInt(backend) && ck[i + 1..] == namespace + [NUL] + key
  {
    ParseFormatInt(backend);
    var ck := Compose(backend, namespace, key);
    var tail := namespace + [NUL] + key;
    assert ck == FormatInt(backend) + [NUL] + tail;
    NulAtFirst(FormatInt(backend), tail);
  }

  lemma SplitAfterId(backend: int, namespace: string, key: string)
    requires IsInt64(backend)
    ensures var rest := namespace + [NUL] + key;
            var j := NulAt(rest);
            j < |rest| && Split(Compose(backend, namespace, key)) == Some((backend, rest[..j], rest[j + 1..]))
  {
    ComposeParts(backend, namespace, key);
    var ck, rest := Compose(backend, namespace, key), namespace + [NUL] + key;
    var i := NulAt(ck);
    assert SplitFrom(ck, i) == SplitRest(ParseInt(FormatInt(backend)), rest);
    assert rest[|namespace|] == NUL && NulAt(rest) < |rest|;
    ParseFormatInt(backend);
  }

  /**
   The split gives back what was composed exactly when the namespace holds no NUL; the
   client's key may hold any bytes at all.
   */
  lemma SplitInvertsCompose(backend: int, namespace: string, key: string)
    requires IsInt64(backend)
    ensures Split(Compose(backend, namespace, key)) == Some((backend, namespace, key)) <==> NUL !in namespace
  {
    SplitAfterId(backend, namespace, key);
    var rest := namespace + [NUL] + key;
    var j := NulAt(rest);
    if NUL !in namespace {
      NulAtFirst(namespace, key);
      assert rest[..j] == namespace && rest[j + 1..] == key;
    } else {
      assert forall k :: 0 <= k < j ==> rest[..j][k] == rest[k];
      assert NUL !in rest[..j];
    }
  }

  /** Distinct objects have distinct cache keys, so no backend ever answers for another. */
  lemma ComposeInjective(b1: int, n1: string, k1: string, b2: int, n2: string, k2: string)
    requires IsInt64(b1) && IsInt64(b2) && NUL !in n1 && NUL !in n2
    requires Compose(b1, n1, k1) == Compose(b2, n2, k2)
    ensures b1 == b2 && n1 == n2 && k1 == k2
  {
    SplitInvertsCompose(b1, n1, k1);
    SplitInvertsCompose(b2, n2, k2);
  }

  /** Without that, a NUL in the namespace would let two objects share an entry. */
  lemma NulNamespaceCollides(backend: int)
    ensures Compose(backend, "a" + [NUL] + "b", "c") == Compose(backend, "a", "b" + [NUL] + "c")
  {
    var f := FormatInt(backend);
    assert Compose(backend, "a" + [NUL] + "b", "c") == f + [NUL, 'a', NUL, 'b', NUL, 'c'];
    assert Compose(backend, "a", "b" + [NUL] + "c") == f + [NUL, 'a', NUL, 'b', NUL, 'c'];
  }

  /** A cache key some Ref composed; every key the cache ever holds is one. */
  ghost predicate Canonical(ck: Key) {
    exists b, n, k :: IsInt64(b) && NUL !in n && ck == Compose(b, n, k)
  }

  lemma CanonicalSplit(c1: Key, c2: Key)
    requires Canonical(c1) && Canonical(c2) && Split(c1) == Split(c2)
    ensures c1 == c2 && Split(c1).Some?
  {
    var b1, n1, k1 :| IsInt64(b1) && NUL !in n1 && c1 == Compose(b1, n1, k1);
    var b2, n2, k2 :| IsInt64(b2) && NUL !in n2 && c2 == Compose(b2, n2, k2);
    SplitInvertsCompose(b1, n1, k1);
    SplitInvertsCompose(b2, n2, k2);
  }
}
