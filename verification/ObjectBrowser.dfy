/**
 The object browser: a prefix as a key range, and keyset pages over it. The range is made for
 keys compared byte by byte; the database compares them by an order of its own.
 */
module ObjectBrowser {
  import opened Types

  newtype Byte = x: int | 0 <= x < 256

  type Bytes = seq<Byte>

  predicate Less(a: Bytes, b: Bytes) {
    b != [] && (a == [] || a[0] < b[0] || (a[0] == b[0] && Less(a[1..], b[1..])))
  }

  predicate StartsWith(k: Bytes, prefix: Bytes) {
    |prefix| <= |k| && k[..|prefix|] == prefix
  }

  lemma {:induction false} LessTrichotomy(a: Bytes, b: Bytes)
    ensures !Less(a, a) && !(Less(a, b) && Less(b, a)) && (Less(a, b) || Less(b, a) || a == b)
  {
    if a != [] && b != [] {
      LessTrichotomy(a[1..], b[1..]);
      assert a == [a[0]] + a[1..] && b == [b[0]] + b[1..];
    }
    if a != [] { LessTrichotomy(a[1..], a[1..]); }
  }

  lemma {:induction false} LessTransitive(a: Bytes, b: Bytes, c: Bytes)
    requires Less(a, b) && Less(b, c)
    ensures Less(a, c)
  {
    if a != [] && a[0] == b[0] == c[0] { LessTransitive(a[1..], b[1..], c[1..]); }
  }

  // ---- the bound -----------------------------------------------------------

  /** The least string above every string with this prefix, if there is one. */
  function Upper(prefix: Bytes): Option<Bytes> {
    if prefix == [] then None
    else
      var rest := Upper(prefix[1..]);
      if rest.Some? then Some([prefix[0]] + rest.value)
      else if prefix[0] < 255 then Some([prefix[0] + 1])
      else None
  }

  predicate InRange(k: Bytes, prefix: Bytes, upper: Option<Bytes>) {
    !Less(k, prefix) && (upper.Some? ==> Less(k, upper.value))
  }

  /** A key has the prefix exactly when it lies in the range, trailing and all-0xFF prefixes included. */
  lemma {:induction false} PrefixIsRange(k: Bytes, prefix: Bytes)
    ensures StartsWith(k, prefix) <==> InRange(k, prefix, Upper(prefix))
  {
    if prefix != [] && k != [] {
      PrefixIsRange(k[1..], prefix[1..]);
      if |prefix| <= |k| {
        assert k[..|prefix|] == [k[0]] + k[1..][..|prefix| - 1];
        assert prefix == [prefix[0]] + prefix[1..];
        assert k[..|prefix|] == prefix <==> k[0] == prefix[0] && k[1..][..|prefix| - 1] == prefix[1..];
      }
      var rest := Upper(prefix[1..]);
      if rest.Some? {
        assert ([prefix[0]] + rest.value)[1..] == rest.value;
      } else if prefix[0] < 255 {
        assert [prefix[0] + 1][1..] == [] && !Less(k[1..], []);
        assert Less(k, [prefix[0] + 1]) <==> k[0] <= prefix[0];
      }
    }
  }

  /** No bound only for a prefix with nothing above it: empty, or every byte 0xFF. */
  lemma {:induction false} UnboundedIff(prefix: Bytes)
    ensures Upper(prefix).None? <==> forall i :: 0 <= i < |prefix| ==> prefix[i] == 255
  {
    if prefix != [] {
      UnboundedIff(prefix[1..]);
      assert forall i :: 1 <= i < |prefix| ==> prefix[i] == prefix[1..][i - 1];
      assert forall i :: 0 <= i < |prefix| - 1 ==> prefix[1..][i] == prefix[i + 1];
    }
  }

  lemma {:induction false} UpperAt(prefix: Bytes, i: nat)
    requires i < |prefix| && prefix[i] < 255 && forall j :: i < j < |prefix| ==> prefix[j] == 255
    ensures Upper(prefix) == Some(prefix[..i] + [prefix[i] + 1])
  {
    if i == 0 {
      UnboundedIff(prefix[1..]);
      assert prefix[..0] + [prefix[0] + 1] == [prefix[0] + 1];
    } else {
      UpperAt(prefix[1..], i - 1);
      assert prefix[..i] == [prefix[0]] + prefix[1..][..i - 1];
      assert [prefix[0]] + (prefix[1..][..i - 1] + [prefix[i] + 1]) == prefix[..i] + [prefix[i] + 1];
    }
  }

  /** prefixUpperBound: the last byte below 0xFF goes up by one, and the slice ends there. */
  method PrefixUpperBound(prefix: Bytes) returns (upper: Bytes, ok: bool)
    ensures ok <==> Upper(prefix).Some?
    ensures upper == if ok then Upper(prefix).value else []
  {
    if prefix == [] {
      return [], false;
    }
    var b := new Byte[|prefix|](i requires 0 <= i < |prefix| => prefix[i]);
    var i := |prefix| - 1;
    while i >= 0
      invariant -1 <= i < |prefix|
      invariant b[..] == prefix
      invariant forall j :: i < j < |prefix| ==> prefix[j] == 255
    {
      if b[i] < 255 {
        UpperAt(prefix, i);
        b[i] := b[i] + 1;
        assert b[..i + 1] == prefix[..i] + [prefix[i] + 1];
        return b[..i + 1], true;
      }
      i := i - 1;
    }
    UnboundedIff(prefix);
    upper, ok := [], false;
  }

  // ---- the database's order ------------------------------------------------

  type Order = (Bytes, Bytes) -> bool

  ghost predicate Total(lt: Order) {
    && (forall a :: !lt(a, a))
    && (forall a, b :: lt(a, b) || lt(b, a) || a == b)
    && (forall a, b, c :: lt(a, b) && lt(b, c) ==> lt(a, c))
  }

  ghost predicate Bytewise(lt: Order) {
    forall a, b :: lt(a, b) <==> Less(a, b)
  }

  predicate InRangeBy(lt: Order, k: Bytes, prefix: Bytes, upper: Option<Bytes>) {
    !lt(k, prefix) && (upper.Some? ==> lt(k, upper.value))
  }

  ghost predicate Ranges(lt: Order) {
    forall k, prefix :: StartsWith(k, prefix) <==> InRangeBy(lt, k, prefix, Upper(prefix))
  }

  /** The keys that start with `c` and then `x`, and what comes after them. */
  lemma BlockBound(c: Bytes, x: Byte)
    requires x < 255
    ensures Upper(c + [x]) == Some(c + [x + 1])
  {
    UpperAt(c + [x], |c|);
    assert (c + [x])[..|c|] == c;
  }

  lemma {:induction false} BlocksAscend(lt: Order, c: Bytes, x: Byte, y: Byte)
    requires Total(lt) && Ranges(lt) && x < y
    ensures !lt(c + [y], c + [x + 1])
    decreases y as int - x as int
  {
    if x + 1 < y {
      BlocksAscend(lt, c, x + 1, y);
      BlockBound(c, x + 1);
      var q := c + [x + 1];
      assert StartsWith(q, q) && InRangeBy(lt, q, q, Upper(q));
      assert lt(q, c + [x + 2]);
    }
  }

  /** Keys that part after `c` are in the order of the bytes they part at. */
  lemma PartedKeys(lt: Order, c: Bytes, x: Byte, y: Byte, a: Bytes, b: Bytes)
    requires Total(lt) && Ranges(lt) && x < y && StartsWith(a, c + [x]) && StartsWith(b, c + [y])
    ensures lt(a, b)
  {
    BlockBound(c, x);
    assert InRangeBy(lt, a, c + [x], Upper(c + [x]));
    assert InRangeBy(lt, b, c + [y], Upper(c + [y]));
    BlocksAscend(lt, c, x, y);
    assert lt(a, c + [x + 1]) && !lt(c + [y], c + [x + 1]) && !lt(b, c + [y]);
  }

  /** `n` bytes are common to both. */
  lemma {:induction false} LessParts(lt: Order, a: Bytes, b: Bytes, n: nat)
    requires Total(lt) && Ranges(lt) && n <= |a| && n <= |b| && a[..n] == b[..n] && Less(a[n..], b[n..])
    ensures lt(a, b)
    decreases |a| - n
  {
    if n == |a| {
      assert StartsWith(b, a) && InRangeBy(lt, b, a, Upper(a));
      assert a != b;
    } else if a[n] == b[n] {
      assert a[..n + 1] == a[..n] + [a[n]] && b[..n + 1] == b[..n] + [b[n]];
      assert a[n..][1..] == a[n + 1..] && b[n..][1..] == b[n + 1..];
      LessParts(lt, a, b, n + 1);
    } else {
      assert a[..n + 1] == a[..n] + [a[n]] && b[..n + 1] == a[..n] + [b[n]];
      PartedKeys(lt, a[..n], a[n], b[n], a, b);
    }
  }

  /** The range is the prefix exactly under a database that orders keys byte by byte. */
  lemma RangesIffBytewise(lt: Order)
    requires Total(lt)
    ensures Ranges(lt) <==> Bytewise(lt)
  {
    if Bytewise(lt) {
      forall k, prefix ensures StartsWith(k, prefix) <==> InRangeBy(lt, k, prefix, Upper(prefix)) {
        PrefixIsRange(k, prefix);
      }
    }
    if Ranges(lt) {
      forall a, b ensures lt(a, b) <==> Less(a, b) {
        LessTrichotomy(a, b);
        assert a[0..] == a && b[0..] == b;
        if Less(a, b) { LessParts(lt, a, b, 0); }
        if Less(b, a) { LessParts(lt, b, a, 0); }
      }
    }
  }

  /** Exchanges 'Z' and '[', its successor. */
  function Exchanged(a: Bytes): (r: Bytes)
    ensures |r| == |a|
  {
    seq(|a|, i requires 0 <= i < |a| => if a[i] == 0x5A then 0x5B else if a[i] == 0x5B then 0x5A else a[i])
  }

  /** Byte order but for one thing, which most locales have too: '[' comes before 'Z'. */
  predicate BracketFirst(a: Bytes, b: Bytes) {
    Less(Exchanged(a), Exchanged(b))
  }

  /** Under such an order the range of the prefix "Z" is empty: it misses every key that has it. */
  lemma RangeMissesPrefix(k: Bytes)
    requires StartsWith(k, [0x5A])
    ensures Total(BracketFirst) && Upper([0x5A]) == Some([0x5B])
    ensures !InRangeBy(BracketFirst, k, [0x5A], Upper([0x5A]))
  {
    forall a, b, c
      ensures !BracketFirst(a, a) && (BracketFirst(a, b) || BracketFirst(b, a) || a == b)
      ensures BracketFirst(a, b) && BracketFirst(b, c) ==> BracketFirst(a, c)
    {
      LessTrichotomy(Exchanged(a), Exchanged(b));
      if Exchanged(a) == Exchanged(b) { SameExchanged(a, b); }
      if BracketFirst(a, b) && BracketFirst(b, c) { LessTransitive(Exchanged(a), Exchanged(b), Exchanged(c)); }
    }
    assert Exchanged([0x5B]) == [0x5A] && Exchanged(k)[0] == 0x5B;
  }

  lemma SameExchanged(a: Bytes, b: Bytes)
    requires Exchanged(a) == Exchanged(b)
    ensures a == b
  {
    assert |a| == |b|;
    forall i | 0 <= i < |a| ensures a[i] == b[i] { assert Exchanged(a)[i] == Exchanged(b)[i]; }
  }

  // ---- text ----------------------------------------------------------------

  predicate IsTail(b: Byte) {
    0x80 <= b <= 0xBF
  }

  /** How many bytes the first byte of a character announces; 0 for a byte that starts none. */
  function HeadLength(b: Byte): nat {
    if b < 0x80 then 1
    else if b < 0xC2 then 0
    else if b < 0xE0 then 2
    else if b < 0xF0 then 3
    else if b < 0xF5 then 4
    else 0
  }

  /** The narrower range of a second byte, against overlong forms, surrogates and the end of Unicode. */
  predicate SecondFits(head: Byte, b: Byte) {
    && IsTail(b)
    && (head == 0xE0 ==> b >= 0xA0) && (head == 0xED ==> b <= 0x9F)
    && (head == 0xF0 ==> b >= 0x90) && (head == 0xF4 ==> b <= 0x8F)
  }

  /** One character at the start of `s`, `n` bytes long: section 4 of RFC 3629. */
  predicate StartsChar(s: Bytes, n: nat) {
    && 0 < n <= |s| && n == HeadLength(s[0])
    && (n > 1 ==> SecondFits(s[0], s[1]))
    && (n > 2 ==> IsTail(s[2]))
    && (n > 3 ==> IsTail(s[3]))
  }

  /** What Postgres takes for a text: well-formed UTF-8 without a zero byte. */
  predicate IsText(s: Bytes) {
    s == [] ||
    var n := HeadLength(s[0]);
    StartsChar(s, n) && s[0] != 0 && IsText(s[n..])
  }

  lemma {:induction false} TextBytes(s: Bytes)
    requires IsText(s)
    ensures forall i :: 0 <= i < |s| ==> s[i] < 0xF5
  {
    if s != [] {
      var n := HeadLength(s[0]);
      TextBytes(s[n..]);
      forall i | 0 <= i < |s| ensures s[i] < 0xF5 {
        if i >= n { assert s[i] == s[n..][i - n]; }
      }
    }
  }

  /** The last byte one up. */
  function Bumped(s: Bytes): (r: Bytes)
    requires s != [] && s[|s| - 1] < 255
    ensures |r| == |s|
  {
    s[..|s| - 1] + [s[|s| - 1] + 1]
  }

  lemma {:induction false} BumpedTextIff(s: Bytes)
    requires s != [] && IsText(s) && s[|s| - 1] < 255
    ensures IsText(Bumped(s)) <==> s[|s| - 1] != 0x7F && s[|s| - 1] != 0xBF
  {
    var n, r := HeadLength(s[0]), Bumped(s);
    if n < |s| {
      assert r[0] == s[0] && r[n..] == Bumped(s[n..]) && s[n..][|s| - n - 1] == s[|s| - 1];
      assert forall i :: 0 <= i < n ==> r[i] == s[i];
      BumpedTextIff(s[n..]);
    } else {
      assert forall i :: 0 <= i < n - 1 ==> r[i] == s[i];
      if n > 1 {
        assert r[n..] == [] && r[0] == s[0];
      } else {
        assert r[1..] == [];
      }
    }
  }

  /** A page of a well-formed prefix is refused exactly when its last byte is 0x7F or 0xBF. */
  lemma BoundIsTextIff(prefix: Bytes)
    requires IsText(prefix)
    ensures BoundIsText(prefix) <==> prefix == [] || (prefix[|prefix| - 1] != 0x7F && prefix[|prefix| - 1] != 0xBF)
  {
    if prefix != [] {
      TextBytes(prefix);
      BumpedTextIff(prefix);
      UpperAt(prefix, |prefix| - 1);
    }
  }

  predicate BoundIsText(prefix: Bytes) {
    Upper(prefix).Some? ==> IsText(Upper(prefix).value)
  }

  // ---- pages ---------------------------------------------------------------

  /** ORDER BY key over a primary key. */
  ghost predicate Ascending(lt: Order, keys: seq<Bytes>) {
    forall i, j :: 0 <= i < j < |keys| ==> lt(keys[i], keys[j])
  }

  /** The WHERE clause of ListCacheObjectsForBrowse, over the keys in order. */
  function Selected(lt: Order, keys: seq<Bytes>, after: Bytes, prefix: Bytes, upper: Option<Bytes>): seq<Bytes> {
    if keys == [] then []
    else
      var rest := Selected(lt, keys[1..], after, prefix, upper);
      if lt(after, keys[0]) && InRangeBy(lt, keys[0], prefix, upper) then [keys[0]] + rest else rest
  }

  /** The keys the browser is asked for. */
  function Matching(keys: seq<Bytes>, prefix: Bytes): seq<Bytes> {
    if keys == [] then []
    else if StartsWith(keys[0], prefix) then [keys[0]] + Matching(keys[1..], prefix)
    else Matching(keys[1..], prefix)
  }

  /** The keys of the range, whatever the order makes of it. */
  function Ranged(lt: Order, keys: seq<Bytes>, prefix: Bytes): seq<Bytes> {
    if keys == [] then []
    else if InRangeBy(lt, keys[0], prefix, Upper(prefix)) then [keys[0]] + Ranged(lt, keys[1..], prefix)
    else Ranged(lt, keys[1..], prefix)
  }

  lemma {:induction false} RangedIsMatching(lt: Order, keys: seq<Bytes>, prefix: Bytes)
    requires Bytewise(lt)
    ensures Ranged(lt, keys, prefix) == Matching(keys, prefix)
  {
    if keys != [] {
      RangedIsMatching(lt, keys[1..], prefix);
      PrefixIsRange(keys[0], prefix);
    }
  }

  function After(lt: Order, ks: seq<Bytes>, c: Bytes): seq<Bytes> {
    if ks == [] then [] else if lt(c, ks[0]) then [ks[0]] + After(lt, ks[1..], c) else After(lt, ks[1..], c)
  }

  lemma {:induction false} SelectedIsRanged(lt: Order, keys: seq<Bytes>, after: Bytes, prefix: Bytes)
    ensures Selected(lt, keys, after, prefix, Upper(prefix)) == After(lt, Ranged(lt, keys, prefix), after)
  {
    if keys != [] {
      SelectedIsRanged(lt, keys[1..], after, prefix);
      var rest := Ranged(lt, keys[1..], prefix);
      if InRangeBy(lt, keys[0], prefix, Upper(prefix)) { assert ([keys[0]] + rest)[1..] == rest; }
    }
  }

  lemma {:induction false} RangedShape(lt: Order, keys: seq<Bytes>, prefix: Bytes)
    requires Ascending(lt, keys)
    ensures Ascending(lt, Ranged(lt, keys, prefix))
    ensures forall k :: k in Ranged(lt, keys, prefix) ==> k in keys
  {
    if keys != [] {
      RangedShape(lt, keys[1..], prefix);
      var rest := Ranged(lt, keys[1..], prefix);
      forall k | k in rest ensures lt(keys[0], k) {
        var j :| 0 <= j < |keys[1..]| && keys[1..][j] == k;
        assert keys[j + 1] == k;
      }
      ConsAscending(lt, keys[0], rest);
    }
  }

  lemma ConsAscending(lt: Order, k: Bytes, rest: seq<Bytes>)
    requires Ascending(lt, rest) && forall x :: x in rest ==> lt(k, x)
    ensures Ascending(lt, [k] + rest)
  {
    forall i, j | 0 <= i < j < |[k] + rest| ensures lt(([k] + rest)[i], ([k] + rest)[j]) {
      assert ([k] + rest)[j] == rest[j - 1] && rest[j - 1] in rest;
    }
  }

  lemma {:induction false} AfterAll(lt: Order, ks: seq<Bytes>, c: Bytes)
    requires forall k :: k in ks ==> lt(c, k)
    ensures After(lt, ks, c) == ks
  {
    if ks != [] {
      assert ks[0] in ks;
      AfterAll(lt, ks[1..], c);
    }
  }

  lemma {:induction false} AfterNth(lt: Order, ks: seq<Bytes>, i: nat)
    requires Total(lt) && Ascending(lt, ks) && i < |ks|
    ensures After(lt, ks, ks[i]) == ks[i + 1..]
  {
    if i == 0 {
      AfterAll(lt, ks[1..], ks[0]);
    } else {
      assert lt(ks[0], ks[i]);
      assert !lt(ks[i], ks[0]);
      assert ks[1..][i - 1] == ks[i];
      AfterNth(lt, ks[1..], i - 1);
      assert ks[1..][i..] == ks[i + 1..];
    }
  }

  function Page(ks: seq<Bytes>, limit: nat): seq<Bytes> {
    if |ks| <= limit then ks else ks[..limit]
  }

  /** A page, or the database's refusal of a parameter that is no text. */
  datatype Listing = Listed(items: seq<Bytes>, next: Option<Bytes>) | Refused

  /** handleListCacheObjects: one page, and a cursor exactly when the page is full. */
  method ListPage(lt: Order, keys: seq<Bytes>, prefix: Bytes, after: Bytes, limit: nat) returns (r: Listing)
    requires limit > 0
    ensures r.Refused? <==> !(IsText(prefix) && IsText(after) && BoundIsText(prefix))
    ensures r.Listed? ==> r.items == Page(After(lt, Ranged(lt, keys, prefix), after), limit)
    ensures r.Listed? ==> r.next == if |r.items| == limit then Some(r.items[limit - 1]) else None
    ensures r.Listed? && Bytewise(lt) ==> r.items == Page(After(lt, Matching(keys, prefix), after), limit)
  {
    var upper, ok := PrefixUpperBound(prefix);
    if !IsText(prefix) || !IsText(after) || (ok && !IsText(upper)) {
      return Refused;
    }
    var rows := Page(Selected(lt, keys, after, prefix, if ok then Some(upper) else None), limit);
    SelectedIsRanged(lt, keys, after, prefix);
    if Bytewise(lt) {
      RangedIsMatching(lt, keys, prefix);
    }
    var items := [];
    for i := 0 to |rows|
      invariant items == rows[..i]
    {
      items := items + [rows[i]];
    }
    r := Listed(items, if |items| == limit then Some(items[|items| - 1]) else None);
  }

  function Times(pages: nat, limit: nat): (n: nat)
    ensures n == pages * limit
  {
    if pages == 0 then 0
    else
      assert pages * limit == (pages - 1) * limit + limit;
      Times(pages - 1, limit) + limit
  }

  /** Where the reader stands: `n` keys listed in full pages, and the cursor after the last of them. */
  ghost predicate AtCursor(lt: Order, ms: seq<Bytes>, n: nat, after: Bytes, pages: nat, limit: nat) {
    n <= |ms| && After(lt, ms, after) == ms[n..] && n == Times(pages, limit)
  }

  lemma FullPage(lt: Order, ms: seq<Bytes>, n: nat, after: Bytes, pages: nat, limit: nat)
    requires Total(lt) && Ascending(lt, ms) && limit > 0 && AtCursor(lt, ms, n, after, pages, limit) && n + limit <= |ms|
    ensures AtCursor(lt, ms, n + limit, ms[n + limit - 1], pages + 1, limit)
  {
    AfterNth(lt, ms, n + limit - 1);
  }

  /** `n` keys take this many pages: the last of them is short. */
  predicate Fits(n: nat, pages: nat, limit: nat) {
    pages > 0 && Times(pages - 1, limit) <= n < Times(pages, limit)
  }

  /** The page at a cursor is the next stretch of the range; a short one is the last. */
  lemma NextPage(lt: Order, ms: seq<Bytes>, n: nat, after: Bytes, pages: nat, limit: nat, items: seq<Bytes>)
    requires limit > 0 && AtCursor(lt, ms, n, after, pages, limit) && items == Page(After(lt, ms, after), limit)
    ensures n + |items| <= |ms| && ms[..n] + items == ms[..n + |items|] && |items| <= limit
    ensures |items| == limit ==> items[limit - 1] == ms[n + limit - 1]
    ensures |items| < limit ==> n + |items| == |ms| && Fits(|ms|, pages + 1, limit)
  {
  }

  ghost predicate Reading(lt: Order, ms: seq<Bytes>, listed: seq<Bytes>, after: Bytes, pages: nat, limit: nat) {
    AtCursor(lt, ms, |listed|, after, pages, limit) && listed == ms[..|listed|]
  }

  ghost predicate AllText(ks: seq<Bytes>) {
    forall k :: k in ks ==> IsText(k)
  }

  /** A full page moves the reader on; a short one ends the listing. */
  lemma ReadPage(lt: Order, ms: seq<Bytes>, listed: seq<Bytes>, after: Bytes, pages: nat, limit: nat, items: seq<Bytes>)
    requires Total(lt) && Ascending(lt, ms) && AllText(ms) && limit > 0
    requires Reading(lt, ms, listed, after, pages, limit) && items == Page(After(lt, ms, after), limit)
    ensures |items| == limit ==>
              Reading(lt, ms, listed + items, items[limit - 1], pages + 1, limit) && IsText(items[limit - 1])
    ensures |items| == limit ==> |ms| - |listed + items| < |ms| - |listed| && |listed + items| <= |ms|
    ensures |items| != limit ==> listed + items == ms && Fits(|ms|, pages + 1, limit)
  {
    NextPage(lt, ms, |listed|, after, pages, limit, items);
    if |items| == limit {
      FullPage(lt, ms, |listed|, after, pages, limit);
      assert ms[|listed| + limit - 1] in ms;
    }
  }

  /**
   Following next_cursor from the start over a fixed table lists every key of the range, once
   and in order, and ends; a last page that is exactly full costs one more, empty, page. Under
   byte order those are the keys with the prefix, and by `RangesIffBytewise` only then.
   */
  method Browse(lt: Order, keys: seq<Bytes>, prefix: Bytes, limit: nat)
    returns (listed: seq<Bytes>, pages: nat, refused: bool)
    requires limit > 0 && Total(lt) && Ascending(lt, keys)
    requires forall k :: k in keys ==> IsText(k) && lt([], k)
    ensures refused <==> !(IsText(prefix) && BoundIsText(prefix))
    ensures !refused ==> listed == Ranged(lt, keys, prefix) && Fits(|listed|, pages, limit)
    ensures !refused && Bytewise(lt) ==> listed == Matching(keys, prefix)
  {
    ghost var ms := Ranged(lt, keys, prefix);
    RangedShape(lt, keys, prefix);
    AfterAll(lt, ms, []);
    if Bytewise(lt) {
      RangedIsMatching(lt, keys, prefix);
    }
    listed, pages := [], 0;
    var after: Bytes := [];
    var more := true;
    while more
      invariant IsText(after) && (pages > 0 ==> IsText(prefix) && BoundIsText(prefix))
      invariant more ==> Reading(lt, ms, listed, after, pages, limit)
      invariant !more ==> pages > 0 && listed == ms && Fits(|ms|, pages, limit)
      decreases more, |ms| - |listed|
    {
      var page := ListPage(lt, keys, prefix, after, limit);
      if page.Refused? {
        return listed, pages, true;
      }
      ReadPage(lt, ms, listed, after, pages, limit, page.items);
      listed, pages := listed + page.items, pages + 1;
      more := page.next.Some?;
      if more {
        after := page.next.value;
      }
    }
    refused := false;
  }
}
