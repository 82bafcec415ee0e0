/**
 * Shared building blocks: optional values and results (the source's
 * `undefined`/`null` and thrown errors), order-preserving filters, the
 * rounded percentage every scoring agent uses, decimal rendering of
 * naturals, ASCII case mapping and prefix/substring tests on strings.
 */
module Base {

  /** A value that may be absent (`undefined` / `null` in the source). */
  datatype Option<T> = None | Some(value: T) {
    /** The `??` operator: the value when present, otherwise `default`. */
    function GetOr(default: T): T {
      match this
      case Some(v) => v
      case None => default
    }
  }

  /** The outcome of an operation that may throw: a value or an error message. */
  datatype Result<T> = Ok(value: T) | Err(message: string)

  // ---------------------------------------------------------------------------
  // Filtering and counting
  // ---------------------------------------------------------------------------

  /** The elements of `s` that satisfy `p`, in their original order (`Array.filter`). */
  function Filter<T>(s: seq<T>, p: T -> bool): (r: seq<T>)
    ensures |r| <= |s|
    ensures forall i :: 0 <= i < |r| ==> r[i] in s && p(r[i])
    ensures forall i :: 0 <= i < |s| && p(s[i]) ==> s[i] in r
    ensures |r| == |s| <==> forall i :: 0 <= i < |s| ==> p(s[i])
    decreases |s|
  {
    if |s| == 0 then []
    else if p(s[0]) then [s[0]] + Filter(s[1..], p)
    else Filter(s[1..], p)
  }

  /** Filtering distributes over concatenation, which is what keeps order. */
  lemma {:induction false} FilterConcat<T>(a: seq<T>, b: seq<T>, p: T -> bool)
    ensures Filter(a + b, p) == Filter(a, p) + Filter(b, p)
    decreases |a|
  {
    if |a| == 0 {
      assert a + b == b;
    } else {
      var ab := a + b;
      assert ab[0] == a[0] && ab[1..] == a[1..] + b;
      FilterConcat(a[1..], b, p);
      if p(a[0]) {
        calc {
          Filter(ab, p);
          [a[0]] + Filter(a[1..] + b, p);
          [a[0]] + (Filter(a[1..], p) + Filter(b, p));
          ([a[0]] + Filter(a[1..], p)) + Filter(b, p);
        }
      }
    }
  }

  /** Filtering with the always-true predicate keeps everything. */
  lemma {:induction false} FilterAll<T>(s: seq<T>, p: T -> bool)
    requires forall i :: 0 <= i < |s| ==> p(s[i])
    ensures Filter(s, p) == s
    decreases |s|
  {
    if |s| > 0 {
      FilterAll(s[1..], p);
    }
  }

  /** The number of elements of `s` that satisfy `p`. */
  function Count<T>(s: seq<T>, p: T -> bool): (n: nat)
    ensures n <= |s|
    ensures n == 0 <==> forall i :: 0 <= i < |s| ==> !p(s[i])
    ensures n == |s| <==> forall i :: 0 <= i < |s| ==> p(s[i])
  {
    var r := Filter(s, p);
    assert |r| == 0 ==> r == [];
    assert |r| > 0 ==> r[0] in s && p(r[0]);
    assert forall i :: 0 <= i < |s| && p(s[i]) ==> s[i] in r;
    |r|
  }

  /** `s.map(f)`. */
  function MapSeq<T, U>(s: seq<T>, f: T -> U): (r: seq<U>)
    ensures |r| == |s|
    ensures forall i :: 0 <= i < |s| ==> r[i] == f(s[i])
  {
    seq(|s|, i requires 0 <= i < |s| => f(s[i]))
  }

  /** An element kept by `filter` shows up, transformed, in `filter(p).map(f)`. */
  lemma FilterMapHas<T, U>(s: seq<T>, p: T -> bool, f: T -> U, i: nat)
    requires i < |s| && p(s[i])
    ensures f(s[i]) in MapSeq(Filter(s, p), f)
  {
    var r := Filter(s, p);
    assert s[i] in r;
    var j :| 0 <= j < |r| && r[j] == s[i];
    assert MapSeq(r, f)[j] == f(s[i]);
  }

  /** The identity, for a filter whose kept elements are not transformed. */
  function Id<T>(x: T): T {
    x
  }

  /** Every position in `idx` is a position of `s` whose element satisfies `p`. */
  predicate Picks<T>(s: seq<T>, p: T -> bool, idx: seq<nat>) {
    forall k :: 0 <= k < |idx| ==> idx[k] < |s| && p(s[idx[k]])
  }

  /** The positions in `idx` strictly increase. */
  predicate Increasing(idx: seq<nat>) {
    forall k, l :: 0 <= k < l < |idx| ==> idx[k] < idx[l]
  }

  /** Every position of `s` whose element satisfies `p` is in `idx`. */
  predicate Covers<T>(s: seq<T>, p: T -> bool, idx: seq<nat>) {
    forall i :: 0 <= i < |s| && p(s[i]) ==> i in idx
  }

  /**
   * `idx` lists, in increasing order, exactly the positions of `s` whose
   * element satisfies `p`.
   */
  predicate Selects<T>(s: seq<T>, p: T -> bool, idx: seq<nat>) {
    Picks(s, p, idx) && Increasing(idx) && Covers(s, p, idx)
  }

  /** `r` holds `f` of the elements of `s` at the positions `idx`, in that order. */
  ghost predicate MappedAt<T, U>(s: seq<T>, f: T -> U, idx: seq<nat>, r: seq<U>) {
    |idx| == |r| && forall k :: 0 <= k < |r| ==> idx[k] < |s| && r[k] == f(s[idx[k]])
  }

  /**
   * `r` is `s.filter(p).map(f)`: `f` of every element of `s` that satisfies
   * `p`, nothing else, in the order of `s`.
   */
  ghost predicate FilterMapped<T, U>(s: seq<T>, p: T -> bool, f: T -> U, r: seq<U>) {
    exists idx :: Selects(s, p, idx) && MappedAt(s, f, idx, r)
  }

  /** Each position of `idx` moved one place to the right. */
  function Shift(idx: seq<nat>): (r: seq<nat>)
    ensures |r| == |idx|
    ensures forall k :: 0 <= k < |idx| ==> r[k] == idx[k] + 1
  {
    seq(|idx|, k requires 0 <= k < |idx| => idx[k] + 1)
  }

  /** The positions picked from `s`: the head's if kept, then the tail's moved right. */
  function ConsPositions<T>(s: seq<T>, p: T -> bool, it: seq<nat>): seq<nat>
    requires |s| > 0
  {
    (if p(s[0]) then [0] else []) + Shift(it)
  }

  lemma PicksCons<T>(s: seq<T>, p: T -> bool, it: seq<nat>)
    requires |s| > 0 && Picks(s[1..], p, it)
    ensures Picks(s, p, ConsPositions(s, p, it))
  {
    var idx := ConsPositions(s, p, it);
    var h := if p(s[0]) then 1 else 0;
    forall k | 0 <= k < |idx|
      ensures idx[k] < |s| && p(s[idx[k]])
    {
      if k >= h {
        assert idx[k] == it[k - h] + 1;
        assert s[1..][it[k - h]] == s[idx[k]];
      }
    }
  }

  lemma IncreasingCons<T>(s: seq<T>, p: T -> bool, it: seq<nat>)
    requires |s| > 0 && Increasing(it)
    ensures Increasing(ConsPositions(s, p, it))
  {
    var idx := ConsPositions(s, p, it);
    var h := if p(s[0]) then 1 else 0;
    forall k, l | 0 <= k < l < |idx|
      ensures idx[k] < idx[l]
    {
      assert idx[l] == it[l - h] + 1;
      if k >= h {
        assert idx[k] == it[k - h] + 1;
      }
    }
  }

  lemma CoversCons<T>(s: seq<T>, p: T -> bool, it: seq<nat>)
    requires |s| > 0 && Covers(s[1..], p, it)
    ensures Covers(s, p, ConsPositions(s, p, it))
  {
    var idx := ConsPositions(s, p, it);
    var h := if p(s[0]) then 1 else 0;
    forall i | 0 <= i < |s| && p(s[i])
      ensures i in idx
    {
      if i > 0 {
        assert s[1..][i - 1] == s[i];
        var k :| 0 <= k < |it| && it[k] == i - 1;
        assert idx[k + h] == i;
      } else {
        assert idx[0] == 0;
      }
    }
  }

  /** `filter(p).map(f)` over a non-empty `s`, in terms of its tail's. */
  lemma FilterMapCons<T, U>(s: seq<T>, p: T -> bool, f: T -> U)
    requires |s| > 0
    ensures MapSeq(Filter(s, p), f) ==
      (if p(s[0]) then [f(s[0])] else []) + MapSeq(Filter(s[1..], p), f)
  {
    var hd := if p(s[0]) then [s[0]] else [];
    var ft := Filter(s[1..], p);
    assert Filter(s, p) == hd + ft;
    MapSeqAppend(hd, ft, f);
    assert MapSeq(hd, f) == (if p(s[0]) then [f(s[0])] else []);
  }

  /** Mapping distributes over concatenation. */
  lemma MapSeqAppend<T, U>(a: seq<T>, b: seq<T>, f: T -> U)
    ensures MapSeq(a + b, f) == MapSeq(a, f) + MapSeq(b, f)
  {
    var l := MapSeq(a + b, f);
    var r := MapSeq(a, f) + MapSeq(b, f);
    forall k | 0 <= k < |l|
      ensures l[k] == r[k]
    {
      if k >= |a| {
        assert (a + b)[k] == b[k - |a|];
      }
    }
  }

  lemma MappedAtCons<T, U>(s: seq<T>, p: T -> bool, f: T -> U, it: seq<nat>, rt: seq<U>)
    requires |s| > 0 && MappedAt(s[1..], f, it, rt)
    ensures MappedAt(s, f, ConsPositions(s, p, it), (if p(s[0]) then [f(s[0])] else []) + rt)
  {
    var idx := ConsPositions(s, p, it);
    var hd := if p(s[0]) then [f(s[0])] else [];
    var r := hd + rt;
    forall k | 0 <= k < |r|
      ensures idx[k] < |s| && r[k] == f(s[idx[k]])
    {
      if k >= |hd| {
        assert r[k] == rt[k - |hd|];
        assert idx[k] == it[k - |hd|] + 1;
        assert s[1..][it[k - |hd|]] == s[idx[k]];
      }
    }
  }

  /** `filter(p).map(f)` meets its order-preserving description. */
  lemma {:induction false} FilterMapInOrder<T, U>(s: seq<T>, p: T -> bool, f: T -> U)
    ensures FilterMapped(s, p, f, MapSeq(Filter(s, p), f))
    decreases |s|
  {
    if |s| == 0 {
      assert Selects(s, p, []) && MappedAt(s, f, [], MapSeq(Filter(s, p), f));
    } else {
      FilterMapInOrder(s[1..], p, f);
      var it :| Selects(s[1..], p, it) && MappedAt(s[1..], f, it, MapSeq(Filter(s[1..], p), f));
      PicksCons(s, p, it);
      IncreasingCons(s, p, it);
      CoversCons(s, p, it);
      MappedAtCons(s, p, f, it, MapSeq(Filter(s[1..], p), f));
      FilterMapCons(s, p, f);
      var idx := ConsPositions(s, p, it);
      assert Selects(s, p, idx) && MappedAt(s, f, idx, MapSeq(Filter(s, p), f));
    }
  }

  /** `filter(p)` meets its order-preserving description. */
  lemma FilterInOrder<T>(s: seq<T>, p: T -> bool)
    ensures FilterMapped(s, p, Id, Filter(s, p))
  {
    FilterMapInOrder(s, p, Id);
    assert MapSeq(Filter(s, p), Id) == Filter(s, p);
  }

  /** Every entry of `filter(p).map(f)` comes from an element satisfying `p`. */
  lemma FilterMapFrom<T, U>(s: seq<T>, p: T -> bool, f: T -> U, j: nat)
    requires j < |MapSeq(Filter(s, p), f)|
    ensures exists i :: 0 <= i < |s| && p(s[i]) && MapSeq(Filter(s, p), f)[j] == f(s[i])
  {
    var r := Filter(s, p);
    assert r[j] in s;
    var i :| 0 <= i < |s| && s[i] == r[j];
  }

  /** No element occurs twice. */
  predicate Distinct<T(==)>(s: seq<T>) {
    forall i, j :: 0 <= i < j < |s| ==> s[i] != s[j]
  }

  /**
   * `[...new Set(s)]`: the elements of `s` without repeats, each at the
   * position of its first occurrence.
   */
  function Dedup<T(==)>(s: seq<T>): (r: seq<T>)
    ensures |r| <= |s|
    ensures Distinct(r)
    ensures forall i :: 0 <= i < |r| ==> r[i] in s
    ensures forall i :: 0 <= i < |s| ==> s[i] in r
    decreases |s|
  {
    if |s| == 0 then []
    else
      var init := Dedup(s[..|s| - 1]);
      var last := s[|s| - 1];
      assert forall i :: 0 <= i < |s| - 1 ==> s[i] == s[..|s| - 1][i];
      if last in init then init else init + [last]
  }

  /** A list that already has no repeats is its own set. */
  lemma {:induction false} DedupDistinct<T>(s: seq<T>)
    requires Distinct(s)
    ensures Dedup(s) == s
    decreases |s|
  {
    if |s| > 0 {
      var init := s[..|s| - 1];
      DedupDistinct(init);
      assert s[|s| - 1] !in init;
      assert init + [s[|s| - 1]] == s;
    }
  }

  /** Set-building an appended list starts with the set of the prefix. */
  lemma {:induction false} DedupPrefix<T>(a: seq<T>, b: seq<T>)
    ensures |Dedup(a)| <= |Dedup(a + b)|
    ensures Dedup(a + b)[..|Dedup(a)|] == Dedup(a)
    decreases |b|
  {
    if |b| == 0 {
      assert a + b == a;
    } else {
      var shorter := b[..|b| - 1];
      var ab := a + b;
      assert ab[..|ab| - 1] == a + shorter;
      DedupPrefix(a, shorter);
      DedupStep(ab);
    }
  }

  /** Set-building a list extends the set of the list without its last element. */
  lemma DedupStep<T>(s: seq<T>)
    requires |s| > 0
    ensures |Dedup(s[..|s| - 1])| <= |Dedup(s)|
    ensures Dedup(s)[..|Dedup(s[..|s| - 1])|] == Dedup(s[..|s| - 1])
  {
    var init := Dedup(s[..|s| - 1]);
    assert Dedup(s) == init || Dedup(s) == init + [s[|s| - 1]];
    assert (init + [s[|s| - 1]])[..|init|] == init;
  }

  /** Counting `q` among the elements kept by `p` finds something exactly when one element satisfies both. */
  lemma CountFilterPositive<T>(s: seq<T>, p: T -> bool, q: T -> bool)
    ensures Count(Filter(s, p), q) > 0 <==> exists i :: 0 <= i < |s| && p(s[i]) && q(s[i])
  {
    var kept := Filter(s, p);
    if exists i :: 0 <= i < |s| && p(s[i]) && q(s[i]) {
      var i :| 0 <= i < |s| && p(s[i]) && q(s[i]);
      assert s[i] in kept;
      var j :| 0 <= j < |kept| && kept[j] == s[i];
      assert q(kept[j]);
    }
    if Count(kept, q) > 0 {
      var j :| 0 <= j < |kept| && q(kept[j]);
      assert kept[j] in s && p(kept[j]);
      var i :| 0 <= i < |s| && s[i] == kept[j];
    }
  }

  /** Some element of `s` satisfies `p` (`Array.some`). */
  predicate Any<T>(s: seq<T>, p: T -> bool) {
    exists i :: 0 <= i < |s| && p(s[i])
  }

  /** The elements of `s` last to first (rows read back newest first). */
  function Reverse<T>(s: seq<T>): (r: seq<T>)
    ensures |r| == |s|
    ensures forall i :: 0 <= i < |s| ==> r[i] == s[|s| - 1 - i]
    decreases |s|
  {
    if |s| == 0 then [] else [s[|s| - 1]] + Reverse(s[..|s| - 1])
  }

  /** `le` holds between every element and each one after it. */
  predicate OrderedBy<T>(s: seq<T>, le: (T, T) -> bool) {
    forall i, j :: 0 <= i < j < |s| ==> le(s[i], s[j])
  }

  /** Filtering keeps the relative order of what it keeps. */
  lemma {:induction false} FilterOrderedBy<T>(s: seq<T>, p: T -> bool, le: (T, T) -> bool)
    requires OrderedBy(s, le)
    ensures OrderedBy(Filter(s, p), le)
    decreases |s|
  {
    if |s| > 0 {
      var tail := s[1..];
      assert OrderedBy(tail, le) by {
        forall i, j | 0 <= i < j < |tail| ensures le(tail[i], tail[j]) {
          assert tail[i] == s[i + 1] && tail[j] == s[j + 1];
        }
      }
      FilterOrderedBy(tail, p, le);
      var rest := Filter(tail, p);
      if p(s[0]) {
        var r := [s[0]] + rest;
        forall i, j | 0 <= i < j < |r| ensures le(r[i], r[j]) {
          assert r[j] == rest[j - 1];
          if i == 0 {
            assert rest[j - 1] in tail;
            var k :| 0 <= k < |tail| && tail[k] == rest[j - 1];
            assert tail[k] == s[k + 1];
          } else {
            assert r[i] == rest[i - 1];
          }
        }
      }
    }
  }

  /** Reversing twice gives the sequence back. */
  lemma ReverseTwice<T>(s: seq<T>)
    ensures Reverse(Reverse(s)) == s
  {
    var r := Reverse(Reverse(s));
    assert forall i :: 0 <= i < |s| ==> r[i] == s[i];
  }

  lemma ReverseMembers<T>(s: seq<T>)
    ensures forall x :: x in Reverse(s) <==> x in s
  {
    var r := Reverse(s);
    forall x | x in s ensures x in r {
      var i :| 0 <= i < |s| && s[i] == x;
      assert r[|s| - 1 - i] == x;
    }
  }

  // ---------------------------------------------------------------------------
  // Percentages
  // ---------------------------------------------------------------------------

  /**
   * `Math.round(part / whole * 100)` over exact rationals: the nearest
   * integer to 100·part/whole, halves rounded up.
   */
  function RoundPercent(part: nat, whole: nat): (r: nat)
    requires whole > 0
    ensures 2 * r * whole <= 200 * part + whole < 2 * (r + 1) * whole
    ensures part <= whole ==> r <= 100
    ensures part == whole ==> r == 100
    ensures part == 0 ==> r == 0
  {
    var r := (200 * part + whole) / (2 * whole);
    RoundPercentFacts(part, whole, r);
    r
  }

  lemma RoundPercentFacts(part: nat, whole: nat, r: nat)
    requires whole > 0 && r == (200 * part + whole) / (2 * whole)
    ensures 2 * r * whole <= 200 * part + whole < 2 * (r + 1) * whole
    ensures part <= whole ==> r <= 100
    ensures part == whole ==> r == 100
    ensures part == 0 ==> r == 0
  {
    DivBounds(200 * part + whole, 2 * whole);
    if part == 0 {
      DivUnique(whole, 2 * whole, 0);
    }
    if part <= whole {
      RoundAtMostHundred(part, whole, r);
    }
    if part == whole {
      assert 200 * part + whole == 2 * whole * 100 + whole;
      DivExact(100, whole, 2 * whole);
    }
  }

  lemma DivBounds(a: nat, b: nat)
    requires b > 0
    ensures (a / b) * b <= a < (a / b + 1) * b
  {
  }

  lemma RoundAtMostHundred(part: nat, whole: nat, r: nat)
    requires whole > 0 && part <= whole
    requires 2 * r * whole <= 200 * part + whole
    ensures r <= 100
  {
    assert 2 * r * whole <= 201 * whole;
    MulCancel(2 * r, 201, whole);
  }

  lemma DivExact(q: nat, whole: nat, d: nat)
    requires whole > 0 && d == 2 * whole
    ensures (d * q + whole) / d == q
  {
    DivUnique(d * q + whole, d, q);
  }

  lemma DivUnique(a: nat, d: nat, q: nat)
    requires d > 0 && q * d <= a < (q + 1) * d
    ensures a / d == q
  {
    DivBounds(a, d);
    var k := a / d;
    MulCancelStrict(k, q + 1, d);
    MulCancelStrict(q, k + 1, d);
  }

  lemma MulCancel(a: int, b: int, c: int)
    requires c > 0 && a * c <= b * c
    ensures a <= b
  {
  }

  lemma MulCancelStrict(a: int, b: int, c: int)
    requires c > 0 && a * c < b * c
    ensures a < b
  {
  }

  /** The agents' "0 when there is nothing to score" percentage. */
  function Percent(part: nat, whole: nat): (r: nat)
    requires part <= whole
    ensures r <= 100
    ensures whole == 0 ==> r == 0
    ensures whole > 0 ==> 2 * r * whole <= 200 * part + whole < 2 * (r + 1) * whole
  {
    if whole == 0 then 0 else RoundPercent(part, whole)
  }

  /** `Math.max(lo, Math.min(hi, x))`. */
  function Clamp(x: int, lo: int, hi: int): (r: int)
    requires lo <= hi
    ensures lo <= r <= hi
    ensures lo <= x <= hi ==> r == x
    ensures x < lo ==> r == lo
    ensures x > hi ==> r == hi
  {
    if x < lo then lo else if x > hi then hi else x
  }

  // ---------------------------------------------------------------------------
  // Decimal rendering (`String(n)` for a non-negative integer)
  // ---------------------------------------------------------------------------

  function DigitChar(d: nat): (c: char)
    requires d < 10
    ensures '0' <= c <= '9'
  {
    ['0', '1', '2', '3', '4', '5', '6', '7', '8', '9'][d]
  }

  predicate IsDigit(c: char) {
    '0' <= c <= '9'
  }

  function DigitValue(c: char): (d: nat)
    requires IsDigit(c)
    ensures d < 10
  {
    (c as int) - ('0' as int)
  }

  /** The decimal digits of `n`, without leading zeros. */
  function NatToString(n: nat): (s: string)
    ensures |s| >= 1
    ensures forall i :: 0 <= i < |s| ==> IsDigit(s[i])
    ensures n > 0 ==> s[0] != '0'
    decreases n
  {
    if n < 10 then [DigitChar(n)] else NatToString(n / 10) + [DigitChar(n % 10)]
  }

  /** Reads a string of decimal digits. */
  function ParseNat(s: string): (n: nat)
    requires forall i :: 0 <= i < |s| ==> IsDigit(s[i])
    decreases |s|
  {
    if |s| == 0 then 0 else 10 * ParseNat(s[..|s| - 1]) + DigitValue(s[|s| - 1])
  }

  /** Reading back a rendered natural gives the natural. */
  lemma {:induction false} NatToStringRoundTrip(n: nat)
    ensures ParseNat(NatToString(n)) == n
    decreases n
  {
    var s := NatToString(n);
    if n < 10 {
      assert s[..|s| - 1] == [];
    } else {
      var h := NatToString(n / 10);
      assert s[..|s| - 1] == h;
      NatToStringRoundTrip(n / 10);
    }
  }

  /** Different naturals render differently. */
  lemma NatToStringInjective(m: nat, n: nat)
    requires NatToString(m) == NatToString(n)
    ensures m == n
  {
    NatToStringRoundTrip(m);
    NatToStringRoundTrip(n);
  }

  // ---------------------------------------------------------------------------
  // ASCII case mapping and string tests
  // ---------------------------------------------------------------------------

  predicate IsUpper(c: char) {
    'A' <= c <= 'Z'
  }

  predicate IsLower(c: char) {
    'a' <= c <= 'z'
  }

  function LowerChar(c: char): (r: char)
    ensures !IsUpper(r)
    ensures !IsUpper(c) ==> r == c
  {
    if IsUpper(c) then (c as int + 32) as char else c
  }

  function UpperChar(c: char): (r: char)
    ensures !IsLower(r)
    ensures !IsLower(c) ==> r == c
  {
    if IsLower(c) then (c as int - 32) as char else c
  }

  /** `toLowerCase` on the ASCII letters. */
  function Lower(s: string): (r: string)
    ensures |r| == |s|
    ensures forall i :: 0 <= i < |s| ==> r[i] == LowerChar(s[i])
  {
    seq(|s|, i requires 0 <= i < |s| => LowerChar(s[i]))
  }

  /** `toUpperCase` on the ASCII letters. */
  function Upper(s: string): (r: string)
    ensures |r| == |s|
    ensures forall i :: 0 <= i < |s| ==> r[i] == UpperChar(s[i])
  {
    seq(|s|, i requires 0 <= i < |s| => UpperChar(s[i]))
  }

  /** The characters `String.prototype.trim` removes: white space and line terminators. */
  predicate IsWhitespace(c: char) {
    c == ' ' || c == '\t' || c == '\n' || c == '\r' || c == '\U{000B}' || c == '\U{000C}'
    || c == '\U{00A0}' || c == '\U{1680}' || ('\U{2000}' <= c <= '\U{200A}') || c == '\U{2028}' || c == '\U{2029}'
    || c == '\U{202F}' || c == '\U{205F}' || c == '\U{3000}' || c == '\U{FEFF}'
  }

  /** Everything of `s` before `i` and from `j` on is white space. */
  predicate WhitespaceAround(s: string, i: nat, j: nat)
    requires i <= j <= |s|
  {
    (forall k :: 0 <= k < i ==> IsWhitespace(s[k])) && (forall k :: j <= k < |s| ==> IsWhitespace(s[k]))
  }

  /** The first position at or after `i` that is not white space (`|s|` when there is none). */
  function SkipSpace(s: string, i: nat): (k: nat)
    requires i <= |s|
    ensures i <= k <= |s|
    ensures forall m :: i <= m < k ==> IsWhitespace(s[m])
    ensures k < |s| ==> !IsWhitespace(s[k])
    decreases |s| - i
  {
    if i == |s| || !IsWhitespace(s[i]) then i else SkipSpace(s, i + 1)
  }

  /** The end of `s[i..j]` once trailing white space is dropped. */
  function SkipSpaceBack(s: string, i: nat, j: nat): (k: nat)
    requires i <= j <= |s|
    ensures i <= k <= j
    ensures forall m :: k <= m < j ==> IsWhitespace(s[m])
    ensures k > i ==> !IsWhitespace(s[k - 1])
    decreases j - i
  {
    if j == i || !IsWhitespace(s[j - 1]) then j else SkipSpaceBack(s, i, j - 1)
  }

  /** `s.trim()`: `s` without leading and trailing white space. */
  function Trim(s: string): (r: string)
    ensures |r| <= |s|
    ensures |r| > 0 ==> !IsWhitespace(r[0]) && !IsWhitespace(r[|r| - 1])
    ensures exists i: nat, j: nat :: i <= j <= |s| && WhitespaceAround(s, i, j) && r == s[i..j]
  {
    var i := SkipSpace(s, 0);
    var j := SkipSpaceBack(s, i, |s|);
    assert WhitespaceAround(s, i, j);
    s[i..j]
  }

  /** Text without surrounding white space trims to itself. */
  lemma TrimUnpadded(s: string)
    requires |s| > 0 ==> !IsWhitespace(s[0]) && !IsWhitespace(s[|s| - 1])
    ensures Trim(s) == s
  {
  }

  /** `s.startsWith(prefix)`. */
  predicate StartsWith(s: string, prefix: string) {
    |prefix| <= |s| && s[..|prefix|] == prefix
  }

  /** `s.includes(sub)`: `sub` occurs at some position of `s`. */
  predicate Contains(s: string, sub: string)
    decreases |s|
  {
    StartsWith(s, sub) || (|s| > 0 && Contains(s[1..], sub))
  }

  /** Whatever is preceded or followed by more text still contains `sub`. */
  lemma {:induction false} ContainsInside(pre: string, sub: string, post: string)
    ensures Contains(pre + sub + post, sub)
    decreases |pre|
  {
    var s := pre + sub + post;
    if |pre| == 0 {
      assert s[..|sub|] == sub;
    } else {
      assert s[1..] == pre[1..] + sub + post;
      ContainsInside(pre[1..], sub, post);
    }
  }

  /** `s.join(sep)` for a list of strings. */
  function Join(parts: seq<string>, sep: string): (r: string)
    ensures |parts| == 0 ==> r == ""
    ensures |parts| == 1 ==> r == parts[0]
  {
    if |parts| == 0 then ""
    else if |parts| == 1 then parts[0]
    else parts[0] + sep + Join(parts[1..], sep)
  }

  /** Every part of a joined list occurs in the joined string. */
  lemma {:induction false} JoinContainsParts(parts: seq<string>, sep: string, k: nat)
    requires k < |parts|
    ensures Contains(Join(parts, sep), parts[k])
    decreases |parts|
  {
    if |parts| == 1 {
      ContainsInside("", parts[0], "");
      assert "" + parts[0] + "" == parts[0];
    } else if k == 0 {
      ContainsInside("", parts[0], sep + Join(parts[1..], sep));
      assert "" + parts[0] + (sep + Join(parts[1..], sep)) == Join(parts, sep);
    } else {
      JoinContainsParts(parts[1..], sep, k - 1);
      ContainsSuffix(parts[0] + sep, Join(parts[1..], sep), parts[k]);
      assert parts[0] + sep + Join(parts[1..], sep) == Join(parts, sep);
    }
  }

  lemma {:induction false} ContainsSuffix(pre: string, s: string, sub: string)
    requires Contains(s, sub)
    ensures Contains(pre + s, sub)
    decreases |pre|
  {
    if |pre| == 0 {
      assert pre + s == s;
    } else {
      assert (pre + s)[1..] == pre[1..] + s;
      ContainsSuffix(pre[1..], s, sub);
    }
  }
}
