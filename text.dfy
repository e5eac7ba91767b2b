/** Small value types and string helpers shared by the models: an optional
    value, ASCII lower-casing, substring tests, splitting and joining on a
    separator, and decimal rendering of natural numbers (plain and zero-padded
    to four digits, as Python's `{i:04d}` does). */
module Text {

  datatype Option<T> = None | Some(value: T) {
    function GetOr(default: T): T {
      match this
      case Some(v) => v
      case None => default
    }
  }

  function Min(a: int, b: int): int { if a <= b then a else b }

  // ---------------------------------------------------------------------
  // Case folding and substring tests
  // ---------------------------------------------------------------------

  /** Lower-cases ASCII letters and leaves every other character alone. */
  function LowerChar(c: char): char {
    if 'A' <= c <= 'Z' then (c as int + 32) as char else c
  }

  function Lower(s: string): (r: string)
    ensures |r| == |s|
    ensures forall i :: 0 <= i < |s| ==> r[i] == LowerChar(s[i])
  {
    if s == [] then [] else [LowerChar(s[0])] + Lower(s[1..])
  }

  /** Lower-casing twice is lower-casing once. */
  lemma LowerIdempotent(s: string)
    ensures Lower(Lower(s)) == Lower(s)
  {
  }

  /** Python's `sub in s`. */
  predicate Contains(s: string, sub: string) {
    exists i :: 0 <= i <= |s| - |sub| && sub <= s[i..]
  }

  /** Python's `s.endswith(suffix)`. */
  predicate EndsWith(s: string, suffix: string) {
    |suffix| <= |s| && s[|s| - |suffix|..] == suffix
  }

  // ---------------------------------------------------------------------
  // Splitting and joining on one separator character
  // ---------------------------------------------------------------------

  /** Python's `s.split(c)` / JavaScript's `s.split(c)` for a one-character
      separator: always at least one field, fields never contain `c`. */
  function Split(s: string, c: char): (r: seq<string>)
    ensures |r| >= 1
    ensures forall k :: 0 <= k < |r| ==> c !in r[k]
    decreases |s|
  {
    if s == [] then [""]
    else
      var rest := Split(s[1..], c);
      if s[0] == c then [""] + rest
      else [[s[0]] + rest[0]] + rest[1..]
  }

  /** `sep.join(xs)` (Python) / `xs.join(sep)` (JavaScript). */
  function Join(xs: seq<string>, c: char): string {
    if xs == [] then ""
    else if |xs| == 1 then xs[0]
    else xs[0] + [c] + Join(xs[1..], c)
  }

  /** Joining the fields of a split gives back the original text. */
  lemma {:induction false} JoinSplit(s: string, c: char)
    ensures Join(Split(s, c), c) == s
    decreases |s|
  {
    if s != [] {
      JoinSplit(s[1..], c);
      var rest := Split(s[1..], c);
      if s[0] == c {
        assert Split(s, c) == [""] + rest;
        assert ([""] + rest)[1..] == rest;
      } else {
        var first := [s[0]] + rest[0];
        assert Split(s, c) == [first] + rest[1..];
        if |rest| == 1 {
          assert Join(Split(s, c), c) == first;
          assert rest[0] == Join(rest, c);
        } else {
          assert Join(Split(s, c), c) == first + [c] + Join(rest[1..], c);
          assert Join(rest, c) == rest[0] + [c] + Join(rest[1..], c);
        }
      }
    }
  }

  /** Splitting a joined list of separator-free fields gives back the list:
      the separator is the only thing that delimits fields. */
  lemma {:induction false} SplitJoin(xs: seq<string>, c: char)
    requires |xs| >= 1
    requires forall k :: 0 <= k < |xs| ==> c !in xs[k]
    ensures Split(Join(xs, c), c) == xs
    decreases |xs|
  {
    if |xs| == 1 {
      SplitNoSeparator(xs[0], c);
    } else {
      SplitJoin(xs[1..], c);
      SplitPrefix(xs[0], Join(xs[1..], c), c);
      assert Join(xs, c) == xs[0] + [c] + Join(xs[1..], c);
    }
  }

  lemma {:induction false} SplitNoSeparator(s: string, c: char)
    requires c !in s
    ensures Split(s, c) == [s]
    decreases |s|
  {
    if s != [] {
      SplitNoSeparator(s[1..], c);
      assert [s[0]] + s[1..] == s;
    }
  }

  /** A separator-free head followed by the separator becomes the first field. */
  lemma {:induction false} SplitPrefix(a: string, b: string, c: char)
    requires c !in a
    ensures Split(a + [c] + b, c) == [a] + Split(b, c)
    decreases |a|
  {
    if a == [] {
      assert a + [c] + b == [c] + b;
      assert ([c] + b)[1..] == b;
    } else {
      var s := a + [c] + b;
      assert s[1..] == a[1..] + [c] + b;
      SplitPrefix(a[1..], b, c);
      assert [a[0]] + a[1..] == a;
    }
  }

  // ---------------------------------------------------------------------
  // Decimal rendering
  // ---------------------------------------------------------------------

  predicate IsDigit(c: char) { '0' <= c <= '9' }

  predicate AllDigits(s: string) { forall i :: 0 <= i < |s| ==> IsDigit(s[i]) }

  function DigitChar(d: nat): char
    requires d < 10
  {
    ('0' as int + d) as char
  }

  function DigitValue(c: char): nat
    requires IsDigit(c)
  {
    c as int - '0' as int
  }

  /** The decimal text of `n`, without leading zeros (Python `str(n)`). */
  function NatToString(n: nat): (r: string)
    ensures |r| >= 1 && AllDigits(r)
  {
    if n < 10 then [DigitChar(n)] else NatToString(n / 10) + [DigitChar(n % 10)]
  }

  /** The number a string of digits denotes. */
  function DigitsValue(s: string): nat
    requires AllDigits(s)
  {
    if s == [] then 0 else DigitsValue(s[..|s| - 1]) * 10 + DigitValue(s[|s| - 1])
  }

  lemma {:induction false} NatToStringRoundTrip(n: nat)
    ensures DigitsValue(NatToString(n)) == n
  {
    if n >= 10 {
      NatToStringRoundTrip(n / 10);
      var s := NatToString(n);
      assert s[..|s| - 1] == NatToString(n / 10);
    }
  }

  function Zeros(k: nat): (r: string)
    ensures |r| == k && AllDigits(r)
    ensures forall i :: 0 <= i < k ==> r[i] == '0'
  {
    if k == 0 then [] else Zeros(k - 1) + ['0']
  }

  /** Python's `f"{n:04d}"`: the decimal text of `n`, left-padded with zeros to
      at least four characters. */
  function Pad4(n: nat): (r: string)
    ensures AllDigits(r)
    ensures |r| == if |NatToString(n)| >= 4 then |NatToString(n)| else 4
  {
    var t := NatToString(n);
    (if |t| >= 4 then "" else Zeros(4 - |t|)) + t
  }

  /** Leading zeros do not change the value of a digit string. */
  lemma {:induction false} LeadingZeros(k: nat, t: string)
    requires AllDigits(t)
    ensures AllDigits(Zeros(k) + t) && DigitsValue(Zeros(k) + t) == DigitsValue(t)
    decreases |t|, k
  {
    var s := Zeros(k) + t;
    if t == [] {
      assert s == Zeros(k);
      if k > 0 {
        assert s[..|s| - 1] == Zeros(k - 1);
        LeadingZeros(k - 1, []);
        assert Zeros(k - 1) + [] == Zeros(k - 1);
      }
    } else {
      assert s[..|s| - 1] == Zeros(k) + t[..|t| - 1];
      LeadingZeros(k, t[..|t| - 1]);
    }
  }

  /** Reading a padded index back gives the index. */
  lemma Pad4RoundTrip(n: nat)
    ensures DigitsValue(Pad4(n)) == n
  {
    var t := NatToString(n);
    NatToStringRoundTrip(n);
    if |t| >= 4 {
      assert Pad4(n) == t;
    } else {
      LeadingZeros(4 - |t|, t);
    }
  }

  /** Distinct indices never share a padded name. */
  lemma Pad4Injective(m: nat, n: nat)
    requires Pad4(m) == Pad4(n)
    ensures m == n
  {
    Pad4RoundTrip(m);
    Pad4RoundTrip(n);
  }

  /** Distinct numbers never share a decimal rendering. */
  lemma NatToStringInjective(m: nat, n: nat)
    requires NatToString(m) == NatToString(n)
    ensures m == n
  {
    NatToStringRoundTrip(m);
    NatToStringRoundTrip(n);
  }

  // ---------------------------------------------------------------------
  // Row-major index arithmetic
  // ---------------------------------------------------------------------

  /** Entry (i, j) of an r-by-c row-major layout lies inside it. */
  lemma MulStep(i: nat, r: nat, c: nat, j: nat)
    requires i < r && j < c
    ensures i * c + j < r * c
  {
    assert (i + 1) * c <= r * c by { MulLeft(i + 1, r, c); }
  }

  lemma MulLeft(a: nat, b: nat, c: nat)
    requires a <= b
    ensures a * c <= b * c
  {
  }

  // ---------------------------------------------------------------------
  // Order-preserving filters
  // ---------------------------------------------------------------------

  /** The elements of `s` that pass `p`, in order (`filter` in Python and
      JavaScript). */
  function Filter<T(==,!new)>(s: seq<T>, p: T -> bool): (r: seq<T>)
    ensures |r| <= |s|
    ensures forall x :: x in r <==> x in s && p(x)
  {
    if s == [] then []
    else Filter(s[..|s| - 1], p) + (if p(s[|s| - 1]) then [s[|s| - 1]] else [])
  }

  /** Filtering distributes over concatenation, so it keeps the order. */
  lemma {:induction false} FilterAppend<T(!new)>(s: seq<T>, t: seq<T>, p: T -> bool)
    ensures Filter(s + t, p) == Filter(s, p) + Filter(t, p)
    decreases |t|
  {
    if t == [] {
      assert s + t == s;
    } else {
      var u := t[..|t| - 1];
      assert (s + t)[..|s + t| - 1] == s + u;
      FilterAppend(s, u, p);
    }
  }

  /** Nothing is dropped when every element passes. */
  lemma {:induction false} FilterAll<T(!new)>(s: seq<T>, p: T -> bool)
    requires forall k :: 0 <= k < |s| ==> p(s[k])
    ensures Filter(s, p) == s
  {
    if s != [] {
      var init, last := s[..|s| - 1], s[|s| - 1];
      assert forall k :: 0 <= k < |init| ==> p(init[k]) by {
        forall k | 0 <= k < |init| ensures p(init[k]) { assert init[k] == s[k]; }
      }
      FilterAll(init, p);
      assert p(last);
      InitLast(s);
    }
  }

  /** A non-empty sequence is its front followed by its last element. */
  lemma InitLast<T>(s: seq<T>)
    requires s != []
    ensures s[..|s| - 1] + [s[|s| - 1]] == s
  {
  }

  /** Two filters in a row are one filter on the conjunction. */
  lemma {:induction false} FilterFilter<T(!new)>(s: seq<T>, p: T -> bool, q: T -> bool, pq: T -> bool)
    requires forall x :: pq(x) == (p(x) && q(x))
    ensures Filter(Filter(s, p), q) == Filter(s, pq)
  {
    if s != [] {
      var init, last := s[..|s| - 1], s[|s| - 1];
      FilterFilter(init, p, q, pq);
      FilterAppend(Filter(init, p), if p(last) then [last] else [], q);
      assert Filter([last], q) == Filter([], q) + (if q(last) then [last] else []);
    }
  }

  /** Filtering twice with the same test is filtering once. */
  lemma FilterIdempotent<T(!new)>(s: seq<T>, p: T -> bool)
    ensures Filter(Filter(s, p), p) == Filter(s, p)
  {
    var r := Filter(s, p);
    assert forall k :: 0 <= k < |r| ==> r[k] in r;
    FilterAll(r, p);
  }

  /** The elements that pass and those that fail add up to the whole. */
  lemma {:induction false} FilterComplement<T(!new)>(s: seq<T>, p: T -> bool, notP: T -> bool)
    requires forall x :: notP(x) == !p(x)
    ensures |Filter(s, p)| + |Filter(s, notP)| == |s|
  {
    if s != [] {
      FilterComplement(s[..|s| - 1], p, notP);
    }
  }
}
