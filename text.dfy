/**
 * String helpers shared by the JavaScript and the Python code: stripping,
 * ASCII case mapping, substring search and slicing. Both `String.prototype.trim`
 * and Python's `str.strip()` are modelled with one ASCII whitespace predicate.
 */
module Text {

  /** ASCII whitespace: space, tab, line feed, vertical tab, form feed, carriage return. */
  predicate IsSpace(c: char) {
    c == ' ' || c == '\t' || c == '\n' || c == '\U{000B}' || c == '\U{000C}' || c == '\r'
  }

  predicate IsDigit(c: char) { '0' <= c <= '9' }
  predicate IsUpperLetter(c: char) { 'A' <= c <= 'Z' }
  predicate IsLowerLetter(c: char) { 'a' <= c <= 'z' }

  function LowerChar(c: char): char {
    if IsUpperLetter(c) then (c as int + 32) as char else c
  }

  function UpperChar(c: char): char {
    if IsLowerLetter(c) then (c as int - 32) as char else c
  }

  /** ASCII lower-casing, character by character. */
  function Lower(s: string): (r: string)
    ensures |r| == |s|
    ensures forall k :: 0 <= k < |r| ==> r[k] == LowerChar(s[k])
  {
    seq(|s|, k requires 0 <= k < |s| => LowerChar(s[k]))
  }

  /** ASCII upper-casing, character by character. */
  function Upper(s: string): (r: string)
    ensures |r| == |s|
    ensures forall k :: 0 <= k < |r| ==> r[k] == UpperChar(s[k])
  {
    seq(|s|, k requires 0 <= k < |s| => UpperChar(s[k]))
  }

  predicate NoUpper(s: string) { forall k :: 0 <= k < |s| ==> !IsUpperLetter(s[k]) }
  predicate NoLower(s: string) { forall k :: 0 <= k < |s| ==> !IsLowerLetter(s[k]) }

  /** Drops the leading characters that satisfy `drop`. */
  function StripStart(s: string, drop: char -> bool): (r: string)
    ensures |r| <= |s| && r == s[|s| - |r|..]
    ensures r != [] ==> !drop(r[0])
    ensures r == [] ==> forall k :: 0 <= k < |s| ==> drop(s[k])
  {
    if s != [] && drop(s[0]) then
      var r := StripStart(s[1..], drop);
      assert s[1..][|s| - 1 - |r|..] == s[|s| - |r|..];
      assert forall k :: 1 <= k < |s| ==> s[1..][k - 1] == s[k];
      r
    else s
  }

  /** Drops the trailing characters that satisfy `drop`. */
  function StripEnd(s: string, drop: char -> bool): (r: string)
    ensures |r| <= |s| && r == s[..|r|]
    ensures r != [] ==> !drop(r[|r| - 1])
    ensures r == [] ==> forall k :: 0 <= k < |s| ==> drop(s[k])
  {
    if s != [] && drop(s[|s| - 1]) then
      var r := StripEnd(s[..|s| - 1], drop);
      assert s[..|s| - 1][..|r|] == s[..|r|];
      assert forall k :: 0 <= k < |s| - 1 ==> s[..|s| - 1][k] == s[k];
      r
    else s
  }

  /**
   * Python's `s.strip(chars)` for the character class `drop`, written as one
   * recursion; StripIsStartThenEnd shows it is the leading strip followed by
   * the trailing one.
   */
  function Strip(s: string, drop: char -> bool): (r: string)
    ensures r != [] ==> !drop(r[0]) && !drop(r[|r| - 1])
    ensures |r| <= |s|
  {
    if s != [] && drop(s[0]) then Strip(s[1..], drop)
    else if s != [] && drop(s[|s| - 1]) then Strip(s[..|s| - 1], drop)
    else s
  }

  lemma {:induction false} StripIsStartThenEnd(s: string, drop: char -> bool)
    ensures Strip(s, drop) == StripEnd(StripStart(s, drop), drop)
  {
    if s != [] && drop(s[0]) {
      StripIsStartThenEnd(s[1..], drop);
    } else if s != [] && drop(s[|s| - 1]) {
      var init := s[..|s| - 1];
      StripIsStartThenEnd(init, drop);
      assert StripStart(s, drop) == s;
      if init != [] {
        assert init[0] == s[0];
        assert StripStart(init, drop) == init;
      }
    } else if s != [] {
      assert StripStart(s, drop) == s;
    }
  }

  /**
   * `String.prototype.trim()` and `str.strip()`: leading, then trailing
   * whitespace removed. It is `Strip(s, IsSpace)` (see TrimIsStrip), written
   * as one recursion so that reasoning about it stays cheap.
   */
  function Trim(s: string): (r: string)
    ensures |r| <= |s|
    ensures r != [] ==> !IsSpace(r[0]) && !IsSpace(r[|r| - 1])
  {
    if s != [] && IsSpace(s[0]) then Trim(s[1..])
    else if s != [] && IsSpace(s[|s| - 1]) then Trim(s[..|s| - 1])
    else s
  }

  /** The stripped string is a contiguous piece of the original. */
  lemma {:induction false} TrimSlice(s: string) returns (a: nat)
    ensures OccursAt(s, Trim(s), a)
  {
    if s != [] && IsSpace(s[0]) {
      var b := TrimSlice(s[1..]);
      assert s[1..][b..b + |Trim(s)|] == s[b + 1..b + 1 + |Trim(s)|];
      a := b + 1;
    } else if s != [] && IsSpace(s[|s| - 1]) {
      a := TrimSlice(s[..|s| - 1]);
      assert s[..|s| - 1][a..a + |Trim(s)|] == s[a..a + |Trim(s)|];
    } else {
      a := 0;
      assert s[0..|s|] == s;
    }
  }

  predicate AllDropped(s: string, drop: char -> bool) {
    forall k :: 0 <= k < |s| ==> drop(s[k])
  }

  lemma {:induction false} StripStartPrefix(p: string, s: string, drop: char -> bool)
    requires AllDropped(p, drop)
    ensures StripStart(p + s, drop) == StripStart(s, drop)
  {
    if p != [] {
      assert (p + s)[1..] == p[1..] + s;
      StripStartPrefix(p[1..], s, drop);
    } else {
      assert p + s == s;
    }
  }

  lemma {:induction false} StripEndSuffix(s: string, p: string, drop: char -> bool)
    requires AllDropped(p, drop)
    ensures StripEnd(s + p, drop) == StripEnd(s, drop)
  {
    if p != [] {
      assert (s + p)[..|s + p| - 1] == s + p[..|p| - 1];
      StripEndSuffix(s, p[..|p| - 1], drop);
    } else {
      assert s + p == s;
    }
  }

  lemma {:induction false} StripStartThenEndSuffix(s: string, p: string, drop: char -> bool)
    requires AllDropped(p, drop)
    ensures StripEnd(StripStart(s + p, drop), drop) == StripEnd(StripStart(s, drop), drop)
  {
    if s == [] {
      assert s + p == p;
      assert StripStart(p, drop) == [] by {
        StripStartPrefix(p, [], drop);
        assert p + [] == p;
      }
    } else if drop(s[0]) {
      assert (s + p)[1..] == s[1..] + p;
      StripStartThenEndSuffix(s[1..], p, drop);
    } else {
      StripEndSuffix(s, p, drop);
    }
  }

  /** Surrounding droppable characters never change the stripped text. */
  lemma StripPadding(p1: string, s: string, p2: string, drop: char -> bool)
    requires AllDropped(p1, drop) && AllDropped(p2, drop)
    ensures Strip(p1 + s + p2, drop) == Strip(s, drop)
  {
    assert p1 + s + p2 == p1 + (s + p2);
    StripIsStartThenEnd(p1 + s + p2, drop);
    StripIsStartThenEnd(s, drop);
    StripStartPrefix(p1, s + p2, drop);
    StripStartThenEndSuffix(s, p2, drop);
  }

  /** Stripping an already stripped text changes nothing. */
  lemma StripIdempotent(s: string, drop: char -> bool)
    ensures Strip(Strip(s, drop), drop) == Strip(s, drop)
  {
    var r := Strip(s, drop);
    assert r != [] ==> !drop(r[0]) && !drop(r[|r| - 1]);
  }

  lemma {:induction false} TrimIsStrip(s: string)
    ensures Trim(s) == Strip(s, IsSpace)
    ensures Trim(s) == StripEnd(StripStart(s, IsSpace), IsSpace)
  {
    StripIsStartThenEnd(s, IsSpace);
    if s != [] && IsSpace(s[0]) {
      TrimIsStrip(s[1..]);
    } else if s != [] && IsSpace(s[|s| - 1]) {
      TrimIsStrip(s[..|s| - 1]);
    }
  }

  lemma TrimIdempotent(s: string)
    ensures Trim(Trim(s)) == Trim(s)
  {
    TrimIsStrip(s);
    TrimIsStrip(Trim(s));
    StripIdempotent(s, IsSpace);
  }

  /** Surrounding whitespace never changes the trimmed text. */
  lemma TrimPadding(p1: string, s: string, p2: string)
    requires AllDropped(p1, IsSpace) && AllDropped(p2, IsSpace)
    ensures Trim(p1 + s + p2) == Trim(s)
  {
    TrimIsStrip(p1 + s + p2);
    TrimIsStrip(s);
    StripPadding(p1, s, p2, IsSpace);
  }

  /** Lower-casing and trimming commute, because case mapping preserves whitespace. */
  lemma {:induction false} LowerStripStart(s: string)
    ensures Lower(StripStart(s, IsSpace)) == StripStart(Lower(s), IsSpace)
  {
    if s != [] {
      assert IsSpace(Lower(s)[0]) == IsSpace(s[0]);
      if IsSpace(s[0]) {
        assert Lower(s)[1..] == Lower(s[1..]);
        LowerStripStart(s[1..]);
      }
    }
  }

  lemma {:induction false} LowerStripEnd(s: string)
    ensures Lower(StripEnd(s, IsSpace)) == StripEnd(Lower(s), IsSpace)
  {
    if s != [] {
      assert IsSpace(Lower(s)[|s| - 1]) == IsSpace(s[|s| - 1]);
      if IsSpace(s[|s| - 1]) {
        assert Lower(s)[..|s| - 1] == Lower(s[..|s| - 1]);
        LowerStripEnd(s[..|s| - 1]);
      }
    }
  }

  lemma LowerTrim(s: string)
    ensures Lower(Trim(s)) == Trim(Lower(s))
  {
    TrimIsStrip(s);
    TrimIsStrip(Lower(s));
    LowerStripStart(s);
    LowerStripEnd(StripStart(s, IsSpace));
  }

  lemma LowerIdempotent(s: string)
    ensures Lower(Lower(s)) == Lower(s)
  {
  }

  lemma LowerUpper(s: string)
    ensures Lower(Upper(s)) == Lower(s)
  {
  }

  /** `needle` occurs in `hay` starting at position `k`. */
  predicate OccursAt(hay: string, needle: string, k: int) {
    0 <= k && k + |needle| <= |hay| && hay[k..k + |needle|] == needle
  }

  /**
   * First index at or after `from` where `needle` occurs in `hay`, or -1.
   * This is `String.prototype.indexOf` and Python's `str.find` from position `from`.
   */
  function IndexFrom(hay: string, needle: string, from: nat): (r: int)
    requires from <= |hay|
    decreases |hay| - from
    ensures r == -1 || (from <= r && OccursAt(hay, needle, r))
    ensures forall k :: from <= k && (r == -1 || k < r) ==> !OccursAt(hay, needle, k)
  {
    if from + |needle| > |hay| then -1
    else if hay[from..from + |needle|] == needle then from
    else if from == |hay| then -1
    else IndexFrom(hay, needle, from + 1)
  }

  function IndexOf(hay: string, needle: string): (r: int)
    ensures r == -1 || OccursAt(hay, needle, r)
    ensures forall k :: 0 <= k < r ==> !OccursAt(hay, needle, k)
    ensures r == -1 <==> forall k :: !OccursAt(hay, needle, k)
  {
    IndexFrom(hay, needle, 0)
  }

  /** `hay.includes(needle)` in JavaScript, `needle in hay` in Python. */
  predicate Contains(hay: string, needle: string) {
    IndexOf(hay, needle) >= 0
  }

  /** The first `n` characters (`s.slice(0, n)`, `s[:n]`). */
  function Take<T>(s: seq<T>, n: nat): (r: seq<T>)
    ensures |r| == if |s| < n then |s| else n
    ensures r == s[..|r|]
  {
    if |s| <= n then s else s[..n]
  }

  /** The last `n` characters (`s.slice(-n)` for n > 0). */
  function Last(s: string, n: nat): (r: string)
    ensures |r| == if |s| < n then |s| else n
    ensures r == s[|s| - |r|..]
  {
    if |s| <= n then s else s[|s| - n..]
  }

  /** Python's `s[lo:hi]` for non-negative bounds: both are clamped to the length. */
  function Window(s: string, lo: nat, hi: nat): (r: string)
    ensures |r| <= |s|
  {
    var a := if lo <= |s| then lo else |s|;
    var b := if hi <= |s| then hi else |s|;
    if a <= b then s[a..b] else []
  }

  /** Keeps the characters satisfying `keep`, in order. */
  function FilterChars(s: string, keep: char -> bool): (r: string)
    ensures |r| <= |s|
    ensures forall k :: 0 <= k < |r| ==> keep(r[k])
  {
    if s == [] then [] else (if keep(s[0]) then [s[0]] else []) + FilterChars(s[1..], keep)
  }

  lemma {:induction false} FilterCharsAppend(a: string, b: string, keep: char -> bool)
    ensures FilterChars(a + b, keep) == FilterChars(a, keep) + FilterChars(b, keep)
  {
    if a != [] {
      assert (a + b)[1..] == a[1..] + b;
      FilterCharsAppend(a[1..], b, keep);
    } else {
      assert a + b == b;
    }
  }

  lemma {:induction false} FilterCharsAllDropped(s: string, keep: char -> bool)
    requires forall k :: 0 <= k < |s| ==> !keep(s[k])
    ensures FilterChars(s, keep) == []
  {
    if s != [] {
      FilterCharsAllDropped(s[1..], keep);
    }
  }

  lemma {:induction false} FilterCharsKeepsAll(s: string, keep: char -> bool)
    requires forall k :: 0 <= k < |s| ==> keep(s[k])
    ensures FilterChars(s, keep) == s
  {
    if s != [] {
      FilterCharsKeepsAll(s[1..], keep);
    }
  }

  /** Joins the parts with a separator (`parts.join(sep)`, `sep.join(parts)`). */
  function Join(parts: seq<string>, sep: string): (r: string)
    ensures parts == [] ==> r == []
    ensures |parts| == 1 ==> r == parts[0]
  {
    if parts == [] then []
    else if |parts| == 1 then parts[0]
    else parts[0] + sep + Join(parts[1..], sep)
  }

  function DigitChar(d: nat): char
    requires d < 10
  {
    "0123456789"[d]
  }

  /** Decimal digits of a natural number, most significant first. */
  function NatToDecimal(n: nat): (r: string)
    ensures r != [] && forall k :: 0 <= k < |r| ==> IsDigit(r[k])
  {
    if n < 10 then [DigitChar(n)] else NatToDecimal(n / 10) + [DigitChar(n % 10)]
  }

  /** The value of a decimal digit. */
  function DigitValue(c: char): nat
    requires IsDigit(c)
  {
    c as int - '0' as int
  }

  lemma DigitCharValue(d: nat)
    requires d < 10
    ensures IsDigit(DigitChar(d)) && DigitValue(DigitChar(d)) == d
  {
  }

  predicate AllDigits(s: string) {
    forall k :: 0 <= k < |s| ==> IsDigit(s[k])
  }

  /** The number a string of decimal digits denotes, most significant first. */
  function DecimalValue(s: string): nat
    requires AllDigits(s)
  {
    if s == [] then 0 else DecimalValue(s[..|s| - 1]) * 10 + DigitValue(s[|s| - 1])
  }

  /** Reading back the decimal digits of `n` gives `n`. */
  lemma {:induction false} DecimalRoundTrip(n: nat)
    ensures AllDigits(NatToDecimal(n)) && DecimalValue(NatToDecimal(n)) == n
  {
    DigitCharValue(n % 10);
    if n >= 10 {
      DecimalRoundTrip(n / 10);
      var r := NatToDecimal(n);
      assert r[..|r| - 1] == NatToDecimal(n / 10);
    }
  }

  function DigitCount(s: string): (r: nat)
    ensures r <= |s|
  {
    if s == [] then 0 else (if IsDigit(s[0]) then 1 else 0) + DigitCount(s[1..])
  }
}
