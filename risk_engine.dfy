/**
 * The JavaScript rule engine: normalizers, edit distance and similarity, the
 * fingerprint, and `scoreInvoice`, which adds fixed weights for a hard
 * duplicate (70), a soft duplicate (35), an unknown bank account (25) and an
 * amount outside the vendor's typical range (15), and emits a single
 * NO_FLAGS flag when nothing fired. The score is not clamped.
 */
module RiskEngine {
  import opened Wrappers
  import opened Text
  import opened Seqs
  import opened Records

  // ---------------------------------------------------------------- normalizers

  predicate IsLowerAlnum(c: char) { IsLowerLetter(c) || IsDigit(c) }

  /** `(v || "").trim().toLowerCase()`. */
  function NormalizeVendorName(v: string): (r: string)
    ensures NoUpper(r)
    ensures r != [] ==> !IsSpace(r[0]) && !IsSpace(r[|r| - 1])
  {
    Lower(Trim(v))
  }

  /** `(n || "").trim().toLowerCase().replace(/[^a-z0-9]/g, "")`. */
  function NormalizeInvoiceNumber(n: string): (r: string)
    ensures forall k :: 0 <= k < |r| ==> IsLowerAlnum(r[k])
  {
    FilterChars(Lower(Trim(n)), IsLowerAlnum)
  }

  /**
   * `normalizeDate`: empty stays empty; a parseable date becomes the first ten
   * characters of its ISO text; anything else is cut to its first ten characters.
   */
  function NormalizeDate(d: string, env: JsEnv): (r: string)
    ensures |r| <= 10
    ensures d == "" ==> r == ""
    ensures d != "" && env.parseDate(d).None? ==>
              |r| == (if |d| < 10 then |d| else 10) && r == d[..|r|]
    ensures d != "" && env.parseDate(d).Some? ==>
              var iso := env.isoString(env.parseDate(d).value);
              |r| == (if |iso| < 10 then |iso| else 10) && r == iso[..|r|]
  {
    if d == "" then ""
    else match env.parseDate(d)
      case None => Take(d, 10)
      case Some(t) => Take(env.isoString(t), 10)
  }

  /**
   * Two dates share a key when both parse to the same instant, or when
   * neither parses and their first ten characters agree.
   */
  lemma NormalizeDateSameKey(d1: string, d2: string, env: JsEnv)
    requires d1 != "" && d2 != ""
    requires || (env.parseDate(d1).Some? && env.parseDate(d1) == env.parseDate(d2))
             || (env.parseDate(d1).None? && env.parseDate(d2).None? && Take(d1, 10) == Take(d2, 10))
    ensures NormalizeDate(d1, env) == NormalizeDate(d2, env)
  {
  }

  lemma NormalizeVendorNameIdempotent(v: string)
    ensures NormalizeVendorName(NormalizeVendorName(v)) == NormalizeVendorName(v)
  {
    var t := Trim(v);
    TrimIdempotent(v);
    LowerTrim(t);
    LowerIdempotent(t);
  }

  lemma {:induction false} FilterLowerStripStart(x: string)
    ensures FilterChars(Lower(StripStart(x, IsSpace)), IsLowerAlnum) == FilterChars(Lower(x), IsLowerAlnum)
  {
    if x != [] && IsSpace(x[0]) {
      assert Lower(x)[1..] == Lower(x[1..]);
      FilterLowerStripStart(x[1..]);
    }
  }

  lemma {:induction false} FilterLowerStripEnd(x: string)
    ensures FilterChars(Lower(StripEnd(x, IsSpace)), IsLowerAlnum) == FilterChars(Lower(x), IsLowerAlnum)
  {
    if x != [] && IsSpace(x[|x| - 1]) {
      var init := x[..|x| - 1];
      assert Lower(x) == Lower(init) + [LowerChar(x[|x| - 1])];
      FilterCharsAppend(Lower(init), [LowerChar(x[|x| - 1])], IsLowerAlnum);
      assert FilterChars([LowerChar(x[|x| - 1])], IsLowerAlnum) == [];
      FilterLowerStripEnd(init);
    }
  }

  /** Trimming is redundant: the character filter removes whitespace anyway. */
  lemma NormalizeInvoiceNumberIsFilter(n: string)
    ensures NormalizeInvoiceNumber(n) == FilterChars(Lower(n), IsLowerAlnum)
  {
    TrimIsStrip(n);
    FilterLowerStripEnd(StripStart(n, IsSpace));
    FilterLowerStripStart(n);
  }

  lemma NormalizeInvoiceNumberIdempotent(n: string)
    ensures NormalizeInvoiceNumber(NormalizeInvoiceNumber(n)) == NormalizeInvoiceNumber(n)
  {
    var r := NormalizeInvoiceNumber(n);
    NormalizeInvoiceNumberIsFilter(r);
    assert Lower(r) == r;
    FilterCharsKeepsAll(r, IsLowerAlnum);
  }

  /** Two vendor names that differ only in case and surrounding whitespace normalize alike. */
  lemma NormalizeVendorNameIgnoresCaseAndPadding(p1: string, u: string, p2: string, v: string)
    requires AllDropped(p1, IsSpace) && AllDropped(p2, IsSpace)
    requires Lower(u) == Lower(v)
    ensures NormalizeVendorName(p1 + u + p2) == NormalizeVendorName(v)
  {
    TrimPadding(p1, u, p2);
    LowerTrim(u);
    LowerTrim(v);
  }

  /** Two invoice numbers that differ only in case and surrounding whitespace normalize alike. */
  lemma NormalizeInvoiceNumberIgnoresCaseAndPadding(p1: string, u: string, p2: string, v: string)
    requires AllDropped(p1, IsSpace) && AllDropped(p2, IsSpace)
    requires Lower(u) == Lower(v)
    ensures NormalizeInvoiceNumber(p1 + u + p2) == NormalizeInvoiceNumber(v)
  {
    TrimPadding(p1, u, p2);
    NormalizeInvoiceNumberIsFilter(u);
    NormalizeInvoiceNumberIsFilter(v);
    assert NormalizeInvoiceNumber(p1 + u + p2) == NormalizeInvoiceNumber(u) by {
      assert Trim(p1 + u + p2) == Trim(u);
    }
  }

  // ---------------------------------------------------------------- dates

  const MsPerDay: int := 1000 * 60 * 60 * 24

  /** A whole number of days, or JavaScript's Infinity when a date does not parse. */
  datatype DayGap = Within(days: nat) | Infinity

  /** `daysBetween`: the whole number of days between two parseable dates. */
  function DaysBetween(a: string, b: string, env: JsEnv): (r: DayGap)
    ensures r.Infinity? <==> env.parseDate(a).None? || env.parseDate(b).None?
    ensures r.Within? ==>
      var diff := if env.parseDate(a).value >= env.parseDate(b).value
                  then env.parseDate(a).value - env.parseDate(b).value
                  else env.parseDate(b).value - env.parseDate(a).value;
      r.days * MsPerDay <= diff < (r.days + 1) * MsPerDay
  {
    match (env.parseDate(a), env.parseDate(b))
    case (Some(ta), Some(tb)) =>
      var diff := if ta >= tb then ta - tb else tb - ta;
      Within(diff / MsPerDay)
    case _ => Infinity
  }

  /** `daysBetween(...) <= n`; Infinity is never within. */
  predicate WithinDays(g: DayGap, n: nat) {
    g.Within? && g.days <= n
  }

  // ---------------------------------------------------------------- edit distance

  function Min3(a: nat, b: nat, c: nat): (r: nat)
    ensures r <= a && r <= b && r <= c
    ensures r == a || r == b || r == c
  {
    if a <= b && a <= c then a else if b <= c then b else c
  }

  /** Levenshtein distance between the prefixes `s[..i]` and `t[..j]`. */
  function Dist(s: string, t: string, i: nat, j: nat): nat
    requires i <= |s| && j <= |t|
    decreases i + j
  {
    if i == 0 then j
    else if j == 0 then i
    else Min3(Dist(s, t, i - 1, j) + 1,
              Dist(s, t, i, j - 1) + 1,
              Dist(s, t, i - 1, j - 1) + (if s[i - 1] == t[j - 1] then 0 else 1))
  }

  /** Levenshtein distance: fewest single-character insertions, deletions and substitutions. */
  function Distance(s: string, t: string): nat {
    Dist(s, t, |s|, |t|)
  }

  /** Rows `0 .. k - 1` of the table hold the distances between the prefixes. */
  ghost predicate RowsFilled(dp: array2<nat>, a: string, b: string, k: nat)
    requires dp.Length0 == |a| + 1 && dp.Length1 == |b| + 1
    reads dp
  {
    forall p, q :: 0 <= p < k && p <= |a| && 0 <= q <= |b| ==> dp[p, q] == Dist(a, b, p, q)
  }

  /** Entries `0 .. k - 1` of row `i` hold the distances between the prefixes. */
  ghost predicate RowPrefixFilled(dp: array2<nat>, a: string, b: string, i: nat, k: nat)
    requires dp.Length0 == |a| + 1 && dp.Length1 == |b| + 1 && i <= |a|
    reads dp
  {
    forall q :: 0 <= q < k && q <= |b| ==> dp[i, q] == Dist(a, b, i, q)
  }

  /** The first column holds `p` from row `k` on. */
  ghost predicate FirstColumnFrom(dp: array2<nat>, k: nat)
    requires dp.Length1 > 0
    reads dp
  {
    forall p :: k <= p < dp.Length0 ==> dp[p, 0] == p
  }

  /** One pass of the inner loop of `editDistance`: fills row `i` from row `prev == i - 1`. */
  method FillRow(dp: array2<nat>, a: string, b: string, prev: nat, i: nat)
    requires dp.Length0 == |a| + 1 && dp.Length1 == |b| + 1 && i == prev + 1 <= |a|
    requires RowsFilled(dp, a, b, i) && FirstColumnFrom(dp, i)
    modifies dp
    ensures RowsFilled(dp, a, b, i + 1) && FirstColumnFrom(dp, i + 1)
  {
    assert RowPrefixFilled(dp, a, b, i, 1);
    for j := 1 to |b| + 1
      invariant RowsFilled(dp, a, b, i) && FirstColumnFrom(dp, i + 1) && RowPrefixFilled(dp, a, b, i, j)
    {
      var cost := if a[prev] == b[j - 1] then 0 else 1;
      assert dp[prev, j] == Dist(a, b, prev, j) && dp[prev, j - 1] == Dist(a, b, prev, j - 1);
      assert dp[i, j - 1] == Dist(a, b, i, j - 1);
      label before:
      dp[i, j] := Min3(dp[prev, j] + 1, dp[i, j - 1] + 1, dp[prev, j - 1] + cost);
      assert dp[i, j] == Dist(a, b, i, j);
      forall p, q | 0 <= p < i && 0 <= q <= |b|
        ensures dp[p, q] == Dist(a, b, p, q)
      {
        assert dp[p, q] == old@before(dp[p, q]);
      }
      forall q | 0 <= q < j
        ensures dp[i, q] == Dist(a, b, i, q)
      {
        assert dp[i, q] == old@before(dp[i, q]);
      }
      forall p | i + 1 <= p <= |a|
        ensures dp[p, 0] == p
      {
        assert dp[p, 0] == old@before(dp[p, 0]);
      }
    }
    forall p, q | 0 <= p < i + 1 && p <= |a| && 0 <= q <= |b|
      ensures dp[p, q] == Dist(a, b, p, q)
    {
      if p == i {
        assert RowPrefixFilled(dp, a, b, i, |b| + 1);
      }
    }
  }

  /** `editDistance`: fills the (m+1) x (n+1) table row by row. */
  method EditDistance(a: string, b: string) returns (d: nat)
    ensures d == Distance(a, b)
  {
    var m, n := |a|, |b|;
    if m == 0 { return n; }
    if n == 0 { return m; }
    var dp := new nat[m + 1, n + 1];
    for i := 0 to m + 1
      invariant forall p :: 0 <= p < i ==> dp[p, 0] == p
    {
      dp[i, 0] := i;
    }
    for j := 0 to n + 1
      invariant forall q :: 0 <= q < j ==> dp[0, q] == q
      invariant FirstColumnFrom(dp, 0)
    {
      dp[0, j] := j;
    }
    assert RowsFilled(dp, a, b, 1);
    for i := 1 to m + 1
      invariant RowsFilled(dp, a, b, i) && FirstColumnFrom(dp, i)
    {
      FillRow(dp, a, b, i - 1, i);
    }
    d := dp[m, n];
  }

  lemma {:induction false} DistSelf(s: string, i: nat)
    requires i <= |s|
    ensures Dist(s, s, i, i) == 0
  {
    if i > 0 {
      DistSelf(s, i - 1);
    }
  }

  /** One half of symmetry: swapping the strings never lowers the distance. */
  lemma {:induction false} DistAtMostSwapped(s: string, t: string, i: nat, j: nat)
    requires i <= |s| && j <= |t|
    decreases i + j
    ensures Dist(s, t, i, j) <= Dist(t, s, j, i)
  {
    if i > 0 && j > 0 {
      var r := Dist(t, s, j, i);
      if r == Dist(t, s, j - 1, i) + 1 {
        DistAtMostSwapped(s, t, i, j - 1);
      } else if r == Dist(t, s, j, i - 1) + 1 {
        DistAtMostSwapped(s, t, i - 1, j);
      } else {
        DistAtMostSwapped(s, t, i - 1, j - 1);
      }
    }
  }

  lemma DistSymmetric(s: string, t: string, i: nat, j: nat)
    requires i <= |s| && j <= |t|
    ensures Dist(s, t, i, j) == Dist(t, s, j, i)
  {
    DistAtMostSwapped(s, t, i, j);
    DistAtMostSwapped(t, s, j, i);
  }

  /** At most the longer prefix: substitute along the diagonal, then insert or delete the rest. */
  lemma {:induction false} DistUpper(s: string, t: string, i: nat, j: nat)
    requires i <= |s| && j <= |t|
    decreases i + j
    ensures Dist(s, t, i, j) <= if i >= j then i else j
  {
    if i > 0 && j > 0 {
      DistUpper(s, t, i - 1, j - 1);
    }
  }

  /** At least the difference of the prefix lengths. */
  lemma {:induction false} DistLower(s: string, t: string, i: nat, j: nat)
    requires i <= |s| && j <= |t|
    decreases i + j
    ensures Dist(s, t, i, j) >= if i >= j then i - j else j - i
  {
    if i > 0 && j > 0 {
      var r := Dist(s, t, i, j);
      if r == Dist(s, t, i - 1, j) + 1 {
        DistLower(s, t, i - 1, j);
      } else if r == Dist(s, t, i, j - 1) + 1 {
        DistLower(s, t, i, j - 1);
      } else {
        DistLower(s, t, i - 1, j - 1);
      }
    }
  }

  /** Equal prefixes of equal length are at distance 0. */
  lemma {:induction false} DistZeroOnEqual(s: string, t: string, i: nat)
    requires i <= |s| && i <= |t| && s[..i] == t[..i]
    ensures Dist(s, t, i, i) == 0
  {
    if i > 0 {
      assert s[i - 1] == t[i - 1] by { assert s[..i][i - 1] == t[..i][i - 1]; }
      assert s[..i - 1] == t[..i - 1] by { assert s[..i][..i - 1] == t[..i][..i - 1]; }
      DistZeroOnEqual(s, t, i - 1);
    }
  }

  /** Distance 0 forces equal prefixes of equal length. */
  lemma {:induction false} DistZeroOnlyEqual(s: string, t: string, i: nat, j: nat)
    requires i <= |s| && j <= |t| && Dist(s, t, i, j) == 0
    decreases i + j
    ensures i == j && s[..i] == t[..j]
  {
    DistLower(s, t, i, j);
    if i > 0 {
      assert Dist(s, t, i - 1, j - 1) == 0 && s[i - 1] == t[j - 1];
      DistZeroOnlyEqual(s, t, i - 1, j - 1);
      assert s[..i] == s[..i - 1] + [s[i - 1]];
      assert t[..j] == t[..j - 1] + [t[j - 1]];
    }
  }

  lemma DistZero(s: string, t: string, i: nat, j: nat)
    requires i <= |s| && j <= |t|
    ensures Dist(s, t, i, j) == 0 <==> i == j && s[..i] == t[..j]
  {
    if Dist(s, t, i, j) == 0 {
      DistZeroOnlyEqual(s, t, i, j);
    }
    if i == j && s[..i] == t[..j] {
      DistZeroOnEqual(s, t, i);
    }
  }

  /** The distance is symmetric, at most the longer length, at least the length difference, and 0 exactly on equal strings. */
  lemma DistanceProperties(s: string, t: string)
    ensures Distance(s, t) == Distance(t, s)
    ensures Distance(s, t) <= if |s| >= |t| then |s| else |t|
    ensures Distance(s, t) >= if |s| >= |t| then |s| - |t| else |t| - |s|
    ensures Distance(s, t) == 0 <==> s == t
    ensures s == [] ==> Distance(s, t) == |t|
    ensures t == [] ==> Distance(s, t) == |s|
  {
    DistSymmetric(s, t, |s|, |t|);
    DistUpper(s, t, |s|, |t|);
    DistLower(s, t, |s|, |t|);
    DistZero(s, t, |s|, |t|);
    assert s[..|s|] == s && t[..|t|] == t;
  }

  // ---------------------------------------------------------------- similarity

  /** `similarity`: 1 minus the distance over the longer length; 1 for two empty strings. */
  function Similarity(s: string, t: string): (r: real)
    ensures 0.0 <= r <= 1.0
    ensures r == 1.0 <==> s == t
  {
    var maxLen := if |s| >= |t| then |s| else |t|;
    DistanceProperties(s, t);
    if maxLen == 0 then 1.0
    else
      Fraction(Distance(s, t), maxLen);
      1.0 - Distance(s, t) as real / maxLen as real
  }

  lemma Fraction(d: nat, m: nat)
    requires 0 < m && d <= m
    ensures 0.0 <= d as real / m as real <= 1.0
    ensures d as real / m as real == 0.0 <==> d == 0
  {
    var q := d as real / m as real;
    assert q * m as real == d as real;
  }

  lemma SimilaritySymmetric(s: string, t: string)
    ensures Similarity(s, t) == Similarity(t, s)
  {
    DistanceProperties(s, t);
  }

  /** `similarity` as the engine runs it, through the dynamic-programming table. */
  method ComputeSimilarity(a: string, b: string) returns (r: real)
    ensures r == Similarity(a, b)
  {
    var maxLen := if |a| >= |b| then |a| else |b|;
    if maxLen == 0 { return 1.0; }
    var d := EditDistance(a, b);
    r := 1.0 - d as real / maxLen as real;
  }

  // ---------------------------------------------------------------- fingerprint

  /** `Number(x).toFixed(2)` of a whole number of cents. */
  function ToFixed2(c: int): (r: string)
    ensures |r| >= 4 && r[|r| - 3] == '.'
    ensures IsDigit(r[|r| - 2]) && IsDigit(r[|r| - 1])
    ensures (r[0] == '-') == (c < 0)
    ensures forall k :: 0 <= k < |r| ==> r[k] != '|'
  {
    (if c < 0 then "-" else "") + UnsignedText(if c < 0 then -c else c)
  }

  /** The whole part in decimal, a point, and the two cent digits. */
  function UnsignedText(a: nat): (u: string)
    ensures |u| >= 4 && IsDigit(u[0]) && u[|u| - 3] == '.'
    ensures IsDigit(u[|u| - 2]) && IsDigit(u[|u| - 1])
    ensures forall k :: 0 <= k < |u| ==> u[k] != '|'
  {
    NatToDecimal(a / 100) + "." + [DigitChar(a % 100 / 10), DigitChar(a % 10)]
  }

  /**
   * Reads a `toFixed(2)` text back as cents: an optional minus sign, the
   * whole part in decimal digits, a point and exactly two digits.
   */
  function Fixed2Cents(r: string): Option<int> {
    var neg := r != [] && r[0] == '-';
    var u := if neg then r[1..] else r;
    if |u| >= 4 && u[|u| - 3] == '.' && AllDigits(u[..|u| - 3]) && AllDigits(u[|u| - 2..]) then
      var m := DecimalValue(u[..|u| - 3]) * 100 + DecimalValue(u[|u| - 2..]);
      Some(if neg then -m else m)
    else None
  }

  /** Two digit characters read back as their two-digit number. */
  lemma TwoDigitsValue(x: nat, y: nat)
    requires x < 10 && y < 10
    ensures AllDigits([DigitChar(x), DigitChar(y)])
    ensures DecimalValue([DigitChar(x), DigitChar(y)]) == 10 * x + y
  {
    var t := [DigitChar(x), DigitChar(y)];
    DigitCharValue(x);
    DigitCharValue(y);
    assert t[..1] == [DigitChar(x)];
    assert t[..1][..0] == [];
    assert DecimalValue(t[..1]) == x;
    assert DecimalValue(t) == DecimalValue(t[..1]) * 10 + DigitValue(t[1]);
  }

  /** The unsigned part of a `toFixed(2)` text reads back as the cents it was made from. */
  lemma UnsignedFixed2(a: nat)
    ensures var u := UnsignedText(a);
            && |u| >= 4 && u[0] != '-' && u[|u| - 3] == '.'
            && AllDigits(u[..|u| - 3]) && AllDigits(u[|u| - 2..])
            && DecimalValue(u[..|u| - 3]) * 100 + DecimalValue(u[|u| - 2..]) == a
  {
    var whole, cents := NatToDecimal(a / 100), [DigitChar(a % 100 / 10), DigitChar(a % 10)];
    var u := whole + "." + cents;
    DecimalRoundTrip(a / 100);
    TwoDigitsValue(a % 100 / 10, a % 10);
    assert u == UnsignedText(a);
    assert u[..|u| - 3] == whole;
    assert u[|u| - 2..] == cents;
    CentsSplit(a);
  }

  lemma CentsSplit(a: nat)
    ensures a / 100 * 100 + (10 * (a % 100 / 10) + a % 10) == a
  {
  }

  /** A sign in front of a well-formed unsigned text is read as the sign. */
  lemma SignedFixed2(neg: bool, u: string, m: int)
    requires |u| >= 4 && u[0] != '-' && u[|u| - 3] == '.'
    requires AllDigits(u[..|u| - 3]) && AllDigits(u[|u| - 2..])
    requires DecimalValue(u[..|u| - 3]) * 100 + DecimalValue(u[|u| - 2..]) == m
    ensures Fixed2Cents((if neg then "-" else "") + u) == Some(if neg then -m else m)
  {
    if neg {
      assert ("-" + u)[1..] == u;
    } else {
      assert "" + u == u;
    }
  }

  /** The amount text of a fingerprint determines the amount: reading it back gives the cents. */
  lemma ToFixed2RoundTrip(c: int)
    ensures Fixed2Cents(ToFixed2(c)) == Some(c)
  {
    var a := if c < 0 then -c else c;
    UnsignedFixed2(a);
    SignedFixed2(c < 0, UnsignedText(a), a);
  }

  /** Different amounts never share an amount text. */
  lemma ToFixed2Injective(c1: int, c2: int)
    ensures ToFixed2(c1) == ToFixed2(c2) <==> c1 == c2
  {
    ToFixed2RoundTrip(c1);
    ToFixed2RoundTrip(c2);
  }

  /**
   * `fingerprint`: vendor key, invoice-number key, amount with two decimals
   * and date key, joined with `|`. It opens with the vendor key and closes
   * with the date key; FingerprintDeterminesFields and
   * FingerprintBarCollision say when the middle fields can be read back.
   */
  function Fingerprint(vendorName: string, invoiceNumber: string, amount: Num, invoiceDate: string, env: JsEnv): (r: string)
    ensures var v := NormalizeVendorName(vendorName);
            |v| < |r| && r[..|v| + 1] == v + "|"
    ensures var d := NormalizeDate(invoiceDate, env);
            |d| < |r| && r[|r| - |d| - 1..] == "|" + d
  {
    var v, n, a, d := NormalizeVendorName(vendorName), NormalizeInvoiceNumber(invoiceNumber),
                      ToFixed2(OrZero(amount).cents), NormalizeDate(invoiceDate, env);
    JoinEnds(v, n, a, d);
    v + "|" + n + "|" + a + "|" + d
  }

  /** Four fields joined with `|` open with the first field and close with the last. */
  lemma JoinEnds(v: string, n: string, a: string, d: string)
    ensures var r := v + "|" + n + "|" + a + "|" + d;
            && |v| < |r| && r[..|v| + 1] == v + "|"
            && |d| < |r| && r[|r| - |d| - 1..] == "|" + d
  {
    var r := v + "|" + n + "|" + a + "|" + d;
    assert r == (v + "|") + (n + "|" + a + "|" + d);
    assert r == (v + "|" + n + "|" + a) + ("|" + d);
  }

  predicate NoBar(s: string) { forall k :: 0 <= k < |s| ==> s[k] != '|' }

  /** A `|`-free head before a `|` is recovered uniquely. */
  lemma SplitAtBar(x: string, rest: string, y: string, rest': string)
    requires NoBar(x) && NoBar(y)
    requires x + "|" + rest == y + "|" + rest'
    ensures x == y && rest == rest'
  {
    var s := x + "|" + rest;
    assert s[|x|] == '|';
    assert s[|y|] == '|';
    assert |x| == |y|;
    assert x == s[..|x|] == y;
    assert rest == s[|x| + 1..] == rest';
  }

  /** Three `|`-free heads and a tail, joined with `|`, are recovered uniquely. */
  lemma SplitFour(x1: string, y1: string, z1: string, w1: string, x2: string, y2: string, z2: string, w2: string)
    requires NoBar(x1) && NoBar(y1) && NoBar(z1) && NoBar(x2) && NoBar(y2) && NoBar(z2)
    requires x1 + "|" + y1 + "|" + z1 + "|" + w1 == x2 + "|" + y2 + "|" + z2 + "|" + w2
    ensures x1 == x2 && y1 == y2 && z1 == z2 && w1 == w2
  {
    assert x1 + "|" + y1 + "|" + z1 + "|" + w1 == x1 + "|" + (y1 + "|" + (z1 + "|" + w1));
    assert x2 + "|" + y2 + "|" + z2 + "|" + w2 == x2 + "|" + (y2 + "|" + (z2 + "|" + w2));
    SplitAtBar(x1, y1 + "|" + (z1 + "|" + w1), x2, y2 + "|" + (z2 + "|" + w2));
    SplitAtBar(y1, z1 + "|" + w1, y2, z2 + "|" + w2);
    SplitAtBar(z1, w1, z2, w2);
  }

  /**
   * When neither vendor key contains `|`, two fingerprints are equal exactly
   * when the vendor keys, the invoice-number keys, the amounts (NaN counted
   * as 0) and the date keys are.
   */
  lemma FingerprintDeterminesFields(
    v1: string, n1: string, a1: Num, d1: string,
    v2: string, n2: string, a2: Num, d2: string, env: JsEnv)
    requires NoBar(NormalizeVendorName(v1)) && NoBar(NormalizeVendorName(v2))
    ensures Fingerprint(v1, n1, a1, d1, env) == Fingerprint(v2, n2, a2, d2, env) <==>
              && NormalizeVendorName(v1) == NormalizeVendorName(v2)
              && NormalizeInvoiceNumber(n1) == NormalizeInvoiceNumber(n2)
              && OrZero(a1) == OrZero(a2)
              && NormalizeDate(d1, env) == NormalizeDate(d2, env)
  {
    if Fingerprint(v1, n1, a1, d1, env) == Fingerprint(v2, n2, a2, d2, env) {
      var c1, c2 := OrZero(a1).cents, OrZero(a2).cents;
      SplitFour(NormalizeVendorName(v1), NormalizeInvoiceNumber(n1), ToFixed2(c1), NormalizeDate(d1, env),
                NormalizeVendorName(v2), NormalizeInvoiceNumber(n2), ToFixed2(c2), NormalizeDate(d2, env));
      ToFixed2Injective(c1, c2);
    }
  }

  lemma CollisionVendorKeys()
    ensures NormalizeVendorName("x|n|5.00") == "x|n|5.00" && NormalizeVendorName("x") == "x"
  {
    var v := "x|n|5.00";
    assert Trim(v) == v;
    assert Lower(v) == v by {
      forall k | 0 <= k < |v| ensures Lower(v)[k] == v[k] { }
    }
    assert Trim("x") == "x" && Lower("x") == "x";
  }

  lemma CollisionNumberKeys()
    ensures NormalizeInvoiceNumber("k") == "k" && NormalizeInvoiceNumber("n") == "n"
  {
    assert Trim("k") == "k" && Lower("k") == "k";
    assert Trim("n") == "n" && Lower("n") == "n";
  }

  lemma CollisionAmounts()
    ensures ToFixed2(100) == "1.00" && ToFixed2(500) == "5.00"
  {
    assert UnsignedText(100) == "1.00";
    assert UnsignedText(500) == "5.00";
  }

  /**
   * A vendor name may contain `|`, and then the fingerprint no longer
   * separates its fields: these two invoices of 1.00 and 5.00 share one.
   */
  lemma FingerprintBarCollision(env: JsEnv)
    requires env.parseDate("k|1.00|").None?
    ensures Fingerprint("x|n|5.00", "k", Cents(100), "", env) == Fingerprint("x", "n", Cents(500), "k|1.00|", env)
  {
    CollisionVendorKeys();
    CollisionNumberKeys();
    CollisionAmounts();
    assert NormalizeDate("", env) == "";
    assert NormalizeDate("k|1.00|", env) == "k|1.00|";
    assert Fingerprint("x|n|5.00", "k", Cents(100), "", env) == "x|n|5.00" + "|" + "k" + "|" + "1.00" + "|" + "";
    assert Fingerprint("x", "n", Cents(500), "k|1.00|", env) == "x" + "|" + "n" + "|" + "5.00" + "|" + "k|1.00|";
    CollisionText();
  }

  lemma CollisionText()
    ensures "x|n|5.00" + "|" + "k" + "|" + "1.00" + "|" + "" == "x" + "|" + "n" + "|" + "5.00" + "|" + "k|1.00|"
  {
    assert "x|n|5.00" + "|" + "k" + "|" + "1.00" + "|" + "" == "x|n|5.00|k|1.00|";
  }

  /** Invoices that differ only in the case or surrounding whitespace of vendor and number share a fingerprint. */
  lemma FingerprintIgnoresCaseAndPadding(
    v: string, n: string, amount: Num, d: string, env: JsEnv,
    p1: string, v': string, p2: string, q1: string, n': string, q2: string)
    requires AllDropped(p1, IsSpace) && AllDropped(p2, IsSpace) && Lower(v') == Lower(v)
    requires AllDropped(q1, IsSpace) && AllDropped(q2, IsSpace) && Lower(n') == Lower(n)
    ensures Fingerprint(p1 + v' + p2, q1 + n' + q2, amount, d, env) == Fingerprint(v, n, amount, d, env)
  {
    NormalizeVendorNameIgnoresCaseAndPadding(p1, v', p2, v);
    NormalizeInvoiceNumberIgnoresCaseAndPadding(q1, n', q2, n);
  }

  // ---------------------------------------------------------------- scoring

  /** The fields of the invoice object that `scoreInvoice` reads. */
  datatype EngineInvoice = EngineInvoice(
    vendorName: string,
    invoiceNumber: string,
    invoiceDate: string,
    amountTotal: RawAmount,
    bankAccount: string)

  datatype ScoreResult = ScoreResult(score: int, flags: seq<Flag>, fingerprint: string)

  function Weight(k: FlagType): nat {
    match k
    case DuplicateHard => 70
    case DuplicateSoft => 35
    case UnusualBankAccount => 25
    case AmountOutOfRange => 15
    case NoFlags => 0
  }

  /** The position of each flag type in the order the checks run. */
  function Rank(k: FlagType): nat {
    match k
    case DuplicateHard => 0
    case DuplicateSoft => 1
    case UnusualBankAccount => 2
    case AmountOutOfRange => 3
    case NoFlags => 4
  }

  function SumWeights(flags: seq<Flag>): nat {
    if flags == [] then 0 else Weight(flags[0].kind) + SumWeights(flags[1..])
  }

  predicate HasFlag(flags: seq<Flag>, k: FlagType) {
    exists f :: f in flags && f.kind == k
  }

  function HasFingerprint(fp: string): InvoiceRecord -> bool {
    (x: InvoiceRecord) => x.fingerprint == fp
  }

  /** `Math.abs(amt - (x.amount_total || 0)) < 5`, in cents; NaN is never close. */
  predicate AmountClose(amt: Num, other: Num) {
    amt.Cents? && -500 < amt.cents - OrZero(other).cents < 500
  }

  /** The soft-duplicate filter of `scoreInvoice`. */
  predicate IsSoftDuplicate(vName: string, invNum: string, invDate: string, amt: Num, x: InvoiceRecord, env: JsEnv) {
    && Similarity(vName, NormalizeVendorName(x.vendorName)) > 0.85
    && Similarity(invNum, NormalizeInvoiceNumber(x.invoiceNumber)) > 0.8
    && AmountClose(amt, x.amountTotal)
    && WithinDays(DaysBetween(invDate, x.invoiceDateNorm, env), 3)
  }

  function SoftDuplicateOf(vName: string, invNum: string, invDate: string, amt: Num, env: JsEnv): InvoiceRecord -> bool {
    (x: InvoiceRecord) => IsSoftDuplicate(vName, invNum, invDate, amt, x, env)
  }

  /** `known.some(acc => (acc || "").toLowerCase().includes(tail))`. */
  predicate SomeAccountContains(accounts: seq<string>, tail: string) {
    accounts != [] && (Contains(Lower(accounts[0]), tail) || SomeAccountContains(accounts[1..], tail))
  }

  /** The bank-account check: a present account whose last four characters no known account contains. */
  predicate BankAccountUnknown(account: string, p: Vendor) {
    account != "" && p.knownBankAccounts.Some?
    && !SomeAccountContains(p.knownBankAccounts.value, Lower(Last(account, 4)))
  }

  /** A typical bound is truthy when it is present and not 0. */
  predicate Truthy(b: Option<int>) { b.Some? && b.value != 0 }

  /** The amount-range check: both bounds truthy and a (non-NaN) amount outside them. */
  predicate AmountOutsideRange(amt: Num, p: Vendor) {
    Truthy(p.typicalMin) && Truthy(p.typicalMax) && amt.Cents?
    && (amt.cents < p.typicalMin.value || amt.cents > p.typicalMax.value)
  }

  /** The outcome of the four checks: the evidence of each duplicate check, and whether each vendor check fired. */
  datatype Checks = Checks(hard: Option<string>, soft: Option<string>, bank: bool, range: bool)

  /** The hard-duplicate check: the id of the first invoice carrying the same fingerprint. */
  function HardMatch(existing: seq<InvoiceRecord>, fp: string): Option<string> {
    var hard := FirstIndex(existing, HasFingerprint(fp));
    if hard.Some? then Some(existing[hard.value].invoiceId) else None
  }

  /** The soft-duplicate check: the id of the first invoice the soft filter keeps. */
  function SoftMatch(existing: seq<InvoiceRecord>, vName: string, invNum: string, invDate: string, amt: Num, env: JsEnv): Option<string> {
    var soft := Filter(existing, SoftDuplicateOf(vName, invNum, invDate, amt, env));
    if soft != [] then Some(soft[0].invoiceId) else None
  }

  /** The four checks of `scoreInvoice`, given the normalized fields, the amount and the fingerprint. */
  function ChecksFrom(existing: seq<InvoiceRecord>, profile: Option<Vendor>, bankAccount: string,
                      vName: string, invNum: string, invDate: string, amt: Num, fp: string, env: JsEnv): Checks {
    Checks(
      HardMatch(existing, fp),
      SoftMatch(existing, vName, invNum, invDate, amt, env),
      profile.Some? && BankAccountUnknown(bankAccount, profile.value),
      profile.Some? && AmountOutsideRange(amt, profile.value))
  }

  /** The four checks of `scoreInvoice`, evaluated on the inputs. */
  function ChecksOf(inv: EngineInvoice, existing: seq<InvoiceRecord>, profile: Option<Vendor>, env: JsEnv): Checks {
    ChecksFrom(existing, profile, inv.bankAccount,
               NormalizeVendorName(inv.vendorName), NormalizeInvoiceNumber(inv.invoiceNumber),
               NormalizeDate(inv.invoiceDate, env), ToNumber(inv.amountTotal, env), FingerprintOf(inv, env), env)
  }

  /** The flags pushed for the checks that fired, in the order the checks run. */
  function FiredFlags(c: Checks): seq<Flag> {
    (if c.hard.Some? then [Flag(DuplicateHard, High, c.hard)] else [])
    + (if c.soft.Some? then [Flag(DuplicateSoft, Medium, c.soft)] else [])
    + (if c.bank then [Flag(UnusualBankAccount, Medium, None)] else [])
    + (if c.range then [Flag(AmountOutOfRange, Low, None)] else [])
  }

  /** The running total of `score += ...` over the checks that fired. */
  function Total(c: Checks): int {
    (if c.hard.Some? then 70 else 0) + (if c.soft.Some? then 35 else 0)
    + (if c.bank then 25 else 0) + (if c.range then 15 else 0)
  }

  /** The result object: the total, the fired flags or a lone NO_FLAGS, and the fingerprint. */
  function Assemble(c: Checks, fp: string): ScoreResult {
    var fired := FiredFlags(c);
    ScoreResult(Total(c), if fired == [] then [Flag(NoFlags, Info, None)] else fired, fp)
  }

  function FingerprintOf(inv: EngineInvoice, env: JsEnv): string {
    Fingerprint(inv.vendorName, inv.invoiceNumber, ToNumber(inv.amountTotal, env), inv.invoiceDate, env)
  }

  /** What `scoreInvoice` returns. */
  function ScoreSpec(inv: EngineInvoice, existing: seq<InvoiceRecord>, profile: Option<Vendor>, env: JsEnv): ScoreResult {
    Assemble(ChecksOf(inv, existing, profile, env), FingerprintOf(inv, env))
  }

  /** `existingInvoices.find(x => x.fingerprint === fp)`. */
  method FindHardDuplicate(existing: seq<InvoiceRecord>, fp: string) returns (id: Option<string>)
    ensures id == HardMatch(existing, fp)
  {
    var k := 0;
    while k < |existing| && existing[k].fingerprint != fp
      invariant 0 <= k <= |existing|
      invariant forall j :: 0 <= j < k ==> !HasFingerprint(fp)(existing[j])
    {
      k := k + 1;
    }
    if k < |existing| {
      assert HasFingerprint(fp)(existing[k]);
      id := Some(existing[k].invoiceId);
    } else {
      id := None;
    }
  }

  /** The callback of the soft-duplicate `filter`: the two similarities, the amount and the date window. */
  method SoftDuplicateTest(vName: string, invNum: string, invDate: string, amt: Num, x: InvoiceRecord, env: JsEnv)
    returns (b: bool)
    ensures b == IsSoftDuplicate(vName, invNum, invDate, amt, x, env)
  {
    var vSim := ComputeSimilarity(vName, NormalizeVendorName(x.vendorName));
    var nSim := ComputeSimilarity(invNum, NormalizeInvoiceNumber(x.invoiceNumber));
    var amtMatch := AmountClose(amt, x.amountTotal);
    var dateMatch := WithinDays(DaysBetween(invDate, x.invoiceDateNorm, env), 3);
    b := vSim > 0.85 && nSim > 0.8 && amtMatch && dateMatch;
  }

  /** The `existingInvoices.filter(...)` of the soft-duplicate check. */
  method FindSoftDuplicates(existing: seq<InvoiceRecord>, vName: string, invNum: string, invDate: string, amt: Num, env: JsEnv)
    returns (dupes: seq<InvoiceRecord>)
    ensures dupes == Filter(existing, SoftDuplicateOf(vName, invNum, invDate, amt, env))
  {
    ghost var isSoft := SoftDuplicateOf(vName, invNum, invDate, amt, env);
    dupes := [];
    for i := 0 to |existing|
      invariant dupes == Filter(existing[..i], isSoft)
    {
      var keep := SoftDuplicateTest(vName, invNum, invDate, amt, existing[i], env);
      assert existing[..i + 1][..i] == existing[..i];
      assert keep == isSoft(existing[i]);
      if keep {
        dupes := dupes + [existing[i]];
      }
    }
    assert existing[..|existing|] == existing;
  }

  /** The `if (vendorProfile)` block of `scoreInvoice`: the bank-account check, then the amount-range check. */
  method CheckVendorProfile(profile: Option<Vendor>, bankAccount: string, amt: Num, score0: int, flags0: seq<Flag>)
    returns (score: int, flags: seq<Flag>)
    ensures var bank := profile.Some? && BankAccountUnknown(bankAccount, profile.value);
            var range := profile.Some? && AmountOutsideRange(amt, profile.value);
            && flags == flags0 + (if bank then [Flag(UnusualBankAccount, Medium, None)] else [])
                              + (if range then [Flag(AmountOutOfRange, Low, None)] else [])
            && score == score0 + (if bank then 25 else 0) + (if range then 15 else 0)
  {
    score, flags := score0, flags0;
    if profile.Some? {
      var p := profile.value;
      if bankAccount != "" && p.knownBankAccounts.Some? {
        var tail := Lower(Last(bankAccount, 4));
        var isKnown := SomeAccountContains(p.knownBankAccounts.value, tail);
        if !isKnown {
          score := score + 25;
          flags := flags + [Flag(UnusualBankAccount, Medium, None)];
        }
      }
      ghost var flags1 := flags;
      if Truthy(p.typicalMin) && Truthy(p.typicalMax) {
        if amt.Cents? && (amt.cents < p.typicalMin.value || amt.cents > p.typicalMax.value) {
          score := score + 15;
          flags := flags + [Flag(AmountOutOfRange, Low, None)];
        }
      }
      assert flags == flags1 + if AmountOutsideRange(amt, p) then [Flag(AmountOutOfRange, Low, None)] else [];
    } else {
      assert flags0 + [] + [] == flags0;
    }
  }

  /** The two duplicate blocks of `scoreInvoice`: the hard check, then the soft check. */
  method CheckDuplicates(existing: seq<InvoiceRecord>, vName: string, invNum: string, invDate: string, amt: Num, fp: string, env: JsEnv)
    returns (score: int, flags: seq<Flag>)
    ensures var hard := HardMatch(existing, fp);
            var soft := SoftMatch(existing, vName, invNum, invDate, amt, env);
            && flags == (if hard.Some? then [Flag(DuplicateHard, High, hard)] else [])
                        + (if soft.Some? then [Flag(DuplicateSoft, Medium, soft)] else [])
            && score == (if hard.Some? then 70 else 0) + (if soft.Some? then 35 else 0)
  {
    score, flags := 0, [];
    var hard := FindHardDuplicate(existing, fp);
    if hard.Some? {
      score := score + 70;
      flags := flags + [Flag(DuplicateHard, High, hard)];
    }
    ghost var flags1, score1 := flags, score;
    assert flags1 == if hard.Some? then [Flag(DuplicateHard, High, hard)] else [];
    var softDupes := FindSoftDuplicates(existing, vName, invNum, invDate, amt, env);
    ghost var soft := SoftMatch(existing, vName, invNum, invDate, amt, env);
    assert soft == if softDupes != [] then Some(softDupes[0].invoiceId) else None;
    if |softDupes| > 0 {
      score := score + 35;
      flags := flags + [Flag(DuplicateSoft, Medium, Some(softDupes[0].invoiceId))];
    }
    assert flags == flags1 + if soft.Some? then [Flag(DuplicateSoft, Medium, soft)] else [];
    assert score == score1 + if soft.Some? then 35 else 0;
  }

  /** `scoreInvoice`: runs the four checks in order, accumulating the score and pushing the flags. */
  method ScoreInvoice(inv: EngineInvoice, existing: seq<InvoiceRecord>, profile: Option<Vendor>, env: JsEnv)
    returns (r: ScoreResult)
    ensures r == ScoreSpec(inv, existing, profile, env)
  {
    var vName := NormalizeVendorName(inv.vendorName);
    var invNum := NormalizeInvoiceNumber(inv.invoiceNumber);
    var invDate := NormalizeDate(inv.invoiceDate, env);
    var amt := ToNumber(inv.amountTotal, env);
    var fp := Fingerprint(inv.vendorName, inv.invoiceNumber, amt, inv.invoiceDate, env);
    ghost var c := ChecksFrom(existing, profile, inv.bankAccount, vName, invNum, invDate, amt, fp, env);
    assert c == ChecksOf(inv, existing, profile, env);

    var score, flags := CheckDuplicates(existing, vName, invNum, invDate, amt, fp, env);
    score, flags := CheckVendorProfile(profile, inv.bankAccount, amt, score, flags);
    assert flags == FiredFlags(c) && score == Total(c);

    if |flags| == 0 {
      flags := flags + [Flag(NoFlags, Info, None)];
    }
    r := ScoreResult(score, flags, fp);
  }

  // ---------------------------------------------------------------- properties of the score

  lemma {:induction false} SumWeightsAppend(a: seq<Flag>, b: seq<Flag>)
    ensures SumWeights(a + b) == SumWeights(a) + SumWeights(b)
  {
    if a != [] {
      assert (a + b)[1..] == a[1..] + b;
      SumWeightsAppend(a[1..], b);
    } else {
      assert a + b == b;
    }
  }

  /** The flags of the checks that fired, one piece per check. */
  lemma FiredFlagsPieces(c: Checks)
    ensures FiredFlags(c) == FlagIf(c.hard.Some?, Flag(DuplicateHard, High, c.hard))
                           + FlagIf(c.soft.Some?, Flag(DuplicateSoft, Medium, c.soft))
                           + FlagIf(c.bank, Flag(UnusualBankAccount, Medium, None))
                           + FlagIf(c.range, Flag(AmountOutOfRange, Low, None))
  {
  }

  function FlagIf(b: bool, f: Flag): seq<Flag> {
    if b then [f] else []
  }

  /** A fired flag is never NO_FLAGS, and its type names a check that fired. */
  lemma FiredKinds(c: Checks)
    ensures forall f :: f in FiredFlags(c) ==>
      && f.kind != NoFlags
      && (f.kind == DuplicateHard ==> c.hard.Some?)
      && (f.kind == DuplicateSoft ==> c.soft.Some?)
      && (f.kind == UnusualBankAccount ==> c.bank)
      && (f.kind == AmountOutOfRange ==> c.range)
  {
    FiredFlagsPieces(c);
  }

  /** The score is exactly the sum of the weights of the flags (NO_FLAGS weighs nothing), between 0 and 145: there is no clamp. */
  lemma ScoreIsSumOfFlagWeights(c: Checks, fp: string)
    ensures var r := Assemble(c, fp);
      && r.score == SumWeights(r.flags)
      && 0 <= r.score <= 145
  {
    FiredFlagsPieces(c);
    var f1 := FlagIf(c.hard.Some?, Flag(DuplicateHard, High, c.hard));
    var f2 := FlagIf(c.soft.Some?, Flag(DuplicateSoft, Medium, c.soft));
    var f3 := FlagIf(c.bank, Flag(UnusualBankAccount, Medium, None));
    var f4 := FlagIf(c.range, Flag(AmountOutOfRange, Low, None));
    SumWeightsAppend(f1 + f2 + f3, f4);
    SumWeightsAppend(f1 + f2, f3);
    SumWeightsAppend(f1, f2);
    assert SumWeights(f1) == if c.hard.Some? then 70 else 0;
    assert SumWeights(f2) == if c.soft.Some? then 35 else 0;
    assert SumWeights(f3) == if c.bank then 25 else 0;
    assert SumWeights(f4) == if c.range then 15 else 0;
    var r := Assemble(c, fp);
    if FiredFlags(c) == [] {
      assert r.flags == [Flag(NoFlags, Info, None)];
    }
  }

  /** The flag list is never empty, and NO_FLAGS appears exactly when the score is 0, as the only flag. */
  lemma NoFlagsExactlyWhenZero(c: Checks, fp: string)
    ensures var r := Assemble(c, fp);
      && r.flags != []
      && (HasFlag(r.flags, NoFlags) <==> r.score == 0)
      && (HasFlag(r.flags, NoFlags) ==> r.flags == [Flag(NoFlags, Info, None)])
  {
    FiredFlagsPieces(c);
    FiredKinds(c);
    var fired := FiredFlags(c);
    assert forall i :: 0 <= i < |fired| ==> fired[i].kind != NoFlags by {
      forall i | 0 <= i < |fired| ensures fired[i].kind != NoFlags { assert fired[i] in fired; }
    }
    assert fired == [] <==> Total(c) == 0;
    var r := Assemble(c, fp);
    if fired == [] {
      assert r.flags[0].kind == NoFlags;
    }
  }

  /** The flags come in the order hard, soft, bank, amount, each at most once. */
  lemma FlagsInCheckOrder(c: Checks, fp: string)
    ensures var r := Assemble(c, fp);
      forall i, j :: 0 <= i < j < |r.flags| ==> Rank(r.flags[i].kind) < Rank(r.flags[j].kind)
  {
    FiredFlagsPieces(c);
  }

  /** Each duplicate flag is present exactly when its check fired, carrying the check's evidence. */
  lemma DuplicateFlagsMatchChecks(c: Checks, fp: string)
    ensures var r := Assemble(c, fp);
      && (HasFlag(r.flags, DuplicateHard) <==> c.hard.Some?)
      && (c.hard.Some? ==> r.flags[0] == Flag(DuplicateHard, High, c.hard))
      && (HasFlag(r.flags, DuplicateSoft) <==> c.soft.Some?)
      && (c.soft.Some? ==> Flag(DuplicateSoft, Medium, c.soft) in r.flags)
  {
    FiredFlagsPieces(c);
    FiredKinds(c);
    var r := Assemble(c, fp);
    var f1 := FlagIf(c.hard.Some?, Flag(DuplicateHard, High, c.hard));
    if c.soft.Some? { assert r.flags[|f1|] == Flag(DuplicateSoft, Medium, c.soft); }
    if c.hard.Some? { assert r.flags[0] in r.flags; }
  }

  /** Each vendor flag is present exactly when its check fired. */
  lemma VendorFlagsMatchChecks(c: Checks, fp: string)
    ensures var r := Assemble(c, fp);
      && (HasFlag(r.flags, UnusualBankAccount) <==> c.bank)
      && (HasFlag(r.flags, AmountOutOfRange) <==> c.range)
  {
    FiredFlagsPieces(c);
    FiredKinds(c);
    var r := Assemble(c, fp);
    if c.bank { assert Flag(UnusualBankAccount, Medium, None) in r.flags; }
    if c.range { assert Flag(AmountOutOfRange, Low, None) in r.flags; }
  }

  /**
   * The hard-duplicate check fires exactly when some existing invoice has the
   * new fingerprint, and names the first such invoice.
   */
  lemma HardDuplicateIff(inv: EngineInvoice, existing: seq<InvoiceRecord>, profile: Option<Vendor>, env: JsEnv)
    ensures var c := ChecksOf(inv, existing, profile, env);
      var fp := FingerprintOf(inv, env);
      && (c.hard.Some? <==> exists j :: 0 <= j < |existing| && existing[j].fingerprint == fp)
      && (c.hard.Some? ==>
            exists j :: (0 <= j < |existing| && existing[j].fingerprint == fp
              && c.hard == Some(existing[j].invoiceId)
              && forall i :: 0 <= i < j ==> existing[i].fingerprint != fp))
  {
    var fp := FingerprintOf(inv, env);
    var hard := FirstIndex(existing, HasFingerprint(fp));
    assert ChecksOf(inv, existing, profile, env).hard == if hard.Some? then Some(existing[hard.value].invoiceId) else None;
    if hard.Some? {
      assert HasFingerprint(fp)(existing[hard.value]);
      assert forall i :: 0 <= i < hard.value ==> !HasFingerprint(fp)(existing[i]);
    } else {
      assert forall j :: 0 <= j < |existing| ==> !HasFingerprint(fp)(existing[j]);
    }
  }

  /**
   * The soft-duplicate check fires exactly when some existing invoice passes
   * the soft filter, and names the first such invoice.
   */
  lemma SoftDuplicateIff(inv: EngineInvoice, existing: seq<InvoiceRecord>, profile: Option<Vendor>, env: JsEnv)
    ensures var c := ChecksOf(inv, existing, profile, env);
      var soft := SoftDuplicateOf(NormalizeVendorName(inv.vendorName), NormalizeInvoiceNumber(inv.invoiceNumber),
                                  NormalizeDate(inv.invoiceDate, env), ToNumber(inv.amountTotal, env), env);
      && (c.soft.Some? <==> exists j :: 0 <= j < |existing| && soft(existing[j]))
      && (c.soft.Some? ==>
            exists j :: (0 <= j < |existing| && soft(existing[j])
              && c.soft == Some(existing[j].invoiceId)
              && forall i :: 0 <= i < j ==> !soft(existing[i])))
  {
    var soft := SoftDuplicateOf(NormalizeVendorName(inv.vendorName), NormalizeInvoiceNumber(inv.invoiceNumber),
                                NormalizeDate(inv.invoiceDate, env), ToNumber(inv.amountTotal, env), env);
    var matches := Filter(existing, soft);
    assert ChecksOf(inv, existing, profile, env).soft == if matches != [] then Some(matches[0].invoiceId) else None;
    FilterHead(existing, soft);
  }

  /**
   * Without a vendor profile neither vendor check fires; with one, an empty
   * list of known accounts flags any present bank account, and a missing
   * list or a missing account never does.
   */
  lemma VendorChecks(inv: EngineInvoice, existing: seq<InvoiceRecord>, profile: Option<Vendor>, env: JsEnv)
    ensures var c := ChecksOf(inv, existing, profile, env);
      && (profile.None? ==> !c.bank && !c.range)
      && (profile.Some? && profile.value.knownBankAccounts == Some([]) && inv.bankAccount != "" ==> c.bank)
      && (inv.bankAccount == "" || (profile.Some? && profile.value.knownBankAccounts.None?) ==> !c.bank)
      && (c.range ==> Truthy(profile.value.typicalMin) && Truthy(profile.value.typicalMax))
  {
  }
}
