/**
 * Line-item extraction from OCR text (`invoice_guard/product_extraction.py`):
 * the line cleaner, the ranking of likely product lines into three
 * priority classes, their case-insensitive de-duplication, and the choice
 * of a product description. The regular expressions other than the
 * cleaner's are predicates of the environment.
 */
module ProductExtraction {
  import opened Wrappers
  import opened Text
  import opened Seqs

  /**
   * `str.splitlines`, and the regular expressions applied to a cleaned
   * line: `BAD_LINE_RE.match`, the ISO date line, the "City, ST 12345"
   * address, its "City, ST" prefix, `ITEM_LINE_RE.match` and
   * `MONEY_RE.search`.
   */
  datatype ProductEnv = ProductEnv(
    splitLines: string -> seq<string>,
    isHeader: string -> bool,
    isDateLine: string -> bool,
    isCityStateZip: string -> bool,
    isCityState: string -> bool,
    itemStart: string -> bool,
    hasMoney: string -> bool)

  // ---------------------------------------------------------------- _clean_line

  /** The characters `[\x20-\x7E]`. */
  predicate Printable(c: char) { ' ' <= c <= '~' }

  predicate NonPrintable(c: char) { !Printable(c) }

  /** `s` without its leading run of characters satisfying `p`. */
  function DropRun(s: string, p: char -> bool): (r: string)
    ensures |r| <= |s| && r == s[|s| - |r|..]
    ensures r != [] ==> !p(r[0])
  {
    if s != [] && p(s[0]) then DropRun(s[1..], p) else s
  }

  /** `re.sub(class + "+", " ", s)`: every maximal run of characters satisfying `p` becomes one space. */
  function CollapseRuns(s: string, p: char -> bool): (r: string)
    ensures r == [] <==> s == []
    ensures s != [] && !p(s[0]) ==> r[0] == s[0]
    decreases |s|
  {
    if s == [] then []
    else if p(s[0]) then
      var rest := DropRun(s[1..], p);
      [' '] + CollapseRuns(rest, p)
    else [s[0]] + CollapseRuns(s[1..], p)
  }

  /** No two adjacent characters of `r` are both in the class `p`. */
  predicate NoAdjacentRuns(r: string, p: char -> bool) {
    forall k :: 0 <= k < |r| - 1 && p(r[k]) ==> !p(r[k + 1])
  }

  /** Every character of `r` is a space or outside the class `p`. */
  predicate SpaceOrOutside(r: string, p: char -> bool) {
    forall k :: 0 <= k < |r| ==> r[k] == ' ' || !p(r[k])
  }

  lemma SpaceOrOutsideCons(c: char, t: string, p: char -> bool)
    requires c == ' ' || !p(c)
    requires SpaceOrOutside(t, p)
    ensures SpaceOrOutside([c] + t, p)
  {
    assert forall k :: 1 <= k < |t| + 1 ==> ([c] + t)[k] == t[k - 1];
  }

  lemma NoAdjacentCons(c: char, t: string, p: char -> bool)
    requires p(c) && t != [] ==> !p(t[0])
    requires NoAdjacentRuns(t, p)
    ensures NoAdjacentRuns([c] + t, p)
  {
    assert forall k :: 1 <= k < |t| + 1 ==> ([c] + t)[k] == t[k - 1];
  }

  /** One step of the collapse: the first character or run, then the rest. */
  lemma CollapseStep(s: string, p: char -> bool)
    requires s != []
    ensures var rest := if p(s[0]) then DropRun(s[1..], p) else s[1..];
            CollapseRuns(s, p) == [if p(s[0]) then ' ' else s[0]] + CollapseRuns(rest, p)
  {
  }

  /** Collapsing leaves no character of the class other than the spaces it writes. */
  lemma {:induction false} CollapseClass(s: string, p: char -> bool)
    ensures SpaceOrOutside(CollapseRuns(s, p), p)
    decreases |s|
  {
    if s != [] {
      var rest := if p(s[0]) then DropRun(s[1..], p) else s[1..];
      CollapseClass(rest, p);
      CollapseStep(s, p);
      SpaceOrOutsideCons(if p(s[0]) then ' ' else s[0], CollapseRuns(rest, p), p);
    }
  }

  /** After collapsing, no two characters of the class are adjacent. */
  lemma {:induction false} CollapseNoAdjacent(s: string, p: char -> bool)
    ensures NoAdjacentRuns(CollapseRuns(s, p), p)
    decreases |s|
  {
    if s != [] {
      var rest := if p(s[0]) then DropRun(s[1..], p) else s[1..];
      CollapseNoAdjacent(rest, p);
      CollapseStep(s, p);
      NoAdjacentCons(if p(s[0]) then ' ' else s[0], CollapseRuns(rest, p), p);
    }
  }

  /** Every character of `r` is a space or a character of `s`. */
  predicate FromSource(r: string, s: string) {
    forall k :: 0 <= k < |r| ==> r[k] == ' ' || r[k] in s
  }

  /** Collapsing only writes spaces and characters already in the text. */
  lemma {:induction false} CollapseFromSource(s: string, p: char -> bool)
    ensures FromSource(CollapseRuns(s, p), s)
    decreases |s|
  {
    if s != [] {
      var rest := if p(s[0]) then DropRun(s[1..], p) else s[1..];
      CollapseFromSource(rest, p);
      var t := CollapseRuns(rest, p);
      var r := CollapseRuns(s, p);
      assert r == [r[0]] + t;
      assert rest == s[|s| - |rest|..];
      forall k | 0 <= k < |r| && r[k] != ' '
        ensures r[k] in s
      {
        if k > 0 {
          assert r[k] == t[k - 1];
        }
      }
    }
  }

  /**
   * `_clean_line`: non-printable runs to a space, whitespace runs to one
   * space, then strip. The result is clean, and CleanLineIdempotent shows
   * that cleaning it again changes nothing.
   */
  function CleanLine(s: string): (r: string)
    ensures Clean(r)
  {
    CleaningStepsGiveClean(s);
    Trim(CollapseRuns(CollapseRuns(s, NonPrintable), IsSpace))
  }

  /** No two whitespace characters are adjacent. */
  predicate SingleSpaced(s: string) {
    forall k :: 0 <= k < |s| - 1 ==> !(IsSpace(s[k]) && IsSpace(s[k + 1]))
  }

  /** What `_clean_line` gives back: printable ASCII, single-spaced, no whitespace at either end. */
  predicate Clean(s: string) {
    && AllPrintable(s)
    && SingleSpaced(s)
    && (s != [] ==> !IsSpace(s[0]) && !IsSpace(s[|s| - 1]))
  }

  predicate AllPrintable(s: string) {
    forall k :: 0 <= k < |s| ==> Printable(s[k])
  }

  lemma CollapseNonPrintable(s: string)
    ensures AllPrintable(CollapseRuns(s, NonPrintable))
  {
    CollapseClass(s, NonPrintable);
  }

  lemma CollapseKeepsPrintable(s: string, p: char -> bool)
    requires AllPrintable(s)
    ensures AllPrintable(CollapseRuns(s, p))
  {
    var r := CollapseRuns(s, p);
    CollapseFromSource(s, p);
    forall k | 0 <= k < |r|
      ensures Printable(r[k])
    {
      if r[k] != ' ' {
        var j :| 0 <= j < |s| && s[j] == r[k];
      }
    }
  }

  lemma CollapseSpaces(s: string)
    ensures SingleSpaced(CollapseRuns(s, IsSpace))
  {
    CollapseNoAdjacent(s, IsSpace);
  }

  /** A piece of a printable, single-spaced string is printable and single-spaced. */
  lemma SliceKeepsClean(b: string, t: string, i: int)
    requires OccursAt(b, t, i) && AllPrintable(b) && SingleSpaced(b)
    ensures AllPrintable(t) && SingleSpaced(t)
  {
    forall k | 0 <= k < |t|
      ensures t[k] == b[i + k]
    {
    }
  }

  /** The three steps of `_clean_line` leave printable, single-spaced, unpadded text. */
  lemma CleaningStepsGiveClean(s: string)
    ensures Clean(Trim(CollapseRuns(CollapseRuns(s, NonPrintable), IsSpace)))
  {
    var a := CollapseRuns(s, NonPrintable);
    var b := CollapseRuns(a, IsSpace);
    CollapseNonPrintable(s);
    CollapseKeepsPrintable(a, IsSpace);
    CollapseSpaces(a);
    var i := TrimSlice(b);
    SliceKeepsClean(b, Trim(b), i);
  }

  /** A string with no character satisfying `p` has no run to collapse. */
  lemma {:induction false} CollapseNothing(s: string, p: char -> bool)
    requires forall k :: 0 <= k < |s| ==> !p(s[k])
    ensures CollapseRuns(s, p) == s
  {
    if s != [] {
      CollapseNothing(s[1..], p);
    }
  }

  /** A string whose `p` characters are single spaces, never two in a row, is left as it is. */
  lemma {:induction false} CollapseSingles(s: string, p: char -> bool)
    requires forall k :: 0 <= k < |s| && p(s[k]) ==> s[k] == ' '
    requires forall k :: 0 <= k < |s| - 1 && p(s[k]) ==> !p(s[k + 1])
    ensures CollapseRuns(s, p) == s
  {
    if s != [] {
      CollapseSingles(s[1..], p);
      if p(s[0]) {
        assert DropRun(s[1..], p) == s[1..];
      }
    }
  }

  /** Cleaning a cleaned line changes nothing. */
  lemma CleanIsFixed(t: string)
    requires Clean(t)
    ensures CleanLine(t) == t
  {
    CollapseNothing(t, NonPrintable);
    assert forall k :: 0 <= k < |t| && IsSpace(t[k]) ==> t[k] == ' ';
    CollapseSingles(t, IsSpace);
  }

  lemma CleanLineIdempotent(s: string)
    ensures CleanLine(CleanLine(s)) == CleanLine(s)
  {
    CleanIsFixed(CleanLine(s));
  }

  // ---------------------------------------------------------------- line tests

  /** `len(l.split())`: the number of maximal runs of non-whitespace. */
  function WordCount(s: string): nat {
    if s == [] then 0
    else
      var n := |s|;
      WordCount(s[..n - 1]) + (if !IsSpace(s[n - 1]) && (n == 1 || IsSpace(s[n - 2])) then 1 else 0)
  }

  /** `l.isupper()` on ASCII text: some upper-case letter and no lower-case one. */
  predicate IsAllUpper(s: string) {
    (exists k :: 0 <= k < |s| && IsUpperLetter(s[k])) && NoLower(s)
  }

  /** `re.search(r"\d{5}", l)`: five digits in a row. */
  predicate HasFiveDigits(s: string) {
    exists k :: 0 <= k && k + 5 <= |s| && IsDigit(s[k]) && IsDigit(s[k + 1]) && IsDigit(s[k + 2])
                                         && IsDigit(s[k + 3]) && IsDigit(s[k + 4])
  }

  /** `l.startswith(("Total", "Subtotal", "Tax"))`. */
  predicate StartsWithTotal(s: string) {
    "Total" <= s || "Subtotal" <= s || "Tax" <= s
  }

  // ---------------------------------------------------------------- candidates

  datatype Priority = High | Medium | Low

  /** The sort key: `{"high": 0, "medium": 1, "low": 2}`. */
  function Rank(p: Priority): nat {
    match p
    case High => 0
    case Medium => 1
    case Low => 2
  }

  datatype Cand = Cand(priority: Priority, line: string)

  /** The four `continue` tests: a header, too short or all upper-case, a date line, an address. */
  predicate Skipped(l: string, env: ProductEnv) {
    env.isHeader(l) || |l| < 10 || IsAllUpper(l) || env.isDateLine(l) || env.isCityStateZip(l)
  }

  /** An item number at the start and money somewhere. */
  predicate HighLine(l: string, env: ProductEnv) {
    env.itemStart(l) && env.hasMoney(l)
  }

  /** Money, three words or more, and not a total, subtotal or tax line. */
  predicate MediumLine(l: string, env: ProductEnv) {
    env.hasMoney(l) && WordCount(l) >= 3 && !StartsWithTotal(l)
  }

  /** Three words or more, longer than 20, and no five digits in a row. */
  predicate LowLine(l: string) {
    WordCount(l) >= 3 && |l| > 20 && !HasFiveDigits(l)
  }

  /** The tests of the candidate loop: the skips, then the three priority classes in order. */
  function Classify(l: string, env: ProductEnv): (r: Option<Priority>)
    ensures r.Some? ==> |l| >= 10 && !IsAllUpper(l) && !env.isHeader(l)
    ensures r.None? <==> Skipped(l, env) || (!HighLine(l, env) && !MediumLine(l, env) && !LowLine(l))
  {
    if Skipped(l, env) then None
    else if HighLine(l, env) then Some(High)
    else if MediumLine(l, env) then Some(Medium)
    else if LowLine(l) then Some(Low)
    else None
  }

  /** The candidates the loop appends, in line order. */
  function ItemCandidates(lines: seq<string>, env: ProductEnv): (r: seq<Cand>)
    ensures |r| <= |lines|
    ensures forall k :: 0 <= k < |r| ==> Classify(r[k].line, env) == Some(r[k].priority) && r[k].line in lines
  {
    if lines == [] then []
    else
      var init := ItemCandidates(lines[..|lines| - 1], env);
      var l := lines[|lines| - 1];
      match Classify(l, env)
      case Some(p) => init + [Cand(p, l)]
      case None => init
  }

  predicate IsHigh(c: Cand) { c.priority == High }
  predicate IsMedium(c: Cand) { c.priority == Medium }
  predicate IsLow(c: Cand) { c.priority == Low }

  /**
   * `candidates.sort(key=...)`: Python's sort is stable, so on a key with
   * three values it gives the high class, then the medium, then the low,
   * each in its original order.
   */
  function ByRank(c: seq<Cand>): seq<Cand> {
    Filter(c, IsHigh) + Filter(c, IsMedium) + Filter(c, IsLow)
  }

  predicate SortedByRank(t: seq<Cand>) {
    forall i, j :: 0 <= i < j < |t| ==> Rank(t[i].priority) <= Rank(t[j].priority)
  }

  /** The ranked list is sorted by the key. */
  lemma ByRankSorted(c: seq<Cand>)
    ensures SortedByRank(ByRank(c))
  {
    var h, m, l := Filter(c, IsHigh), Filter(c, IsMedium), Filter(c, IsLow);
    var t := ByRank(c);
    forall k | 0 <= k < |t|
      ensures Rank(t[k].priority) == if k < |h| then 0 else if k < |h| + |m| then 1 else 2
    {
      if k < |h| {
        assert t[k] == h[k];
      } else if k < |h| + |m| {
        assert t[k] == m[k - |h|];
      } else {
        assert t[k] == l[k - |h| - |m|];
      }
    }
  }

  /** Ranking a list with one more candidate adds it at the end of its class. */
  lemma ByRankSnoc(init: seq<Cand>, x: Cand)
    ensures ByRank(init + [x])
            == (Filter(init, IsHigh) + (if IsHigh(x) then [x] else []))
               + (Filter(init, IsMedium) + (if IsMedium(x) then [x] else []))
               + (Filter(init, IsLow) + (if IsLow(x) then [x] else []))
  {
    FilterSnoc(init, x, IsHigh);
    FilterSnoc(init, x, IsMedium);
    FilterSnoc(init, x, IsLow);
  }

  /** The ranked list is a permutation of the candidates. */
  lemma ByRankPermutation(c: seq<Cand>)
    ensures multiset(ByRank(c)) == multiset(c)
  {
    FilterPartition(c, IsHigh, IsMedium, IsLow);
    var h, m, l := Filter(c, IsHigh), Filter(c, IsMedium), Filter(c, IsLow);
    assert multiset(h + m + l) == multiset(h) + multiset(m) + multiset(l);
  }

  lemma FilterTwice(c: seq<Cand>, p: Cand -> bool)
    ensures Filter(Filter(c, p), p) == Filter(c, p)
  {
    FilterAll(Filter(c, p), p);
  }

  /** Filtering the ranked list by one class gives that class of the three blocks. */
  lemma FilterByRank(c: seq<Cand>, p: Cand -> bool)
    ensures Filter(ByRank(c), p)
            == Filter(Filter(c, IsHigh), p) + Filter(Filter(c, IsMedium), p) + Filter(Filter(c, IsLow), p)
  {
    var h, m, l := Filter(c, IsHigh), Filter(c, IsMedium), Filter(c, IsLow);
    FilterAppend(h + m, l, p);
    FilterAppend(h, m, p);
  }

  lemma HighStable(c: seq<Cand>)
    ensures Filter(ByRank(c), IsHigh) == Filter(c, IsHigh)
  {
    FilterByRank(c, IsHigh);
    FilterTwice(c, IsHigh);
    FilterNone(Filter(c, IsMedium), IsHigh);
    FilterNone(Filter(c, IsLow), IsHigh);
  }

  lemma MediumStable(c: seq<Cand>)
    ensures Filter(ByRank(c), IsMedium) == Filter(c, IsMedium)
  {
    FilterByRank(c, IsMedium);
    FilterTwice(c, IsMedium);
    FilterNone(Filter(c, IsHigh), IsMedium);
    FilterNone(Filter(c, IsLow), IsMedium);
  }

  lemma LowStable(c: seq<Cand>)
    ensures Filter(ByRank(c), IsLow) == Filter(c, IsLow)
  {
    FilterByRank(c, IsLow);
    FilterTwice(c, IsLow);
    FilterNone(Filter(c, IsHigh), IsLow);
    FilterNone(Filter(c, IsMedium), IsLow);
  }

  /** Within each class the ranked list keeps the candidates' order. */
  lemma ByRankStable(c: seq<Cand>)
    ensures Filter(ByRank(c), IsHigh) == Filter(c, IsHigh)
    ensures Filter(ByRank(c), IsMedium) == Filter(c, IsMedium)
    ensures Filter(ByRank(c), IsLow) == Filter(c, IsLow)
  {
    HighStable(c);
    MediumStable(c);
    LowStable(c);
  }

  /** The ranked list holds the same candidates. */
  lemma ByRankMembers(c: seq<Cand>)
    ensures forall x :: x in ByRank(c) <==> x in c
  {
    FilterElements(c, IsHigh);
    FilterElements(c, IsMedium);
    FilterElements(c, IsLow);
  }

  /** The length of the leading run of candidates ranked below `r`. */
  function RunBelow(t: seq<Cand>, r: int): (n: nat)
    ensures n <= |t|
    ensures forall k :: 0 <= k < n ==> Rank(t[k].priority) < r
    ensures n < |t| ==> Rank(t[n].priority) >= r
  {
    if t == [] || Rank(t[0].priority) >= r then 0 else 1 + RunBelow(t[1..], r)
  }

  /** Every candidate of `s` has priority `q`. */
  predicate AllOf(s: seq<Cand>, q: Priority) {
    forall k :: 0 <= k < |s| ==> s[k].priority == q
  }

  /** Filtering three blocks filters each block. */
  lemma FilterBlocks(h: seq<Cand>, m: seq<Cand>, l: seq<Cand>, p: Cand -> bool)
    ensures Filter(h + m + l, p) == Filter(h, p) + Filter(m, p) + Filter(l, p)
  {
    FilterAppend(h + m, l, p);
    FilterAppend(h, m, p);
  }

  /** Filtering a block of one priority keeps it whole or drops it. */
  lemma FilterBlock(s: seq<Cand>, q: Priority)
    requires AllOf(s, q)
    ensures Filter(s, IsHigh) == (if q == High then s else [])
    ensures Filter(s, IsMedium) == (if q == Medium then s else [])
    ensures Filter(s, IsLow) == (if q == Low then s else [])
  {
    if q == High { FilterAll(s, IsHigh); } else { FilterNone(s, IsHigh); }
    if q == Medium { FilterAll(s, IsMedium); } else { FilterNone(s, IsMedium); }
    if q == Low { FilterAll(s, IsLow); } else { FilterNone(s, IsLow); }
  }

  /** A high block, a medium block and a low block are already ranked. */
  lemma ClassBlocksRanked(h: seq<Cand>, m: seq<Cand>, l: seq<Cand>)
    requires AllOf(h, High) && AllOf(m, Medium) && AllOf(l, Low)
    ensures ByRank(h + m + l) == h + m + l
  {
    FilterBlock(h, High);
    FilterBlock(m, Medium);
    FilterBlock(l, Low);
    FilterBlocks(h, m, l, IsHigh);
    FilterBlocks(h, m, l, IsMedium);
    FilterBlocks(h, m, l, IsLow);
    assert Filter(h + m + l, IsHigh) == h;
    assert Filter(h + m + l, IsMedium) == m;
    assert Filter(h + m + l, IsLow) == l;
  }

  /** A list sorted by the key splits into a high, a medium and a low block. */
  lemma SortedBlocks(t: seq<Cand>) returns (i: nat, j: nat)
    requires SortedByRank(t)
    ensures i <= j <= |t|
    ensures AllOf(t[..i], High) && AllOf(t[i..j], Medium) && AllOf(t[j..], Low)
  {
    i, j := RunBelow(t, 1), RunBelow(t, 2);
    assert i <= j;
    assert AllOf(t[..i], High) by {
      forall k | 0 <= k < i
        ensures t[..i][k].priority == High
      {
        assert t[..i][k] == t[k];
      }
    }
    assert AllOf(t[i..j], Medium) by {
      forall k | 0 <= k < j - i
        ensures t[i..j][k].priority == Medium
      {
        assert t[i..j][k] == t[i + k];
        assert Rank(t[i].priority) >= 1;
      }
    }
    assert AllOf(t[j..], Low) by {
      forall k | 0 <= k < |t| - j
        ensures t[j..][k].priority == Low
      {
        assert t[j..][k] == t[j + k];
        assert Rank(t[j].priority) >= 2;
      }
    }
  }

  /** A list sorted by the key is its three classes one after the other. */
  lemma SortedIsClasses(t: seq<Cand>)
    requires SortedByRank(t)
    ensures t == ByRank(t)
  {
    var i, j := SortedBlocks(t);
    ClassBlocksRanked(t[..i], t[i..j], t[j..]);
    assert t == t[..i] + t[i..j] + t[j..];
  }

  /**
   * The ranking is the only stable sort: a list sorted by the key that
   * keeps every class of the candidates in order is the ranked list.
   */
  lemma StableSortUnique(c: seq<Cand>, t: seq<Cand>)
    requires SortedByRank(t)
    requires Filter(t, IsHigh) == Filter(c, IsHigh)
    requires Filter(t, IsMedium) == Filter(c, IsMedium)
    requires Filter(t, IsLow) == Filter(c, IsLow)
    ensures t == ByRank(c)
  {
    SortedIsClasses(t);
  }

  // ---------------------------------------------------------------- de-duplication

  function Lines(c: seq<Cand>): (r: seq<string>)
    ensures |r| == |c| && forall k :: 0 <= k < |c| ==> r[k] == c[k].line
  {
    seq(|c|, k requires 0 <= k < |c| => c[k].line)
  }

  /** Some line of `d` has lower-cased form `key`. */
  predicate HasKey(d: seq<string>, key: string) {
    exists j :: 0 <= j < |d| && Lower(d[j]) == key
  }

  lemma HasKeyAppend(d: seq<string>, x: string)
    ensures forall key :: HasKey(d + [x], key) <==> HasKey(d, key) || key == Lower(x)
  {
    forall key | HasKey(d, key)
      ensures HasKey(d + [x], key)
    {
      var j :| 0 <= j < |d| && Lower(d[j]) == key;
      assert (d + [x])[j] == d[j];
    }
    assert (d + [x])[|d|] == x;
    forall key | HasKey(d + [x], key) && key != Lower(x)
      ensures HasKey(d, key)
    {
      var j :| 0 <= j < |d + [x]| && Lower((d + [x])[j]) == key;
      assert j < |d| && (d + [x])[j] == d[j];
    }
  }

  /** The `seen`-set loop without its limit: each line whose lower-cased form is new is kept. */
  function DedupLines(ls: seq<string>): (r: seq<string>)
    ensures |r| <= |ls|
  {
    if ls == [] then []
    else
      var d := DedupLines(ls[..|ls| - 1]);
      var x := ls[|ls| - 1];
      if HasKey(d, Lower(x)) then d else d + [x]
  }

  /** The kept lines differ pairwise ignoring case, come from the input, and cover every key of it. */
  lemma {:induction false} DedupDistinct(ls: seq<string>)
    ensures var r := DedupLines(ls);
            && (forall i, j :: 0 <= i < j < |r| ==> Lower(r[i]) != Lower(r[j]))
            && (forall x :: x in r ==> x in ls)
            && (forall i :: 0 <= i < |ls| ==> HasKey(r, Lower(ls[i])))
  {
    if ls != [] {
      var init, x := ls[..|ls| - 1], ls[|ls| - 1];
      DedupDistinct(init);
      var d := DedupLines(init);
      if !HasKey(d, Lower(x)) {
        assert (d + [x])[|d|] == x;
        forall i | 0 <= i < |ls|
          ensures HasKey(d + [x], Lower(ls[i]))
        {
          if i < |init| {
            assert ls[i] == init[i];
            var j :| 0 <= j < |d| && Lower(d[j]) == Lower(init[i]);
            assert (d + [x])[j] == d[j];
          } else {
            assert Lower((d + [x])[|d|]) == Lower(ls[i]);
          }
        }
      } else {
        forall i | 0 <= i < |ls|
          ensures HasKey(d, Lower(ls[i]))
        {
          if i < |init| {
            assert ls[i] == init[i];
          }
        }
      }
    }
  }

  /** Every kept line is the first line of the input with its lower-cased form. */
  /** `y` occurs in `ls`, and its first occurrence has no earlier line with the same key. */
  predicate FirstOfKey(ls: seq<string>, y: string) {
    exists i :: 0 <= i < |ls| && y == ls[i] && forall i' :: 0 <= i' < i ==> Lower(ls[i']) != Lower(ls[i])
  }

  lemma {:induction false} DedupKeepsFirst(ls: seq<string>)
    ensures forall j :: 0 <= j < |DedupLines(ls)| ==> FirstOfKey(ls, DedupLines(ls)[j])
  {
    if ls != [] {
      var init, x := ls[..|ls| - 1], ls[|ls| - 1];
      DedupKeepsFirst(init);
      var d := DedupLines(init);
      var r := DedupLines(ls);
      assert ls == init + [x];
      forall j | 0 <= j < |d|
        ensures FirstOfKey(ls, d[j])
      {
        FirstStaysFirst(init, x, d[j]);
      }
      if r != d {
        DedupDistinct(init);
        assert !HasKey(d, Lower(x));
        forall i' | 0 <= i' < |init|
          ensures Lower(init[i']) != Lower(x)
        {
        }
        assert r[|d|] == ls[|ls| - 1];
        assert FirstOfKey(ls, r[|d|]);
      }
    }
  }

  /** A first occurrence in a list stays one when a line is appended. */
  lemma FirstStaysFirst(init: seq<string>, x: string, y: string)
    requires FirstOfKey(init, y)
    ensures FirstOfKey(init + [x], y)
  {
    var i :| 0 <= i < |init| && y == init[i] && forall i' :: 0 <= i' < i ==> Lower(init[i']) != Lower(init[i]);
    assert forall i' :: 0 <= i' <= i ==> (init + [x])[i'] == init[i'];
  }

  /** The kept lines of a prefix are a prefix of the kept lines. */
  lemma {:induction false} DedupPrefix(ls: seq<string>, m: nat)
    requires m <= |ls|
    ensures DedupLines(ls[..m]) <= DedupLines(ls)
    decreases |ls|
  {
    if m < |ls| {
      var init := ls[..|ls| - 1];
      assert init[..m] == ls[..m];
      DedupPrefix(init, m);
    } else {
      assert ls[..m] == ls;
    }
  }

  /** De-duplication keeps an order by any key. */
  lemma {:induction false} DedupKeepsOrder(ls: seq<string>, f: string -> int)
    requires forall i, j :: 0 <= i < j < |ls| ==> f(ls[i]) <= f(ls[j])
    ensures var r := DedupLines(ls);
            forall i, j :: 0 <= i < j < |r| ==> f(r[i]) <= f(r[j])
  {
    if ls != [] {
      var init, x := ls[..|ls| - 1], ls[|ls| - 1];
      DedupKeepsOrder(init, f);
      DedupDistinct(init);
      var d := DedupLines(init);
      forall y | y in d
        ensures f(y) <= f(x)
      {
        var i :| 0 <= i < |init| && init[i] == y;
        assert ls[i] == y;
      }
    }
  }

  // ---------------------------------------------------------------- extract_item_lines

  /** `[_clean_line(x) for x in raw_text.splitlines()]`. */
  function CleanedLines(raw: string, env: ProductEnv): (r: seq<string>)
    ensures |r| == |env.splitLines(raw)|
    ensures forall k :: 0 <= k < |r| ==> r[k] == CleanLine(env.splitLines(raw)[k])
  {
    var xs := env.splitLines(raw);
    seq(|xs|, k requires 0 <= k < |xs| => CleanLine(xs[k]))
  }

  predicate AtLeastSix(l: string) { |l| >= 6 }

  /** The candidates ranked and stripped of their priority: the sequence the de-duplication loop walks. */
  function RankedLines(raw: string, env: ProductEnv): seq<string> {
    Lines(ByRank(ItemCandidates(Filter(CleanedLines(raw, env), AtLeastSix), env)))
  }

  /** `extract_item_lines`: the first five distinct ranked lines. */
  function ItemLines(raw: string, env: ProductEnv): seq<string> {
    Take(DedupLines(RankedLines(raw, env)), 5)
  }

  /** The class of a line as the candidate loop decides it; 3 for a line it skips. */
  function LineRank(l: string, env: ProductEnv): nat {
    match Classify(l, env)
    case Some(p) => Rank(p)
    case None => 3
  }

  /** The candidate loop of `extract_item_lines`. */
  method CollectCandidates(lines: seq<string>, env: ProductEnv) returns (candidates: seq<Cand>)
    ensures candidates == ItemCandidates(lines, env)
  {
    candidates := [];
    var i := 0;
    while i < |lines|
      invariant 0 <= i <= |lines|
      invariant candidates == ItemCandidates(lines[..i], env)
    {
      var l := lines[i];
      assert lines[..i + 1][..i] == lines[..i];
      i := i + 1;
      // the loop's four `continue` tests, in one predicate
      if Skipped(l, env) {
        continue;
      }
      if HighLine(l, env) {
        candidates := candidates + [Cand(High, l)];
      } else if MediumLine(l, env) {
        candidates := candidates + [Cand(Medium, l)];
      } else if LowLine(l) {
        candidates := candidates + [Cand(Low, l)];
      }
    }
    assert lines[..i] == lines;
  }

  /** The `seen` set keeps naming exactly the keys of the kept lines. */
  lemma SeenAdd(out: seq<string>, seen: set<string>, l: string)
    requires forall key :: key in seen <==> HasKey(out, key)
    ensures forall key :: key in seen + {Lower(l)} <==> HasKey(out + [l], key)
  {
    HasKeyAppend(out, l);
  }

  lemma FivePrefixIsTake(out: seq<string>, full: seq<string>)
    requires out <= full && |out| == 5
    ensures Take(full, 5) == out
  {
  }

  /** One more line either repeats a kept key or is kept. */
  lemma DedupStep(ls: seq<string>, i: nat)
    requires i < |ls|
    ensures var d := DedupLines(ls[..i]);
            DedupLines(ls[..i + 1]) == if HasKey(d, Lower(ls[i])) then d else d + [ls[i]]
  {
    assert ls[..i + 1][..i] == ls[..i];
  }

  /** The de-duplication loop: a `seen` set of lower-cased lines, stopping at five. */
  method FirstDistinct(ranked: seq<string>) returns (out: seq<string>)
    ensures out == Take(DedupLines(ranked), 5)
  {
    var seen: set<string> := {};
    out := [];
    var i := 0;
    while i < |ranked|
      invariant 0 <= i <= |ranked|
      invariant out == DedupLines(ranked[..i]) && |out| < 5
      invariant forall key :: key in seen <==> HasKey(out, key)
    {
      var l := ranked[i];
      var key := Lower(l);
      DedupStep(ranked, i);
      if key in seen {
        i := i + 1;
        continue;
      }
      SeenAdd(out, seen, l);
      seen := seen + {key};
      out := out + [l];
      if |out| >= 5 {
        DedupPrefix(ranked, i + 1);
        FivePrefixIsTake(out, DedupLines(ranked));
        break;
      }
      i := i + 1;
    }
    if i == |ranked| {
      assert ranked[..i] == ranked;
    }
  }

  /** `extract_item_lines`. */
  method ExtractItemLines(raw: string, env: ProductEnv) returns (out: seq<string>)
    ensures out == ItemLines(raw, env)
  {
    var lines := Filter(CleanedLines(raw, env), AtLeastSix);
    var candidates := CollectCandidates(lines, env);
    candidates := ByRank(candidates);
    out := FirstDistinct(Lines(candidates));
  }

  /** The first five kept lines: at most five, pairwise different ignoring case, each the first of its form. */
  lemma FirstFiveDistinct(ls: seq<string>)
    ensures var out := Take(DedupLines(ls), 5);
            && |out| <= 5
            && (forall i, j :: 0 <= i < j < |out| ==> Lower(out[i]) != Lower(out[j]))
            && (forall x :: x in out ==> x in ls)
            && (forall j :: 0 <= j < |out| ==>
                  exists i :: 0 <= i < |ls| && out[j] == ls[i]
                              && forall i' :: 0 <= i' < i ==> Lower(ls[i']) != Lower(ls[i]))
  {
    var d := DedupLines(ls);
    DedupDistinct(ls);
    DedupKeepsFirst(ls);
    var out := Take(d, 5);
    assert forall j :: 0 <= j < |out| ==> out[j] == d[j];
  }

  lemma FirstFiveOrdered(ls: seq<string>, f: string -> int)
    requires forall i, j :: 0 <= i < j < |ls| ==> f(ls[i]) <= f(ls[j])
    ensures var out := Take(DedupLines(ls), 5);
            forall i, j :: 0 <= i < j < |out| ==> f(out[i]) <= f(out[j])
  {
    DedupKeepsOrder(ls, f);
    var d := DedupLines(ls);
    assert forall j :: 0 <= j < |Take(d, 5)| ==> Take(d, 5)[j] == d[j];
  }

  /** Every ranked line is classified, with its candidate's class, and the ranked lines are ordered by class. */
  lemma RankedLinesClassified(c: seq<Cand>, env: ProductEnv)
    requires forall k :: 0 <= k < |c| ==> Classify(c[k].line, env) == Some(c[k].priority)
    ensures var ranked := Lines(ByRank(c));
            && (forall l :: l in ranked ==> Classify(l, env).Some?)
            && (forall i, j :: 0 <= i < j < |ranked| ==> LineRank(ranked[i], env) <= LineRank(ranked[j], env))
  {
    var t := ByRank(c);
    ByRankMembers(c);
    ByRankSorted(c);
    forall k | 0 <= k < |t|
      ensures Classify(t[k].line, env) == Some(t[k].priority)
    {
      assert t[k] in c;
    }
  }

  /**
   * At most five lines, pairwise different ignoring case, each long enough,
   * not all upper-case, not a header, and listed high class first, then
   * medium, then low.
   */
  lemma ItemLinesSound(raw: string, env: ProductEnv)
    ensures var out := ItemLines(raw, env);
            && |out| <= 5
            && (forall i, j :: 0 <= i < j < |out| ==> Lower(out[i]) != Lower(out[j]))
            && (forall l :: l in out ==> |l| >= 10 && !IsAllUpper(l) && !env.isHeader(l))
            && (forall i, j :: 0 <= i < j < |out| ==> LineRank(out[i], env) <= LineRank(out[j], env))
  {
    var c := ItemCandidates(Filter(CleanedLines(raw, env), AtLeastSix), env);
    var ranked := Lines(ByRank(c));
    assert ranked == RankedLines(raw, env);
    RankedLinesClassified(c, env);
    FirstFiveDistinct(ranked);
    FirstFiveOrdered(ranked, l => LineRank(l, env));
  }

  /** Every returned line is the first ranked line of its lower-cased form. */
  lemma ItemLinesFirstOccurrence(raw: string, env: ProductEnv)
    ensures var ranked := RankedLines(raw, env);
            var out := ItemLines(raw, env);
            forall j :: 0 <= j < |out| ==>
              exists i :: 0 <= i < |ranked| && out[j] == ranked[i]
                          && forall i' :: 0 <= i' < i ==> Lower(ranked[i']) != Lower(ranked[i])
  {
    FirstFiveDistinct(RankedLines(raw, env));
  }

  // ---------------------------------------------------------------- pick_product_desc

  /** The test of the fallback loop: longer than 15, not a header, not a "City, ST" line. */
  predicate DescLike(l: string, env: ProductEnv) {
    |l| > 15 && !env.isHeader(l) && !env.isCityState(l)
  }

  /** The first line of `lines` the fallback loop returns, if any. */
  function FirstDescLine(lines: seq<string>, env: ProductEnv): (r: Option<string>)
    ensures r.Some? ==> DescLike(r.value, env)
                        && exists i :: 0 <= i < |lines| && lines[i] == r.value
                                       && forall j :: 0 <= j < i ==> !DescLike(lines[j], env)
    ensures r.None? <==> forall j :: 0 <= j < |lines| ==> !DescLike(lines[j], env)
  {
    if lines == [] then None
    else if DescLike(lines[0], env) then Some(lines[0])
    else
      var r := FirstDescLine(lines[1..], env);
      if r.Some? then
        var i :| 0 <= i < |lines[1..]| && lines[1..][i] == r.value
                 && forall j :: 0 <= j < i ==> !DescLike(lines[1..][j], env);
        assert lines[i + 1] == r.value;
        r
      else r
  }

  function PickSpec(raw: string, env: ProductEnv): string {
    var items := ItemLines(raw, env);
    if items == [] then
      match FirstDescLine(CleanedLines(raw, env), env)
      case Some(l) => l
      case None => "UNKNOWN"
    else Join(Take(items, 3), " | ")
  }

  /** `pick_product_desc`. */
  method PickProductDesc(raw: string, env: ProductEnv) returns (desc: string)
    ensures desc == PickSpec(raw, env)
  {
    var items := ExtractItemLines(raw, env);
    if items == [] {
      var lines := CleanedLines(raw, env);
      var i := 0;
      while i < |lines|
        invariant 0 <= i <= |lines|
        invariant FirstDescLine(lines, env) == FirstDescLine(lines[i..], env)
      {
        assert lines[i..][1..] == lines[i + 1..];
        if DescLike(lines[i], env) {
          return lines[i];
        }
        i := i + 1;
      }
      return "UNKNOWN";
    }
    desc := Join(Take(items, 3), " | ");
  }

  /** The first three parts joined, spelled out. */
  lemma JoinFirstThree(parts: seq<string>, sep: string)
    requires |parts| >= 2
    ensures |parts| == 2 ==> Join(Take(parts, 3), sep) == parts[0] + sep + parts[1]
    ensures |parts| >= 3 ==> Join(Take(parts, 3), sep) == parts[0] + sep + parts[1] + sep + parts[2]
  {
    var top := Take(parts, 3);
    assert top[1..] == Take(parts[1..], 2);
    if |parts| >= 3 {
      assert top[1..][1..] == [parts[2]];
    }
  }

  /**
   * The description is the joined top three items when there are items;
   * otherwise the first cleaned line that passes the fallback test, or
   * "UNKNOWN" exactly when no line does.
   */
  lemma PickProductDescCases(raw: string, env: ProductEnv)
    ensures var items, desc, lines := ItemLines(raw, env), PickSpec(raw, env), CleanedLines(raw, env);
            && (|items| == 1 ==> desc == items[0])
            && (|items| == 2 ==> desc == items[0] + " | " + items[1])
            && (|items| >= 3 ==> desc == items[0] + " | " + items[1] + " | " + items[2])
            && (items == [] && desc != "UNKNOWN" ==>
                  DescLike(desc, env)
                  && exists i :: 0 <= i < |lines| && lines[i] == desc && forall j :: 0 <= j < i ==> !DescLike(lines[j], env))
            && (items == [] ==> (desc == "UNKNOWN" <==> forall j :: 0 <= j < |lines| ==> !DescLike(lines[j], env)))
  {
    PickFromItems(raw, env);
    PickFromLines(raw, env);
  }

  /** With item lines present, the first three are joined. */
  lemma PickFromItems(raw: string, env: ProductEnv)
    ensures var items, desc := ItemLines(raw, env), PickSpec(raw, env);
            && (|items| == 1 ==> desc == items[0])
            && (|items| == 2 ==> desc == items[0] + " | " + items[1])
            && (|items| >= 3 ==> desc == items[0] + " | " + items[1] + " | " + items[2])
  {
    var items := ItemLines(raw, env);
    if |items| == 1 {
      assert Take(items, 3) == items;
    } else if |items| >= 2 {
      JoinFirstThree(items, " | ");
    }
  }

  /** Without item lines, the first description-like line is taken. */
  lemma PickFromLines(raw: string, env: ProductEnv)
    ensures var items, desc, lines := ItemLines(raw, env), PickSpec(raw, env), CleanedLines(raw, env);
            && (items == [] && desc != "UNKNOWN" ==>
                  DescLike(desc, env)
                  && exists i :: 0 <= i < |lines| && lines[i] == desc && forall j :: 0 <= j < i ==> !DescLike(lines[j], env))
            && (items == [] ==> (desc == "UNKNOWN" <==> forall j :: 0 <= j < |lines| ==> !DescLike(lines[j], env)))
  {
  }
}
