/**
 * Field extraction from OCR text (`invoice_guard/extract_fields.py`): the
 * three-pass vendor-name guess, the invoice number, the invoice date with
 * its fallback scan, the total amount found near a keyword, and the
 * currency. The regular expressions, `str.splitlines`, `dateutil` and
 * `float()` are functions of the environment.
 */
module ExtractFields {
  import opened Wrappers
  import opened Text
  import opened Seqs

  /**
   * The library calls of the extractor, each as a function of its input:
   * `splitlines`, the `group(1)` of `SELLER_INLINE_RE.search`,
   * `VENDOR_LABEL_RE.match`, `INVOICE_NO_RE.search` and
   * `DATE_HINT_RE.search` (None when there is no match), the date-shaped
   * substrings found by `re.findall`, `_parse_date`, `MONEY_RE.findall`, and
   * `float()` (None when it raises).
   */
  datatype ExtractEnv = ExtractEnv(
    splitLines: string -> seq<string>,
    sellerInline: string -> Option<string>,
    vendorLabel: string -> Option<string>,
    invoiceNumber: string -> Option<string>,
    dateHint: string -> Option<string>,
    dateCandidates: string -> seq<string>,
    parseDate: string -> Option<string>,
    money: string -> seq<string>,
    parseFloat: string -> Option<real>)

  const BadTokens: seq<string> := [
    "invoice", "bill to", "ship to", "date", "due", "total", "balance",
    "tax id", "tin", "vat", "gst", "ssn", "po", "purchase order",
    "amount", "payment", "terms", "remit", "account", "routing"]

  const GenericLabels: set<string> := {"seller", "client", "seller:", "client:", "seller: client:"}

  /** The lines pass 2 takes for a bare label with the name on a following line. */
  const BareLabels: set<string> := {"seller:", "seller", "vendor:", "vendor", "from:", "from", "supplier:", "supplier"}

  /** The lower-cased candidates pass 3 rejects besides the generic labels. */
  const PassThreeRejects: set<string> := {"seller", "client", "seller: client:"}

  /** The characters `strip(" -—–\t")` removes around a candidate. */
  predicate IsPad(c: char) {
    c == ' ' || c == '-' || c == '\U{2014}' || c == '\U{2013}' || c == '\t'
  }

  /** The characters `strip(" -—–")` removes around a bare label. */
  predicate IsLabelPad(c: char) {
    c == ' ' || c == '-' || c == '\U{2014}' || c == '\U{2013}'
  }

  predicate HasBadToken(low: string) {
    exists k :: 0 <= k < |BadTokens| && Contains(low, BadTokens[k])
  }

  /** Lower-casing keeps every `@` and makes none, so the `@` test reads the text itself. */
  lemma AtUnderLower(s: string)
    ensures Contains(Lower(s), "@") <==> exists k :: 0 <= k < |s| && s[k] == '@'
  {
    var low := Lower(s);
    if Contains(low, "@") {
      var i := IndexOf(low, "@");
      assert low[i..i + 1] == "@";
      assert low[i] == '@';
      assert s[i] == '@';
    }
    if k :| 0 <= k < |s| && s[k] == '@' {
      assert low[k..k + 1] == "@";
      assert OccursAt(low, "@", k);
    }
  }

  /** `looks_like_metadata`: a bad token, an e-mail or web address, or more digits than max(3, len // 3). */
  predicate LooksLikeMetadata(s: string)
    ensures (exists k :: 0 <= k < |s| && s[k] == '@') ==> LooksLikeMetadata(s)
    ensures DigitCount(s) > 3 && DigitCount(s) > |s| / 3 ==> LooksLikeMetadata(s)
  {
    AtUnderLower(s);
    var low := Lower(s);
    HasBadToken(low) || Contains(low, "@") || Contains(low, "www.")
    || DigitCount(s) > (if 3 >= |s| / 3 then 3 else |s| / 3)
  }

  /**
   * The metadata test in both directions: a bad token in the lower-cased
   * text, an `@` anywhere, `www.` in any case, or more digits than both 3
   * and a third of the length.
   */
  lemma LooksLikeMetadataIff(s: string)
    ensures LooksLikeMetadata(s) <==>
              || HasBadToken(Lower(s))
              || (exists k :: 0 <= k < |s| && s[k] == '@')
              || Contains(Lower(s), "www.")
              || (DigitCount(s) > 3 && DigitCount(s) > |s| / 3)
  {
    AtUnderLower(s);
  }

  /** `cand.lower().strip() in GENERIC_LABELS`. */
  predicate IsGeneric(cand: string) {
    Trim(Lower(cand)) in GenericLabels
  }

  /** The acceptance test of passes 1 and 2. */
  predicate Plausible(cand: string) {
    cand != "" && !LooksLikeMetadata(cand) && 3 <= |cand| <= 60
  }

  /** A captured group or a line with the padding stripped. */
  function Candidate(g: string): (r: string)
    ensures |r| <= |g|
    ensures r != [] ==> !IsPad(r[0]) && !IsPad(r[|r| - 1])
  {
    Strip(g, IsPad)
  }

  /** The number of lines the passes scan: `lines[:30]`. */
  function Scanned(lines: seq<string>): nat {
    if |lines| < 30 then |lines| else 30
  }

  // ---------------------------------------------------------------- pass 1

  /** What one captured group gives: a generic label (skip the line), an accepted name, or nothing. */
  datatype Attempt = GenericLabel | Accepted(name: string) | Rejected

  function AttemptOn(g: Option<string>): Attempt {
    if g.None? then Rejected
    else
      var cand := Candidate(g.value);
      if IsGeneric(cand) then GenericLabel
      else if Plausible(cand) then Accepted(Take(cand, 80))
      else Rejected
  }

  datatype LineOutcome = Found(name: string) | NextLine

  /**
   * One line of pass 1: the inline `Seller: X` form, then the line-start
   * label form. A generic candidate moves on to the next line at once,
   * without trying the second form.
   */
  function PassOneLine(ln: string, env: ExtractEnv): LineOutcome {
    var s := Trim(ln);
    if s == "" then NextLine
    else match AttemptOn(env.sellerInline(s))
      case GenericLabel => NextLine
      case Accepted(name) => Found(name)
      case Rejected =>
        match AttemptOn(env.vendorLabel(s))
        case Accepted(name) => Found(name)
        case _ => NextLine
  }

  function PassOneFrom(lines: seq<string>, i: nat, env: ExtractEnv): Option<string>
    requires i <= Scanned(lines)
    decreases Scanned(lines) - i
  {
    if i == Scanned(lines) then None
    else match PassOneLine(lines[i], env)
      case Found(name) => Some(name)
      case NextLine => PassOneFrom(lines, i + 1, env)
  }

  // ---------------------------------------------------------------- pass 2

  /** `ln.strip().lower().strip(" -—–")` is a bare seller or vendor label. */
  predicate IsBareLabel(ln: string) {
    Strip(Lower(Trim(ln)), IsLabelPad) in BareLabels
  }

  predicate PassTwoAccepts(cand: string) {
    !IsGeneric(cand) && Plausible(cand)
  }

  /** `min(i + 6, len(lines))`: the end of the lines looked at after a bare label. */
  function FollowEnd(lines: seq<string>, i: nat): nat {
    if i + 6 <= |lines| then i + 6 else |lines|
  }

  function FollowFrom(lines: seq<string>, i: nat, j: nat): Option<string>
    requires j <= FollowEnd(lines, i)
    decreases FollowEnd(lines, i) - j
  {
    if j == FollowEnd(lines, i) then None
    else if PassTwoAccepts(Candidate(lines[j])) then Some(Take(Candidate(lines[j]), 80))
    else FollowFrom(lines, i, j + 1)
  }

  function PassTwoFrom(lines: seq<string>, i: nat): Option<string>
    requires i <= Scanned(lines)
    decreases Scanned(lines) - i
  {
    if i == Scanned(lines) then None
    else if IsBareLabel(lines[i]) && FollowFrom(lines, i, i + 1).Some? then FollowFrom(lines, i, i + 1)
    else PassTwoFrom(lines, i + 1)
  }

  // ---------------------------------------------------------------- pass 3

  /** Pass 3 keeps a candidate of 4 to 40 characters that is neither metadata nor a generic label. */
  predicate PassThreeAccepts(cand: string) {
    cand != "" && |cand| >= 3 && !LooksLikeMetadata(cand) && 4 <= |cand| <= 40
    && !IsGeneric(cand) && Lower(cand) !in PassThreeRejects
  }

  function PassThreeFrom(lines: seq<string>, i: nat): Option<string>
    requires i <= Scanned(lines)
    decreases Scanned(lines) - i
  {
    if i == Scanned(lines) then None
    else if PassThreeAccepts(Candidate(lines[i])) then Some(Take(Candidate(lines[i]), 80))
    else PassThreeFrom(lines, i + 1)
  }

  /** `_clean_vendor_guess`: the first pass that finds a name decides. */
  function VendorGuess(lines: seq<string>, env: ExtractEnv): Option<string> {
    var one := PassOneFrom(lines, 0, env);
    if one.Some? then one
    else
      var two := PassTwoFrom(lines, 0);
      if two.Some? then two else PassThreeFrom(lines, 0)
  }

  /** The tests pass 1 applies to one captured group: skip a generic label, keep a plausible name. */
  method TryGroup(g: Option<string>) returns (a: Attempt)
    ensures a == AttemptOn(g)
  {
    if g.None? {
      return Rejected;
    }
    var cand := Candidate(g.value);
    if IsGeneric(cand) {
      return GenericLabel;
    }
    if Plausible(cand) {
      return Accepted(Take(cand, 80));
    }
    return Rejected;
  }

  /** Pass 1 of `_clean_vendor_guess`: the keyword-driven loop over the first 30 lines. */
  method PassOne(lines: seq<string>, env: ExtractEnv) returns (r: Option<string>)
    ensures r == PassOneFrom(lines, 0, env)
  {
    var limit := if |lines| < 30 then |lines| else 30;
    var i := 0;
    while i < limit
      invariant 0 <= i <= limit == Scanned(lines)
      invariant PassOneFrom(lines, 0, env) == PassOneFrom(lines, i, env)
    {
      var s := Trim(lines[i]);
      if s == "" {
        i := i + 1;
        continue;
      }
      var first := TryGroup(env.sellerInline(s));
      if first.GenericLabel? {
        i := i + 1;
        continue;
      }
      if first.Accepted? {
        return Some(first.name);
      }
      var second := TryGroup(env.vendorLabel(s));
      if second.Accepted? {
        return Some(second.name);
      }
      i := i + 1;
    }
    return None;
  }

  /** The inner loop of pass 2: the next acceptable line among the five after a bare label. */
  method FollowLabel(lines: seq<string>, i: nat) returns (r: Option<string>)
    requires i < |lines|
    ensures r == FollowFrom(lines, i, i + 1)
  {
    var end := if i + 6 <= |lines| then i + 6 else |lines|;
    var j := i + 1;
    while j < end
      invariant i + 1 <= j <= end == FollowEnd(lines, i)
      invariant FollowFrom(lines, i, i + 1) == FollowFrom(lines, i, j)
    {
      var cand := Candidate(lines[j]);
      FollowStep(lines, i, j);
      if IsGeneric(cand) {
        j := j + 1;
        continue;
      }
      if Plausible(cand) {
        return Some(Take(cand, 80));
      }
      j := j + 1;
    }
    return None;
  }

  /** One step of the inner loop: the line at `j` either gives the name or passes the scan on. */
  lemma FollowStep(lines: seq<string>, i: nat, j: nat)
    requires j < FollowEnd(lines, i)
    ensures var cand := Candidate(lines[j]);
            FollowFrom(lines, i, j) == if PassTwoAccepts(cand) then Some(Take(cand, 80)) else FollowFrom(lines, i, j + 1)
  {
  }

  /** Pass 2 of `_clean_vendor_guess`: a bare label, then the name on a following line. */
  method PassTwo(lines: seq<string>) returns (r: Option<string>)
    ensures r == PassTwoFrom(lines, 0)
  {
    var limit := if |lines| < 30 then |lines| else 30;
    var i := 0;
    while i < limit
      invariant 0 <= i <= limit == Scanned(lines)
      invariant PassTwoFrom(lines, 0) == PassTwoFrom(lines, i)
    {
      var found := PassTwoLine(lines, i);
      if found.Some? {
        return found;
      }
      i := i + 1;
    }
    return None;
  }

  /** One line of pass 2: a bare label yields the name that follows it, if any; otherwise the scan goes on. */
  method PassTwoLine(lines: seq<string>, i: nat) returns (found: Option<string>)
    requires i < Scanned(lines)
    ensures found.Some? ==> found == PassTwoFrom(lines, i)
    ensures found.None? ==> PassTwoFrom(lines, i) == PassTwoFrom(lines, i + 1)
  {
    found := None;
    if IsBareLabel(lines[i]) {
      found := FollowLabel(lines, i);
    }
  }

  /** Pass 3 of `_clean_vendor_guess`: the first plausible name-like line. */
  method PassThree(lines: seq<string>) returns (r: Option<string>)
    ensures r == PassThreeFrom(lines, 0)
  {
    var limit := if |lines| < 30 then |lines| else 30;
    var i := 0;
    while i < limit
      invariant 0 <= i <= limit == Scanned(lines)
      invariant PassThreeFrom(lines, 0) == PassThreeFrom(lines, i)
    {
      var cand := Candidate(lines[i]);
      // the loop's four `continue` tests and its length window, in one predicate
      if PassThreeAccepts(cand) {
        return Some(Take(cand, 80));
      }
      i := i + 1;
    }
    return None;
  }

  /** `_clean_vendor_guess`: the three passes in order, the first name found returned. */
  method CleanVendorGuess(lines: seq<string>, env: ExtractEnv) returns (r: Option<string>)
    ensures r == VendorGuess(lines, env)
  {
    r := PassOne(lines, env);
    if r.Some? {
      return;
    }
    r := PassTwo(lines);
    if r.Some? {
      return;
    }
    r := PassThree(lines);
  }

  // ---------------------------------------------------------------- what the guess can be

  /**
   * What every guess satisfies: not metadata-like, not a generic label, 3 to
   * 60 characters, and no padding at either end.
   */
  predicate GoodGuess(name: string) {
    && !LooksLikeMetadata(name) && !IsGeneric(name)
    && 3 <= |name| <= 60
    && !IsPad(name[0]) && !IsPad(name[|name| - 1])
  }

  /** A good guess is no address: no `@`, no `www.` in any case, and at most max(3, len // 3) digits. */
  lemma GoodGuessIsNoAddress(name: string)
    requires GoodGuess(name)
    ensures forall k :: 0 <= k < |name| ==> name[k] != '@'
    ensures !Contains(Lower(name), "www.")
    ensures DigitCount(name) <= 3 || DigitCount(name) <= |name| / 3
  {
    LooksLikeMetadataIff(name);
  }

  /** A candidate that passes 2 accepts is a good guess, and the `[:80]` cut leaves it whole. */
  lemma AcceptedIsGood(g: string)
    requires PassTwoAccepts(Candidate(g))
    ensures Take(Candidate(g), 80) == Candidate(g) && GoodGuess(Candidate(g))
  {
  }

  lemma AttemptSound(g: Option<string>)
    ensures AttemptOn(g).Accepted? ==> GoodGuess(AttemptOn(g).name)
  {
    if AttemptOn(g).Accepted? {
      AcceptedIsGood(g.value);
    }
  }

  lemma {:induction false} PassOneSound(lines: seq<string>, i: nat, env: ExtractEnv)
    requires i <= Scanned(lines)
    ensures var r := PassOneFrom(lines, i, env);
            r.Some? ==> GoodGuess(r.value)
    decreases Scanned(lines) - i
  {
    if i < Scanned(lines) {
      var s := Trim(lines[i]);
      AttemptSound(env.sellerInline(s));
      AttemptSound(env.vendorLabel(s));
      PassOneSound(lines, i + 1, env);
    }
  }

  /** The follow-up scan returns the acceptable candidate of one of the lines it looks at. */
  lemma {:induction false} FollowSound(lines: seq<string>, i: nat, j: nat)
    requires j <= FollowEnd(lines, i)
    ensures var r := FollowFrom(lines, i, j);
            r.Some? ==> GoodGuess(r.value)
                        && exists k :: j <= k < FollowEnd(lines, i) && r.value == Candidate(lines[k])
    decreases FollowEnd(lines, i) - j
  {
    if j < FollowEnd(lines, i) {
      if PassTwoAccepts(Candidate(lines[j])) {
        AcceptedIsGood(lines[j]);
        assert FollowFrom(lines, i, j) == Some(Candidate(lines[j]));
      } else {
        assert FollowFrom(lines, i, j) == FollowFrom(lines, i, j + 1);
        FollowSound(lines, i, j + 1);
      }
    }
  }

  /** `name` is the candidate of one of the five lines after a bare label at index `k`. */
  predicate AfterLabel(lines: seq<string>, k: int, name: string) {
    0 <= k < |lines| && IsBareLabel(lines[k])
    && exists j :: k < j <= k + 5 && j < |lines| && name == Candidate(lines[j])
  }

  /** Pass 2's result is what the follow-up scan gives after a bare label at or after `i`. */
  predicate LabelFollowAt(lines: seq<string>, k: int, name: string) {
    0 <= k < Scanned(lines) && IsBareLabel(lines[k]) && FollowFrom(lines, k, k + 1) == Some(name)
  }

  lemma {:induction false} PassTwoFromLabel(lines: seq<string>, i: nat)
    requires i <= Scanned(lines)
    ensures var r := PassTwoFrom(lines, i);
            r.Some? ==> exists k :: i <= k && LabelFollowAt(lines, k, r.value)
    decreases Scanned(lines) - i
  {
    if i < Scanned(lines) {
      if IsBareLabel(lines[i]) && FollowFrom(lines, i, i + 1).Some? {
        assert LabelFollowAt(lines, i, PassTwoFrom(lines, i).value);
      } else {
        PassTwoFromLabel(lines, i + 1);
      }
    }
  }

  /**
   * Pass 2 returns an acceptable candidate taken from one of the five lines
   * after a bare label among the first 30 lines.
   */
  lemma PassTwoSound(lines: seq<string>, i: nat)
    requires i <= Scanned(lines)
    ensures var r := PassTwoFrom(lines, i);
            r.Some? ==> GoodGuess(r.value) && exists k :: i <= k < Scanned(lines) && AfterLabel(lines, k, r.value)
  {
    var r := PassTwoFrom(lines, i);
    PassTwoFromLabel(lines, i);
    if r.Some? {
      var k :| i <= k && LabelFollowAt(lines, k, r.value);
      FollowSound(lines, k, k + 1);
      assert AfterLabel(lines, k, r.value);
    }
  }

  /** Pass 3 returns a good guess of 4 to 40 characters made from one of the first 30 lines. */
  lemma {:induction false} PassThreeSound(lines: seq<string>, i: nat)
    requires i <= Scanned(lines)
    ensures var r := PassThreeFrom(lines, i);
            r.Some? ==> GoodGuess(r.value) && 4 <= |r.value| <= 40
                        && exists k :: i <= k < Scanned(lines) && r.value == Candidate(lines[k])
    decreases Scanned(lines) - i
  {
    if i < Scanned(lines) {
      var cand := Candidate(lines[i]);
      if PassThreeAccepts(cand) {
        assert Take(cand, 80) == cand;
        assert PassThreeFrom(lines, i) == Some(cand);
      } else {
        assert PassThreeFrom(lines, i) == PassThreeFrom(lines, i + 1);
        PassThreeSound(lines, i + 1);
      }
    }
  }

  /**
   * A vendor guess is never metadata-like nor a generic label, has 3 to 60
   * characters (so the `[:80]` cut never shortens it) and carries no padding
   * at either end.
   */
  lemma VendorGuessSound(lines: seq<string>, env: ExtractEnv)
    ensures var r := VendorGuess(lines, env);
            r.Some? ==> GoodGuess(r.value)
  {
    PassOneSound(lines, 0, env);
    PassTwoSound(lines, 0);
    PassThreeSound(lines, 0);
  }

  /** A guess found by the fallback pass has 4 to 40 characters. */
  lemma FallbackGuessLength(lines: seq<string>, env: ExtractEnv)
    requires PassOneFrom(lines, 0, env).None? && PassTwoFrom(lines, 0).None?
    ensures var r := VendorGuess(lines, env);
            r.Some? ==> 4 <= |r.value| <= 40
  {
    PassThreeSound(lines, 0);
  }

  // ---------------------------------------------------------------- which lines are read

  lemma {:induction false} PassOneLocal(lines: seq<string>, i: nat, env: ExtractEnv)
    requires i <= Scanned(lines)
    ensures Scanned(Take(lines, 35)) == Scanned(lines)
    ensures PassOneFrom(lines, i, env) == PassOneFrom(Take(lines, 35), i, env)
    decreases Scanned(lines) - i
  {
    if i < Scanned(lines) {
      assert Take(lines, 35)[i] == lines[i];
      PassOneLocal(lines, i + 1, env);
    }
  }

  lemma {:induction false} FollowLocal(lines: seq<string>, i: nat, j: nat)
    requires i < 30 && j <= FollowEnd(lines, i)
    ensures FollowEnd(Take(lines, 35), i) == FollowEnd(lines, i)
    ensures FollowFrom(lines, i, j) == FollowFrom(Take(lines, 35), i, j)
    decreases FollowEnd(lines, i) - j
  {
    if j < FollowEnd(lines, i) {
      assert Take(lines, 35)[j] == lines[j];
      FollowLocal(lines, i, j + 1);
    }
  }

  lemma {:induction false} PassTwoLocal(lines: seq<string>, i: nat)
    requires i <= Scanned(lines)
    ensures Scanned(Take(lines, 35)) == Scanned(lines)
    ensures PassTwoFrom(lines, i) == PassTwoFrom(Take(lines, 35), i)
    decreases Scanned(lines) - i
  {
    if i < Scanned(lines) {
      assert Take(lines, 35)[i] == lines[i];
      FollowLocal(lines, i, i + 1);
      PassTwoLocal(lines, i + 1);
    }
  }

  lemma {:induction false} PassThreeLocal(lines: seq<string>, i: nat)
    requires i <= Scanned(lines)
    ensures Scanned(Take(lines, 35)) == Scanned(lines)
    ensures PassThreeFrom(lines, i) == PassThreeFrom(Take(lines, 35), i)
    decreases Scanned(lines) - i
  {
    if i < Scanned(lines) {
      assert Take(lines, 35)[i] == lines[i];
      PassThreeLocal(lines, i + 1);
    }
  }

  /**
   * The guess reads at most the first 35 lines: passes 1 and 3 look at the
   * first 30, and pass 2 at most five lines past a bare label among them.
   */
  lemma VendorGuessReadsFirstLines(lines: seq<string>, env: ExtractEnv)
    ensures VendorGuess(lines, env) == VendorGuess(Take(lines, 35), env)
  {
    PassOneLocal(lines, 0, env);
    PassTwoLocal(lines, 0);
    PassThreeLocal(lines, 0);
  }

  // ---------------------------------------------------------------- lines

  /** `[l.strip() for l in lines]` with the empty lines dropped. */
  function CleanLines(raw: seq<string>): (r: seq<string>)
    ensures |r| <= |raw|
    ensures forall k :: 0 <= k < |r| ==> r[k] != [] && !IsSpace(r[k][0]) && !IsSpace(r[k][|r[k]| - 1])
  {
    if raw == [] then []
    else
      var t := Trim(raw[0]);
      (if t == [] then [] else [t]) + CleanLines(raw[1..])
  }

  /** The cleaned lines are exactly the non-empty stripped input lines. */
  lemma {:induction false} CleanLinesMembers(raw: seq<string>)
    ensures forall x :: x in CleanLines(raw) <==> x != [] && exists k :: 0 <= k < |raw| && x == Trim(raw[k])
  {
    if raw != [] {
      CleanLinesMembers(raw[1..]);
      forall x | x != [] && exists k :: 0 <= k < |raw| && x == Trim(raw[k])
        ensures x in CleanLines(raw)
      {
        var k :| 0 <= k < |raw| && x == Trim(raw[k]);
        if k > 0 {
          assert x == Trim(raw[1..][k - 1]);
        }
      }
      forall x | x in CleanLines(raw)
        ensures exists k :: 0 <= k < |raw| && x == Trim(raw[k])
      {
        if x in CleanLines(raw[1..]) {
          var k :| 0 <= k < |raw[1..]| && x == Trim(raw[1..][k]);
          assert x == Trim(raw[k + 1]);
        } else {
          assert x == Trim(raw[0]);
        }
      }
    }
  }

  // ---------------------------------------------------------------- invoice number

  /** `m.group(1).strip().upper()` when `INVOICE_NO_RE` matches. */
  function InvoiceNumberOf(text: string, env: ExtractEnv): (r: Option<string>)
    ensures r.None? <==> env.invoiceNumber(text).None?
    ensures r.Some? ==> NoLower(r.value)
    ensures r.Some? && r.value != [] ==> !IsSpace(r.value[0]) && !IsSpace(r.value[|r.value| - 1])
    ensures r.Some? ==> Lower(r.value) == Lower(Trim(env.invoiceNumber(text).value))
  {
    match env.invoiceNumber(text)
    case None => None
    case Some(g) => LowerUpper(Trim(g)); Some(Upper(Trim(g)))
  }

  // ---------------------------------------------------------------- date

  /** A parsed date Python treats as true: present and non-empty. */
  predicate Truthy(d: Option<string>) {
    d.Some? && d.value != ""
  }

  /**
   * The fallback loop over the date-shaped substrings: each one is parsed in
   * turn and the loop stops at the first true result; when none is, the
   * result of the last attempt stays (`last` before any attempt).
   */
  function DateFallback(cands: seq<string>, env: ExtractEnv, last: Option<string>): Option<string> {
    if cands == [] then last
    else
      var d := env.parseDate(cands[0]);
      if Truthy(d) then d else DateFallback(cands[1..], env, d)
  }

  /** The hint line's date when `DATE_HINT_RE` matches and it parses, else the fallback over the first five candidates. */
  function InvoiceDateOf(text: string, env: ExtractEnv): Option<string> {
    var hinted := match env.dateHint(text) case Some(h) => env.parseDate(h) case None => None;
    if hinted.Some? then hinted
    else DateFallback(Take(env.dateCandidates(text), 5), env, None)
  }

  /**
   * The fallback gives the parse of the first candidate that parses to a
   * non-empty date; when there is none, the parse of the last candidate, or
   * `last` when there are no candidates.
   */
  lemma {:induction false} DateFallbackFirst(cands: seq<string>, env: ExtractEnv, last: Option<string>)
    ensures var f := FirstIndex(cands, dc => Truthy(env.parseDate(dc)));
            var r := DateFallback(cands, env, last);
            && (f.Some? ==> r == env.parseDate(cands[f.value]))
            && (f.None? ==> r == if cands == [] then last else env.parseDate(cands[|cands| - 1]))
  {
    var p := dc => Truthy(env.parseDate(dc));
    if cands != [] {
      DateFallbackFirst(cands[1..], env, env.parseDate(cands[0]));
      var f, g := FirstIndex(cands, p), FirstIndex(cands[1..], p);
      if !p(cands[0]) {
        if g.Some? {
          FirstIndexOfScan(cands, p, Some(g.value + 1));
        } else {
          assert forall j :: 0 <= j < |cands| ==> !p(cands[j]) by {
            forall j | 0 <= j < |cands| ensures !p(cands[j]) {
              if j > 0 { assert cands[j] == cands[1..][j - 1]; }
            }
          }
        }
      } else {
        FirstIndexOfScan(cands, p, Some(0));
      }
    }
  }

  /** The date is the hint's when that parses at all; otherwise it comes from one of the first five candidates. */
  lemma InvoiceDateSource(text: string, env: ExtractEnv)
    ensures var r := InvoiceDateOf(text, env);
            var cands := Take(env.dateCandidates(text), 5);
            && (env.dateHint(text).Some? && env.parseDate(env.dateHint(text).value).Some?
                ==> r == env.parseDate(env.dateHint(text).value))
            && (r.Some? && (env.dateHint(text).None? || env.parseDate(env.dateHint(text).value).None?)
                ==> exists k :: 0 <= k < |cands| && k < 5 && r == env.parseDate(cands[k]))
  {
    var cands := Take(env.dateCandidates(text), 5);
    var r := InvoiceDateOf(text, env);
    DateFallbackFirst(cands, env, None);
    var f := FirstIndex(cands, dc => Truthy(env.parseDate(dc)));
    if r.Some? && (env.dateHint(text).None? || env.parseDate(env.dateHint(text).value).None?) {
      if f.Some? {
        assert r == env.parseDate(cands[f.value]);
      } else {
        assert r == env.parseDate(cands[|cands| - 1]);
      }
    }
  }

  // ---------------------------------------------------------------- amounts

  predicate NotComma(c: char) { c != ',' }

  /** `a.replace(",", "")`. */
  function RemoveCommas(a: string): (r: string)
    ensures |r| <= |a| && forall k :: 0 <= k < |r| ==> r[k] != ','
  {
    FilterChars(a, NotComma)
  }

  /** The values `float()` accepts among the money matches, in order; the others are skipped. */
  function ParsedAmounts(amounts: seq<string>, env: ExtractEnv): (r: seq<real>)
    ensures |r| <= |amounts|
  {
    if amounts == [] then []
    else
      var init := ParsedAmounts(amounts[..|amounts| - 1], env);
      match env.parseFloat(RemoveCommas(amounts[|amounts| - 1]))
      case Some(v) => init + [v]
      case None => init
  }

  /** A parsed amount comes from one of the matches. */
  lemma {:induction false} ParsedAmountsFrom(amounts: seq<string>, env: ExtractEnv)
    ensures forall v :: v in ParsedAmounts(amounts, env)
              ==> exists k :: 0 <= k < |amounts| && env.parseFloat(RemoveCommas(amounts[k])) == Some(v)
  {
    if amounts != [] {
      var init := amounts[..|amounts| - 1];
      ParsedAmountsFrom(init, env);
      forall v | v in ParsedAmounts(amounts, env)
        ensures exists k :: 0 <= k < |amounts| && env.parseFloat(RemoveCommas(amounts[k])) == Some(v)
      {
        if v in ParsedAmounts(init, env) {
          var k :| 0 <= k < |init| && env.parseFloat(RemoveCommas(init[k])) == Some(v);
          assert amounts[k] == init[k];
        } else {
          assert env.parseFloat(RemoveCommas(amounts[|amounts| - 1])) == Some(v);
        }
      }
    }
  }

  /** `max(vals)`. */
  function MaxOf(vals: seq<real>): (r: real)
    requires vals != []
    ensures r in vals && forall k :: 0 <= k < |vals| ==> vals[k] <= r
  {
    if |vals| == 1 then vals[0]
    else
      var m := MaxOf(vals[1..]);
      if vals[0] >= m then vals[0] else m
  }

  /** `ocr_text[max(0, idx - 50): idx + 120]`. */
  function AmountWindow(text: string, idx: nat): string {
    Window(text, if idx < 50 then 0 else idx - 50, idx + 120)
  }

  /** The amounts parsed from the window around the first occurrence of `keyword` in the lower-cased text. */
  function AmountsNear(text: string, keyword: string, env: ExtractEnv): seq<real> {
    var idx := IndexOf(Lower(text), keyword);
    if idx < 0 then [] else ParsedAmounts(env.money(AmountWindow(text, idx)), env)
  }

  /** `v` is the largest of the amounts parsed near `keyword`. */
  predicate LargestNear(text: string, keyword: string, env: ExtractEnv, v: real) {
    var vals := AmountsNear(text, keyword, env);
    v in vals && forall w :: w in vals ==> w <= v
  }

  /** `find_amount_near`: the largest amount parsed near the keyword's first occurrence, or None. */
  function AmountNear(text: string, keyword: string, env: ExtractEnv): (r: Option<real>)
    ensures r.None? <==> AmountsNear(text, keyword, env) == []
    ensures r.Some? ==> LargestNear(text, keyword, env, r.value)
    ensures !Contains(Lower(text), keyword) ==> r.None?
  {
    var vals := AmountsNear(text, keyword, env);
    if vals == [] then None else Some(MaxOf(vals))
  }

  /** `find_amount_near` as written: the early exits, then the loop that collects the values `float()` accepts. */
  method FindAmountNear(text: string, lowered: string, keyword: string, env: ExtractEnv) returns (r: Option<real>)
    requires lowered == Lower(text)
    ensures r == AmountNear(text, keyword, env)
  {
    var idx := IndexOf(lowered, keyword);
    if idx == -1 {
      return None;
    }
    var window := AmountWindow(text, idx);
    var amounts := env.money(window);
    if amounts == [] {
      return None;
    }
    var vals: seq<real> := [];
    var i := 0;
    while i < |amounts|
      invariant 0 <= i <= |amounts|
      invariant vals == ParsedAmounts(amounts[..i], env)
    {
      assert amounts[..i + 1][..i] == amounts[..i];
      var parsed := env.parseFloat(RemoveCommas(amounts[i]));
      if parsed.Some? {
        vals := vals + [parsed.value];
      }
      i := i + 1;
    }
    assert amounts[..i] == amounts;
    if vals == [] {
      return None;
    }
    return Some(MaxOf(vals));
  }

  /** An amount Python's `or` keeps: present and non-zero. */
  predicate TruthyAmount(a: Option<real>) {
    a.Some? && a.value != 0.0
  }

  /** The keywords the total is looked for near, in order of preference. */
  const TotalKeywords: seq<string> := ["amount due", "total", "balance due"]

  /** `find_amount_near("amount due") or find_amount_near("total") or find_amount_near("balance due")`. */
  function TotalAmountOf(text: string, env: ExtractEnv): Option<real> {
    var due := AmountNear(text, "amount due", env);
    if TruthyAmount(due) then due
    else
      var total := AmountNear(text, "total", env);
      if TruthyAmount(total) then total else AmountNear(text, "balance due", env)
  }

  /**
   * The total is the largest amount near one of the three keywords, tried
   * in order, and a zero found near an earlier keyword is passed over as
   * Python's `or` passes over `0.0`.
   */
  lemma TotalAmountChoice(text: string, env: ExtractEnv)
    ensures var r := TotalAmountOf(text, env);
            && (r.Some? ==> exists kw :: kw in TotalKeywords && LargestNear(text, kw, env, r.value))
            && (TruthyAmount(AmountNear(text, "amount due", env)) ==> r == AmountNear(text, "amount due", env))
            && (AmountNear(text, "amount due", env) == Some(0.0) && TruthyAmount(AmountNear(text, "total", env))
                ==> r == AmountNear(text, "total", env))
            && (r.Some? && r.value == 0.0 ==> r == AmountNear(text, "balance due", env))
  {
    var r := TotalAmountOf(text, env);
    if r.Some? {
      if r == AmountNear(text, TotalKeywords[0], env) {
        assert LargestNear(text, TotalKeywords[0], env, r.value);
      } else if r == AmountNear(text, TotalKeywords[1], env) {
        assert LargestNear(text, TotalKeywords[1], env, r.value);
      } else {
        assert LargestNear(text, TotalKeywords[2], env, r.value);
      }
    }
  }

  // ---------------------------------------------------------------- currency

  /** `"USD"` when the lower-cased text contains "usd" or the text contains "$". */
  function CurrencyOf(text: string): (r: Option<string>)
    ensures r.Some? ==> r.value == "USD"
  {
    if Contains(Lower(text), "usd") || Contains(text, "$") then Some("USD") else None
  }

  lemma DollarUnderCase(text: string)
    ensures Contains(Upper(text), "$") <==> Contains(text, "$")
    ensures Contains(Lower(text), "$") <==> Contains(text, "$")
  {
    forall k ensures OccursAt(Upper(text), "$", k) <==> OccursAt(text, "$", k) {
      if 0 <= k < |text| {
        assert Upper(text)[k..k + 1] == [Upper(text)[k]] && text[k..k + 1] == [text[k]];
      }
    }
    forall k ensures OccursAt(Lower(text), "$", k) <==> OccursAt(text, "$", k) {
      if 0 <= k < |text| {
        assert Lower(text)[k..k + 1] == [Lower(text)[k]] && text[k..k + 1] == [text[k]];
      }
    }
  }

  /** The currency does not depend on letter case. */
  lemma CurrencyIgnoresCase(text: string)
    ensures CurrencyOf(Upper(text)) == CurrencyOf(text)
    ensures CurrencyOf(Lower(text)) == CurrencyOf(text)
  {
    LowerUpper(text);
    LowerIdempotent(text);
    DollarUnderCase(text);
  }

  /** "usd" starts at `k`, in any mix of letter case. */
  predicate UsdAt(text: string, k: int) {
    0 <= k && k + 3 <= |text|
    && LowerChar(text[k]) == 'u' && LowerChar(text[k + 1]) == 's' && LowerChar(text[k + 2]) == 'd'
  }

  /** The currency is USD exactly when the text holds "usd" in any case or a dollar sign. */
  lemma CurrencyIff(text: string)
    ensures CurrencyOf(text) == Some("USD")
            <==> (exists k :: UsdAt(text, k)) || (exists k :: 0 <= k < |text| && text[k] == '$')
  {
    var low := Lower(text);
    forall k ensures OccursAt(low, "usd", k) <==> UsdAt(text, k) {
      if 0 <= k && k + 3 <= |text| {
        assert low[k..k + 3] == [low[k], low[k + 1], low[k + 2]];
      }
    }
    forall k ensures OccursAt(text, "$", k) <==> 0 <= k < |text| && text[k] == '$' {
      if 0 <= k < |text| {
        assert text[k..k + 1] == [text[k]];
      }
    }
  }

  // ---------------------------------------------------------------- the record

  /** `InvoiceRecord`; the floats are reals. */
  datatype InvoiceRecord = InvoiceRecord(
    vendorName: Option<string>,
    invoiceNumber: Option<string>,
    invoiceDate: Option<string>,
    totalAmount: Option<real>,
    currency: Option<string>,
    rawText: string)

  function ExtractSpec(text: string, env: ExtractEnv): InvoiceRecord {
    InvoiceRecord(
      VendorGuess(CleanLines(env.splitLines(text)), env),
      InvoiceNumberOf(text, env),
      InvoiceDateOf(text, env),
      TotalAmountOf(text, env),
      CurrencyOf(text),
      text)
  }

  /** The fallback date loop: stop at the first candidate that parses to a non-empty date. */
  method FallbackDate(cands: seq<string>, env: ExtractEnv) returns (d: Option<string>)
    ensures d == DateFallback(cands, env, None)
  {
    d := None;
    var i := 0;
    while i < |cands|
      invariant 0 <= i <= |cands|
      invariant DateFallback(cands, env, None) == DateFallback(cands[i..], env, d)
    {
      assert cands[i..][1..] == cands[i + 1..];
      d := env.parseDate(cands[i]);
      if Truthy(d) {
        return;
      }
      i := i + 1;
    }
  }

  /** `extract_fields`. */
  method Extract(text: string, env: ExtractEnv) returns (rec: InvoiceRecord)
    ensures rec == ExtractSpec(text, env)
  {
    var lines := CleanLines(env.splitLines(text));
    var vendorName := CleanVendorGuess(lines, env);
    var invoiceNumber := InvoiceNumberOf(text, env);
    var invoiceDate: Option<string> := None;
    var hint := env.dateHint(text);
    if hint.Some? {
      invoiceDate := env.parseDate(hint.value);
    }
    if invoiceDate.None? {
      invoiceDate := FallbackDate(Take(env.dateCandidates(text), 5), env);
    }
    var lowered := Lower(text);
    var total := FindAmountNear(text, lowered, "amount due", env);
    if !TruthyAmount(total) {
      total := FindAmountNear(text, lowered, "total", env);
      if !TruthyAmount(total) {
        total := FindAmountNear(text, lowered, "balance due", env);
      }
    }
    var currency: Option<string> := None;
    if Contains(lowered, "usd") || Contains(text, "$") {
      currency := Some("USD");
    }
    rec := InvoiceRecord(vendorName, invoiceNumber, invoiceDate, total, currency, text);
  }

  /** The extracted vendor name is always a good guess, and the raw text is kept unchanged. */
  lemma ExtractedRecordSound(text: string, env: ExtractEnv)
    ensures var rec := ExtractSpec(text, env);
            && (rec.vendorName.Some? ==> GoodGuess(rec.vendorName.value))
            && (rec.invoiceNumber.Some? ==> NoLower(rec.invoiceNumber.value))
            && (rec.currency.Some? ==> rec.currency.value == "USD")
            && rec.rawText == text
  {
    VendorGuessSound(CleanLines(env.splitLines(text)), env);
  }
}
