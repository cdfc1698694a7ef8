/**
 * The Python rule engine (`invoice_guard/risk.py`): an exact duplicate on
 * vendor and invoice number (60), otherwise a fuzzy near duplicate (45), an
 * amount outlier against the vendor's historical median (25 or 10), a cap at
 * 100 and a HIGH / MEDIUM / LOW level.
 */
module PyRisk {
  import opened Wrappers
  import opened Text
  import opened Seqs

  /** A `rapidfuzz` score: a percentage. */
  type Percent = r: real | 0.0 <= r <= 100.0

  /** A Python value read from a record where a number is expected. */
  datatype PyValue = PyNone | PyNumber(number: real) | PyText(text: string)

  /**
   * The library functions the engine calls: `float()` of a string (None when
   * it raises), `fuzz.ratio` and `fuzz.partial_ratio`.
   */
  datatype PyEnv = PyEnv(
    parseFloat: string -> Option<real>,
    ratio: (string, string) -> Percent,
    partialRatio: (string, string) -> Percent)

  /** `_safe_float`: `float(x)`, or None when the conversion raises. */
  function SafeFloat(x: PyValue, env: PyEnv): (r: Option<real>)
    ensures x.PyNone? ==> r.None?
    ensures x.PyNumber? ==> r == Some(x.number)
    ensures x.PyText? ==> r == env.parseFloat(x.text)
  {
    match x
    case PyNone => None
    case PyNumber(v) => Some(v)
    case PyText(s) => env.parseFloat(s)
  }

  /** A record of the history; a missing text field is "". */
  datatype HistoryRecord = HistoryRecord(
    id: int, vendorName: string, invoiceNumber: string, totalAmount: PyValue, invoiceDate: string)

  /** The new invoice; a missing text field is "". */
  datatype NewInvoice = NewInvoice(
    vendorName: string, invoiceNumber: string, totalAmount: PyValue, invoiceDate: string)

  datatype Reason =
    | ExactDuplicateReason
    | LikelyDuplicateReason
    | AmountAnomalyReason(ratio: real)
    | AmountElevatedReason(ratio: real)

  /** A reported match: the matched record's id and what the check measured. */
  datatype Match =
    | ExactMatch(id: int)
    | NearMatch(id: int, invSim: real, vendorSim: real, amtMatch: bool, dateSame: bool)

  datatype RiskLevel = High | Medium | Low

  datatype PyRiskResult = PyRiskResult(riskScore: int, riskLevel: RiskLevel, reasons: seq<Reason>, matches: seq<Match>)

  /** `(x or "").strip().lower()`. */
  function Key(s: string): string {
    Lower(Trim(s))
  }

  // ---------------------------------------------------------------- the three checks

  /** The exact-duplicate test: both new keys present and equal to the record's. */
  predicate IsExact(vNew: string, invNew: string, prior: HistoryRecord) {
    vNew != "" && invNew != "" && Key(prior.vendorName) == vNew && Key(prior.invoiceNumber) == invNew
  }

  function ExactOf(vNew: string, invNew: string): HistoryRecord -> bool {
    (prior: HistoryRecord) => IsExact(vNew, invNew, prior)
  }

  /** The measurements of the near-duplicate test against one record. */
  datatype NearTest = NearTest(invSim: real, vendorSim: real, amtMatch: bool, dateClose: bool)

  function Measure(vNew: string, invNew: string, amtNew: Option<real>, dateNew: string,
                   prior: HistoryRecord, env: PyEnv): NearTest {
    var vOld := Key(prior.vendorName);
    var invOld := Key(prior.invoiceNumber);
    var amtOld := SafeFloat(prior.totalAmount, env);
    var dateOld := Trim(prior.invoiceDate);
    NearTest(
      env.ratio(invNew, invOld) / 100.0,
      if vNew != "" && vOld != "" then env.partialRatio(vNew, vOld) / 100.0 else 0.0,
      amtNew.Some? && amtOld.Some?
        && (var diff := amtNew.value - amtOld.value;
            var tolerance := if 1.0 >= 0.01 * amtNew.value then 1.0 else 0.01 * amtNew.value;
            -tolerance <= diff <= tolerance),
      dateNew != "" && dateOld != "" && dateNew == dateOld)
  }

  /** The near-duplicate test: both invoice numbers present, both similarities high, and the amount or the date agreeing. */
  predicate IsNear(vNew: string, invNew: string, amtNew: Option<real>, dateNew: string, prior: HistoryRecord, env: PyEnv) {
    var t := Measure(vNew, invNew, amtNew, dateNew, prior, env);
    invNew != "" && Key(prior.invoiceNumber) != ""
    && t.invSim > 0.85 && t.vendorSim > 0.80 && (t.amtMatch || t.dateClose)
  }

  function NearOf(vNew: string, invNew: string, amtNew: Option<real>, dateNew: string, env: PyEnv): HistoryRecord -> bool {
    (prior: HistoryRecord) => IsNear(vNew, invNew, amtNew, dateNew, prior, env)
  }

  function NearMatchFor(vNew: string, invNew: string, amtNew: Option<real>, dateNew: string,
                        prior: HistoryRecord, env: PyEnv): Match {
    var t := Measure(vNew, invNew, amtNew, dateNew, prior, env);
    NearMatch(prior.id, t.invSim, t.vendorSim, t.amtMatch, t.dateClose)
  }

  /** The amount a record contributes to the vendor baseline: its amount when it is the vendor's and parses. */
  function AmountIfVendor(prior: HistoryRecord, vNew: string, env: PyEnv): seq<real> {
    if Key(prior.vendorName) != vNew then []
    else match SafeFloat(prior.totalAmount, env)
      case Some(a) => [a]
      case None => []
  }

  /** `vendor_amounts`: the parseable amounts of the vendor's records, in history order. */
  function VendorAmounts(history: seq<HistoryRecord>, vNew: string, env: PyEnv): (r: seq<real>)
    ensures |r| <= |history|
  {
    if history == [] then []
    else VendorAmounts(history[..|history| - 1], vNew, env) + AmountIfVendor(history[|history| - 1], vNew, env)
  }

  /** The outcome of the outlier check. */
  datatype Band = NoOutlier | Elevated(ratio: real) | Anomaly(ratio: real)

  /** `sorted(amounts)[n // 2]`. */
  function Median(amounts: seq<real>): (m: real)
    requires amounts != []
    ensures m in multiset(amounts)
    ensures exists sorted: seq<real> ::
              && SortedUp(sorted) && multiset(sorted) == multiset(amounts)
              && |sorted| == |amounts| && sorted[|amounts| / 2] == m
  {
    var sorted := SortUp(amounts);
    assert sorted[|amounts| / 2] in multiset(sorted);
    sorted[|amounts| / 2]
  }

  /** The band of a ratio to the median: 5 and above an anomaly, 2 and above elevated. */
  function RatioBand(ratio: real): Band {
    if ratio >= 5.0 then Anomaly(ratio) else if ratio >= 2.0 then Elevated(ratio) else NoOutlier
  }

  /** The outlier band of `amt` against the vendor's amounts: none with fewer than five amounts or a median that is not positive. */
  function BandOf(amt: real, amounts: seq<real>): Band {
    if |amounts| < 5 then NoOutlier
    else
      var med := Median(amounts);
      if med <= 0.0 then NoOutlier else RatioBand(amt / med)
  }

  /** An outlier needs five amounts and a positive median; its band is decided by the ratio of `amt` to that median. */
  lemma BandOfIff(amt: real, amounts: seq<real>)
    ensures var b := BandOf(amt, amounts);
            b != NoOutlier ==> |amounts| >= 5 && Median(amounts) > 0.0 && b.ratio == amt / Median(amounts)
    ensures BandOf(amt, amounts).Anomaly? <==> |amounts| >= 5 && Median(amounts) > 0.0 && amt / Median(amounts) >= 5.0
    ensures BandOf(amt, amounts).Elevated? <==> |amounts| >= 5 && Median(amounts) > 0.0 && 2.0 <= amt / Median(amounts) < 5.0
  {
  }

  function BandWeight(b: Band): int {
    match b
    case NoOutlier => 0
    case Elevated(_) => 10
    case Anomaly(_) => 25
  }

  function BandReasons(b: Band): seq<Reason> {
    match b
    case NoOutlier => []
    case Elevated(r) => [AmountElevatedReason(r)]
    case Anomaly(r) => [AmountAnomalyReason(r)]
  }

  /** Whatever the band, it weighs at most 25 and gives at most one reason, an amount reason. */
  lemma BandShape(b: Band)
    ensures 0 <= BandWeight(b) <= 25 && (b.NoOutlier? <==> BandWeight(b) == 0)
    ensures |BandReasons(b)| == (if b.NoOutlier? then 0 else 1)
    ensures b.Anomaly? ==> BandWeight(b) == 25 && BandReasons(b) == [AmountAnomalyReason(b.ratio)]
    ensures b.Elevated? ==> BandWeight(b) == 10 && BandReasons(b) == [AmountElevatedReason(b.ratio)]
  {
  }

  function LevelOf(score: int): RiskLevel {
    if score >= 70 then High else if score >= 30 then Medium else Low
  }

  /** The first record passing the exact test, if any. */
  function ExactHit(n: NewInvoice, history: seq<HistoryRecord>): Option<nat> {
    FirstIndex(history, ExactOf(Key(n.vendorName), Key(n.invoiceNumber)))
  }

  /** The first record passing the near test, looked for only when there is no exact hit. */
  function NearHit(n: NewInvoice, history: seq<HistoryRecord>, env: PyEnv): Option<nat> {
    if ExactHit(n, history).Some? then None
    else FirstIndex(history, NearOf(Key(n.vendorName), Key(n.invoiceNumber), SafeFloat(n.totalAmount, env), Trim(n.invoiceDate), env))
  }

  /** The outlier band, computed only for a present vendor and a parseable amount. */
  function OutlierOf(n: NewInvoice, history: seq<HistoryRecord>, env: PyEnv): Band {
    var vNew := Key(n.vendorName);
    var amtNew := SafeFloat(n.totalAmount, env);
    if vNew != "" && amtNew.Some? then BandOf(amtNew.value, VendorAmounts(history, vNew, env)) else NoOutlier
  }

  /** The weights of the two duplicate checks that fired. */
  function DuplicateScore(n: NewInvoice, history: seq<HistoryRecord>, env: PyEnv): int {
    (if ExactHit(n, history).Some? then 60 else 0) + (if NearHit(n, history, env).Some? then 45 else 0)
  }

  function DuplicateReasons(n: NewInvoice, history: seq<HistoryRecord>, env: PyEnv): seq<Reason> {
    (if ExactHit(n, history).Some? then [ExactDuplicateReason] else [])
    + (if NearHit(n, history, env).Some? then [LikelyDuplicateReason] else [])
  }

  /** The matches of the two duplicate checks: the record each one stopped at. */
  function DuplicateMatches(n: NewInvoice, history: seq<HistoryRecord>, env: PyEnv): seq<Match> {
    var exact := ExactHit(n, history);
    var near := NearHit(n, history, env);
    (if exact.Some? then [ExactMatch(history[exact.value].id)] else [])
    + (if near.Some? then [NearMatchFor(Key(n.vendorName), Key(n.invoiceNumber), SafeFloat(n.totalAmount, env),
                                        Trim(n.invoiceDate), history[near.value], env)] else [])
  }

  /** The sum of the weights of the checks that fired, before the cap. */
  function RawScore(n: NewInvoice, history: seq<HistoryRecord>, env: PyEnv): int {
    DuplicateScore(n, history, env) + BandWeight(OutlierOf(n, history, env))
  }

  /** What `score_invoice` returns. */
  function PyRiskSpec(n: NewInvoice, history: seq<HistoryRecord>, env: PyEnv): PyRiskResult {
    var raw := RawScore(n, history, env);
    var score := if raw < 100 then raw else 100;
    var reasons := DuplicateReasons(n, history, env) + BandReasons(OutlierOf(n, history, env));
    PyRiskResult(score, LevelOf(score), Take(reasons, 5), Take(DuplicateMatches(n, history, env), 3))
  }

  // ---------------------------------------------------------------- the imperative engine

  /** Check 1: the first exact duplicate adds 60, a reason and a match, and stops the scan. */
  method ExactDuplicateCheck(history: seq<HistoryRecord>, vNew: string, invNew: string,
                             score0: int, reasons0: seq<Reason>, matches0: seq<Match>)
    returns (score: int, reasons: seq<Reason>, matches: seq<Match>)
    ensures var hit := FirstIndex(history, ExactOf(vNew, invNew));
      && score == score0 + (if hit.Some? then 60 else 0)
      && reasons == reasons0 + (if hit.Some? then [ExactDuplicateReason] else [])
      && matches == matches0 + (if hit.Some? then [ExactMatch(history[hit.value].id)] else [])
  {
    score, reasons, matches := score0, reasons0, matches0;
    var i := 0;
    while i < |history|
      invariant 0 <= i <= |history|
      invariant forall j :: 0 <= j < i ==> !IsExact(vNew, invNew, history[j])
    {
      var prior := history[i];
      if IsExact(vNew, invNew, prior) {
        score := score + 60;
        reasons := reasons + [ExactDuplicateReason];
        matches := matches + [ExactMatch(prior.id)];
        ExactScanIsFirst(history, vNew, invNew, Some(i));
        return;
      }
      i := i + 1;
    }
    ExactScanIsFirst(history, vNew, invNew, None);
    assert reasons0 + [] == reasons0 && matches0 + [] == matches0;
  }

  /** Check 2: the first near duplicate adds 45, a reason and a match, and stops the scan. */
  method NearDuplicateCheck(history: seq<HistoryRecord>, vNew: string, invNew: string, amtNew: Option<real>,
                            dateNew: string, env: PyEnv, score0: int, reasons0: seq<Reason>, matches0: seq<Match>)
    returns (score: int, reasons: seq<Reason>, matches: seq<Match>)
    ensures var hit := FirstIndex(history, NearOf(vNew, invNew, amtNew, dateNew, env));
      && score == score0 + (if hit.Some? then 45 else 0)
      && reasons == reasons0 + (if hit.Some? then [LikelyDuplicateReason] else [])
      && matches == matches0 + (if hit.Some? then [NearMatchFor(vNew, invNew, amtNew, dateNew, history[hit.value], env)] else [])
  {
    score, reasons, matches := score0, reasons0, matches0;
    var i := 0;
    while i < |history|
      invariant 0 <= i <= |history|
      invariant forall j :: 0 <= j < i ==> !IsNear(vNew, invNew, amtNew, dateNew, history[j], env)
    {
      var prior := history[i];
      if invNew == "" || Key(prior.invoiceNumber) == "" {
        i := i + 1;
        continue;
      }
      var t := Measure(vNew, invNew, amtNew, dateNew, prior, env);
      if t.invSim > 0.85 && t.vendorSim > 0.80 && (t.amtMatch || t.dateClose) {
        score := score + 45;
        reasons := reasons + [LikelyDuplicateReason];
        matches := matches + [NearMatch(prior.id, t.invSim, t.vendorSim, t.amtMatch, t.dateClose)];
        NearScanIsFirst(history, vNew, invNew, amtNew, dateNew, env, Some(i));
        return;
      }
      i := i + 1;
    }
    NearScanIsFirst(history, vNew, invNew, amtNew, dateNew, env, None);
    assert reasons0 + [] == reasons0 && matches0 + [] == matches0;
  }

  /** The scans of checks 1 and 2 find what `FirstIndex` finds. */
  lemma ExactScanIsFirst(history: seq<HistoryRecord>, vNew: string, invNew: string, hit: Option<nat>)
    requires hit.Some? ==> hit.value < |history| && IsExact(vNew, invNew, history[hit.value])
    requires forall j :: 0 <= j < |history| && (hit.None? || j < hit.value) ==> !IsExact(vNew, invNew, history[j])
    ensures FirstIndex(history, ExactOf(vNew, invNew)) == hit
  {
    FirstIndexOfScan(history, ExactOf(vNew, invNew), hit);
  }

  lemma NearScanIsFirst(history: seq<HistoryRecord>, vNew: string, invNew: string, amtNew: Option<real>,
                        dateNew: string, env: PyEnv, hit: Option<nat>)
    requires hit.Some? ==> hit.value < |history| && IsNear(vNew, invNew, amtNew, dateNew, history[hit.value], env)
    requires forall j :: 0 <= j < |history| && (hit.None? || j < hit.value) ==> !IsNear(vNew, invNew, amtNew, dateNew, history[j], env)
    ensures FirstIndex(history, NearOf(vNew, invNew, amtNew, dateNew, env)) == hit
  {
    FirstIndexOfScan(history, NearOf(vNew, invNew, amtNew, dateNew, env), hit);
  }

  /** The loop collecting the vendor's parseable amounts. */
  method CollectVendorAmounts(history: seq<HistoryRecord>, vNew: string, env: PyEnv) returns (amounts: seq<real>)
    ensures amounts == VendorAmounts(history, vNew, env)
  {
    amounts := [];
    for i := 0 to |history|
      invariant amounts == VendorAmounts(history[..i], vNew, env)
    {
      assert history[..i + 1][..i] == history[..i];
      var prior := history[i];
      var vOld := Key(prior.vendorName);
      if vOld != vNew {
        continue;
      }
      var a := SafeFloat(prior.totalAmount, env);
      if a.Some? {
        amounts := amounts + [a.value];
      }
    }
    assert history[..|history|] == history;
  }

  /** Check 3: the amount against the vendor's median. */
  method AmountOutlierCheck(history: seq<HistoryRecord>, vNew: string, amt: real, env: PyEnv,
                            score0: int, reasons0: seq<Reason>)
    returns (score: int, reasons: seq<Reason>)
    ensures var band := BandOf(amt, VendorAmounts(history, vNew, env));
      score == score0 + BandWeight(band) && reasons == reasons0 + BandReasons(band)
  {
    score, reasons := score0, reasons0;
    var amounts := CollectVendorAmounts(history, vNew, env);
    ghost var band := BandOf(amt, amounts);
    if |amounts| >= 5 {
      var med := Median(amounts);
      if med > 0.0 {
        var ratio := amt / med;
        assert band == RatioBand(ratio);
        if ratio >= 5.0 {
          score := score + 25;
          reasons := reasons + [AmountAnomalyReason(ratio)];
        } else if ratio >= 2.0 {
          score := score + 10;
          reasons := reasons + [AmountElevatedReason(ratio)];
        } else {
          assert reasons0 + [] == reasons0;
        }
      } else {
        assert band == NoOutlier && reasons0 + [] == reasons0;
      }
    } else {
      assert band == NoOutlier && reasons0 + [] == reasons0;
    }
  }

  /** With an exact hit the duplicate checks give 60, the exact reason and that record's match. */
  lemma DuplicatesOnExact(n: NewInvoice, history: seq<HistoryRecord>, env: PyEnv)
    requires ExactHit(n, history).Some?
    ensures DuplicateScore(n, history, env) == 60
    ensures DuplicateReasons(n, history, env) == [ExactDuplicateReason]
    ensures DuplicateMatches(n, history, env) == [ExactMatch(history[ExactHit(n, history).value].id)]
  {
  }

  /** Without an exact hit the duplicate checks are the near check alone. */
  lemma DuplicatesOnNear(n: NewInvoice, history: seq<HistoryRecord>, env: PyEnv, vNew: string, invNew: string,
                         amtNew: Option<real>, dateNew: string)
    requires vNew == Key(n.vendorName) && invNew == Key(n.invoiceNumber)
    requires amtNew == SafeFloat(n.totalAmount, env) && dateNew == Trim(n.invoiceDate)
    requires ExactHit(n, history).None?
    ensures var hit := FirstIndex(history, NearOf(vNew, invNew, amtNew, dateNew, env));
      && DuplicateScore(n, history, env) == (if hit.Some? then 45 else 0)
      && DuplicateReasons(n, history, env) == (if hit.Some? then [LikelyDuplicateReason] else [])
      && DuplicateMatches(n, history, env)
         == (if hit.Some? then [NearMatchFor(vNew, invNew, amtNew, dateNew, history[hit.value], env)] else [])
  {
  }

  /** Checks 1 and 2 on the keys of the new invoice: the near check runs only while the score is below 60. */
  method DuplicateChecks(n: NewInvoice, history: seq<HistoryRecord>, env: PyEnv,
                         vNew: string, invNew: string, amtNew: Option<real>, dateNew: string)
    returns (score: int, reasons: seq<Reason>, matches: seq<Match>)
    requires vNew == Key(n.vendorName) && invNew == Key(n.invoiceNumber)
    requires amtNew == SafeFloat(n.totalAmount, env) && dateNew == Trim(n.invoiceDate)
    ensures score == DuplicateScore(n, history, env)
    ensures reasons == DuplicateReasons(n, history, env)
    ensures matches == DuplicateMatches(n, history, env)
  {
    score, reasons, matches := ExactDuplicateCheck(history, vNew, invNew, 0, [], []);
    if score < 60 {
      DuplicatesOnNear(n, history, env, vNew, invNew, amtNew, dateNew);
      score, reasons, matches := NearDuplicateCheck(history, vNew, invNew, amtNew, dateNew, env, score, reasons, matches);
    } else {
      DuplicatesOnExact(n, history, env);
    }
  }

  /** `score_invoice`: the three checks in order, the cap, the level, and the truncated lists. */
  method ScoreInvoice(n: NewInvoice, history: seq<HistoryRecord>, env: PyEnv) returns (r: PyRiskResult)
    ensures r == PyRiskSpec(n, history, env)
  {
    var vNew := Key(n.vendorName);
    var invNew := Key(n.invoiceNumber);
    var amtNew := SafeFloat(n.totalAmount, env);
    var dateNew := Trim(n.invoiceDate);

    var score, reasons, matches := DuplicateChecks(n, history, env, vNew, invNew, amtNew, dateNew);

    ghost var dupReasons := reasons;
    ghost var band := OutlierOf(n, history, env);
    if vNew != "" && amtNew.Some? {
      score, reasons := AmountOutlierCheck(history, vNew, amtNew.value, env, score, reasons);
    } else {
      assert BandReasons(band) == [] && dupReasons + [] == dupReasons;
    }
    assert score == RawScore(n, history, env);
    assert reasons == DuplicateReasons(n, history, env) + BandReasons(band);

    score := if 100 < score then 100 else score;
    var level := if score >= 70 then High else if score >= 30 then Medium else Low;
    r := PyRiskResult(score, level, Take(reasons, 5), Take(matches, 3));
  }

  // ---------------------------------------------------------------- properties of the result

  /** The exact and near checks never both fire, so the score is at most 60 + 25 and the cap at 100 never applies. */
  lemma PyScoreNeverCapped(n: NewInvoice, history: seq<HistoryRecord>, env: PyEnv)
    ensures !(ExactHit(n, history).Some? && NearHit(n, history, env).Some?)
    ensures 0 <= RawScore(n, history, env) <= 85
    ensures PyRiskSpec(n, history, env).riskScore == RawScore(n, history, env)
  {
    BandShape(OutlierOf(n, history, env));
  }

  /** The level is LOW exactly when neither duplicate check fired: an amount outlier alone scores at most 25. */
  lemma PyLevelLowIffNoDuplicate(n: NewInvoice, history: seq<HistoryRecord>, env: PyEnv)
    ensures PyRiskSpec(n, history, env).riskLevel == Low <==> ExactHit(n, history).None? && NearHit(n, history, env).None?
  {
    PyScoreNeverCapped(n, history, env);
  }

  /** The level is HIGH exactly for an exact duplicate with any outlier, or a near duplicate with an anomaly. */
  lemma PyLevelHighIff(n: NewInvoice, history: seq<HistoryRecord>, env: PyEnv)
    ensures var band := OutlierOf(n, history, env);
            PyRiskSpec(n, history, env).riskLevel == High
            <==> (ExactHit(n, history).Some? && !band.NoOutlier?) || (NearHit(n, history, env).Some? && band.Anomaly?)
  {
    PyScoreNeverCapped(n, history, env);
    var raw := RawScore(n, history, env);
    assert PyRiskSpec(n, history, env).riskLevel == LevelOf(raw);
    BandShape(OutlierOf(n, history, env));
  }

  /** The two duplicate checks contribute at most one reason and one match between them. */
  lemma DuplicateListsShort(n: NewInvoice, history: seq<HistoryRecord>, env: PyEnv)
    ensures |DuplicateReasons(n, history, env)| <= 1 && |DuplicateMatches(n, history, env)| <= 1
    ensures var dup := DuplicateReasons(n, history, env);
            forall k :: 0 <= k < |dup| ==> dup[k].ExactDuplicateReason? || dup[k].LikelyDuplicateReason?
  {
    var exact := ExactHit(n, history);
    var near := NearHit(n, history, env);
    assert !(exact.Some? && near.Some?);
    if exact.Some? {
      assert DuplicateReasons(n, history, env) == [ExactDuplicateReason];
    } else if near.Some? {
      assert DuplicateReasons(n, history, env) == [LikelyDuplicateReason];
    } else {
      assert DuplicateReasons(n, history, env) == [] && DuplicateMatches(n, history, env) == [];
    }
  }

  /** At most one duplicate reason and one outlier reason, and one match: the truncations to 5 and 3 never drop anything. */
  lemma PyListsNeverTruncated(n: NewInvoice, history: seq<HistoryRecord>, env: PyEnv)
    ensures var r := PyRiskSpec(n, history, env);
            && r.reasons == DuplicateReasons(n, history, env) + BandReasons(OutlierOf(n, history, env))
            && r.matches == DuplicateMatches(n, history, env)
            && |r.reasons| <= 2 && |r.matches| <= 1
            && !(ExactDuplicateReason in r.reasons && LikelyDuplicateReason in r.reasons)
  {
    DuplicateListsShort(n, history, env);
    var dup := DuplicateReasons(n, history, env);
    var ms := DuplicateMatches(n, history, env);
    var band := OutlierOf(n, history, env);
    BandShape(band);
    var reasons := dup + BandReasons(band);
    assert Take(reasons, 5) == reasons;
    assert Take(ms, 3) == ms;
    assert ExactDuplicateReason !in BandReasons(band) && LikelyDuplicateReason !in BandReasons(band);
  }

  /** The exact-duplicate check fires exactly when some record has the same non-empty keys. */
  lemma ExactReasonIff(n: NewInvoice, history: seq<HistoryRecord>, env: PyEnv)
    ensures ExactDuplicateReason in DuplicateReasons(n, history, env)
            <==> exists i :: 0 <= i < |history| && IsExact(Key(n.vendorName), Key(n.invoiceNumber), history[i])
  {
    var vNew, invNew := Key(n.vendorName), Key(n.invoiceNumber);
    var hit := ExactHit(n, history);
    if hit.Some? {
      assert IsExact(vNew, invNew, history[hit.value]);
    } else {
      assert forall i :: 0 <= i < |history| ==> !ExactOf(vNew, invNew)(history[i]);
    }
  }

  /** The near-duplicate check fires exactly when no record is exact and some record passes the near test. */
  lemma NearReasonIff(n: NewInvoice, history: seq<HistoryRecord>, env: PyEnv)
    ensures var vNew, invNew := Key(n.vendorName), Key(n.invoiceNumber);
            var amtNew, dateNew := SafeFloat(n.totalAmount, env), Trim(n.invoiceDate);
            LikelyDuplicateReason in DuplicateReasons(n, history, env)
            <==> (forall i :: 0 <= i < |history| ==> !IsExact(vNew, invNew, history[i]))
                 && (exists i :: 0 <= i < |history| && IsNear(vNew, invNew, amtNew, dateNew, history[i], env))
  {
    var vNew, invNew := Key(n.vendorName), Key(n.invoiceNumber);
    var amtNew, dateNew := SafeFloat(n.totalAmount, env), Trim(n.invoiceDate);
    var exact := ExactHit(n, history);
    var near := NearHit(n, history, env);
    if exact.Some? {
      assert IsExact(vNew, invNew, history[exact.value]);
    } else {
      assert forall i :: 0 <= i < |history| ==> !ExactOf(vNew, invNew)(history[i]);
      if near.Some? {
        assert IsNear(vNew, invNew, amtNew, dateNew, history[near.value], env);
      } else {
        assert forall i :: 0 <= i < |history| ==> !NearOf(vNew, invNew, amtNew, dateNew, env)(history[i]);
      }
    }
  }

  /** A duplicate reason is in the result exactly when its check fired. */
  lemma DuplicateReasonKept(n: NewInvoice, history: seq<HistoryRecord>, env: PyEnv, reason: Reason)
    requires reason == ExactDuplicateReason || reason == LikelyDuplicateReason
    ensures reason in PyRiskSpec(n, history, env).reasons <==> reason in DuplicateReasons(n, history, env)
  {
    PyListsNeverTruncated(n, history, env);
    BandShape(OutlierOf(n, history, env));
  }

  /**
   * The exact-duplicate reason is given exactly when some record has the same
   * non-empty vendor and invoice-number keys, and the match reported is the
   * first such record.
   */
  lemma PyExactDuplicateIff(n: NewInvoice, history: seq<HistoryRecord>, env: PyEnv)
    ensures var r := PyRiskSpec(n, history, env);
            ExactDuplicateReason in r.reasons
            <==> exists i :: 0 <= i < |history| && IsExact(Key(n.vendorName), Key(n.invoiceNumber), history[i])
    ensures var hit := ExactHit(n, history);
            hit.Some? ==> PyRiskSpec(n, history, env).matches == [ExactMatch(history[hit.value].id)]
  {
    DuplicateReasonKept(n, history, env, ExactDuplicateReason);
    ExactReasonIff(n, history, env);
    PyListsNeverTruncated(n, history, env);
  }

  /**
   * The likely-duplicate reason is given exactly when no record is an exact
   * duplicate and some record passes the near test.
   */
  lemma PyNearDuplicateIff(n: NewInvoice, history: seq<HistoryRecord>, env: PyEnv)
    ensures var r := PyRiskSpec(n, history, env);
            var vNew, invNew := Key(n.vendorName), Key(n.invoiceNumber);
            var amtNew, dateNew := SafeFloat(n.totalAmount, env), Trim(n.invoiceDate);
            LikelyDuplicateReason in r.reasons
            <==> (forall i :: 0 <= i < |history| ==> !IsExact(vNew, invNew, history[i]))
                 && (exists i :: 0 <= i < |history| && IsNear(vNew, invNew, amtNew, dateNew, history[i], env))
  {
    DuplicateReasonKept(n, history, env, LikelyDuplicateReason);
    NearReasonIff(n, history, env);
  }

  /** A record feeds the vendor baseline with `x`: its vendor key is the new one and its amount parses to `x`. */
  predicate Contributes(prior: HistoryRecord, vNew: string, env: PyEnv, x: real) {
    Key(prior.vendorName) == vNew && SafeFloat(prior.totalAmount, env) == Some(x)
  }

  /** Some record of `history` contributes `x`. */
  predicate AnyContributes(history: seq<HistoryRecord>, vNew: string, env: PyEnv, x: real) {
    exists i :: 0 <= i < |history| && Contributes(history[i], vNew, env, x)
  }

  lemma AnyContributesSnoc(init: seq<HistoryRecord>, last: HistoryRecord, vNew: string, env: PyEnv, x: real)
    ensures AnyContributes(init + [last], vNew, env, x)
            <==> AnyContributes(init, vNew, env, x) || Contributes(last, vNew, env, x)
  {
    var h := init + [last];
    if AnyContributes(h, vNew, env, x) {
      var i :| 0 <= i < |h| && Contributes(h[i], vNew, env, x);
      if i < |init| {
        assert init[i] == h[i];
      }
    }
    if AnyContributes(init, vNew, env, x) {
      var i :| 0 <= i < |init| && Contributes(init[i], vNew, env, x);
      assert h[i] == init[i];
    }
    assert h[|init|] == last;
  }

  /** The vendor baseline holds exactly the amounts that the vendor's records contribute. */
  lemma {:induction false} VendorAmountsMembers(history: seq<HistoryRecord>, vNew: string, env: PyEnv)
    ensures forall x :: x in VendorAmounts(history, vNew, env) <==> AnyContributes(history, vNew, env, x)
  {
    if history != [] {
      var init, last := history[..|history| - 1], history[|history| - 1];
      VendorAmountsMembers(init, vNew, env);
      assert history == init + [last];
      forall x
        ensures x in VendorAmounts(history, vNew, env) <==> AnyContributes(history, vNew, env, x)
      {
        assert x in AmountIfVendor(last, vNew, env) <==> Contributes(last, vNew, env, x);
        AnyContributesSnoc(init, last, vNew, env, x);
      }
    }
  }

  predicate HasAmountReason(reasons: seq<Reason>) {
    exists k :: 0 <= k < |reasons| && (reasons[k].AmountAnomalyReason? || reasons[k].AmountElevatedReason?)
  }

  /** At least five amounts, a positive median, and `amt` at least twice it. */
  predicate IsOutlierAmount(amt: real, amounts: seq<real>) {
    |amounts| >= 5 && Median(amounts) > 0.0 && amt / Median(amounts) >= 2.0
  }

  /** Behind duplicate reasons, an amount reason appears exactly when the band is an outlier. */
  lemma AmountReasonIffOutlier(dup: seq<Reason>, b: Band)
    requires forall k :: 0 <= k < |dup| ==> dup[k].ExactDuplicateReason? || dup[k].LikelyDuplicateReason?
    ensures HasAmountReason(dup + BandReasons(b)) <==> !b.NoOutlier?
  {
    BandShape(b);
    var reasons := dup + BandReasons(b);
    if !b.NoOutlier? {
      assert reasons[|dup|] == BandReasons(b)[0];
    } else {
      assert reasons == dup;
    }
  }

  /** The outlier check finds a band exactly for a present vendor key, a parseable amount and an outlying amount. */
  lemma OutlierOfIff(n: NewInvoice, history: seq<HistoryRecord>, env: PyEnv)
    ensures var vNew, amtNew := Key(n.vendorName), SafeFloat(n.totalAmount, env);
            !OutlierOf(n, history, env).NoOutlier?
            <==> vNew != "" && amtNew.Some? && IsOutlierAmount(amtNew.value, VendorAmounts(history, vNew, env))
  {
    var vNew, amtNew := Key(n.vendorName), SafeFloat(n.totalAmount, env);
    if vNew != "" && amtNew.Some? {
      BandOfIff(amtNew.value, VendorAmounts(history, vNew, env));
    }
  }

  /**
   * An amount-outlier reason is given exactly when the new vendor key is
   * present, the amount parses, the vendor has at least five parseable past
   * amounts with a positive median, and the amount is at least twice it.
   */
  lemma PyOutlierIff(n: NewInvoice, history: seq<HistoryRecord>, env: PyEnv)
    ensures var vNew, amtNew := Key(n.vendorName), SafeFloat(n.totalAmount, env);
            HasAmountReason(PyRiskSpec(n, history, env).reasons)
            <==> vNew != "" && amtNew.Some? && IsOutlierAmount(amtNew.value, VendorAmounts(history, vNew, env))
  {
    PyListsNeverTruncated(n, history, env);
    DuplicateListsShort(n, history, env);
    AmountReasonIffOutlier(DuplicateReasons(n, history, env), OutlierOf(n, history, env));
    OutlierOfIff(n, history, env);
  }

  /** The median the outlier check compares against is the amount of one of the vendor's past records. */
  lemma PyMedianIsPastAmount(n: NewInvoice, history: seq<HistoryRecord>, env: PyEnv)
    ensures var amounts := VendorAmounts(history, Key(n.vendorName), env);
            amounts != [] ==> AnyContributes(history, Key(n.vendorName), env, Median(amounts))
  {
    var amounts := VendorAmounts(history, Key(n.vendorName), env);
    VendorAmountsMembers(history, Key(n.vendorName), env);
    if amounts != [] {
      assert Median(amounts) in amounts;
    }
  }

  /** With no history nothing fires. */
  lemma PyEmptyHistoryIsLow(n: NewInvoice, env: PyEnv)
    ensures PyRiskSpec(n, [], env) == PyRiskResult(0, Low, [], [])
  {
    assert ExactHit(n, []).None? && NearHit(n, [], env).None?;
    assert |VendorAmounts([], Key(n.vendorName), env)| == 0;
  }
}
