/**
 * The invoices router (`routes/invoices.js`): its own copies of the
 * normalizers, POST `/` (validate the body, score it against the ledger,
 * blend the rule and ML scores, append the record), and the two GET lookups.
 */
module InvoicesRoute {
  import opened Wrappers
  import opened Text
  import opened Seqs
  import opened Records
  import opened Db
  import opened RiskEngine

  // ---------------------------------------------------------------- normalizers

  /** `norm`: `(s || "").trim().toLowerCase()`. */
  function Norm(s: string): (r: string)
    ensures NoUpper(r)
    ensures r != [] ==> !IsSpace(r[0]) && !IsSpace(r[|r| - 1])
  {
    Lower(Trim(s))
  }

  /** `normInvNum`: trimmed, lower-cased, everything but `[a-z0-9]` removed. */
  function NormInvNum(s: string): (r: string)
    ensures forall k :: 0 <= k < |r| ==> IsLowerAlnum(r[k])
  {
    FilterChars(Lower(Trim(s)), IsLowerAlnum)
  }

  /** `normDate`: "" stays "", a parseable date gives its ISO day, anything else its first ten characters. */
  function NormDate(d: string, env: JsEnv): (r: string)
    ensures |r| <= 10
    ensures d == "" ==> r == ""
    ensures d != "" && env.parseDate(d).None? ==>
              |r| == (if |d| < 10 then |d| else 10) && r == d[..|r|]
    ensures d != "" && env.parseDate(d).Some? ==>
              var iso := env.isoString(env.parseDate(d).value);
              |r| == (if |iso| < 10 then |iso| else 10) && r == iso[..|r|]
  {
    if d == "" then ""
    else match env.parseDate(d)
      case None => Take(d, 10)
      case Some(t) => Take(env.isoString(t), 10)
  }

  /** The router's normalizers agree with the engine's on every input. */
  lemma RouteNormalizersMatchEngine(s: string, d: string, env: JsEnv)
    ensures Norm(s) == NormalizeVendorName(s)
    ensures NormInvNum(s) == NormalizeInvoiceNumber(s)
    ensures NormDate(d, env) == NormalizeDate(d, env)
  {
  }

  /** Normalizing a normalized value changes nothing. */
  lemma RouteNormalizersIdempotent(s: string)
    ensures Norm(Norm(s)) == Norm(s)
    ensures NormInvNum(NormInvNum(s)) == NormInvNum(s)
  {
    NormalizeVendorNameIdempotent(s);
    NormalizeInvoiceNumberIdempotent(s);
  }

  // ---------------------------------------------------------------- score blend

  /** `Math.round`: the nearest integer, halves rounded up. */
  function Round(x: real): (r: int)
    ensures r as real - 0.5 <= x < r as real + 0.5
  {
    (x + 0.5).Floor
  }

  /**
   * `Math.max(0, Math.min(100, Math.round(rule * 0.7 + ml * 0.3)))`. An
   * undefined rule score makes the product, the sum, the rounding and both
   * bounds NaN.
   */
  function Blend(rule: Option<int>, ml: real): (r: FinalScore)
    ensures r.NotANumber? <==> rule.None?
    ensures r.Score? ==> 0 <= r.value <= 100
  {
    if rule.None? then NotANumber
    else
      var v := Round(rule.value as real * 0.7 + ml * 0.3);
      var capped := if v < 100 then v else 100;
      Score(if capped > 0 then capped else 0)
  }

  /** Scores inside [0, 100] need no clamping: the blend is the rounded weighted mean. */
  lemma BlendOfPercentages(rule: int, ml: real)
    requires 0 <= rule <= 100 && 0.0 <= ml <= 100.0
    ensures Blend(Some(rule), ml) == Score(Round(rule as real * 0.7 + ml * 0.3))
  {
    var x := rule as real * 0.7 + ml * 0.3;
    assert 0.0 <= x <= 100.0;
    assert 0 <= Round(x) <= 100;
  }

  /** A larger rule score or ML score never lowers the blend. */
  lemma BlendMonotone(rule1: int, ml1: real, rule2: int, ml2: real)
    requires rule1 <= rule2 && ml1 <= ml2
    ensures Blend(Some(rule1), ml1).value <= Blend(Some(rule2), ml2).value
  {
    var x1 := rule1 as real * 0.7 + ml1 * 0.3;
    var x2 := rule2 as real * 0.7 + ml2 * 0.3;
    assert x1 <= x2;
    assert Round(x1) <= Round(x2);
  }

  // ---------------------------------------------------------------- submission

  /** The body fields the handler reads; a missing or falsy text field is "". */
  datatype SubmitRequest = SubmitRequest(
    vendorName: string,
    invoiceNumber: string,
    invoiceDate: string,
    amountTotal: RawAmount,
    taxId: string,
    iban: string,
    rawText: string,
    imagePath: string)

  /** How the ML call ended: it threw, or it answered with possibly absent fields. */
  datatype MlReply = MlFailed | MlAnswered(mlScore: Option<real>, mlFlags: Option<seq<string>>)

  /** `ml.ml_score || 0`, and 0 when the call threw. */
  function MlScoreOf(ml: MlReply): real {
    if ml.MlAnswered? then ml.mlScore.GetOr(0.0) else 0.0
  }

  /** `ml.ml_flags || []`, and [] when the call threw. */
  function MlFlagsOf(ml: MlReply): seq<string> {
    if ml.MlAnswered? then ml.mlFlags.GetOr([]) else []
  }

  /** `flags.map(f => ({ ...f, source: "RULE" }))`. */
  function TagRule(flags: seq<Flag>): (r: seq<StoredFlag>)
    ensures |r| == |flags|
    ensures forall k :: 0 <= k < |r| ==> r[k] == RuleFlag(flags[k])
  {
    seq(|flags|, k requires 0 <= k < |flags| => RuleFlag(flags[k]))
  }

  /** `ml_flags.map(f => ({ ...f, source: "ML" }))`. */
  function TagMl(flags: seq<string>): (r: seq<StoredFlag>)
    ensures |r| == |flags|
    ensures forall k :: 0 <= k < |r| ==> r[k] == MlFlag(flags[k])
  {
    seq(|flags|, k requires 0 <= k < |flags| => MlFlag(flags[k]))
  }

  /**
   * The invoice object handed to `scoreInvoice`. It has an `iban` but no
   * `bank_account` property, which is the one the engine reads.
   */
  function EngineView(req: SubmitRequest): EngineInvoice {
    EngineInvoice(req.vendorName, req.invoiceNumber, req.invoiceDate, req.amountTotal, "")
  }

  /** The result of POST `/`. */
  datatype SubmitOutcome = Submitted(record: InvoiceRecord) | MissingFields  // 201 or 400

  predicate HasRequiredFields(req: SubmitRequest) {
    req.vendorName != "" && req.invoiceNumber != "" && req.invoiceDate != ""
  }

  /**
   * The record appended by POST `/`, scored against the ledger as it was
   * before the append. `nonce` stands for the `nanoid(10)` text and `now` for
   * the ISO text of the current time. The engine's result has no `rule_score`
   * property, so the destructured rule score is undefined.
   */
  function NewRecord(invoices: seq<InvoiceRecord>, vendors: seq<Vendor>, req: SubmitRequest,
                     ml: MlReply, nonce: string, now: string, env: JsEnv): InvoiceRecord {
    var result := ScoreSpec(EngineView(req), invoices, FindVendorByName(vendors, req.vendorName), env);
    var ruleScore: Option<int> := None;
    var mlScore := MlScoreOf(ml);
    InvoiceRecord(
      "inv_" + nonce, now,
      req.vendorName, req.invoiceNumber, req.invoiceDate, req.taxId, req.iban, req.rawText, req.imagePath,
      Norm(req.vendorName), NormInvNum(req.invoiceNumber), NormDate(req.invoiceDate, env),
      ToNumber(req.amountTotal, env), result.fingerprint,
      ruleScore, mlScore, Blend(ruleScore, mlScore),
      TagRule(result.flags) + TagMl(MlFlagsOf(ml)))
  }

  /** The response of POST `/`: 400 when a required field is empty, 201 with the new record otherwise. */
  function SubmitSpec(invoices: seq<InvoiceRecord>, vendors: seq<Vendor>, req: SubmitRequest,
                      ml: MlReply, nonce: string, now: string, env: JsEnv): (o: SubmitOutcome)
    ensures o.MissingFields? <==> req.vendorName == "" || req.invoiceNumber == "" || req.invoiceDate == ""
    ensures o.Submitted? ==> o.record.invoiceId == "inv_" + nonce && o.record.createdAt == now
  {
    if !HasRequiredFields(req) then MissingFields
    else Submitted(NewRecord(invoices, vendors, req, ml, nonce, now, env))
  }

  /** POST `/`: validates, scores, blends and appends, then asks for the vendor to exist. */
  method SubmitInvoice(db: Store, req: SubmitRequest, ml: MlReply, nonce: string, now: string, env: JsEnv)
    returns (o: SubmitOutcome)
    modifies db
    ensures o == SubmitSpec(old(db.invoices), old(db.vendors), req, ml, nonce, now, env)
    ensures o.Submitted? ==> db.invoices == old(db.invoices) + [o.record]
                             && db.vendorCalls == old(db.vendorCalls) + [GetOrCreateVendor(req.vendorName)]
    ensures o.MissingFields? ==> db.invoices == old(db.invoices) && db.vendorCalls == old(db.vendorCalls)
    ensures db.vendors == old(db.vendors) && db.payments == old(db.payments)
  {
    if req.vendorName == "" || req.invoiceNumber == "" || req.invoiceDate == "" {
      return MissingFields;
    }
    var vendorProfile := FindVendorByName(db.vendors, req.vendorName);
    var result := ScoreInvoice(EngineView(req), db.invoices, vendorProfile, env);
    var ruleScore: Option<int> := None;

    var mlScore := 0.0;
    var mlFlags: seq<string> := [];
    if ml.MlAnswered? {
      mlScore := ml.mlScore.GetOr(0.0);
      mlFlags := ml.mlFlags.GetOr([]);
    }

    var finalScore := Blend(ruleScore, mlScore);
    var record := InvoiceRecord(
      "inv_" + nonce, now,
      req.vendorName, req.invoiceNumber, req.invoiceDate, req.taxId, req.iban, req.rawText, req.imagePath,
      Norm(req.vendorName), NormInvNum(req.invoiceNumber), NormDate(req.invoiceDate, env),
      ToNumber(req.amountTotal, env), result.fingerprint,
      ruleScore, mlScore, finalScore,
      TagRule(result.flags) + TagMl(mlFlags));

    db.invoices := db.invoices + [record];
    db.vendorCalls := db.vendorCalls + [GetOrCreateVendor(record.vendorName)];
    o := Submitted(record);
  }

  /**
   * A stored record carries the engine's normalizations of its raw fields,
   * `Number(amount || 0)`, the engine's fingerprint, an undefined rule score
   * and therefore a NaN final score.
   */
  lemma SubmittedRecordFields(invoices: seq<InvoiceRecord>, vendors: seq<Vendor>, req: SubmitRequest,
                              ml: MlReply, nonce: string, now: string, env: JsEnv)
    requires SubmitSpec(invoices, vendors, req, ml, nonce, now, env).Submitted?
    ensures var rec := SubmitSpec(invoices, vendors, req, ml, nonce, now, env).record;
      && rec.vendorName == req.vendorName && rec.invoiceNumber == req.invoiceNumber
      && rec.invoiceDate == req.invoiceDate && rec.iban == req.iban && rec.taxId == req.taxId
      && rec.vendorNameNorm == NormalizeVendorName(req.vendorName)
      && rec.invoiceNumberNorm == NormalizeInvoiceNumber(req.invoiceNumber)
      && rec.invoiceDateNorm == NormalizeDate(req.invoiceDate, env)
      && rec.amountTotal == ToNumber(req.amountTotal, env)
      && rec.fingerprint == FingerprintOf(EngineView(req), env)
      && rec.ruleScore.None?
      && rec.finalScore.NotANumber?
  {
    RouteNormalizersMatchEngine(req.vendorName, req.invoiceDate, env);
    RouteNormalizersMatchEngine(req.invoiceNumber, req.invoiceDate, env);
  }

  /** The stored flags of a new record, as built from the engine's flags and the ML flags. */
  lemma RecordFlagsAre(invoices: seq<InvoiceRecord>, vendors: seq<Vendor>, req: SubmitRequest,
                       ml: MlReply, nonce: string, now: string, env: JsEnv)
    requires HasRequiredFields(req)
    ensures SubmitSpec(invoices, vendors, req, ml, nonce, now, env).record.flags
         == TagRule(ScoreSpec(EngineView(req), invoices, FindVendorByName(vendors, req.vendorName), env).flags)
            + TagMl(MlFlagsOf(ml))
  {
  }

  /** `stored` is the rule flags tagged RULE, in order, followed by the ML flags tagged ML, in order. */
  predicate RuleThenMl(stored: seq<StoredFlag>, rule: seq<Flag>, mlFlags: seq<string>) {
    && |stored| == |rule| + |mlFlags|
    && (forall k :: 0 <= k < |rule| ==> stored[k] == RuleFlag(rule[k]))
    && (forall k :: 0 <= k < |mlFlags| ==> stored[|rule| + k] == MlFlag(mlFlags[k]))
  }

  /** Tagging keeps the order of each list: the rule flags first, then the ML flags. */
  lemma TaggedInOrder(rule: seq<Flag>, mlFlags: seq<string>)
    ensures RuleThenMl(TagRule(rule) + TagMl(mlFlags), rule, mlFlags)
  {
    var tr, tm := TagRule(rule), TagMl(mlFlags);
    var stored := tr + tm;
    forall k | 0 <= k < |rule| ensures stored[k] == RuleFlag(rule[k]) {
      assert stored[k] == tr[k];
    }
    forall k | 0 <= k < |mlFlags| ensures stored[|rule| + k] == MlFlag(mlFlags[k]) {
      assert stored[|rule| + k] == tm[k];
    }
  }

  /**
   * The stored flags are the engine's flags tagged RULE, in the engine's
   * order, followed by the ML flags tagged ML, in their order.
   */
  lemma StoredFlagsRuleThenMl(invoices: seq<InvoiceRecord>, vendors: seq<Vendor>, req: SubmitRequest,
                              ml: MlReply, nonce: string, now: string, env: JsEnv)
    requires HasRequiredFields(req)
    ensures var rec := SubmitSpec(invoices, vendors, req, ml, nonce, now, env).record;
      var rule := ScoreSpec(EngineView(req), invoices, FindVendorByName(vendors, req.vendorName), env).flags;
      RuleThenMl(rec.flags, rule, MlFlagsOf(ml))
  {
    var flags := SubmitSpec(invoices, vendors, req, ml, nonce, now, env).record.flags;
    var rule := ScoreSpec(EngineView(req), invoices, FindVendorByName(vendors, req.vendorName), env).flags;
    RecordFlagsAre(invoices, vendors, req, ml, nonce, now, env);
    assert flags == TagRule(rule) + TagMl(MlFlagsOf(ml));
    TaggedInOrder(rule, MlFlagsOf(ml));
  }

  /** When the ML call throws, the record has ML score 0 and only rule flags, of which there is at least one. */
  lemma MlFailureDefaults(invoices: seq<InvoiceRecord>, vendors: seq<Vendor>, req: SubmitRequest,
                          nonce: string, now: string, env: JsEnv)
    requires HasRequiredFields(req)
    ensures var rec := SubmitSpec(invoices, vendors, req, MlFailed, nonce, now, env).record;
      && rec.mlScore == 0.0
      && rec.flags != []
      && forall k :: 0 <= k < |rec.flags| ==> rec.flags[k].RuleFlag?
  {
    var c := ChecksOf(EngineView(req), invoices, FindVendorByName(vendors, req.vendorName), env);
    NoFlagsExactlyWhenZero(c, FingerprintOf(EngineView(req), env));
    StoredFlagsRuleThenMl(invoices, vendors, req, MlFailed, nonce, now, env);
  }

  /** The engine never flags the bank account of the route's invoice object, whatever the vendor profile. */
  lemma EngineViewNeverFlagsBankAccount(req: SubmitRequest, invoices: seq<InvoiceRecord>, profile: Option<Vendor>, env: JsEnv)
    ensures !HasFlag(ScoreSpec(EngineView(req), invoices, profile, env).flags, UnusualBankAccount)
  {
    var c := ChecksOf(EngineView(req), invoices, profile, env);
    assert !c.bank;
    VendorFlagsMatchChecks(c, FingerprintOf(EngineView(req), env));
  }

  /** A flag type absent from the rule flags is absent from the stored RULE flags. */
  lemma TaggedKeepsAbsence(rule: seq<Flag>, mlFlags: seq<string>, kind: FlagType)
    requires !HasFlag(rule, kind)
    ensures var stored := TagRule(rule) + TagMl(mlFlags);
      forall k :: 0 <= k < |stored| && stored[k].RuleFlag? ==> stored[k].flag.kind != kind
  {
    var stored := TagRule(rule) + TagMl(mlFlags);
    TaggedInOrder(rule, mlFlags);
    forall k | 0 <= k < |stored| && stored[k].RuleFlag? ensures stored[k].flag.kind != kind {
      if k < |rule| {
        assert rule[k] in rule;
      }
    }
  }

  /**
   * Through this route the bank-account check never fires: the engine reads
   * `bank_account`, which the route's invoice object does not have.
   */
  lemma RouteNeverFlagsUnusualBankAccount(invoices: seq<InvoiceRecord>, vendors: seq<Vendor>, req: SubmitRequest,
                                          ml: MlReply, nonce: string, now: string, env: JsEnv)
    requires HasRequiredFields(req)
    ensures var rec := SubmitSpec(invoices, vendors, req, ml, nonce, now, env).record;
      forall k :: 0 <= k < |rec.flags| && rec.flags[k].RuleFlag? ==> rec.flags[k].flag.kind != UnusualBankAccount
  {
    var rule := ScoreSpec(EngineView(req), invoices, FindVendorByName(vendors, req.vendorName), env).flags;
    EngineViewNeverFlagsBankAccount(req, invoices, FindVendorByName(vendors, req.vendorName), env);
    RecordFlagsAre(invoices, vendors, req, ml, nonce, now, env);
    TaggedKeepsAbsence(rule, MlFlagsOf(ml), UnusualBankAccount);
  }

  /** Appending an invoice keeps every payment pointing at an invoice of the ledger. */
  lemma SubmitKeepsPaymentReferences(invoices: seq<InvoiceRecord>, rec: InvoiceRecord, payments: seq<Payment>)
    requires forall i :: 0 <= i < |payments| ==> FindInvoice(invoices, payments[i].invoiceId).Some?
    ensures forall i :: 0 <= i < |payments| ==> FindInvoice(invoices + [rec], payments[i].invoiceId).Some?
  {
    forall i | 0 <= i < |payments| ensures FindInvoice(invoices + [rec], payments[i].invoiceId).Some? {
      var inv := FindInvoice(invoices, payments[i].invoiceId).value;
      var j :| 0 <= j < |invoices| && invoices[j] == inv;
      assert (invoices + [rec])[j] == inv;
    }
  }

  // ---------------------------------------------------------------- lookups

  /** GET `/`: a reversed copy of the ledger, newest first. */
  function ListInvoices(invoices: seq<InvoiceRecord>): (r: seq<InvoiceRecord>)
    ensures |r| == |invoices|
    ensures forall k :: 0 <= k < |r| ==> r[k] == invoices[|invoices| - 1 - k]
  {
    Reverse(invoices)
  }

  /** The response of GET `/:id`. */
  datatype InvoiceLookup = Found(invoice: InvoiceRecord) | InvoiceMissing  // 200 or 404

  /** GET `/:id`: the first record with that id, 404 when there is none. */
  function GetInvoice(invoices: seq<InvoiceRecord>, id: string): (r: InvoiceLookup)
    ensures r.InvoiceMissing? <==> forall i :: 0 <= i < |invoices| ==> invoices[i].invoiceId != id
    ensures r.Found? ==> r.invoice in invoices && r.invoice.invoiceId == id
  {
    match FindInvoice(invoices, id)
    case Some(inv) => Found(inv)
    case None => InvoiceMissing
  }

  /** After a 201 the listing starts with the new record and its id can be looked up. */
  lemma SubmittedRecordIsListedAndFound(invoices: seq<InvoiceRecord>, vendors: seq<Vendor>, req: SubmitRequest,
                                        ml: MlReply, nonce: string, now: string, env: JsEnv)
    requires HasRequiredFields(req)
    ensures var rec := SubmitSpec(invoices, vendors, req, ml, nonce, now, env).record;
      var after := invoices + [rec];
      && ListInvoices(after)[0] == rec
      && GetInvoice(after, "inv_" + nonce).Found?
  {
    var rec := SubmitSpec(invoices, vendors, req, ml, nonce, now, env).record;
    var after := invoices + [rec];
    assert after[|invoices|].invoiceId == "inv_" + nonce;
  }
}
