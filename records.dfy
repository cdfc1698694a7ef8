/**
 * The shapes of the in-memory ledger that the Express server keeps: the
 * invoice records of `db.invoices`, the payment snapshots of `db.payments`,
 * the vendor profiles of `db.vendors`, and the JavaScript values (numbers that
 * may be NaN, raw JSON amounts, the Date facilities) they are built from.
 */
module Records {
  import opened Wrappers

  /** A JavaScript number used as an amount: a whole number of cents, or NaN. */
  datatype Num = Cents(cents: int) | NaN

  /** `x || 0`: NaN and 0 are falsy, so both become 0. */
  function OrZero(n: Num): (r: Num)
    ensures r.Cents?
    ensures n.Cents? ==> r == n
  {
    if n.NaN? then Cents(0) else n
  }

  /** An amount as it arrives in a JSON body: absent, a number (in cents), or a string. */
  datatype RawAmount = Undefined | NumberValue(value: int) | StringValue(text: string)

  /**
   * The parts of the JavaScript runtime the code relies on but the model does
   * not define: `new Date(s).getTime()` (None when it is NaN), the
   * `toISOString()` text of a time value, and `Number(s)` of a string in
   * cents (None when it is NaN).
   */
  datatype JsEnv = JsEnv(
    parseDate: string -> Option<int>,
    isoString: int -> string,
    parseNumber: string -> Option<int>)

  /** `Number(x || 0)`: a missing, zero or empty amount is 0; an unparseable string is NaN. */
  function ToNumber(x: RawAmount, env: JsEnv): (r: Num)
    ensures x.Undefined? || x == StringValue("") ==> r == Cents(0)
    ensures x.NumberValue? ==> r == Cents(x.value)
    ensures r.NaN? <==> x.StringValue? && x.text != "" && env.parseNumber(x.text).None?
  {
    match x
    case Undefined => Cents(0)
    case NumberValue(c) => Cents(c)
    case StringValue(s) =>
      if s == "" then Cents(0)
      else match env.parseNumber(s)
        case Some(c) => Cents(c)
        case None => NaN
  }

  /** The result of `Math.max(0, Math.min(100, Math.round(...)))`, which may be NaN. */
  datatype FinalScore = Score(value: int) | NotANumber

  datatype FlagType = DuplicateHard | DuplicateSoft | UnusualBankAccount | AmountOutOfRange | NoFlags
  datatype Severity = High | Medium | Low | Info

  /** A rule flag; the evidence is the id of the matched invoice, when there is one. */
  datatype Flag = Flag(kind: FlagType, severity: Severity, matchedInvoiceId: Option<string>)

  /** A flag as stored on an invoice record, tagged with its source. */
  datatype StoredFlag = RuleFlag(flag: Flag) | MlFlag(payload: string)

  /** An entry of `db.vendors`; the typical range is in cents, absent when undefined. */
  datatype Vendor = Vendor(
    name: string,
    knownBankAccounts: Option<seq<string>>,
    typicalMin: Option<int>,
    typicalMax: Option<int>)

  /** An entry of `db.invoices`. `ruleScore` is None when the property is undefined. */
  datatype InvoiceRecord = InvoiceRecord(
    invoiceId: string,
    createdAt: string,
    vendorName: string,
    invoiceNumber: string,
    invoiceDate: string,
    taxId: string,
    iban: string,
    rawText: string,
    imagePath: string,
    vendorNameNorm: string,
    invoiceNumberNorm: string,
    invoiceDateNorm: string,
    amountTotal: Num,
    fingerprint: string,
    ruleScore: Option<int>,
    mlScore: real,
    finalScore: FinalScore,
    flags: seq<StoredFlag>)

  /** An entry of `db.payments`: a frozen snapshot of the paid invoice. */
  datatype Payment = Payment(
    paymentId: string,
    invoiceId: string,
    datePaid: string,
    vendorNameNorm: string,
    invoiceNumberNorm: string,
    amountTotal: Num,
    taxId: string,
    iban: string)
}
