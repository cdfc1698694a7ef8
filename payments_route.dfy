/**
 * The payments router (`routes/payments.js`): POST `/` marks an invoice as
 * paid by appending a snapshot of it to the payment ledger, at most once per
 * invoice, and then asks the vendor helpers to learn from it; GET `/` lists
 * the ledger newest first.
 */
module PaymentsRoute {
  import opened Wrappers
  import opened Seqs
  import opened Records
  import opened Db

  /** The body fields the handler reads; a missing or falsy value is "". */
  datatype MarkPaidRequest = MarkPaidRequest(invoiceId: string, datePaid: string)

  /** The response of POST `/`. */
  datatype MarkPaidOutcome =
    | Created(payment: Payment)   // 201
    | MissingInvoiceId            // 400
    | InvoiceNotFound             // 404
    | AlreadyPaid                 // 409
    | PaymentsUndefined           // 500: `db.payments` is undefined, so calling `find` on it throws

  function Status(o: MarkPaidOutcome): int {
    match o
    case Created(_) => 201
    case MissingInvoiceId => 400
    case InvoiceNotFound => 404
    case AlreadyPaid => 409
    case PaymentsUndefined => 500
  }

  /** Some payment in the ledger refers to the invoice. */
  predicate HasPaymentFor(payments: seq<Payment>, id: string) {
    exists i :: 0 <= i < |payments| && payments[i].invoiceId == id
  }

  /** The ledger guarantee: no two payments refer to the same invoice. */
  predicate PaymentsUnique(payments: seq<Payment>) {
    forall i, j :: 0 <= i < j < |payments| ==> payments[i].invoiceId != payments[j].invoiceId
  }

  /** Every payment refers to an invoice of the ledger. */
  predicate PaymentsReferToInvoices(payments: seq<Payment>, invoices: seq<InvoiceRecord>) {
    forall i :: 0 <= i < |payments| ==> FindInvoice(invoices, payments[i].invoiceId).Some?
  }

  /** The payment object built for an invoice: a fresh `pay_` id, the paid date, and a frozen copy of the invoice's fields. */
  function PaymentFor(inv: InvoiceRecord, datePaid: string, nonce: string, now: string): Payment {
    Payment("pay_" + nonce, inv.invoiceId, if datePaid == "" then now else datePaid,
            inv.vendorNameNorm, inv.invoiceNumberNorm, inv.amountTotal, inv.taxId, inv.iban)
  }

  /**
   * The response of POST `/` for a ledger state. `nonce` stands for the
   * `nanoid(10)` text and `now` for the ISO text of the current time.
   */
  function MarkPaidSpec(invoices: seq<InvoiceRecord>, payments: Option<seq<Payment>>,
                        req: MarkPaidRequest, nonce: string, now: string): (o: MarkPaidOutcome)
    ensures o.MissingInvoiceId? <==> req.invoiceId == ""
    ensures o.InvoiceNotFound? <==>
      req.invoiceId != "" && forall i :: 0 <= i < |invoices| ==> invoices[i].invoiceId != req.invoiceId
    ensures o.PaymentsUndefined? <==>
      req.invoiceId != "" && FindInvoice(invoices, req.invoiceId).Some? && payments.None?
    ensures o.AlreadyPaid? <==>
      req.invoiceId != "" && FindInvoice(invoices, req.invoiceId).Some?
      && payments.Some? && HasPaymentFor(payments.value, req.invoiceId)
    ensures o.Created? ==>
      && payments.Some? && !HasPaymentFor(payments.value, req.invoiceId)
      && o.payment.invoiceId == req.invoiceId
      && (exists i :: 0 <= i < |invoices| && invoices[i].invoiceId == req.invoiceId
                      && o.payment == PaymentFor(invoices[i], req.datePaid, nonce, now))
  {
    if req.invoiceId == "" then MissingInvoiceId
    else
      match FindInvoice(invoices, req.invoiceId)
      case None => InvoiceNotFound
      case Some(inv) =>
        if payments.None? then PaymentsUndefined
        else if HasPaymentFor(payments.value, req.invoiceId) then AlreadyPaid
        else Created(PaymentFor(inv, req.datePaid, nonce, now))
  }

  /** The payment ledger after the response: one more payment on 201, unchanged otherwise. */
  function PaymentsAfter(payments: Option<seq<Payment>>, o: MarkPaidOutcome): Option<seq<Payment>> {
    if o.Created? && payments.Some? then Some(payments.value + [o.payment]) else payments
  }

  /** The vendor-helper calls of a 201: find or create the vendor, then learn its baseline from the invoice. */
  function LearningCalls(inv: InvoiceRecord): seq<VendorCall> {
    [GetOrCreateVendor(inv.vendorName), UpdateVendorBaseline(inv.vendorName, inv.invoiceId)]
  }

  /** POST `/`: validates the request, appends the payment, then calls the vendor helpers. */
  method MarkPaid(db: Store, req: MarkPaidRequest, nonce: string, now: string) returns (o: MarkPaidOutcome)
    modifies db
    ensures o == MarkPaidSpec(old(db.invoices), old(db.payments), req, nonce, now)
    ensures db.payments == PaymentsAfter(old(db.payments), o)
    ensures o.Created? ==>
      db.vendorCalls == old(db.vendorCalls) + LearningCalls(FindInvoice(old(db.invoices), req.invoiceId).value)
    ensures !o.Created? ==> db.vendorCalls == old(db.vendorCalls)
    ensures db.invoices == old(db.invoices) && db.vendors == old(db.vendors)
  {
    if req.invoiceId == "" {
      return MissingInvoiceId;
    }
    var found := FindInvoice(db.invoices, req.invoiceId);
    if found.None? {
      return InvoiceNotFound;
    }
    var inv := found.value;
    if db.payments.None? {
      return PaymentsUndefined;
    }
    if HasPaymentFor(db.payments.value, req.invoiceId) {
      return AlreadyPaid;
    }
    var payment := Payment("pay_" + nonce, inv.invoiceId, if req.datePaid == "" then now else req.datePaid,
                           inv.vendorNameNorm, inv.invoiceNumberNorm, inv.amountTotal, inv.taxId, inv.iban);
    db.payments := Some(db.payments.value + [payment]);
    db.vendorCalls := db.vendorCalls + [GetOrCreateVendor(inv.vendorName)];
    db.vendorCalls := db.vendorCalls + [UpdateVendorBaseline(inv.vendorName, inv.invoiceId)];
    o := Created(payment);
  }

  // The three lemmas below take a defined payments ledger. The store of
  // `db.js` starts without one (`Db.Store.constructor`) and nothing in the
  // code creates it, so as written every POST that reaches the ledger lookup
  // answers 500; the lemmas describe the handler once a ledger exists.

  /** Every POST keeps "at most one payment per invoice". */
  lemma MarkPaidKeepsPaymentsUnique(invoices: seq<InvoiceRecord>, payments: seq<Payment>,
                                    req: MarkPaidRequest, nonce: string, now: string)
    requires PaymentsUnique(payments)
    ensures var o := MarkPaidSpec(invoices, Some(payments), req, nonce, now);
      PaymentsUnique(PaymentsAfter(Some(payments), o).value)
  {
    var o := MarkPaidSpec(invoices, Some(payments), req, nonce, now);
    if o.Created? {
      var after := payments + [o.payment];
      forall i, j | 0 <= i < j < |after| ensures after[i].invoiceId != after[j].invoiceId {
        if j == |payments| {
          assert after[i] == payments[i];
          assert !HasPaymentFor(payments, req.invoiceId);
        }
      }
    }
  }

  /** Every POST keeps every payment pointing at an invoice of the ledger. */
  lemma MarkPaidKeepsReferences(invoices: seq<InvoiceRecord>, payments: seq<Payment>,
                                req: MarkPaidRequest, nonce: string, now: string)
    requires PaymentsReferToInvoices(payments, invoices)
    ensures var o := MarkPaidSpec(invoices, Some(payments), req, nonce, now);
      PaymentsReferToInvoices(PaymentsAfter(Some(payments), o).value, invoices)
  {
    var o := MarkPaidSpec(invoices, Some(payments), req, nonce, now);
    if o.Created? {
      var after := payments + [o.payment];
      forall i | 0 <= i < |after| ensures FindInvoice(invoices, after[i].invoiceId).Some? {
        if i < |payments| {
          assert after[i] == payments[i];
        }
      }
    }
  }

  /** Once an invoice is paid, any later POST for it is answered 409 and changes nothing. */
  lemma MarkPaidTwiceConflicts(invoices: seq<InvoiceRecord>, payments: seq<Payment>,
                               req: MarkPaidRequest, nonce: string, now: string,
                               req2: MarkPaidRequest, nonce2: string, now2: string)
    requires MarkPaidSpec(invoices, Some(payments), req, nonce, now).Created?
    requires req2.invoiceId == req.invoiceId
    ensures var after := PaymentsAfter(Some(payments), MarkPaidSpec(invoices, Some(payments), req, nonce, now));
      var o2 := MarkPaidSpec(invoices, after, req2, nonce2, now2);
      o2 == AlreadyPaid && PaymentsAfter(after, o2) == after
  {
    var o := MarkPaidSpec(invoices, Some(payments), req, nonce, now);
    var after := payments + [o.payment];
    assert after[|payments|].invoiceId == req2.invoiceId;
  }

  /** The payment of a 201 freezes the paid invoice's normalized fields, amount and ids. */
  lemma CreatedPaymentSnapshotsInvoice(invoices: seq<InvoiceRecord>, payments: Option<seq<Payment>>,
                                       req: MarkPaidRequest, nonce: string, now: string)
    requires MarkPaidSpec(invoices, payments, req, nonce, now).Created?
    ensures var p := MarkPaidSpec(invoices, payments, req, nonce, now).payment;
      var inv := FindInvoice(invoices, req.invoiceId).value;
      && p.paymentId == "pay_" + nonce
      && p.invoiceId == inv.invoiceId == req.invoiceId
      && p.vendorNameNorm == inv.vendorNameNorm
      && p.invoiceNumberNorm == inv.invoiceNumberNorm
      && p.amountTotal == inv.amountTotal
      && p.taxId == inv.taxId && p.iban == inv.iban
      && (req.datePaid != "" ==> p.datePaid == req.datePaid)
      && (req.datePaid == "" ==> p.datePaid == now)
  {
  }

  /** The response of GET `/`. */
  datatype PaymentList = Listed(payments: seq<Payment>) | ListFailed  // 200 or 500

  /** GET `/`: a reversed copy of the ledger, newest first; spreading an undefined ledger throws. */
  function ListPayments(payments: Option<seq<Payment>>): (r: PaymentList)
    ensures r.Listed? <==> payments.Some?
    ensures r.Listed? ==>
      && |r.payments| == |payments.value|
      && forall k :: 0 <= k < |r.payments| ==> r.payments[k] == payments.value[|payments.value| - 1 - k]
  {
    if payments.Some? then Listed(Reverse(payments.value)) else ListFailed
  }

  /** Right after a 201 the new payment heads the listing. */
  lemma ListAfterCreateStartsWithNewPayment(invoices: seq<InvoiceRecord>, payments: Option<seq<Payment>>,
                                            req: MarkPaidRequest, nonce: string, now: string)
    requires MarkPaidSpec(invoices, payments, req, nonce, now).Created?
    ensures var o := MarkPaidSpec(invoices, payments, req, nonce, now);
      var l := ListPayments(PaymentsAfter(payments, o));
      l.Listed? && l.payments[0] == o.payment
  {
  }
}
