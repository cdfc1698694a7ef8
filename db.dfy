/**
 * The in-memory store of the Express server (`db.js`): the shared `db` object
 * whose arrays the route handlers push onto, and the vendor lookup.
 */
module Db {
  import opened Wrappers
  import opened Text
  import opened Seqs
  import opened Records

  /**
   * A call to one of the vendor-baseline helpers the routes import from the
   * store. Their bodies are not part of this model; each call is recorded,
   * with its arguments, in the order it is made.
   */
  datatype VendorCall =
    | GetOrCreateVendor(vendorName: string)
    | UpdateVendorBaseline(vendorName: string, invoiceId: string)

  /**
   * The shared `db` object. `payments` is None as the store ships it, since
   * its literal declares only `vendors` and `invoices`; the handlers that use
   * `db.payments` then fail.
   */
  class Store {
    var vendors: seq<Vendor>
    var invoices: seq<InvoiceRecord>
    var payments: Option<seq<Payment>>
    var vendorCalls: seq<VendorCall>

    /** The object literal of the store: two empty arrays and no `payments` property. */
    constructor ()
      ensures vendors == [] && invoices == [] && payments == None && vendorCalls == []
    {
      vendors := [];
      invoices := [];
      payments := None;
      vendorCalls := [];
    }
  }

  /** `(name || "").trim().toLowerCase()`, the key vendor names are compared by. */
  function VendorKey(name: string): (r: string)
    ensures NoUpper(r)
    ensures r != [] ==> !IsSpace(r[0]) && !IsSpace(r[|r| - 1])
  {
    Lower(Trim(name))
  }

  function KeyIs(key: string): Vendor -> bool {
    (v: Vendor) => VendorKey(v.name) == key
  }

  /**
   * `findVendorByName`: the first vendor whose trimmed, lower-cased name equals
   * the trimmed, lower-cased query, or None (`undefined`) when there is none.
   */
  function FindVendorByName(vendors: seq<Vendor>, name: string): (r: Option<Vendor>)
    ensures r.None? <==> forall i :: 0 <= i < |vendors| ==> VendorKey(vendors[i].name) != VendorKey(name)
    ensures r.Some? ==> exists i :: 0 <= i < |vendors| && vendors[i] == r.value
                          && VendorKey(vendors[i].name) == VendorKey(name)
                          && forall j :: 0 <= j < i ==> VendorKey(vendors[j].name) != VendorKey(name)
  {
    var k := FirstIndex(vendors, KeyIs(VendorKey(name)));
    if k.Some? then
      assert KeyIs(VendorKey(name))(vendors[k.value]);
      assert forall j :: 0 <= j < k.value ==> !KeyIs(VendorKey(name))(vendors[j]);
      Some(vendors[k.value])
    else
      assert forall j :: 0 <= j < |vendors| ==> !KeyIs(VendorKey(name))(vendors[j]);
      None
  }

  /** Every stored vendor is found by its own name, though possibly as an earlier vendor with the same key. */
  lemma FindVendorByOwnName(vendors: seq<Vendor>, i: nat)
    requires i < |vendors|
    ensures var r := FindVendorByName(vendors, vendors[i].name);
      r.Some? && VendorKey(r.value.name) == VendorKey(vendors[i].name)
  {
  }

  /**
   * Queries that differ only in letter case and surrounding whitespace find
   * the same vendor.
   */
  lemma FindVendorIgnoresCaseAndPadding(vendors: seq<Vendor>, p1: string, u: string, p2: string, v: string)
    requires AllDropped(p1, IsSpace) && AllDropped(p2, IsSpace)
    requires Lower(u) == Lower(v)
    ensures FindVendorByName(vendors, p1 + u + p2) == FindVendorByName(vendors, v)
  {
    TrimPadding(p1, u, p2);
    LowerTrim(u);
    LowerTrim(v);
    assert VendorKey(p1 + u + p2) == VendorKey(v);
  }

  /** A vendor placed in front of the list shadows every later vendor with the same key. */
  lemma FindVendorFirstWins(v: Vendor, rest: seq<Vendor>, name: string)
    requires VendorKey(v.name) == VendorKey(name)
    ensures FindVendorByName([v] + rest, name) == Some(v)
  {
    assert ([v] + rest)[0] == v;
  }

  function IdIs(id: string): InvoiceRecord -> bool {
    (x: InvoiceRecord) => x.invoiceId == id
  }

  /** `db.invoices.find(i => i.invoice_id === id)`, the lookup both routers make. */
  function FindInvoice(invoices: seq<InvoiceRecord>, id: string): (r: Option<InvoiceRecord>)
    ensures r.None? <==> forall i :: 0 <= i < |invoices| ==> invoices[i].invoiceId != id
    ensures r.Some? ==> r.value in invoices && r.value.invoiceId == id
    ensures r.Some? ==> exists i :: 0 <= i < |invoices| && invoices[i] == r.value
                          && forall j :: 0 <= j < i ==> invoices[j].invoiceId != id
  {
    var k := FirstIndex(invoices, IdIs(id));
    if k.Some? then
      assert IdIs(id)(invoices[k.value]);
      assert forall j :: 0 <= j < k.value ==> !IdIs(id)(invoices[j]);
      Some(invoices[k.value])
    else
      assert forall j :: 0 <= j < |invoices| ==> !IdIs(id)(invoices[j]);
      None
  }
}
