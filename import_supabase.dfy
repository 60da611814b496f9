/** The one-off importer of exported documents into the relational store. Each item gets a
    document row, then (when it has an invoice ref) a vendor, a customer, an invoice unless
    the ref is already stored, and a placeholder line item; each item is committed on its
    own, and a failing item is rolled back and counted as skipped. Python's `None` is the
    JSON `Null`. */
module SupabaseImport {
  import opened Wrappers
  import opened Text
  import opened Numbers
  import opened JsonValues

  // ---------------------------------------------------------------------------------------
  // Helpers

  /** `d.get(k, default)` for a dict. */
  function DictGet(fields: seq<(string, Json)>, k: string, default: Json): Json {
    Lookup(fields, k).GetOr(default)
  }

  /** What `nested_get(d, *keys, default=default)` returns: the default as soon as a value
      that is not a dict is met with keys left, and a missing key reads as the default. */
  function NestedGetOf(d: Json, keys: seq<string>, default: Json): (r: Json)
    ensures keys == [] ==> r == d
    ensures keys != [] && !d.Obj? ==> r == default
    decreases keys
  {
    if keys == [] then d
    else if !d.Obj? then default
    else NestedGetOf(DictGet(d.fields, keys[0], default), keys[1..], default)
  }

  /** `nested_get`: the loop reassigning `cur`. */
  method NestedGet(d: Json, keys: seq<string>, default: Json) returns (r: Json)
    ensures r == NestedGetOf(d, keys, default)
  {
    var cur := d;
    var i := 0;
    while i < |keys|
      invariant 0 <= i <= |keys|
      invariant NestedGetOf(cur, keys[i..], default) == NestedGetOf(d, keys, default)
    {
      if !cur.Obj? {
        return default;
      }
      assert keys[i..][1..] == keys[i + 1..];
      cur := DictGet(cur.fields, keys[i], default);
      i := i + 1;
    }
    return cur;
  }

  /** The value at the end of a chain of dicts that all hold their key, if there is one. */
  function DictPath(d: Json, keys: seq<string>): Option<Json>
    decreases keys
  {
    if keys == [] then Some(d)
    else if !d.Obj? || Lookup(d.fields, keys[0]).None? then None
    else DictPath(Lookup(d.fields, keys[0]).value, keys[1..])
  }

  /** When every step is a dict holding its key, `nested_get` returns the nested value. */
  lemma {:induction false} NestedGetFindsPath(d: Json, keys: seq<string>, default: Json)
    requires DictPath(d, keys).Some?
    ensures NestedGetOf(d, keys, default) == DictPath(d, keys).value
    decreases keys
  {
    if keys != [] {
      NestedGetFindsPath(Lookup(d.fields, keys[0]).value, keys[1..], default);
    }
  }

  /** Meeting a value that is not a dict with keys left gives the default, whatever keys
      follow. */
  lemma {:induction false} NestedGetStopsAtNonDict(d: Json, keys: seq<string>, i: nat, default: Json)
    requires i < |keys|
    requires DictPath(d, keys[..i]).Some? && !DictPath(d, keys[..i]).value.Obj?
    ensures NestedGetOf(d, keys, default) == default
    decreases i
  {
    if i > 0 {
      assert keys[..i][0] == keys[0];
      assert keys[..i][1..] == keys[1..][..i - 1];
      NestedGetStopsAtNonDict(Lookup(d.fields, keys[0]).value, keys[1..], i - 1, default);
    }
  }

  /** `clean_ts`: `None` and blank strings become `None`; every other value is kept. */
  function CleanTs(value: Json): (r: Json)
    ensures r == Null <==> value == Null || (value.Str? && Trim(value.s, PyWhitespace) == "")
    ensures r != Null ==> r == value
  {
    if value == Null then Null
    else if value.Str? && Trim(value.s, PyWhitespace) == "" then Null
    else value
  }

  /** `int(raw) if raw is not None else None`, with a raising `int` read as `None`. */
  function DocSize(raw: Json): (size: Option<int>)
    ensures raw == Null ==> size.None?
    ensures raw.Str? ==> size == PyIntOfString(raw.s)
  {
    match raw
    case Str(s) => PyIntOfString(s)
    case Num(n) => Some(TruncReal(n))
    case Bool(b) => Some(if b then 1 else 0)
    case _ => None
  }

  /** `a or b` in Python. */
  function PyOr(a: Json, b: Json): (r: Json)
    ensures PyTruthy(a) ==> r == a
    ensures !PyTruthy(a) ==> r == b
  {
    if PyTruthy(a) then a else b
  }

  // ---------------------------------------------------------------------------------------
  // Reading one item

  datatype ItemFields = ItemFields(
    docName: Json, docSize: Option<int>, validated: Json,
    invoiceRef: Json, invoiceDate: Json, dueDate: Json,
    vendorName: Json, vendorTax: Json, customerName: Json, customerAddress: Json)

  function Extracted(item: Json): Json {
    PyOr(NestedGetOf(item, ["extractedData", "llmData"], Obj([])), Obj([]))
  }

  /** The fields of a dict item. A missing name is "unknown", a falsy customer name is
      "Unknown Customer", a falsy address is "", and blank dates are `None`. */
  function ItemFieldsOf(fields: seq<(string, Json)>): (f: ItemFields)
    ensures PyTruthy(f.docName) && PyTruthy(f.customerName)
    ensures f.invoiceRef == NestedGetOf(Extracted(Obj(fields)), ["invoice", "value", "invoiceId", "value"], Null)
    ensures f.invoiceDate == CleanTs(NestedGetOf(Extracted(Obj(fields)), ["invoice", "value", "invoiceDate", "value"], Null))
  {
    var item := Obj(fields);
    var ex := Extracted(item);
    ItemFields(
      PyOr(DictGet(fields, "name", Null), Str("unknown")),
      DocSize(NestedGetOf(item, ["fileSize", "$numberLong"], Null)),
      DictGet(fields, "isValidatedByHuman", Bool(false)),
      NestedGetOf(ex, ["invoice", "value", "invoiceId", "value"], Null),
      CleanTs(NestedGetOf(ex, ["invoice", "value", "invoiceDate", "value"], Null)),
      CleanTs(NestedGetOf(ex, ["payment", "value", "dueDate", "value"], Null)),
      NestedGetOf(ex, ["vendor", "value", "vendorName", "value"], Null),
      NestedGetOf(ex, ["vendor", "value", "vendorTaxId", "value"], Null),
      PyOr(NestedGetOf(ex, ["customer", "value", "customerName", "value"], Null), Str("Unknown Customer")),
      PyOr(NestedGetOf(ex, ["customer", "value", "customerAddress", "value"], Null), Str("")))
  }

  method ReadItem(fields: seq<(string, Json)>) returns (f: ItemFields)
    ensures f == ItemFieldsOf(fields)
  {
    var item := Obj(fields);
    var sizeRaw := NestedGet(item, ["fileSize", "$numberLong"], Null);
    var ex := NestedGet(item, ["extractedData", "llmData"], Obj([]));
    ex := PyOr(ex, Obj([]));
    var invoiceRef := NestedGet(ex, ["invoice", "value", "invoiceId", "value"], Null);
    var invoiceDate := NestedGet(ex, ["invoice", "value", "invoiceDate", "value"], Null);
    var dueDate := NestedGet(ex, ["payment", "value", "dueDate", "value"], Null);
    var vendorName := NestedGet(ex, ["vendor", "value", "vendorName", "value"], Null);
    var vendorTax := NestedGet(ex, ["vendor", "value", "vendorTaxId", "value"], Null);
    var customerName := NestedGet(ex, ["customer", "value", "customerName", "value"], Null);
    var customerAddress := NestedGet(ex, ["customer", "value", "customerAddress", "value"], Null);
    f := ItemFields(PyOr(DictGet(fields, "name", Null), Str("unknown")), DocSize(sizeRaw),
                    DictGet(fields, "isValidatedByHuman", Bool(false)),
                    invoiceRef, CleanTs(invoiceDate), CleanTs(dueDate), vendorName, vendorTax,
                    PyOr(customerName, Str("Unknown Customer")), PyOr(customerAddress, Str("")));
  }

  // ---------------------------------------------------------------------------------------
  // The tables

  datatype Document = Document(id: nat, name: Json, fileSize: Option<int>, validated: Json)
  /** A vendor (with its tax id) or a customer (with its address). */
  datatype Party = Party(id: nat, name: Json, detail: Json)
  /** An imported invoice; its total is always NULL. */
  datatype InvoiceRow = InvoiceRow(id: nat, ref: Json, invoiceDate: Json, dueDate: Json, vendorId: nat, customerId: nat)
  /** The placeholder line: "Imported line", quantity 1, prices 0. */
  datatype LineItem = LineItem(documentId: nat, invoiceId: nat)

  datatype Tables = Tables(documents: seq<Document>, vendors: seq<Party>, customers: seq<Party>,
                           invoices: seq<InvoiceRow>, lineItems: seq<LineItem>)

  /** An id larger than every id in use. */
  function NextId(ids: seq<nat>): (r: nat)
    ensures r >= 1 && forall k :: 0 <= k < |ids| ==> ids[k] < r
  {
    if ids == [] then 1
    else
      var rest := NextId(ids[1..]);
      assert forall k :: 1 <= k < |ids| ==> ids[k] == ids[1..][k - 1];
      if ids[0] < rest then rest else ids[0] + 1
  }

  function DocumentIds(ds: seq<Document>): seq<nat> { seq(|ds|, k requires 0 <= k < |ds| => ds[k].id) }
  function PartyIds(ps: seq<Party>): seq<nat> { seq(|ps|, k requires 0 <= k < |ps| => ps[k].id) }
  function InvoiceIds(rows: seq<InvoiceRow>): seq<nat> { seq(|rows|, k requires 0 <= k < |rows| => rows[k].id) }

  /** `SELECT id FROM document WHERE name = %s`, first row. */
  function FindDocument(ds: seq<Document>, name: Json): (r: Option<nat>)
    ensures r.Some? ==> exists k :: 0 <= k < |ds| && ds[k].name == name && ds[k].id == r.value
    ensures r.None? ==> forall k :: 0 <= k < |ds| ==> ds[k].name != name
  {
    if ds == [] then None
    else if ds[0].name == name then Some(ds[0].id)
    else
      var r := FindDocument(ds[1..], name);
      assert forall k :: 1 <= k < |ds| ==> ds[k] == ds[1..][k - 1];
      r
  }

  function FindParty(ps: seq<Party>, name: Json): (r: Option<nat>)
    ensures r.Some? ==> exists k :: 0 <= k < |ps| && ps[k].name == name && ps[k].id == r.value
    ensures r.None? ==> forall k :: 0 <= k < |ps| ==> ps[k].name != name
  {
    if ps == [] then None
    else if ps[0].name == name then Some(ps[0].id)
    else
      var r := FindParty(ps[1..], name);
      assert forall k :: 1 <= k < |ps| ==> ps[k] == ps[1..][k - 1];
      r
  }

  /** `SELECT id FROM invoice WHERE invoice_ref = %s`, first row. */
  function FindInvoice(rows: seq<InvoiceRow>, ref: Json): (r: Option<nat>)
    ensures r.Some? ==> exists k :: 0 <= k < |rows| && rows[k].ref == ref && rows[k].id == r.value
    ensures r.None? ==> forall k :: 0 <= k < |rows| ==> rows[k].ref != ref
  {
    if rows == [] then None
    else if rows[0].ref == ref then Some(rows[0].id)
    else
      var r := FindInvoice(rows[1..], ref);
      assert forall k :: 1 <= k < |rows| ==> rows[k] == rows[1..][k - 1];
      r
  }

  predicate HasDocument(t: Tables, id: nat) { exists k :: 0 <= k < |t.documents| && t.documents[k].id == id }
  predicate HasVendor(t: Tables, id: nat) { exists k :: 0 <= k < |t.vendors| && t.vendors[k].id == id }
  predicate HasCustomer(t: Tables, id: nat) { exists k :: 0 <= k < |t.customers| && t.customers[k].id == id }
  predicate HasInvoice(t: Tables, id: nat) { exists k :: 0 <= k < |t.invoices| && t.invoices[k].id == id }

  /** Every reference points at a stored row. */
  predicate Linked(t: Tables) {
    (forall k :: 0 <= k < |t.invoices| ==> HasVendor(t, t.invoices[k].vendorId) && HasCustomer(t, t.invoices[k].customerId)) &&
    (forall k :: 0 <= k < |t.lineItems| ==> HasDocument(t, t.lineItems[k].documentId) && HasInvoice(t, t.lineItems[k].invoiceId))
  }

  // ---------------------------------------------------------------------------------------
  // The get-or-create steps

  /** A row id and the tables after the step that produced it. */
  datatype Got = Got(tables: Tables, id: nat)

  /** `get_or_create_document`: the first document with the name, or a new row under a fresh
      id. No other table changes. */
  function DocumentStep(t: Tables, name: Json, size: Option<int>, validated: Json): (g: Got)
    ensures g.tables.vendors == t.vendors && g.tables.customers == t.customers
    ensures g.tables.invoices == t.invoices && g.tables.lineItems == t.lineItems
    ensures FindDocument(t.documents, name).Some? ==> g == Got(t, FindDocument(t.documents, name).value)
    ensures FindDocument(t.documents, name).None? ==>
      g.id == NextId(DocumentIds(t.documents)) &&
      g.tables.documents == t.documents + [Document(g.id, name, size, validated)]
    ensures Linked(t) ==> Linked(g.tables) && HasDocument(g.tables, g.id)
  {
    match FindDocument(t.documents, name)
    case Some(id) =>
      assert HasDocument(t, id);
      Got(t, id)
    case None =>
      var id := NextId(DocumentIds(t.documents));
      var u := t.(documents := t.documents + [Document(id, name, size, validated)]);
      assert HasDocument(u, id) by { assert u.documents[|t.documents|].id == id; }
      assert u.documents[..|t.documents|] == t.documents;
      assert Linked(t) ==> Linked(u) by {
        if Linked(t) { LinkedMoreDocuments(t, u); }
      }
      Got(u, id)
  }

  /** `get_or_create_vendor`: a falsy name becomes "Unknown Vendor"; then the first vendor
      with that name, or a new row under a fresh id. */
  function VendorStep(t: Tables, name: Json, taxId: Json): (g: Got)
    ensures g.tables.documents == t.documents && g.tables.customers == t.customers
    ensures g.tables.invoices == t.invoices && g.tables.lineItems == t.lineItems
    ensures var stored := if PyTruthy(name) then name else Str("Unknown Vendor");
      (FindParty(t.vendors, stored).Some? ==> g == Got(t, FindParty(t.vendors, stored).value)) &&
      (FindParty(t.vendors, stored).None? ==>
         g.id == NextId(PartyIds(t.vendors)) && g.tables.vendors == t.vendors + [Party(g.id, stored, taxId)])
    ensures Linked(t) ==> Linked(g.tables) && HasVendor(g.tables, g.id)
  {
    var stored := if PyTruthy(name) then name else Str("Unknown Vendor");
    match FindParty(t.vendors, stored)
    case Some(id) =>
      assert HasVendor(t, id);
      Got(t, id)
    case None =>
      var id := NextId(PartyIds(t.vendors));
      var u := t.(vendors := t.vendors + [Party(id, stored, taxId)]);
      assert HasVendor(u, id) by { assert u.vendors[|t.vendors|].id == id; }
      assert u.vendors[..|t.vendors|] == t.vendors;
      assert Linked(t) ==> Linked(u) by {
        if Linked(t) { LinkedMoreParties(t, u); }
      }
      Got(u, id)
  }

  /** `get_or_create_customer`: a falsy name becomes "Unknown Customer"; then the first
      customer with that name, or a new row under a fresh id. */
  function CustomerStep(t: Tables, name: Json, address: Json): (g: Got)
    ensures g.tables.documents == t.documents && g.tables.vendors == t.vendors
    ensures g.tables.invoices == t.invoices && g.tables.lineItems == t.lineItems
    ensures var stored := if PyTruthy(name) then name else Str("Unknown Customer");
      (FindParty(t.customers, stored).Some? ==> g == Got(t, FindParty(t.customers, stored).value)) &&
      (FindParty(t.customers, stored).None? ==>
         g.id == NextId(PartyIds(t.customers)) && g.tables.customers == t.customers + [Party(g.id, stored, address)])
    ensures Linked(t) ==> Linked(g.tables) && HasCustomer(g.tables, g.id)
  {
    var stored := if PyTruthy(name) then name else Str("Unknown Customer");
    match FindParty(t.customers, stored)
    case Some(id) =>
      assert HasCustomer(t, id);
      Got(t, id)
    case None =>
      var id := NextId(PartyIds(t.customers));
      var u := t.(customers := t.customers + [Party(id, stored, address)]);
      assert HasCustomer(u, id) by { assert u.customers[|t.customers|].id == id; }
      assert u.customers[..|t.customers|] == t.customers;
      assert Linked(t) ==> Linked(u) by {
        if Linked(t) { LinkedMoreParties(t, u); }
      }
      Got(u, id)
  }

  /** The invoice step: the stored invoice with the item's ref, or a new row under a fresh id
      whose total is NULL. */
  function InvoiceRowStep(t: Tables, f: ItemFields, vendorId: nat, customerId: nat): (g: Got)
    ensures g.tables.documents == t.documents && g.tables.vendors == t.vendors
    ensures g.tables.customers == t.customers && g.tables.lineItems == t.lineItems
    ensures FindInvoice(t.invoices, f.invoiceRef).Some? ==> g == Got(t, FindInvoice(t.invoices, f.invoiceRef).value)
    ensures FindInvoice(t.invoices, f.invoiceRef).None? ==>
      g.tables.invoices == t.invoices + [InvoiceRow(g.id, f.invoiceRef, f.invoiceDate, f.dueDate, vendorId, customerId)] &&
      forall k :: 0 <= k < |t.invoices| ==> t.invoices[k].id != g.id
    ensures Linked(t) && HasVendor(t, vendorId) && HasCustomer(t, customerId) ==>
      Linked(g.tables) && HasInvoice(g.tables, g.id)
  {
    match FindInvoice(t.invoices, f.invoiceRef)
    case Some(id) =>
      assert HasInvoice(t, id);
      Got(t, id)
    case None =>
      var id := NextId(InvoiceIds(t.invoices));
      var u := t.(invoices := t.invoices + [InvoiceRow(id, f.invoiceRef, f.invoiceDate, f.dueDate, vendorId, customerId)]);
      assert HasInvoice(u, id) by { assert u.invoices[|t.invoices|].id == id; }
      assert u.invoices[..|t.invoices|] == t.invoices;
      assert forall k :: 0 <= k < |t.invoices| ==> t.invoices[k].id != id by {
        forall k | 0 <= k < |t.invoices| ensures t.invoices[k].id != id {
          assert InvoiceIds(t.invoices)[k] == t.invoices[k].id;
        }
      }
      assert Linked(t) && HasVendor(t, vendorId) && HasCustomer(t, customerId) ==> Linked(u) by {
        if Linked(t) && HasVendor(t, vendorId) && HasCustomer(t, customerId) { LinkedMoreInvoices(t, u); }
      }
      Got(u, id)
  }

  // ---------------------------------------------------------------------------------------
  // The import run

  /** Where an item's processing raises, if it does: in the document lookup or insert, in
      the vendor or customer step, in the invoice step, or after the invoice step (the line
      item insert or the commit). A store error is an input of the model. */
  datatype Failure = NoFailure | DocumentFails | VendorFails | CustomerFails | InvoiceFails | LateFails

  /** How one item ends. `FailedLate(newInvoice)` is a failure after the invoice step, where
      `newInvoice` says whether that step had inserted (and counted as imported) a new
      invoice rather than found (and counted as skipped) a stored one. */
  datatype Outcome = Failed | NoRef | Duplicate | New | FailedLate(counted: bool)

  function OutcomeOf(f: ItemFields, failure: Failure, refTaken: bool): Outcome {
    if failure == DocumentFails then Failed
    else if !PyTruthy(f.invoiceRef) then NoRef
    else if failure == VendorFails || failure == CustomerFails || failure == InvoiceFails then Failed
    else if failure == LateFails then FailedLate(!refTaken)
    else if refTaken then Duplicate else New
  }

  /** The increments of `imported` and `skipped` an outcome causes. */
  function ImportedStep(o: Outcome): nat {
    if o == New || o == FailedLate(true) then 1 else 0
  }

  function SkippedStep(o: Outcome): nat {
    if o == New then 0 else if o == FailedLate(false) then 2 else 1
  }

  /** Every outcome counts the item once or twice. */
  lemma StepBounds(o: Outcome)
    ensures 1 <= ImportedStep(o) + SkippedStep(o) <= 2
  {
  }

  /** The connection's state: the committed tables, the tables as the open transaction sees
      them, and the two counters. */
  datatype ImportState = ImportState(committed: Tables, work: Tables, imported: nat, skipped: nat)

  predicate LinkedState(s: ImportState) {
    Linked(s.committed) && Linked(s.work)
  }

  /** The `except` branch: roll back to the last commit and count a skip. */
  function Rollback(s: ImportState): ImportState {
    ImportState(s.committed, s.committed, s.imported, s.skipped + 1)
  }

  /** The invoice step, the line item insert and the commit, once the document, vendor and
      customer ids are known. */
  function InvoiceOf(s: ImportState, f: ItemFields, documentId: nat, vendorId: nat, customerId: nat,
                     failure: Failure): (r: ImportState)
    requires failure in {NoFailure, InvoiceFails, LateFails}
    ensures var found := FindInvoice(s.work.invoices, f.invoiceRef);
      r.imported == s.imported + (if found.None? && failure in {NoFailure, LateFails} then 1 else 0) &&
      r.skipped == s.skipped + (if found.None? && failure == NoFailure then 0
                                else if found.Some? && failure == LateFails then 2 else 1)
    ensures failure != NoFailure ==> r.work == s.committed && r.committed == s.committed
    ensures failure == NoFailure && FindInvoice(s.work.invoices, f.invoiceRef).Some? ==>
      r.committed == r.work && r.work.invoices == s.work.invoices && r.work.documents == s.work.documents &&
      r.work.lineItems == s.work.lineItems + [LineItem(documentId, FindInvoice(s.work.invoices, f.invoiceRef).value)]
    ensures failure == NoFailure && FindInvoice(s.work.invoices, f.invoiceRef).None? ==>
      r.committed == r.work && r.work.documents == s.work.documents &&
      |r.work.invoices| == |s.work.invoices| + 1 &&
      r.work.invoices[..|s.work.invoices|] == s.work.invoices &&
      r.work.invoices[|s.work.invoices|].ref == f.invoiceRef &&
      r.work.invoices[|s.work.invoices|].invoiceDate == f.invoiceDate &&
      r.work.invoices[|s.work.invoices|].dueDate == f.dueDate &&
      r.work.lineItems == s.work.lineItems + [LineItem(documentId, r.work.invoices[|s.work.invoices|].id)]
    ensures (LinkedState(s) && HasDocument(s.work, documentId) && HasVendor(s.work, vendorId) &&
             HasCustomer(s.work, customerId)) ==> LinkedState(r)
  {
    if failure == InvoiceFails then Rollback(s)
    else
      var g := InvoiceRowStep(s.work, f, vendorId, customerId);
      var isNew := FindInvoice(s.work.invoices, f.invoiceRef).None?;
      var counted := s.(work := g.tables, imported := s.imported + (if isNew then 1 else 0),
                        skipped := s.skipped + (if isNew then 0 else 1));
      if failure == LateFails then Rollback(counted)
      else
        var w := g.tables.(lineItems := g.tables.lineItems + [LineItem(documentId, g.id)]);
        assert w.lineItems[..|g.tables.lineItems|] == g.tables.lineItems;
        assert isNew ==> g.tables.invoices[..|s.work.invoices|] == s.work.invoices;
        assert (LinkedState(s) && HasDocument(s.work, documentId) && HasVendor(s.work, vendorId) &&
                HasCustomer(s.work, customerId)) ==> Linked(w) by {
          if LinkedState(s) && HasDocument(s.work, documentId) && HasVendor(s.work, vendorId) &&
             HasCustomer(s.work, customerId) {
            assert HasDocument(g.tables, documentId);
            LinkedMoreLines(g.tables, w);
          }
        }
        ImportState(w, w, counted.imported, counted.skipped)
  }

  /** The vendor, customer and invoice steps for an item with an invoice ref whose document
      row is `documentId`. */
  function RecordOf(s: ImportState, f: ItemFields, documentId: nat, failure: Failure): (r: ImportState)
    requires failure != DocumentFails
    ensures var o := OutcomeOf(f, failure, FindInvoice(s.work.invoices, f.invoiceRef).Some?);
      PyTruthy(f.invoiceRef) ==>
        r.imported == s.imported + ImportedStep(o) && r.skipped == s.skipped + SkippedStep(o)
    ensures failure != NoFailure ==> r.work == s.committed && r.committed == s.committed
    ensures failure == NoFailure ==> r.committed == r.work
  {
    if failure == VendorFails then Rollback(s)
    else
      var v := VendorStep(s.work, f.vendorName, f.vendorTax);
      if failure == CustomerFails then Rollback(s)
      else
        var c := CustomerStep(v.tables, f.customerName, f.customerAddress);
        assert failure == NoFailure || failure == InvoiceFails || failure == LateFails;
        assert c.tables.invoices == s.work.invoices;
        InvoiceOf(s.(work := c.tables), f, documentId, v.id, c.id, failure)
  }

  /** The vendor, customer and invoice steps keep every reference pointing at a stored row. */
  lemma RecordOfLinked(s: ImportState, f: ItemFields, documentId: nat, failure: Failure)
    requires failure != DocumentFails && LinkedState(s) && HasDocument(s.work, documentId)
    ensures LinkedState(RecordOf(s, f, documentId, failure))
  {
    if failure != VendorFails && failure != CustomerFails {
      var v := VendorStep(s.work, f.vendorName, f.vendorTax);
      var c := CustomerStep(v.tables, f.customerName, f.customerAddress);
      assert HasVendor(c.tables, v.id) by { assert c.tables.vendors == v.tables.vendors; }
      assert HasDocument(c.tables, documentId) by { assert c.tables.documents == s.work.documents; }
    }
  }

  /** The `try` block for an item read from a dict: the document step, then the skip of an
      item without an invoice ref, whose document insert stays in the open transaction, then
      the rest of the item. */
  function StoreOf(s: ImportState, f: ItemFields, failure: Failure): (r: ImportState)
    ensures var o := OutcomeOf(f, failure, FindInvoice(s.work.invoices, f.invoiceRef).Some?);
      r.imported == s.imported + ImportedStep(o) && r.skipped == s.skipped + SkippedStep(o)
    ensures var o := OutcomeOf(f, failure, FindInvoice(s.work.invoices, f.invoiceRef).Some?);
      o.Failed? || o.FailedLate? ==> r.work == s.committed && r.committed == s.committed
    ensures var o := OutcomeOf(f, failure, FindInvoice(s.work.invoices, f.invoiceRef).Some?);
      o == NoRef ==>
        r.committed == s.committed &&
        r.work.vendors == s.work.vendors && r.work.customers == s.work.customers &&
        r.work.invoices == s.work.invoices && r.work.lineItems == s.work.lineItems &&
        (FindDocument(s.work.documents, f.docName).Some? ==> r.work.documents == s.work.documents) &&
        (FindDocument(s.work.documents, f.docName).None? ==>
           r.work.documents == s.work.documents +
             [Document(NextId(DocumentIds(s.work.documents)), f.docName, f.docSize, f.validated)])
    ensures var o := OutcomeOf(f, failure, FindInvoice(s.work.invoices, f.invoiceRef).Some?);
      o == Duplicate || o == New ==> r.committed == r.work
  {
    if failure == DocumentFails then Rollback(s)
    else
      var d := DocumentStep(s.work, f.docName, f.docSize, f.validated);
      if !PyTruthy(f.invoiceRef) then s.(work := d.tables, skipped := s.skipped + 1)
      else RecordOf(s.(work := d.tables), f, d.id, failure)
  }

  /** An item keeps every reference pointing at a stored row, in both the committed tables
      and the open transaction. */
  lemma StoreOfLinked(s: ImportState, f: ItemFields, failure: Failure)
    requires LinkedState(s)
    ensures LinkedState(StoreOf(s, f, failure))
  {
    if failure != DocumentFails {
      var d := DocumentStep(s.work, f.docName, f.docSize, f.validated);
      if PyTruthy(f.invoiceRef) {
        RecordOfLinked(s.(work := d.tables), f, d.id, failure);
      }
    }
  }

  /** One pass of the import loop. An item that is not a dict makes `item.get` raise. */
  function ItemOf(s: ImportState, item: Json, failure: Failure): (r: ImportState)
    ensures !item.Obj? ==> r == Rollback(s)
    ensures item.Obj? ==>
      var f := ItemFieldsOf(item.fields);
      var o := OutcomeOf(f, failure, FindInvoice(s.work.invoices, f.invoiceRef).Some?);
      r.imported == s.imported + ImportedStep(o) && r.skipped == s.skipped + SkippedStep(o)
    ensures s.imported + s.skipped + 1 <= r.imported + r.skipped <= s.imported + s.skipped + 2
    ensures LinkedState(s) ==> LinkedState(r)
  {
    if !item.Obj? then Rollback(s)
    else
      var f := ItemFieldsOf(item.fields);
      StepBounds(OutcomeOf(f, failure, FindInvoice(s.work.invoices, f.invoiceRef).Some?));
      assert LinkedState(s) ==> LinkedState(StoreOf(s, f, failure)) by {
        if LinkedState(s) { StoreOfLinked(s, f, failure); }
      }
      StoreOf(s, f, failure)
  }

  /** The whole loop: item `k` raises where `failures[k]` says, if anywhere. */
  function ImportAll(s: ImportState, items: seq<Json>, failures: seq<Failure>): (r: ImportState)
    requires |failures| == |items|
    ensures s.imported + s.skipped + |items| <= r.imported + r.skipped <= s.imported + s.skipped + 2 * |items|
    ensures s.imported <= r.imported && s.skipped <= r.skipped
    ensures LinkedState(s) ==> LinkedState(r)
    decreases |items|
  {
    if items == [] then s
    else ImportAll(ItemOf(s, items[0], failures[0]), items[1..], failures[1..])
  }

  /** A run over one item more is the run over the others followed by that item. */
  lemma {:induction false} ImportAllSnoc(s: ImportState, items: seq<Json>, failures: seq<Failure>,
                                         item: Json, failure: Failure)
    requires |failures| == |items|
    ensures ImportAll(s, items + [item], failures + [failure]) == ItemOf(ImportAll(s, items, failures), item, failure)
    decreases |items|
  {
    if items == [] {
      assert items + [item] == [item] && failures + [failure] == [failure];
      assert [item][1..] == [] && [failure][1..] == [];
    } else {
      assert (items + [item])[1..] == items[1..] + [item];
      assert (failures + [failure])[1..] == failures[1..] + [failure];
      ImportAllSnoc(ItemOf(s, items[0], failures[0]), items[1..], failures[1..], item, failure);
    }
  }

  /** The run over the first `i + 1` items is the run over the first `i` followed by item `i`. */
  lemma ImportAllPrefix(s: ImportState, items: seq<Json>, failures: seq<Failure>, i: nat)
    requires |failures| == |items| && i < |items|
    ensures ImportAll(s, items[..i + 1], failures[..i + 1]) == ItemOf(ImportAll(s, items[..i], failures[..i]), items[i], failures[i])
  {
    assert items[..i + 1] == items[..i] + [items[i]] && failures[..i + 1] == failures[..i] + [failures[i]];
    ImportAllSnoc(s, items[..i], failures[..i], items[i], failures[i]);
  }

  /** The importer: its state is an `ImportState`, and each method moves it as the function of
      the same step says. */
  class Importer {
    var committed: Tables
    var work: Tables
    var imported: nat
    var skipped: nat

    function State(): ImportState
      reads this
    {
      ImportState(committed, work, imported, skipped)
    }

    ghost predicate Valid()
      reads this
    {
      LinkedState(State())
    }

    constructor(tables: Tables)
      requires Linked(tables)
      ensures Valid()
      ensures committed == tables && work == tables && imported == 0 && skipped == 0
    {
      committed := tables;
      work := tables;
      imported := 0;
      skipped := 0;
    }

    /** `get_or_create_document`. */
    method DocumentIdFor(name: Json, size: Option<int>, validated: Json) returns (id: nat)
      modifies this
      ensures Got(work, id) == DocumentStep(old(work), name, size, validated)
      ensures committed == old(committed) && imported == old(imported) && skipped == old(skipped)
    {
      var found := FindDocument(work.documents, name);
      if found.Some? {
        return found.value;
      }
      id := NextId(DocumentIds(work.documents));
      work := work.(documents := work.documents + [Document(id, name, size, validated)]);
    }

    /** `get_or_create_vendor`. */
    method VendorIdFor(name: Json, taxId: Json) returns (id: nat)
      modifies this
      ensures Got(work, id) == VendorStep(old(work), name, taxId)
      ensures committed == old(committed) && imported == old(imported) && skipped == old(skipped)
    {
      var stored := if PyTruthy(name) then name else Str("Unknown Vendor");
      var found := FindParty(work.vendors, stored);
      if found.Some? {
        return found.value;
      }
      id := NextId(PartyIds(work.vendors));
      work := work.(vendors := work.vendors + [Party(id, stored, taxId)]);
    }

    /** `get_or_create_customer`. */
    method CustomerIdFor(name: Json, address: Json) returns (id: nat)
      modifies this
      ensures Got(work, id) == CustomerStep(old(work), name, address)
      ensures committed == old(committed) && imported == old(imported) && skipped == old(skipped)
    {
      var stored := if PyTruthy(name) then name else Str("Unknown Customer");
      var found := FindParty(work.customers, stored);
      if found.Some? {
        return found.value;
      }
      id := NextId(PartyIds(work.customers));
      work := work.(customers := work.customers + [Party(id, stored, address)]);
    }

    /** The failing item's `except` branch. */
    method Fail()
      modifies this
      ensures State() == Rollback(old(State()))
    {
      work := committed;
      skipped := skipped + 1;
    }

    /** The invoice step: the stored invoice with the item's ref (a skip), or a new row with a
        fresh id (an import). */
    method InvoiceRowFor(f: ItemFields, vendorId: nat, customerId: nat) returns (invoiceId: nat)
      modifies this
      ensures Got(work, invoiceId) == InvoiceRowStep(old(work), f, vendorId, customerId)
      ensures committed == old(committed)
      ensures FindInvoice(old(work).invoices, f.invoiceRef).Some? ==>
        imported == old(imported) && skipped == old(skipped) + 1
      ensures FindInvoice(old(work).invoices, f.invoiceRef).None? ==>
        imported == old(imported) + 1 && skipped == old(skipped)
    {
      var found := FindInvoice(work.invoices, f.invoiceRef);
      if found.Some? {
        invoiceId := found.value;
        skipped := skipped + 1;
      } else {
        invoiceId := NextId(InvoiceIds(work.invoices));
        work := work.(invoices := work.invoices + [InvoiceRow(invoiceId, f.invoiceRef, f.invoiceDate, f.dueDate, vendorId, customerId)]);
        imported := imported + 1;
      }
    }

    /** The invoice step, the line item insert and the commit. */
    method Invoice(f: ItemFields, documentId: nat, vendorId: nat, customerId: nat, failure: Failure)
      requires failure in {NoFailure, InvoiceFails, LateFails}
      modifies this
      ensures State() == InvoiceOf(old(State()), f, documentId, vendorId, customerId, failure)
    {
      if failure == InvoiceFails {
        Fail();
        return;
      }
      var invoiceId := InvoiceRowFor(f, vendorId, customerId);
      if failure == LateFails {
        Fail();
        return;
      }
      work := work.(lineItems := work.lineItems + [LineItem(documentId, invoiceId)]);
      committed := work;
    }

    /** The vendor, customer and invoice steps for an item with an invoice ref. */
    method Record(f: ItemFields, documentId: nat, failure: Failure)
      requires failure != DocumentFails
      modifies this
      ensures State() == RecordOf(old(State()), f, documentId, failure)
    {
      if failure == VendorFails {
        Fail();
        return;
      }
      var vendorId := VendorIdFor(f.vendorName, f.vendorTax);
      if failure == CustomerFails {
        Fail();
        return;
      }
      var customerId := CustomerIdFor(f.customerName, f.customerAddress);
      Invoice(f, documentId, vendorId, customerId, failure);
    }

    /** The rest of the `try` block once the item has been read from a dict. */
    method Store(f: ItemFields, failure: Failure)
      modifies this
      ensures State() == StoreOf(old(State()), f, failure)
    {
      if failure == DocumentFails {
        Fail();
        return;
      }
      var documentId := DocumentIdFor(f.docName, f.docSize, f.validated);
      if !PyTruthy(f.invoiceRef) {
        skipped := skipped + 1;
        return;
      }
      Record(f, documentId, failure);
    }

    /** One pass of the import loop. */
    method ImportItem(item: Json, failure: Failure)
      modifies this
      ensures State() == ItemOf(old(State()), item, failure)
    {
      if !item.Obj? {
        Fail();
        return;
      }
      var f := ReadItem(item.fields);
      Store(f, failure);
    }

    /** The import loop. Closing the connection afterwards drops what was not committed. */
    method Run(items: seq<Json>, failures: seq<Failure>)
      requires Valid() && |failures| == |items|
      modifies this
      ensures Valid()
      ensures var r := ImportAll(old(State()), items, failures);
        committed == r.committed && work == r.committed && imported == r.imported && skipped == r.skipped
    {
      ghost var start := State();
      var i := 0;
      while i < |items|
        invariant 0 <= i <= |items|
        invariant State() == ImportAll(start, items[..i], failures[..i])
      {
        ImportItem(items[i], failures[i]);
        ImportAllPrefix(start, items, failures, i);
        i := i + 1;
      }
      assert items[..i] == items && failures[..i] == failures;
      work := committed;
    }
  }

  lemma LinkedMoreDocuments(t: Tables, u: Tables)
    requires Linked(t)
    requires u == t.(documents := u.documents) && |t.documents| <= |u.documents|
    requires u.documents[..|t.documents|] == t.documents
    ensures Linked(u)
  {
    forall id | HasDocument(t, id) ensures HasDocument(u, id) {
      var k :| 0 <= k < |t.documents| && t.documents[k].id == id;
      assert u.documents[k] == t.documents[k];
    }
  }

  lemma LinkedMoreParties(t: Tables, u: Tables)
    requires Linked(t)
    requires u == t.(vendors := u.vendors, customers := u.customers)
    requires |t.vendors| <= |u.vendors| && u.vendors[..|t.vendors|] == t.vendors
    requires |t.customers| <= |u.customers| && u.customers[..|t.customers|] == t.customers
    ensures Linked(u)
  {
    forall id | HasVendor(t, id) ensures HasVendor(u, id) {
      var k :| 0 <= k < |t.vendors| && t.vendors[k].id == id;
      assert u.vendors[k] == t.vendors[k];
    }
    forall id | HasCustomer(t, id) ensures HasCustomer(u, id) {
      var k :| 0 <= k < |t.customers| && t.customers[k].id == id;
      assert u.customers[k] == t.customers[k];
    }
  }

  lemma LinkedMoreInvoices(t: Tables, u: Tables)
    requires Linked(t)
    requires u == t.(invoices := u.invoices) && |u.invoices| == |t.invoices| + 1
    requires u.invoices[..|t.invoices|] == t.invoices
    requires HasVendor(t, u.invoices[|t.invoices|].vendorId) && HasCustomer(t, u.invoices[|t.invoices|].customerId)
    ensures Linked(u)
  {
    forall id | HasInvoice(t, id) ensures HasInvoice(u, id) {
      var k :| 0 <= k < |t.invoices| && t.invoices[k].id == id;
      assert u.invoices[k] == t.invoices[k];
    }
    forall k | 0 <= k < |u.invoices| ensures HasVendor(u, u.invoices[k].vendorId) && HasCustomer(u, u.invoices[k].customerId) {
      if k < |t.invoices| { assert u.invoices[k] == t.invoices[k]; }
    }
  }

  lemma LinkedMoreLines(t: Tables, u: Tables)
    requires Linked(t)
    requires u == t.(lineItems := u.lineItems) && |u.lineItems| == |t.lineItems| + 1
    requires u.lineItems[..|t.lineItems|] == t.lineItems
    requires HasDocument(t, u.lineItems[|t.lineItems|].documentId) && HasInvoice(t, u.lineItems[|t.lineItems|].invoiceId)
    ensures Linked(u)
  {
    forall k | 0 <= k < |u.lineItems| ensures HasDocument(u, u.lineItems[k].documentId) && HasInvoice(u, u.lineItems[k].invoiceId) {
      if k < |t.lineItems| { assert u.lineItems[k] == t.lineItems[k]; }
    }
  }
}
