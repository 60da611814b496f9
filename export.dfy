/** The export routes: invoices, vendor spend and the dashboard summary, each shaped into
    rows and sent either as JSON or as a CSV download. */
module Export {
  import opened Wrappers
  import opened Text
  import opened Numbers
  import opened JsonValues
  import opened Sorting
  import opened Store
  import opened Calendar

  /** The query string of an export request, each parameter as the framework parses it. */
  datatype ExportQuery = ExportQuery(format: Json, startDate: Json, endDate: Json, vendorId: Json)

  /** `format === 'json'`; a missing format defaults to 'csv', so only the exact string
      'json' selects JSON. */
  predicate AsJson(format: Json) { format == Str("json") }

  /** What a route sends: a JSON body, or the rows of a CSV download with its file name, or
      the 500 error. The CSV text itself is produced by a library and is not modelled. */
  datatype ExportReply = JsonReply(body: Json) | CsvReply(rows: seq<Json>, filename: string) | ErrorReply(message: string)

  function Status(r: ExportReply): nat {
    if r.ErrorReply? then 500 else 200
  }

  /** The body of the 500 reply; `message` is the error's own text. */
  function ErrorBody(message: string): Json {
    Obj([("success", Bool(false)), ("error", Str("Failed to export data")), ("message", Str(message))])
  }

  function KeysOf(fields: seq<(string, Json)>): (keys: seq<string>)
    ensures |keys| == |fields|
    ensures forall k :: 0 <= k < |fields| ==> keys[k] == fields[k].0
  {
    seq(|fields|, k requires 0 <= k < |fields| => fields[k].0)
  }

  /** The json-or-csv branch shared by the three routes. `withCount` adds `count`, which the
      summary route leaves out; the file name carries `Date.now()`. */
  function Send(format: Json, rows: seq<Json>, name: string, withCount: bool, now: nat): (r: ExportReply)
    ensures Status(r) == 200
    ensures AsJson(format) <==> r.JsonReply?
    ensures r.JsonReply? ==> Get(r.body, "success") == Bool(true) && Get(r.body, "data") == Arr(rows)
    ensures r.JsonReply? && withCount ==> Get(r.body, "count") == Count(|rows|)
    ensures r.JsonReply? && !withCount ==> Get(r.body, "count") == Undefined
    ensures r.CsvReply? ==> r.rows == rows && r.filename == name + "-" + NatToString(now) + ".csv"
  {
    if !AsJson(format) then CsvReply(rows, name + "-" + NatToString(now) + ".csv")
    else if withCount then
      var body := Obj([("success", Bool(true)), ("data", Arr(rows)), ("count", Count(|rows|))]);
      GetAt(body, 0);
      GetAt(body, 1);
      GetAt(body, 2);
      JsonReply(body)
    else
      var body := Obj([("success", Bool(true)), ("data", Arr(rows))]);
      GetAt(body, 0);
      GetAt(body, 1);
      JsonReply(body)
  }

  // ---------------------------------------------------------------------------------------
  // GET /api/export/invoices

  /** The bounds of the date filter; a bound is `None` when `new Date(...)` gave an Invalid
      Date. */
  datatype DateRange = DateRange(gte: Option<int>, lte: Option<int>)

  /** The `where` object. `vendorId` is `Some(None)` when `parseInt` gave NaN. */
  datatype InvoiceFilter = InvoiceFilter(invoiceDate: Option<DateRange>, vendorId: Option<Option<int>>)

  /** Builds `where`: a date range only when both dates are given, a vendor only when one is.
      `parseDate` is `new Date(text)`; a parameter that is not a string is first turned into
      text, as JavaScript does. */
  function FilterOf(q: ExportQuery, parseDate: string -> Option<int>): (w: InvoiceFilter)
    ensures w.invoiceDate.Some? <==> Truthy(q.startDate) && Truthy(q.endDate)
    ensures w.invoiceDate.Some? ==>
      w.invoiceDate.value == DateRange(parseDate(TemplateText(q.startDate)), parseDate(TemplateText(q.endDate)))
    ensures w.vendorId.Some? <==> Truthy(q.vendorId)
    ensures w.vendorId.Some? ==> w.vendorId.value == ParseIntNoRadix(TemplateText(q.vendorId))
  {
    var dates := if Truthy(q.startDate) && Truthy(q.endDate)
                 then Some(DateRange(parseDate(TemplateText(q.startDate)), parseDate(TemplateText(q.endDate))))
                 else None;
    var vendor := if Truthy(q.vendorId) then Some(ParseIntNoRadix(TemplateText(q.vendorId))) else None;
    InvoiceFilter(dates, vendor)
  }

  /** The `where` object built field by field, as the route does. */
  method BuildFilter(q: ExportQuery, parseDate: string -> Option<int>) returns (w: InvoiceFilter)
    ensures w == FilterOf(q, parseDate)
  {
    w := InvoiceFilter(None, None);
    if Truthy(q.startDate) && Truthy(q.endDate) {
      w := w.(invoiceDate := Some(DateRange(parseDate(TemplateText(q.startDate)), parseDate(TemplateText(q.endDate)))));
    }
    if Truthy(q.vendorId) {
      w := w.(vendorId := Some(ParseIntNoRadix(TemplateText(q.vendorId))));
    }
  }

  /** The store rejects an Invalid Date and a NaN id; the query then fails. */
  predicate Accepted(w: InvoiceFilter) {
    (w.invoiceDate.Some? ==> w.invoiceDate.value.gte.Some? && w.invoiceDate.value.lte.Some?) &&
    (w.vendorId.Some? ==> w.vendorId.value.Some?)
  }

  /** An invoice the filter selects: SQL comparisons with NULL select nothing. */
  predicate Matches(w: InvoiceFilter, inv: Invoice) {
    (w.invoiceDate.Some? ==>
       var range := w.invoiceDate.value;
       inv.invoiceDate.Some? && range.gte.Some? && range.lte.Some? &&
       range.gte.value <= inv.invoiceDate.value <= range.lte.value) &&
    (w.vendorId.Some? ==>
       w.vendorId.value.Some? && inv.vendorId.Some? && inv.vendorId.value == w.vendorId.value.value)
  }

  /** The selected invoices in stored order. */
  function Selected(invs: seq<Invoice>, w: InvoiceFilter): (r: seq<Invoice>)
    ensures |r| <= |invs|
    ensures forall k :: 0 <= k < |r| ==> r[k] in invs && Matches(w, r[k])
    ensures forall k :: 0 <= k < |invs| && Matches(w, invs[k]) ==> invs[k] in r
  {
    if invs == [] then []
    else
      var rest := Selected(invs[..|invs| - 1], w);
      assert invs == invs[..|invs| - 1] + [invs[|invs| - 1]];
      if Matches(w, invs[|invs| - 1]) then rest + [invs[|invs| - 1]] else rest
  }

  /** `orderBy: { invoiceDate: 'desc' }`: Postgres puts NULL dates first. */
  function DateKey(inv: Invoice): Key {
    if inv.invoiceDate.None? then Top else Val(inv.invoiceDate.value as real)
  }

  /** The invoices the route exports, newest first. */
  function ExportedInvoices(db: Db, w: InvoiceFilter): (r: seq<Invoice>)
    ensures SortedDesc(r, DateKey)
    ensures multiset(r) == multiset(Selected(db.invoices, w))
    ensures forall inv :: inv in r <==> inv in db.invoices && Matches(w, inv)
  {
    var s := Selected(db.invoices, w);
    var r := SortDesc(s, DateKey);
    assert forall inv :: inv in r <==> inv in s by {
      forall inv ensures inv in r <==> inv in s {
        assert inv in r <==> inv in multiset(r);
        assert inv in s <==> inv in multiset(s);
      }
    }
    r
  }

  /** One exported invoice, its twelve columns in order. */
  datatype InvoiceRow = InvoiceRow(
    ref: string, date: string, vendor: string, vendorTaxId: string, customer: string,
    subtotal: real, tax: real, totalAmount: real, currency: string,
    paymentStatus: string, paymentDueDate: string, paymentTerms: string)

  const InvoiceColumns: seq<string> := [
    "Invoice Ref", "Invoice Date", "Vendor", "Vendor Tax ID", "Customer", "Subtotal", "Tax",
    "Total Amount", "Currency", "Payment Status", "Payment Due Date", "Payment Terms"]

  /** A string that is present and not empty: one JavaScript treats as true. */
  predicate Given(s: Option<string>) { s.Some? && s.value != "" }

  /** `s || fallback` for an optional string. */
  function TextOr(s: Option<string>, fallback: string): (r: string)
    ensures Given(s) ==> r == s.value
    ensures !Given(s) ==> r == fallback
  {
    if Given(s) then s.value else fallback
  }

  /** `d ? d.toISOString().split('T')[0] : ''`: the calendar date, or '' without a date. */
  function DateText(d: Option<int>): (r: string)
    ensures d.Some? ==> r == IsoDate(d.value)
    ensures d.None? ==> r == ""
  {
    if d.None? then ""
    else
      IsoDateBeforeT(d.value);
      Split(IsoString(d.value), 'T')[0]
  }

  /** The part of the ISO string before 'T' is the calendar date. */
  lemma IsoDateBeforeT(t: int)
    ensures Split(IsoString(t), 'T')[0] == IsoDate(t)
  {
    SplitPrefix(IsoDate(t), IsoTime(t), 'T');
    assert IsoString(t) == IsoDate(t) + ['T'] + IsoTime(t);
  }

  function CustomerById(customers: seq<Customer>, id: Option<nat>): (r: Option<Customer>)
    ensures r.Some? ==> id.Some? && r.value in customers && r.value.id == id.value
    ensures r.None? ==> id.None? || forall c :: c in customers ==> c.id != id.value
  {
    if id.None? || customers == [] then None
    else if customers[0].id == id.value then Some(customers[0])
    else CustomerById(customers[1..], id)
  }

  /** The row of one invoice: missing text becomes '', missing amounts 0, the currency 'EUR',
      and a date its calendar day. */
  function InvoiceRowOf(db: Db, inv: Invoice): (row: InvoiceRow)
    ensures Given(inv.invoiceRef) ==> row.ref == inv.invoiceRef.value
    ensures !Given(inv.invoiceRef) ==> row.ref == ""
    ensures inv.invoiceDate.Some? ==> row.date == IsoDate(inv.invoiceDate.value)
    ensures inv.invoiceDate.None? ==> row.date == ""
    ensures VendorById(db.vendors, inv.vendorId).None? ==> row.vendor == "" && row.vendorTaxId == ""
    ensures VendorById(db.vendors, inv.vendorId).Some? ==>
      var v := VendorById(db.vendors, inv.vendorId).value;
      (Given(v.name) ==> row.vendor == v.name.value) && (!Given(v.name) ==> row.vendor == "") &&
      (Given(v.taxId) ==> row.vendorTaxId == v.taxId.value) && (!Given(v.taxId) ==> row.vendorTaxId == "")
    ensures CustomerById(db.customers, inv.customerId).None? ==> row.customer == ""
    ensures CustomerById(db.customers, inv.customerId).Some? ==>
      var c := CustomerById(db.customers, inv.customerId).value;
      (Given(c.name) ==> row.customer == c.name.value) && (!Given(c.name) ==> row.customer == "")
    ensures inv.subTotal.Some? ==> row.subtotal == inv.subTotal.value
    ensures inv.subTotal.None? ==> row.subtotal == 0.0
    ensures inv.totalTax.Some? ==> row.tax == inv.totalTax.value
    ensures inv.totalTax.None? ==> row.tax == 0.0
    ensures inv.totalAmount.Some? ==> row.totalAmount == inv.totalAmount.value
    ensures inv.totalAmount.None? ==> row.totalAmount == 0.0
    ensures Given(inv.currency) ==> row.currency == inv.currency.value
    ensures !Given(inv.currency) ==> row.currency == "EUR"
    ensures Given(inv.status) ==> row.paymentStatus == inv.status.value
    ensures !Given(inv.status) ==> row.paymentStatus == ""
    ensures inv.dueDate.Some? ==> row.paymentDueDate == IsoDate(inv.dueDate.value)
    ensures inv.dueDate.None? ==> row.paymentDueDate == ""
    ensures Given(inv.paymentTerms) ==> row.paymentTerms == inv.paymentTerms.value
    ensures !Given(inv.paymentTerms) ==> row.paymentTerms == ""
    ensures 'T' !in row.date && 'T' !in row.paymentDueDate
    ensures row.currency != ""
  {
    var vendor := VendorById(db.vendors, inv.vendorId);
    var customer := CustomerById(db.customers, inv.customerId);
    InvoiceRow(
      TextOr(inv.invoiceRef, ""),
      DateText(inv.invoiceDate),
      if vendor.Some? then TextOr(vendor.value.name, "") else "",
      if vendor.Some? then TextOr(vendor.value.taxId, "") else "",
      if customer.Some? then TextOr(customer.value.name, "") else "",
      inv.subTotal.GetOr(0.0),
      inv.totalTax.GetOr(0.0),
      inv.totalAmount.GetOr(0.0),
      TextOr(inv.currency, "EUR"),
      TextOr(inv.status, ""),
      DateText(inv.dueDate),
      TextOr(inv.paymentTerms, ""))
  }

  /** A column holds its default only when the field is missing, empty, or equal to the
      default: the row loses nothing the invoice carries. */
  lemma InvoiceRowDefaults(db: Db, inv: Invoice)
    ensures var row := InvoiceRowOf(db, inv);
      (row.ref == "" <==> !Given(inv.invoiceRef)) &&
      (row.date == "" <==> inv.invoiceDate.None?) &&
      (row.paymentDueDate == "" <==> inv.dueDate.None?) &&
      (row.currency == "EUR" <==> !Given(inv.currency) || inv.currency.value == "EUR") &&
      (row.paymentStatus == "" <==> !Given(inv.status)) &&
      (row.paymentTerms == "" <==> !Given(inv.paymentTerms)) &&
      (row.totalAmount == 0.0 <==> inv.totalAmount.None? || inv.totalAmount.value == 0.0) &&
      (row.subtotal == 0.0 <==> inv.subTotal.None? || inv.subTotal.value == 0.0) &&
      (row.tax == 0.0 <==> inv.totalTax.None? || inv.totalTax.value == 0.0)
  {
  }

  /** The row as the JSON object the route builds. */
  function InvoiceRowJson(row: InvoiceRow): (j: Json)
    ensures j.Obj? && KeysOf(j.fields) == InvoiceColumns
  {
    Obj([("Invoice Ref", Str(row.ref)), ("Invoice Date", Str(row.date)), ("Vendor", Str(row.vendor)),
         ("Vendor Tax ID", Str(row.vendorTaxId)), ("Customer", Str(row.customer)),
         ("Subtotal", Num(row.subtotal)), ("Tax", Num(row.tax)), ("Total Amount", Num(row.totalAmount)),
         ("Currency", Str(row.currency)), ("Payment Status", Str(row.paymentStatus)),
         ("Payment Due Date", Str(row.paymentDueDate)), ("Payment Terms", Str(row.paymentTerms))])
  }

  function InvoiceRows(db: Db, invs: seq<Invoice>): (rows: seq<Json>)
    ensures |rows| == |invs|
    ensures forall k :: 0 <= k < |invs| ==> rows[k] == InvoiceRowJson(InvoiceRowOf(db, invs[k]))
  {
    seq(|invs|, k requires 0 <= k < |invs| => InvoiceRowJson(InvoiceRowOf(db, invs[k])))
  }

  /** `GET /api/export/invoices`. `rejected` is the store's message when it refuses the
      filter. */
  function InvoicesExport(db: Db, q: ExportQuery, parseDate: string -> Option<int>, now: nat, rejected: string)
    : (r: ExportReply)
    ensures !Accepted(FilterOf(q, parseDate)) <==> r == ErrorReply(rejected)
    ensures r.JsonReply? <==> Accepted(FilterOf(q, parseDate)) && AsJson(q.format)
    ensures r.JsonReply? ==>
      Get(r.body, "data") == Arr(InvoiceRows(db, ExportedInvoices(db, FilterOf(q, parseDate)))) &&
      Get(r.body, "count") == Count(|ExportedInvoices(db, FilterOf(q, parseDate))|)
    ensures r.CsvReply? ==> r.rows == InvoiceRows(db, ExportedInvoices(db, FilterOf(q, parseDate)))
  {
    var w := FilterOf(q, parseDate);
    if !Accepted(w) then ErrorReply(rejected)
    else Send(q.format, InvoiceRows(db, ExportedInvoices(db, w)), "invoices-export", true, now)
  }

  /** With no filter parameters every invoice is exported, each exactly as often as stored. */
  lemma {:induction false} UnfilteredExportsAll(db: Db, q: ExportQuery, parseDate: string -> Option<int>)
    requires !Truthy(q.startDate) && !Truthy(q.vendorId)
    ensures Accepted(FilterOf(q, parseDate))
    ensures multiset(ExportedInvoices(db, FilterOf(q, parseDate))) == multiset(db.invoices)
  {
    var w := FilterOf(q, parseDate);
    SelectedAll(db.invoices, w);
  }

  lemma {:induction false} SelectedAll(invs: seq<Invoice>, w: InvoiceFilter)
    requires w.invoiceDate.None? && w.vendorId.None?
    ensures Selected(invs, w) == invs
  {
    if invs != [] {
      SelectedAll(invs[..|invs| - 1], w);
      assert invs == invs[..|invs| - 1] + [invs[|invs| - 1]];
    }
  }

  // ---------------------------------------------------------------------------------------
  // GET /api/export/vendors

  datatype VendorRow = VendorRow(name: string, taxId: string, totalInvoices: nat, totalSpend: real,
                                 averageInvoiceValue: real)

  /** `vendor?.name || 'Unknown'`, `vendor?.taxId || ''`, `_sum ?? 0`, `_avg ?? 0`. */
  function VendorRowOf(db: Db, g: Group): (row: VendorRow)
    ensures row.name != ""
    ensures VendorById(db.vendors, g.vendorId).None? ==> row.name == "Unknown" && row.taxId == ""
    ensures row.totalInvoices == g.count
    ensures g.sum.Some? ==> row.totalSpend == g.sum.value
    ensures g.sum.None? ==> row.totalSpend == 0.0
    ensures VendorById(db.vendors, g.vendorId).Some? ==>
      var v := VendorById(db.vendors, g.vendorId).value;
      (Given(v.name) ==> row.name == v.name.value) && (!Given(v.name) ==> row.name == "Unknown") &&
      (Given(v.taxId) ==> row.taxId == v.taxId.value) && (!Given(v.taxId) ==> row.taxId == "")
    ensures g.avg.Some? ==> row.averageInvoiceValue == g.avg.value
    ensures g.avg.None? ==> row.averageInvoiceValue == 0.0
  {
    var v := VendorById(db.vendors, g.vendorId);
    VendorRow(if v.Some? then TextOr(v.value.name, "Unknown") else "Unknown",
              if v.Some? then TextOr(v.value.taxId, "") else "",
              g.count, g.sum.GetOr(0.0), g.avg.GetOr(0.0))
  }

  /** The groups with a vendor id, in the order given. */
  function NamedGroups(gs: seq<Group>): (r: seq<Group>)
    ensures |r| <= |gs|
    ensures forall k :: 0 <= k < |r| ==> r[k] in gs && r[k].vendorId.Some?
    ensures forall k :: 0 <= k < |gs| && gs[k].vendorId.Some? ==> gs[k] in r
  {
    if gs == [] then []
    else
      var rest := NamedGroups(gs[1..]);
      assert gs == [gs[0]] + gs[1..];
      if gs[0].vendorId.Some? then [gs[0]] + rest else rest
  }

  /** Dropping groups keeps the order of the rest. */
  lemma {:induction false} NamedGroupsSorted(gs: seq<Group>)
    requires SortedDesc(gs, SpendKey)
    ensures SortedDesc(NamedGroups(gs), SpendKey)
  {
    if gs != [] {
      var tail := gs[1..];
      assert SortedDesc(tail, SpendKey) by {
        forall i, j | 0 <= i < j < |tail| ensures KeyLe(SpendKey(tail[j]), SpendKey(tail[i])) {
          assert tail[i] == gs[i + 1] && tail[j] == gs[j + 1];
        }
      }
      NamedGroupsSorted(tail);
      var rest := NamedGroups(tail);
      forall k | 0 <= k < |rest| ensures KeyLe(SpendKey(rest[k]), SpendKey(gs[0])) {
        var i :| 0 <= i < |tail| && tail[i] == rest[k];
        assert tail[i] == gs[i + 1];
      }
    }
  }

  function VendorRows(db: Db, gs: seq<Group>): (rows: seq<VendorRow>)
    requires forall k :: 0 <= k < |gs| ==> gs[k].vendorId.Some?
    ensures |rows| == |gs|
    ensures forall k :: 0 <= k < |gs| ==> rows[k] == VendorRowOf(db, gs[k])
  {
    seq(|gs|, k requires 0 <= k < |gs| => VendorRowOf(db, gs[k]))
  }

  function VendorRowJson(row: VendorRow): (j: Json)
    ensures j.Obj? && KeysOf(j.fields) == ["Vendor Name", "Vendor Tax ID", "Total Invoices", "Total Spend",
                                           "Average Invoice Value"]
  {
    Obj([("Vendor Name", Str(row.name)), ("Vendor Tax ID", Str(row.taxId)),
         ("Total Invoices", Count(row.totalInvoices)), ("Total Spend", Num(row.totalSpend)),
         ("Average Invoice Value", Num(row.averageInvoiceValue))])
  }

  /** The vendor rows of the export: the ranked groups minus the one without a vendor. */
  function VendorExportRows(db: Db): (rows: seq<VendorRow>) {
    var named := NamedGroups(RankedGroups(db.invoices));
    VendorRows(db, named)
  }

  /** `GET /api/export/vendors`. */
  function VendorsExport(db: Db, format: Json, now: nat): (r: ExportReply)
    ensures Status(r) == 200
    ensures r.JsonReply? <==> AsJson(format)
    ensures r.JsonReply? ==> Get(r.body, "count") == Count(|VendorExportRows(db)|)
    ensures r.JsonReply? ==> Get(r.body, "data") == Arr(VendorRowsJson(VendorExportRows(db)))
    ensures r.CsvReply? ==> r.rows == VendorRowsJson(VendorExportRows(db))
    ensures r.CsvReply? ==> |r.rows| == |VendorExportRows(db)|
    ensures r.CsvReply? ==> forall k :: 0 <= k < |r.rows| ==> r.rows[k] == VendorRowJson(VendorExportRows(db)[k])
  {
    Send(format, VendorRowsJson(VendorExportRows(db)), "vendors-export", true, now)
  }

  function VendorRowsJson(rows: seq<VendorRow>): (items: seq<Json>)
    ensures |items| == |rows|
    ensures forall k :: 0 <= k < |rows| ==> items[k] == VendorRowJson(rows[k])
  {
    seq(|rows|, k requires 0 <= k < |rows| => VendorRowJson(rows[k]))
  }

  /** Every vendor id on an invoice has exactly one row, holding that vendor's aggregates. */
  lemma VendorRowsCover(db: Db, inv: Invoice)
    requires inv in db.invoices && inv.vendorId.Some?
    ensures var named := NamedGroups(RankedGroups(db.invoices));
      exists k :: 0 <= k < |named| && named[k] == GroupOf(db.invoices, inv.vendorId) &&
        VendorExportRows(db)[k] == VendorRowOf(db, GroupOf(db.invoices, inv.vendorId)) &&
        forall j :: 0 <= j < |named| && j != k ==> named[j].vendorId != inv.vendorId
  {
    var named := NamedGroups(RankedGroups(db.invoices));
    var g := GroupOf(db.invoices, inv.vendorId);
    assert g in named && g.vendorId == inv.vendorId by { NamedRanking(db.invoices, inv); }
    var k :| 0 <= k < |named| && named[k] == g;
    assert forall j :: 0 <= j < |named| && j != k ==> named[j].vendorId != inv.vendorId by {
      NamedRanking(db.invoices, inv);
      OnlyOne(named, k);
    }
    assert VendorExportRows(db)[k] == VendorRowOf(db, g) by {
      assert VendorExportRows(db) == VendorRows(db, named);
    }
    assert 0 <= k < |named| && named[k] == g && VendorExportRows(db)[k] == VendorRowOf(db, g) &&
      forall j :: 0 <= j < |named| && j != k ==> named[j].vendorId != inv.vendorId;
  }

  /** The named groups of the ranking hold the group of every vendor id on an invoice, and
      no vendor id twice. */
  lemma NamedRanking(invs: seq<Invoice>, inv: Invoice)
    requires inv in invs && inv.vendorId.Some?
    ensures GroupOf(invs, inv.vendorId) in NamedGroups(RankedGroups(invs))
    ensures var named := NamedGroups(RankedGroups(invs));
      forall i, j :: 0 <= i < j < |named| ==> named[i].vendorId != named[j].vendorId
  {
    var gs := GroupByVendor(invs);
    var ranked := RankedGroups(invs);
    GroupByVendorCovers(invs);
    GroupByVendorAggregates(invs);
    GroupByVendorDistinct(invs);
    var i0 :| 0 <= i0 < |invs| && invs[i0] == inv;
    var i :| 0 <= i < |gs| && gs[i].vendorId == inv.vendorId;
    assert gs[i] in multiset(ranked) by { assert gs[i] in multiset(gs); }
    PermutedDistinct(ranked, gs);
    NamedGroupsKeepsDistinct(ranked);
  }

  lemma OnlyOne(named: seq<Group>, k: nat)
    requires k < |named|
    requires forall i, j :: 0 <= i < j < |named| ==> named[i].vendorId != named[j].vendorId
    ensures forall j :: 0 <= j < |named| && j != k ==> named[j].vendorId != named[k].vendorId
  {
    forall j | 0 <= j < |named| && j != k ensures named[j].vendorId != named[k].vendorId {
      if j < k { } else { }
    }
  }

  /** A reordering of groups with distinct vendor ids has distinct vendor ids. */
  lemma PermutedDistinct(ranked: seq<Group>, gs: seq<Group>)
    requires multiset(ranked) == multiset(gs)
    requires forall i, j :: 0 <= i < j < |gs| ==> gs[i].vendorId != gs[j].vendorId
    ensures forall i, j :: 0 <= i < j < |ranked| ==> ranked[i].vendorId != ranked[j].vendorId
  {
    forall i, j | 0 <= i < j < |ranked| ensures ranked[i].vendorId != ranked[j].vendorId {
      if ranked[i].vendorId == ranked[j].vendorId {
        assert ranked[i] in multiset(gs) && ranked[j] in multiset(gs);
        var a :| 0 <= a < |gs| && gs[a] == ranked[i];
        var b :| 0 <= b < |gs| && gs[b] == ranked[j];
        assert a == b;
        PairCount(ranked, i, j);
        SingleCount(gs, a);
        assert false;
      }
    }
  }

  /** An element that occurs at two positions is counted at least twice. */
  lemma PairCount<T>(s: seq<T>, i: nat, j: nat)
    requires i < j < |s| && s[i] == s[j]
    ensures multiset(s)[s[i]] >= 2
  {
    assert s == s[..j] + [s[j]] + s[j + 1..];
    assert s[i] == s[..j][i];
    assert multiset(s[..j])[s[i]] >= 1;
  }

  /** In a sequence of groups with distinct vendor ids each group is counted once. */
  lemma {:induction false} SingleCount(gs: seq<Group>, a: nat)
    requires a < |gs|
    requires forall i, j :: 0 <= i < j < |gs| ==> gs[i].vendorId != gs[j].vendorId
    ensures multiset(gs)[gs[a]] == 1
  {
    var g := gs[a];
    assert gs == gs[..a] + [g] + gs[a + 1..];
    assert g !in gs[..a] by {
      forall m | 0 <= m < a ensures gs[..a][m] != g { assert gs[..a][m] == gs[m]; }
    }
    assert g !in gs[a + 1..] by {
      forall m | a + 1 <= m < |gs| ensures gs[m] != g { }
    }
  }

  lemma {:induction false} NamedGroupsKeepsDistinct(gs: seq<Group>)
    requires forall i, j :: 0 <= i < j < |gs| ==> gs[i].vendorId != gs[j].vendorId
    ensures forall i, j :: 0 <= i < j < |NamedGroups(gs)| ==>
      NamedGroups(gs)[i].vendorId != NamedGroups(gs)[j].vendorId
  {
    if gs != [] {
      var tail := gs[1..];
      assert forall i, j :: 0 <= i < j < |tail| ==> tail[i].vendorId != tail[j].vendorId by {
        forall i, j | 0 <= i < j < |tail| ensures tail[i].vendorId != tail[j].vendorId {
          assert tail[i] == gs[i + 1] && tail[j] == gs[j + 1];
        }
      }
      NamedGroupsKeepsDistinct(tail);
      var rest := NamedGroups(tail);
      forall m | 0 <= m < |rest| ensures rest[m].vendorId != gs[0].vendorId {
        var t :| 0 <= t < |tail| && tail[t] == rest[m];
        assert tail[t] == gs[t + 1];
      }
      if gs[0].vendorId.Some? {
        assert NamedGroups(gs) == [gs[0]] + rest;
      } else {
        assert NamedGroups(gs) == rest;
      }
    }
  }

  /** With an amount on every invoice the 'Total Spend' column never increases down the export. */
  lemma VendorRowsDescending(db: Db)
    requires forall k :: 0 <= k < |db.invoices| ==> db.invoices[k].totalAmount.Some?
    ensures var rows := VendorExportRows(db);
      forall i, j :: 0 <= i < j < |rows| ==> rows[j].totalSpend <= rows[i].totalSpend
  {
    var invs := db.invoices;
    var gs := GroupByVendor(invs);
    var ranked := RankedGroups(invs);
    var named := NamedGroups(ranked);
    GroupByVendorAggregates(invs);
    NamedGroupsSorted(ranked);
    forall k | 0 <= k < |named| ensures named[k].sum.Some? {
      assert named[k] in multiset(gs) by { assert named[k] in ranked; }
      var a :| 0 <= a < |gs| && gs[a] == named[k];
      var members := OfVendor(invs, gs[a].vendorId);
      assert members != [];
      assert members[0] in invs;
    }
  }

  // ---------------------------------------------------------------------------------------
  // GET /api/export/dashboard-summary

  datatype MetricRow = MetricRow(metric: string, value: real, unit: string)

  /** The four summary rows: `_sum || 0`, the invoice count, `_avg || 0`, the vendor count. */
  function SummaryRows(db: Db): (rows: seq<MetricRow>)
    ensures |rows| == 4
    ensures rows[0].metric == "Total Spend" && rows[1].metric == "Total Invoices" &&
            rows[2].metric == "Average Invoice Value" && rows[3].metric == "Total Vendors"
    ensures rows[0].unit == "EUR" && rows[1].unit == "count" && rows[2].unit == "EUR" && rows[3].unit == "count"
    ensures rows[0].value == SumAmounts(db.invoices).GetOr(0.0) && rows[2].value == AvgAmount(db.invoices).GetOr(0.0)
  {
    [MetricRow("Total Spend", SumAmounts(db.invoices).GetOr(0.0), "EUR"),
     MetricRow("Total Invoices", |db.invoices| as real, "count"),
     MetricRow("Average Invoice Value", AvgAmount(db.invoices).GetOr(0.0), "EUR"),
     MetricRow("Total Vendors", |db.vendors| as real, "count")]
  }

  /** The summary values agree with one another: the total is the sum with missing amounts
      read as 0, and the average times the number of priced invoices is that total. */
  lemma SummaryRowsAgree(db: Db)
    ensures var rows := SummaryRows(db);
      rows[0].value == Total(db.invoices) &&
      rows[1].value == |db.invoices| as real && rows[3].value == |db.vendors| as real &&
      IsMeanOf(rows[2].value, AmountCount(db.invoices), rows[0].value)
  {
    SumOrZeroIsTotal(db.invoices);
    SummaryAverageScaled(db.invoices);
  }

  /** `_avg || 0` times the number of priced invoices is `_sum || 0`. */
  lemma SummaryAverageScaled(invs: seq<Invoice>)
    ensures IsMeanOf(AvgAmount(invs).GetOr(0.0), AmountCount(invs), SumAmounts(invs).GetOr(0.0))
  {
    if AvgAmount(invs).None? {
      assert AmountCount(invs) == 0;
    }
  }

  function MetricRowJson(row: MetricRow): (j: Json)
    ensures j.Obj? && KeysOf(j.fields) == ["Metric", "Value", "Unit"]
  {
    Obj([("Metric", Str(row.metric)), ("Value", Num(row.value)), ("Unit", Str(row.unit))])
  }

  /** `GET /api/export/dashboard-summary`: the JSON form has no `count`. */
  function SummaryExport(db: Db, format: Json, now: nat): (r: ExportReply)
    ensures Status(r) == 200
    ensures r.JsonReply? <==> AsJson(format)
    ensures r.JsonReply? ==> Get(r.body, "count") == Undefined && Get(r.body, "data").Arr? &&
                             |Get(r.body, "data").items| == 4
    ensures r.JsonReply? ==> forall k :: 0 <= k < 4 ==>
      Get(r.body, "data").items[k] == MetricRowJson(SummaryRows(db)[k])
    ensures r.CsvReply? ==> |r.rows| == 4
    ensures r.CsvReply? ==> forall k :: 0 <= k < 4 ==> r.rows[k] == MetricRowJson(SummaryRows(db)[k])
  {
    var rows := SummaryRows(db);
    Send(format, seq(4, k requires 0 <= k < 4 => MetricRowJson(rows[k])),
         "dashboard-summary", false, now)
  }
}
