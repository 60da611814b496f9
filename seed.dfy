/** The database seeder: reads exported document records, picks each field from the first
    place that has it, normalises names, dates and amounts, and inserts vendors, customers
    and invoices, reusing names it has seen and skipping invoice refs that already exist. */
module Seed {
  import opened Wrappers
  import opened Text
  import opened Numbers
  import opened JsonValues

  // ---------------------------------------------------------------------------------------
  // pick and safeGet

  /** The first candidate that is neither `undefined` nor `null`, or `null`. */
  function FirstPresent(cs: seq<Json>): (r: Json)
    ensures Nullish(r) ==> r == Null
  {
    if cs == [] then Null
    else if !Nullish(cs[0]) then cs[0]
    else FirstPresent(cs[1..])
  }

  /** `pick` gives `null` exactly when every candidate is nullish, and otherwise the first
      candidate that is not. */
  lemma {:induction false} FirstPresentMeaning(cs: seq<Json>)
    ensures Nullish(FirstPresent(cs)) <==> forall k :: 0 <= k < |cs| ==> Nullish(cs[k])
    ensures !Nullish(FirstPresent(cs)) ==>
      exists i :: 0 <= i < |cs| && cs[i] == FirstPresent(cs) && forall k :: 0 <= k < i ==> Nullish(cs[k])
  {
    if cs != [] && Nullish(cs[0]) {
      FirstPresentMeaning(cs[1..]);
      assert forall k :: 1 <= k < |cs| ==> cs[k] == cs[1..][k - 1];
      if !Nullish(FirstPresent(cs)) {
        var i :| 0 <= i < |cs| - 1 && cs[1..][i] == FirstPresent(cs) && forall k :: 0 <= k < i ==> Nullish(cs[1..][k]);
        assert cs[i + 1] == FirstPresent(cs);
      }
    }
  }

  /** `pick(...candidates)`: a search loop over the candidates. */
  method Pick(cs: seq<Json>) returns (r: Json)
    ensures r == FirstPresent(cs)
  {
    var i := 0;
    while i < |cs|
      invariant 0 <= i <= |cs|
      invariant FirstPresent(cs[i..]) == FirstPresent(cs)
    {
      assert cs[i..][1..] == cs[i + 1..];
      if !Nullish(cs[i]) {
        return cs[i];
      }
      i := i + 1;
    }
    return Null;
  }

  /** What `safeGet(obj, path, default)` returns for the split path: the default when a
      step meets a nullish value or when the value found is nullish. */
  function SafeGetOf(obj: Json, keys: seq<string>, default: Json): (r: Json)
    ensures Path(obj, keys).None? ==> r == default
    ensures Path(obj, keys).Some? && !Nullish(Path(obj, keys).value) ==> r == Path(obj, keys).value
    ensures Path(obj, keys).Some? && Nullish(Path(obj, keys).value) ==> r == default
  {
    match Path(obj, keys)
    case None => default
    case Some(v) => Coalesce(v, default)
  }

  /** `safeGet`: walks the dot-separated keys, stopping at the first nullish value. Reading a
      property of a value that is not nullish never throws, so the `catch` is not reached. */
  method SafeGet(obj: Json, path: string, default: Json) returns (r: Json)
    ensures r == SafeGetOf(obj, Split(path, '.'), default)
  {
    var keys := Split(path, '.');
    var result := obj;
    var i := 0;
    while i < |keys|
      invariant 0 <= i <= |keys|
      invariant Path(obj, keys) == Path(result, keys[i..])
    {
      if Nullish(result) {
        return default;
      }
      assert keys[i..][1..] == keys[i + 1..];
      result := Get(result, keys[i]);
      i := i + 1;
    }
    return Coalesce(result, default);
  }

  // ---------------------------------------------------------------------------------------
  // Reading one record

  datatype Fields = Fields(vendorName: Json, customerName: Json, invoiceRef: Json, dateRaw: Json, totalRaw: Json)

  /** The dotted paths `safeGet` walks, as their keys: `VendorSegs` is the path
      "extractedData.llmData.vendor.value.vendorName", and so on. */
  const VendorSegs: seq<string> := ["extractedData", "llmData", "vendor", "value", "vendorName"]
  const CustomerSegs: seq<string> := ["extractedData", "llmData", "customer", "value", "customerName"]
  const InvoiceIdSegs: seq<string> := ["extractedData", "llmData", "invoice", "value", "invoiceId"]
  const InvoiceDateSegs: seq<string> := ["extractedData", "llmData", "invoice", "value", "invoiceDate"]
  const TotalSegs: seq<string> := ["extractedData", "llmData", "summary", "value", "invoiceTotal"]

  /** Keys that a dotted path can carry. */
  predicate DotFree(segs: seq<string>) {
    |segs| >= 1 && forall k :: 0 <= k < |segs| ==> '.' !in segs[k]
  }

  lemma SegsDotFree()
    ensures DotFree(VendorSegs) && DotFree(CustomerSegs) && DotFree(InvoiceIdSegs)
    ensures DotFree(InvoiceDateSegs) && DotFree(TotalSegs)
  {
  }

  /** The two nested places of a field: `<path>.value` first, then `<path>` itself. */
  function Nested(record: Json, segs: seq<string>): seq<Json> {
    [SafeGetOf(record, segs + ["value"], Null), SafeGetOf(record, segs, Null)]
  }

  function Top(record: Json, keys: seq<string>): (r: seq<Json>)
    ensures |r| == |keys|
    ensures forall k :: 0 <= k < |keys| ==> r[k] == Get(record, keys[k])
  {
    seq(|keys|, k requires 0 <= k < |keys| => Get(record, keys[k]))
  }

  const VendorKeys: seq<string> := ["vendor", "vendor_name", "supplier", "vendorName"]
  const CustomerKeys: seq<string> := ["customer", "customer_name", "client", "customerName"]
  const RefKeys: seq<string> := ["invoiceRef", "invoice_id", "invoice_no", "_id", "id", "ref"]
  const DateKeys: seq<string> := ["invoiceDate", "date", "createdAt", "created_at", "invoice_date"]
  const TotalKeys: seq<string> := ["totalAmount", "amount", "value", "total"]

  /** The fields of a record: a falsy name becomes "Unknown Vendor" / "Unknown Customer", a
      falsy ref or date becomes `null`; the total is left as found. */
  function FieldsOf(record: Json): (f: Fields)
    ensures Truthy(f.vendorName) && Truthy(f.customerName)
    ensures Truthy(f.invoiceRef) || f.invoiceRef == Null
    ensures Truthy(f.dateRaw) || f.dateRaw == Null
    ensures Truthy(FirstPresent(Nested(record, VendorSegs) + Top(record, VendorKeys))) ==>
      f.vendorName == FirstPresent(Nested(record, VendorSegs) + Top(record, VendorKeys))
    ensures !Truthy(FirstPresent(Nested(record, VendorSegs) + Top(record, VendorKeys))) ==>
      f.vendorName == Str("Unknown Vendor")
    ensures Truthy(FirstPresent(Nested(record, CustomerSegs) + Top(record, CustomerKeys))) ==>
      f.customerName == FirstPresent(Nested(record, CustomerSegs) + Top(record, CustomerKeys))
    ensures !Truthy(FirstPresent(Nested(record, CustomerSegs) + Top(record, CustomerKeys))) ==>
      f.customerName == Str("Unknown Customer")
    ensures Truthy(FirstPresent(Nested(record, InvoiceIdSegs) + Top(record, RefKeys))) ==>
      f.invoiceRef == FirstPresent(Nested(record, InvoiceIdSegs) + Top(record, RefKeys))
    ensures !Truthy(FirstPresent(Nested(record, InvoiceIdSegs) + Top(record, RefKeys))) ==> f.invoiceRef == Null
    ensures Truthy(FirstPresent(Nested(record, InvoiceDateSegs) + Top(record, DateKeys))) ==>
      f.dateRaw == FirstPresent(Nested(record, InvoiceDateSegs) + Top(record, DateKeys))
    ensures !Truthy(FirstPresent(Nested(record, InvoiceDateSegs) + Top(record, DateKeys))) ==> f.dateRaw == Null
    ensures f.totalRaw == FirstPresent(Nested(record, TotalSegs) + Top(record, TotalKeys))
  {
    Fields(
      Or(FirstPresent(Nested(record, VendorSegs) + Top(record, VendorKeys)), Str("Unknown Vendor")),
      Or(FirstPresent(Nested(record, CustomerSegs) + Top(record, CustomerKeys)), Str("Unknown Customer")),
      Or(FirstPresent(Nested(record, InvoiceIdSegs) + Top(record, RefKeys)), Null),
      Or(FirstPresent(Nested(record, InvoiceDateSegs) + Top(record, DateKeys)), Null),
      FirstPresent(Nested(record, TotalSegs) + Top(record, TotalKeys)))
  }

  /** The candidates of one field, gathered with `safeGet`. */
  method Candidates(record: Json, segs: seq<string>, keys: seq<string>) returns (cs: seq<Json>)
    requires DotFree(segs)
    ensures cs == Nested(record, segs) + Top(record, keys)
  {
    var path := Join(segs, '.');
    SplitJoin(segs, '.');
    SplitAppend(path, '.', "value");
    assert path + ".value" == path + ['.'] + "value";
    var inner := SafeGet(record, path + ".value", Null);
    var outer := SafeGet(record, path, Null);
    cs := [inner, outer] + Top(record, keys);
  }

  method ReadRecord(record: Json) returns (f: Fields)
    ensures f == FieldsOf(record)
  {
    SegsDotFree();
    var cs := Candidates(record, VendorSegs, VendorKeys);
    var vendorName := Pick(cs);
    cs := Candidates(record, CustomerSegs, CustomerKeys);
    var customerName := Pick(cs);
    cs := Candidates(record, InvoiceIdSegs, RefKeys);
    var invoiceRef := Pick(cs);
    cs := Candidates(record, InvoiceDateSegs, DateKeys);
    var dateRaw := Pick(cs);
    cs := Candidates(record, TotalSegs, TotalKeys);
    var totalRaw := Pick(cs);
    f := Fields(Or(vendorName, Str("Unknown Vendor")), Or(customerName, Str("Unknown Customer")),
                Or(invoiceRef, Null), Or(dateRaw, Null), totalRaw);
  }

  // ---------------------------------------------------------------------------------------
  // Dates and amounts

  /** A truthy raw date is parsed from its `$date` field when that is truthy, else as it is;
      `toDate` is `new Date(x)` with `None` for an Invalid Date, which is stored as no date. */
  function InvoiceDateOf(raw: Json, toDate: Json -> Option<int>): (d: Option<int>)
    ensures !Truthy(raw) ==> d.None?
  {
    if !Truthy(raw) then None
    else if Truthy(Get(raw, "$date")) then toDate(Get(raw, "$date"))
    else toDate(raw)
  }

  /** `Number(x)` for a value that is not a string. */
  function ToNumber(j: Json): JsNumber {
    match j
    case Undefined => NaN
    case Null => Finite(0.0)
    case Bool(b) => Finite(if b then 1.0 else 0.0)
    case Num(n) => Finite(n)
    case _ => StringToNumber(TemplateText(j))
  }

  const AmountChars: set<char> := {'0', '1', '2', '3', '4', '5', '6', '7', '8', '9', '.', '-'}

  /** A missing total becomes `Math.floor(500 + random * 4500)`. */
  function FilledTotal(totalRaw: Json, random: real): (t: Json)
    requires 0.0 <= random < 1.0
    ensures !Nullish(totalRaw) ==> t == totalRaw
    ensures Nullish(totalRaw) ==> t.Num? && 500.0 <= t.n <= 4999.0 && t.n == t.n.Floor as real
  {
    if Nullish(totalRaw) then Num((500.0 + random * 4500.0).Floor as real) else totalRaw
  }

  /** The total as a number: a string keeps only `[0-9.-]` and is parsed with `parseFloat`;
      anything else is `Number(x || 0)`. */
  function ParsedTotal(total: Json): JsNumber {
    if total.Str? then ParseFloat(KeepOnly(total.s, AmountChars)) else ToNumber(Or(total, Num(0.0)))
  }

  /** The stored amount: `Math.abs` of the parsed total, with NaN stored as 0. */
  function StoredAmount(totalRaw: Json, random: real): (amount: real)
    requires 0.0 <= random < 1.0
    ensures amount >= 0.0
    ensures Nullish(totalRaw) ==> 500.0 <= amount <= 4999.0 && amount == amount.Floor as real
    ensures !Nullish(totalRaw) && ParsedTotal(totalRaw).NaN? ==> amount == 0.0
    ensures !Nullish(totalRaw) && ParsedTotal(totalRaw).Finite? ==>
      amount == ParsedTotal(totalRaw).value || amount == -ParsedTotal(totalRaw).value
  {
    match ParsedTotal(FilledTotal(totalRaw, random))
    case NaN => 0.0
    case Finite(x) => Abs(x)
  }

  /** A credit note's negative total is stored as its magnitude. */
  lemma NegativeTotalStoredPositive(x: real, random: real)
    requires 0.0 <= random < 1.0 && x < 0.0
    ensures StoredAmount(Num(x), random) == -x
  {
  }

  // ---------------------------------------------------------------------------------------
  // The store and the seeder

  /** A vendor or customer row. */
  datatype Named = Named(id: nat, name: Json)

  datatype SeedInvoice = SeedInvoice(invoiceRef: Json, invoiceDate: Option<int>, totalAmount: real,
                                     vendorId: nat, customerId: nat)

  /** The id the store gives a new row: larger than every id in use. */
  function NextId(rows: seq<Named>): (id: nat)
    ensures id >= 1
    ensures forall k :: 0 <= k < |rows| ==> rows[k].id < id
  {
    if rows == [] then 1
    else
      var rest := NextId(rows[..|rows| - 1]);
      assert forall k :: 0 <= k < |rows| - 1 ==> rows[k] == rows[..|rows| - 1][k];
      if rows[|rows| - 1].id < rest then rest else rows[|rows| - 1].id + 1
  }

  /** `findFirst({ where: { name } })`: the first row with this name in stored order. */
  function FirstNamed(rows: seq<Named>, name: Json): (r: Option<Named>)
    ensures r.Some? ==> r.value in rows && r.value.name == name
    ensures r.None? ==> forall k :: 0 <= k < |rows| ==> rows[k].name != name
  {
    if rows == [] then None
    else if rows[0].name == name then Some(rows[0])
    else
      var r := FirstNamed(rows[1..], name);
      assert forall k :: 1 <= k < |rows| ==> rows[k] == rows[1..][k - 1];
      r
  }

  /** An invoice with this ref is already stored. */
  predicate RefTaken(invoices: seq<SeedInvoice>, ref: Json) {
    exists k :: 0 <= k < |invoices| && invoices[k].invoiceRef == ref
  }

  /** The invoice table after one record: unchanged when the record's ref is already taken,
      otherwise one new invoice with the record's ref, date and amount and the ids of a vendor
      and a customer carrying the record's names. */
  predicate Inserted(f: Fields, random: real, toDate: Json -> Option<int>, before: seq<SeedInvoice>,
                     after: seq<SeedInvoice>, vendors: seq<Named>, customers: seq<Named>, refUnique: bool)
    requires 0.0 <= random < 1.0
  {
    if Truthy(f.invoiceRef) && refUnique && RefTaken(before, f.invoiceRef) then after == before
    else
      |after| == |before| + 1 && after[..|before|] == before &&
      var inv := after[|before|];
      inv.invoiceRef == (if Truthy(f.invoiceRef) then f.invoiceRef else Undefined) &&
      inv.invoiceDate == InvoiceDateOf(f.dateRaw, toDate) &&
      inv.totalAmount == StoredAmount(f.totalRaw, random) &&
      Named(inv.vendorId, f.vendorName) in vendors &&
      Named(inv.customerId, f.customerName) in customers
  }

  /** A row built from the record's fields, appended when its ref is not taken, is what
      `Inserted` describes. */
  lemma AppendInserted(f: Fields, random: real, toDate: Json -> Option<int>, before: seq<SeedInvoice>,
                       inv: SeedInvoice, vendors: seq<Named>, customers: seq<Named>, refUnique: bool)
    requires 0.0 <= random < 1.0
    requires !(Truthy(f.invoiceRef) && refUnique && RefTaken(before, f.invoiceRef))
    requires inv.invoiceRef == (if Truthy(f.invoiceRef) then f.invoiceRef else Undefined)
    requires inv.invoiceDate == InvoiceDateOf(f.dateRaw, toDate)
    requires inv.totalAmount == StoredAmount(f.totalRaw, random)
    requires Named(inv.vendorId, f.vendorName) in vendors && Named(inv.customerId, f.customerName) in customers
    ensures Inserted(f, random, toDate, before, before + [inv], vendors, customers, refUnique)
  {
    assert (before + [inv])[..|before|] == before;
  }

  /** Prisma's String columns and filters take strings only: a vendor name, customer name or
      invoice ref of any other kind makes the query throw. */
  predicate Storable(j: Json) { j.Str? }

  /** The store's rows, the two name caches and the insert counter. */
  datatype SeedState = SeedState(vendors: seq<Named>, customers: seq<Named>, invoices: seq<SeedInvoice>,
                                 vendorCache: map<Json, nat>, customerCache: map<Json, nat>, inserted: nat)

  /** Every cached name is a string whose id is the id of a row with that name. */
  predicate Cached(s: SeedState) {
    (forall n :: n in s.vendorCache ==> Storable(n) && Named(s.vendorCache[n], n) in s.vendors) &&
    (forall n :: n in s.customerCache ==> Storable(n) && Named(s.customerCache[n], n) in s.customers)
  }

  /** The end of a find-or-create step: the id and the new state, or a query that threw. */
  datatype Looked = Looked(state: SeedState, id: nat) | Threw

  /** How one record ends: the loop goes on, or `main` rejects and the run stops with what
      was written so far. */
  datatype Step = Continued(state: SeedState) | Ended(state: SeedState)

  /** Vendor find-or-create through the cache. A cached non-zero id is reused with no query;
      otherwise `findFirst` throws for a name that is not a string, and the first vendor with
      the name is used, or one is created. */
  function VendorLookup(s: SeedState, name: Json): (r: Looked)
    ensures name in s.vendorCache && s.vendorCache[name] != 0 ==> r == Looked(s, s.vendorCache[name])
    ensures !(name in s.vendorCache && s.vendorCache[name] != 0) ==> (r.Threw? <==> !Storable(name))
    ensures r.Looked? ==>
      r.state.customers == s.customers && r.state.invoices == s.invoices &&
      r.state.customerCache == s.customerCache && r.state.inserted == s.inserted &&
      r.state.vendorCache == s.vendorCache[name := r.id]
    ensures Cached(s) && r.Looked? ==> Cached(r.state) && Named(r.id, name) in r.state.vendors
  {
    if name in s.vendorCache && s.vendorCache[name] != 0 then
      assert s.vendorCache[name := s.vendorCache[name]] == s.vendorCache;
      Looked(s, s.vendorCache[name])
    else if !Storable(name) then Threw
    else
      var found := FirstNamed(s.vendors, name);
      var id := if found.Some? then found.value.id else NextId(s.vendors);
      var vendors := if found.Some? then s.vendors else s.vendors + [Named(id, name)];
      Looked(s.(vendors := vendors, vendorCache := s.vendorCache[name := id]), id)
  }

  /** Customer find-or-create through the cache. `findUnique` on the name finds a row only
      when the schema makes the name unique (any failure of it is read as "not found"), and
      `create` throws for a name that is not a string. */
  function CustomerLookup(s: SeedState, name: Json, nameUnique: bool): (r: Looked)
    ensures name in s.customerCache && s.customerCache[name] != 0 ==> r == Looked(s, s.customerCache[name])
    ensures !(name in s.customerCache && s.customerCache[name] != 0) ==> (r.Threw? <==> !Storable(name))
    ensures r.Looked? ==>
      r.state.vendors == s.vendors && r.state.invoices == s.invoices &&
      r.state.vendorCache == s.vendorCache && r.state.inserted == s.inserted &&
      r.state.customerCache == s.customerCache[name := r.id]
    ensures Cached(s) && r.Looked? ==> Cached(r.state) && Named(r.id, name) in r.state.customers
  {
    if name in s.customerCache && s.customerCache[name] != 0 then
      assert s.customerCache[name := s.customerCache[name]] == s.customerCache;
      Looked(s, s.customerCache[name])
    else if !Storable(name) then Threw
    else
      var found := if nameUnique then FirstNamed(s.customers, name) else None;
      var id := if found.Some? then found.value.id else NextId(s.customers);
      var customers := if found.Some? then s.customers else s.customers + [Named(id, name)];
      Looked(s.(customers := customers, customerCache := s.customerCache[name := id]), id)
  }

  /** A vendor name missing from the cache is looked up in the store: the first vendor with
      that name gives the id, and otherwise a new row with a fresh id is added. */
  lemma VendorLookupFinds(s: SeedState, name: Json)
    requires !(name in s.vendorCache && s.vendorCache[name] != 0) && Storable(name)
    ensures var r := VendorLookup(s, name);
      r.Looked? &&
      match FirstNamed(s.vendors, name)
      case Some(v) => r.id == v.id && r.state.vendors == s.vendors
      case None => r.id == NextId(s.vendors) && r.state.vendors == s.vendors + [Named(r.id, name)]
  {
  }

  /** A customer name missing from the cache is found in the store only when the schema
      makes the name unique; otherwise a new row with a fresh id is added. */
  lemma CustomerLookupFinds(s: SeedState, name: Json, nameUnique: bool)
    requires !(name in s.customerCache && s.customerCache[name] != 0) && Storable(name)
    ensures var r := CustomerLookup(s, name, nameUnique);
      r.Looked? &&
      match (if nameUnique then FirstNamed(s.customers, name) else None)
      case Some(c) => r.id == c.id && r.state.customers == s.customers
      case None => r.id == NextId(s.customers) && r.state.customers == s.customers + [Named(r.id, name)]
  {
  }

  /** The invoice insert once the vendor and customer ids are known: a truthy ref that is not
      a string makes `create` throw; a truthy ref already stored is skipped; otherwise one
      row at the end of the table, counted. */
  function InvoiceStep(s: SeedState, refUnique: bool, f: Fields, random: real, toDate: Json -> Option<int>,
                       vendorId: nat, customerId: nat): (r: Step)
    requires 0.0 <= random < 1.0
    ensures r.Ended? <==> Truthy(f.invoiceRef) && !Storable(f.invoiceRef)
    ensures r.Ended? ==> r.state == s
    ensures r.state.vendors == s.vendors && r.state.customers == s.customers
    ensures r.state.vendorCache == s.vendorCache && r.state.customerCache == s.customerCache
    ensures r.state.inserted - s.inserted == |r.state.invoices| - |s.invoices|
    ensures |s.invoices| <= |r.state.invoices| <= |s.invoices| + 1 && r.state.invoices[..|s.invoices|] == s.invoices
    ensures forall k :: |s.invoices| <= k < |r.state.invoices| ==> r.state.invoices[k].totalAmount >= 0.0
  {
    if Truthy(f.invoiceRef) && !Storable(f.invoiceRef) then Ended(s)
    else if Truthy(f.invoiceRef) && refUnique && RefTaken(s.invoices, f.invoiceRef) then Continued(s)
    else
      var ref := if Truthy(f.invoiceRef) then f.invoiceRef else Undefined;
      var inv := SeedInvoice(ref, InvoiceDateOf(f.dateRaw, toDate), StoredAmount(f.totalRaw, random), vendorId, customerId);
      assert (s.invoices + [inv])[..|s.invoices|] == s.invoices;
      Continued(s.(invoices := s.invoices + [inv], inserted := s.inserted + 1))
  }

  /** With the ids of a vendor and a customer carrying the record's names, an insert that
      goes through leaves the invoice table as `Inserted` describes. */
  lemma InvoiceStepInserts(s: SeedState, refUnique: bool, f: Fields, random: real, toDate: Json -> Option<int>,
                           vendorId: nat, customerId: nat)
    requires 0.0 <= random < 1.0
    requires Named(vendorId, f.vendorName) in s.vendors && Named(customerId, f.customerName) in s.customers
    requires InvoiceStep(s, refUnique, f, random, toDate, vendorId, customerId).Continued?
    ensures Inserted(f, random, toDate, s.invoices, InvoiceStep(s, refUnique, f, random, toDate, vendorId, customerId).state.invoices,
                     s.vendors, s.customers, refUnique)
  {
    if !(Truthy(f.invoiceRef) && refUnique && RefTaken(s.invoices, f.invoiceRef)) {
      var ref := if Truthy(f.invoiceRef) then f.invoiceRef else Undefined;
      var inv := SeedInvoice(ref, InvoiceDateOf(f.dateRaw, toDate), StoredAmount(f.totalRaw, random), vendorId, customerId);
      AppendInserted(f, random, toDate, s.invoices, inv, s.vendors, s.customers, refUnique);
    }
  }

  /** Every query of this record's insert takes its values. */
  predicate StorableFields(f: Fields) {
    Storable(f.vendorName) && Storable(f.customerName) && (Truthy(f.invoiceRef) ==> Storable(f.invoiceRef))
  }

  /** Storing one record's fields: vendor, customer, then the invoice. A throw ends the run
      and keeps the rows the earlier steps wrote. */
  function InsertStep(s: SeedState, nameUnique: bool, refUnique: bool, f: Fields, random: real,
                      toDate: Json -> Option<int>): (r: Step)
    requires 0.0 <= random < 1.0
    ensures Cached(s) ==> Cached(r.state) && (r.Continued? <==> StorableFields(f))
    ensures r.state.inserted - s.inserted == |r.state.invoices| - |s.invoices|
    ensures |s.invoices| <= |r.state.invoices| <= |s.invoices| + 1 && r.state.invoices[..|s.invoices|] == s.invoices
    ensures forall k :: |s.invoices| <= k < |r.state.invoices| ==> r.state.invoices[k].totalAmount >= 0.0
    ensures r.Ended? ==> r.state.invoices == s.invoices
    ensures VendorLookup(s, f.vendorName).Looked? ==>
      r.state.vendors == VendorLookup(s, f.vendorName).state.vendors &&
      r.state.vendorCache == VendorLookup(s, f.vendorName).state.vendorCache
    ensures VendorLookup(s, f.vendorName).Threw? ==> r == Ended(s)
  {
    var v := VendorLookup(s, f.vendorName);
    if v.Threw? then Ended(s)
    else
      var c := CustomerLookup(v.state, f.customerName, nameUnique);
      if c.Threw? then Ended(v.state)
      else InvoiceStep(c.state, refUnique, f, random, toDate, v.id, c.id)
  }

  /** A record's insert that goes through leaves the invoice table as `Inserted` describes. */
  lemma InsertStepInserts(s: SeedState, nameUnique: bool, refUnique: bool, f: Fields, random: real,
                          toDate: Json -> Option<int>)
    requires 0.0 <= random < 1.0 && Cached(s)
    requires InsertStep(s, nameUnique, refUnique, f, random, toDate).Continued?
    ensures var r := InsertStep(s, nameUnique, refUnique, f, random, toDate).state;
      Inserted(f, random, toDate, s.invoices, r.invoices, r.vendors, r.customers, refUnique)
  {
    var v := VendorLookup(s, f.vendorName);
    var c := CustomerLookup(v.state, f.customerName, nameUnique);
    InvoiceStepInserts(c.state, refUnique, f, random, toDate, v.id, c.id);
  }

  /** A record the run gets through: not nullish, and every query of its insert takes its
      values. */
  predicate Clean(record: Json) {
    !Nullish(record) && StorableFields(FieldsOf(record))
  }

  /** One pass of the loop body. A nullish record makes `record.vendor` throw. */
  function SeedOne(s: SeedState, nameUnique: bool, refUnique: bool, record: Json, random: real,
                   toDate: Json -> Option<int>): (r: Step)
    requires 0.0 <= random < 1.0
    ensures Nullish(record) ==> r == Ended(s)
    ensures Cached(s) ==> Cached(r.state)
    ensures r.state.inserted - s.inserted == |r.state.invoices| - |s.invoices|
    ensures |s.invoices| <= |r.state.invoices| <= |s.invoices| + 1 && r.state.invoices[..|s.invoices|] == s.invoices
    ensures forall k :: |s.invoices| <= k < |r.state.invoices| ==> r.state.invoices[k].totalAmount >= 0.0
    ensures r.Ended? ==> r.state.invoices == s.invoices
  {
    if Nullish(record) then Ended(s)
    else
      var f := FieldsOf(record);
      InsertStep(s, nameUnique, refUnique, f, random, toDate)
  }

  /** Under consistent caches a record gets through exactly when it is clean: a nullish
      record, a name that is not a string, or a truthy ref that is not a string ends the run. */
  lemma SeedOneContinues(s: SeedState, nameUnique: bool, refUnique: bool, record: Json, random: real,
                         toDate: Json -> Option<int>)
    requires 0.0 <= random < 1.0 && Cached(s)
    ensures SeedOne(s, nameUnique, refUnique, record, random, toDate).Continued? <==> Clean(record)
  {
  }

  /** A record that gets through leaves the invoice table as `Inserted` describes. */
  lemma SeedOneInserts(s: SeedState, nameUnique: bool, refUnique: bool, record: Json, random: real,
                       toDate: Json -> Option<int>)
    requires 0.0 <= random < 1.0 && Cached(s)
    requires SeedOne(s, nameUnique, refUnique, record, random, toDate).Continued?
    ensures var r := SeedOne(s, nameUnique, refUnique, record, random, toDate).state;
      Inserted(FieldsOf(record), random, toDate, s.invoices, r.invoices, r.vendors, r.customers, refUnique)
  {
    InsertStepInserts(s, nameUnique, refUnique, FieldsOf(record), random, toDate);
  }

  predicate UnitRandoms(randoms: seq<real>) {
    forall k :: 0 <= k < |randoms| ==> 0.0 <= randoms[k] < 1.0
  }

  /** A prefix of a prefix is a prefix, and the rows between the two are kept. */
  lemma PrefixChain(a: seq<SeedInvoice>, b: seq<SeedInvoice>, c: seq<SeedInvoice>)
    requires |a| <= |b| <= |c| && b[..|a|] == a && c[..|b|] == b
    ensures c[..|a|] == a
    ensures forall k :: |a| <= k < |b| ==> c[k] == b[k]
  {
    assert c[..|a|] == c[..|b|][..|a|];
    forall k | |a| <= k < |b| ensures c[k] == b[k] { assert c[..|b|][k] == c[k]; }
  }

  lemma UnitRandomsTail(randoms: seq<real>)
    requires |randoms| > 0 && UnitRandoms(randoms)
    ensures UnitRandoms(randoms[1..])
  {
    forall k | 0 <= k < |randoms| - 1 ensures 0.0 <= randoms[1..][k] < 1.0 { assert randoms[1..][k] == randoms[k + 1]; }
  }

  /** The seeding loop: record by record until one ends the run. */
  function SeedAll(s: SeedState, nameUnique: bool, refUnique: bool, records: seq<Json>, randoms: seq<real>,
                   toDate: Json -> Option<int>): (r: Step)
    requires |randoms| == |records| && UnitRandoms(randoms)
    ensures Cached(s) ==> Cached(r.state)
    ensures r.state.inserted - s.inserted == |r.state.invoices| - |s.invoices|
    ensures |s.invoices| <= |r.state.invoices| <= |s.invoices| + |records|
    ensures r.state.invoices[..|s.invoices|] == s.invoices
    ensures forall k :: |s.invoices| <= k < |r.state.invoices| ==> r.state.invoices[k].totalAmount >= 0.0
    decreases |records|
  {
    if records == [] then Continued(s)
    else
      var one := SeedOne(s, nameUnique, refUnique, records[0], randoms[0], toDate);
      if one.Ended? then one
      else
        UnitRandomsTail(randoms);
        var r := SeedAll(one.state, nameUnique, refUnique, records[1..], randoms[1..], toDate);
        PrefixChain(s.invoices, one.state.invoices, r.state.invoices);
        r
  }

  /** Pass `i` of the loop: a record that ends the run ends it there, and otherwise the
      rest of the run starts from the state that pass left. */
  lemma SeedAllAt(s: SeedState, nameUnique: bool, refUnique: bool, records: seq<Json>, randoms: seq<real>,
                  i: nat, toDate: Json -> Option<int>)
    requires i < |records| && |randoms| == |records| && UnitRandoms(randoms[i..])
    ensures UnitRandoms(randoms[i + 1..])
    ensures var one := SeedOne(s, nameUnique, refUnique, records[i], randoms[i], toDate);
      SeedAll(s, nameUnique, refUnique, records[i..], randoms[i..], toDate) ==
        if one.Ended? then one else SeedAll(one.state, nameUnique, refUnique, records[i + 1..], randoms[i + 1..], toDate)
  {
    assert records[i..][0] == records[i] && randoms[i..][0] == randoms[i];
    assert records[i..][1..] == records[i + 1..] && randoms[i..][1..] == randoms[i + 1..];
    UnitRandomsTail(randoms[i..]);
  }

  predicate AllClean(records: seq<Json>) {
    forall k :: 0 <= k < |records| ==> Clean(records[k])
  }

  lemma AllCleanCons(records: seq<Json>)
    requires records != []
    ensures AllClean(records) <==> Clean(records[0]) && AllClean(records[1..])
  {
    if Clean(records[0]) && AllClean(records[1..]) {
      forall k | 1 <= k < |records| ensures Clean(records[k]) { assert records[k] == records[1..][k - 1]; }
    }
    if AllClean(records) {
      forall k | 0 <= k < |records| - 1 ensures Clean(records[1..][k]) { assert records[1..][k] == records[k + 1]; }
    }
  }

  /** Under consistent caches the run completes exactly when every record is clean; otherwise
      it ends at the first record that is not. */
  lemma {:induction false} SeedAllCompletes(s: SeedState, nameUnique: bool, refUnique: bool,
                                            records: seq<Json>, randoms: seq<real>, toDate: Json -> Option<int>)
    requires |randoms| == |records| && UnitRandoms(randoms) && Cached(s)
    ensures SeedAll(s, nameUnique, refUnique, records, randoms, toDate).Continued? <==> AllClean(records)
    decreases |records|
  {
    if records != [] {
      SeedOneContinues(s, nameUnique, refUnique, records[0], randoms[0], toDate);
      AllCleanCons(records);
      var one := SeedOne(s, nameUnique, refUnique, records[0], randoms[0], toDate);
      if one.Continued? {
        UnitRandomsTail(randoms);
        SeedAllCompletes(one.state, nameUnique, refUnique, records[1..], randoms[1..], toDate);
      }
    }
  }

  /** No record carries a truthy invoice ref. */
  predicate NoRefs(records: seq<Json>) {
    forall k :: 0 <= k < |records| ==> !Truthy(FieldsOf(records[k]).invoiceRef)
  }

  lemma NoRefsCons(records: seq<Json>)
    requires records != [] && NoRefs(records)
    ensures !Truthy(FieldsOf(records[0]).invoiceRef) && NoRefs(records[1..])
  {
    forall k | 0 <= k < |records| - 1 ensures !Truthy(FieldsOf(records[1..][k]).invoiceRef) { assert records[1..][k] == records[k + 1]; }
  }

  /** With every record clean and no invoice ref anywhere, the run adds one invoice per
      record. */
  lemma {:induction false} NoRefsInsertEveryRecord(s: SeedState, nameUnique: bool, refUnique: bool,
                                                   records: seq<Json>, randoms: seq<real>, toDate: Json -> Option<int>)
    requires |randoms| == |records| && UnitRandoms(randoms) && Cached(s)
    requires AllClean(records) && NoRefs(records)
    ensures SeedAll(s, nameUnique, refUnique, records, randoms, toDate).Continued?
    ensures |SeedAll(s, nameUnique, refUnique, records, randoms, toDate).state.invoices| == |s.invoices| + |records|
    decreases |records|
  {
    if records != [] {
      SeedOneContinues(s, nameUnique, refUnique, records[0], randoms[0], toDate);
      SeedOneInserts(s, nameUnique, refUnique, records[0], randoms[0], toDate);
      var t := SeedOne(s, nameUnique, refUnique, records[0], randoms[0], toDate).state;
      UnitRandomsTail(randoms);
      AllCleanCons(records);
      NoRefsCons(records);
      NoRefsInsertEveryRecord(t, nameUnique, refUnique, records[1..], randoms[1..], toDate);
    }
  }

  /** The seeding run: the store's rows, the two name caches and the insert counter, moved as
      the functions of the same steps say. `customerNameUnique` and `invoiceRefUnique` say
      whether the schema makes those columns unique; without it `findUnique` rejects the
      query, which the seeder catches and reads as "not found". */
  class Seeder {
    var vendors: seq<Named>
    var customers: seq<Named>
    var invoices: seq<SeedInvoice>
    var vendorCache: map<Json, nat>
    var customerCache: map<Json, nat>
    var insertedInvoices: nat
    const customerNameUnique: bool
    const invoiceRefUnique: bool
    /** The number of invoices stored before the run. */
    const baseline: nat

    function State(): SeedState
      reads this
    {
      SeedState(vendors, customers, invoices, vendorCache, customerCache, insertedInvoices)
    }

    /** The caches name stored rows, and the counter is the number of invoices the run
        added. */
    ghost predicate Valid()
      reads this
    {
      Cached(State()) && baseline + insertedInvoices == |invoices|
    }

    constructor(vendors: seq<Named>, customers: seq<Named>, invoices: seq<SeedInvoice>,
                customerNameUnique: bool, invoiceRefUnique: bool)
      ensures Valid()
      ensures this.vendors == vendors && this.customers == customers && this.invoices == invoices
      ensures vendorCache == map[] && customerCache == map[] && insertedInvoices == 0
      ensures this.customerNameUnique == customerNameUnique && this.invoiceRefUnique == invoiceRefUnique
    {
      this.vendors := vendors;
      this.customers := customers;
      this.invoices := invoices;
      vendorCache := map[];
      customerCache := map[];
      insertedInvoices := 0;
      this.customerNameUnique := customerNameUnique;
      this.invoiceRefUnique := invoiceRefUnique;
      baseline := |invoices|;
    }

    /** Vendor find-or-create through the cache; `threw` when `findFirst` throws. */
    method VendorIdFor(name: Json) returns (id: nat, threw: bool)
      modifies this
      ensures threw ==> State() == old(State())
      ensures (if threw then Threw else Looked(State(), id)) == VendorLookup(old(State()), name)
    {
      if name in vendorCache && vendorCache[name] != 0 {
        return vendorCache[name], false;
      }
      if !Storable(name) {
        return 0, true;
      }
      var found := FirstNamed(vendors, name);
      if found.Some? {
        id := found.value.id;
      } else {
        id := NextId(vendors);
        vendors := vendors + [Named(id, name)];
      }
      vendorCache := vendorCache[name := id];
      threw := false;
    }

    /** Customer find-or-create through the cache; `threw` when `create` throws. */
    method CustomerIdFor(name: Json) returns (id: nat, threw: bool)
      modifies this
      ensures threw ==> State() == old(State())
      ensures (if threw then Threw else Looked(State(), id)) == CustomerLookup(old(State()), name, customerNameUnique)
    {
      if name in customerCache && customerCache[name] != 0 {
        return customerCache[name], false;
      }
      var existing := if customerNameUnique && Storable(name) then FirstNamed(customers, name) else None;
      if existing.Some? {
        id := existing.value.id;
      } else {
        if !Storable(name) {
          return 0, true;
        }
        id := NextId(customers);
        customers := customers + [Named(id, name)];
      }
      customerCache := customerCache[name := id];
      threw := false;
    }

    /** The insert itself, once the vendor and customer ids are known; `aborted` when
        `create` throws. */
    method StoreInvoice(f: Fields, random: real, toDate: Json -> Option<int>, vendorId: nat, customerId: nat)
      returns (aborted: bool)
      requires 0.0 <= random < 1.0
      modifies this
      ensures (if aborted then Ended(State()) else Continued(State())) ==
        InvoiceStep(old(State()), invoiceRefUnique, f, random, toDate, vendorId, customerId)
    {
      ghost var step := InvoiceStep(State(), invoiceRefUnique, f, random, toDate, vendorId, customerId);
      if Truthy(f.invoiceRef) && !Storable(f.invoiceRef) {
        return true;
      }
      if Truthy(f.invoiceRef) && invoiceRefUnique && RefTaken(invoices, f.invoiceRef) {
        return false;
      }
      var ref := if Truthy(f.invoiceRef) then f.invoiceRef else Undefined;
      invoices := invoices + [SeedInvoice(ref, InvoiceDateOf(f.dateRaw, toDate), StoredAmount(f.totalRaw, random), vendorId, customerId)];
      insertedInvoices := insertedInvoices + 1;
      aborted := false;
    }

    /** Stores one record's fields: vendor, customer, then the invoice. */
    method Insert(f: Fields, random: real, toDate: Json -> Option<int>) returns (aborted: bool)
      requires 0.0 <= random < 1.0
      modifies this
      ensures (if aborted then Ended(State()) else Continued(State())) ==
        InsertStep(old(State()), customerNameUnique, invoiceRefUnique, f, random, toDate)
    {
      ghost var step := InsertStep(State(), customerNameUnique, invoiceRefUnique, f, random, toDate);
      var vendorId, customerId;
      vendorId, aborted := VendorIdFor(f.vendorName);
      if aborted {
        return;
      }
      customerId, aborted := CustomerIdFor(f.customerName);
      if aborted {
        return;
      }
      aborted := StoreInvoice(f, random, toDate, vendorId, customerId);
    }

    /** One pass of the loop body: read the record's fields, then store them. */
    method SeedRecord(record: Json, random: real, toDate: Json -> Option<int>) returns (aborted: bool)
      requires 0.0 <= random < 1.0
      modifies this
      ensures (if aborted then Ended(State()) else Continued(State())) ==
        SeedOne(old(State()), customerNameUnique, invoiceRefUnique, record, random, toDate)
    {
      ghost var step := SeedOne(State(), customerNameUnique, invoiceRefUnique, record, random, toDate);
      if Nullish(record) {
        return true;
      }
      var f := ReadRecord(record);
      aborted := Insert(f, random, toDate);
    }

    /** The seeding loop over the records, one random number per record for a missing total.
        The run ends at the first record that throws, keeping what was written. */
    method Run(records: seq<Json>, randoms: seq<real>, toDate: Json -> Option<int>) returns (completed: bool)
      requires Valid() && |randoms| == |records| && UnitRandoms(randoms)
      modifies this
      ensures var r := SeedAll(old(State()), customerNameUnique, invoiceRefUnique, records, randoms, toDate);
        State() == r.state && (completed <==> r.Continued?)
      ensures Valid()
    {
      assert randoms[0..] == randoms && records[0..] == records;
      ghost var r := SeedAll(State(), customerNameUnique, invoiceRefUnique, records, randoms, toDate);
      var i := 0;
      while i < |records|
        invariant i <= |records| && UnitRandoms(randoms[i..])
        invariant SeedAll(State(), customerNameUnique, invoiceRefUnique, records[i..], randoms[i..], toDate) == r
      {
        SeedAllAt(State(), customerNameUnique, invoiceRefUnique, records, randoms, i, toDate);
        var aborted := SeedRecord(records[i], randoms[i], toDate);
        if aborted {
          return false;
        }
        i := i + 1;
      }
      completed := true;
    }
  }
}
