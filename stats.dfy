/** The in-memory statistics route: a summary, the spend of the last six months, the ten
    vendors with the highest spend and the twenty latest invoices, all read from the bundled
    analytics documents. The route sorts that shared document array in place. */
module Stats {
  import opened Wrappers
  import opened Numbers
  import opened JsonValues
  import opened Sorting
  import opened Store
  import opened Calendar
  import opened Text

  // ---- reading a document ----

  /** The leaves the route reads from one document. Each is the `.value` of its field, and it
      is `Undefined` when the field is absent. */
  datatype Record = Record(id: Json, invoiceId: Json, invoiceDate: Json, invoiceTotal: Json,
                           vendorName: Json, customerName: Json)

  /** `d.extractedData.llmData.<section>.value`, `None` where reading it throws. */
  function Section(d: Json, section: string): (r: Option<Json>)
    ensures Nullish(d) ==> r.None?
  {
    Path(d, ["extractedData", "llmData", section, "value"])
  }

  /** `<section value>.<field>?.value`: reading a field of a nullish section value throws. */
  function LeafOf(value: Option<Json>, field: string): (r: Option<Json>)
    ensures r.Some? <==> value.Some? && !Nullish(value.value)
  {
    if value.Some? && !Nullish(value.value) then Some(OptGet(Get(value.value, field), "value")) else None
  }

  /** Every leaf of a document, or `None` when one of the reads throws a TypeError. The
      invoice number and the document id come from values the other reads have reached. */
  function Read(d: Json): (r: Option<Record>)
    ensures r.Some? <==> LeafOf(Section(d, "vendor"), "vendorName").Some? &&
                         LeafOf(Section(d, "customer"), "customerName").Some? &&
                         LeafOf(Section(d, "summary"), "invoiceTotal").Some? &&
                         LeafOf(Section(d, "invoice"), "invoiceDate").Some?
  {
    var invoice := Section(d, "invoice");
    var vendor := LeafOf(Section(d, "vendor"), "vendorName");
    var customer := LeafOf(Section(d, "customer"), "customerName");
    var total := LeafOf(Section(d, "summary"), "invoiceTotal");
    var date := LeafOf(invoice, "invoiceDate");
    if vendor.Some? && customer.Some? && total.Some? && date.Some? then
      Some(Record(Get(d, "_id"), LeafOf(invoice, "invoiceId").value, date.value, total.value,
                  vendor.value, customer.value))
    else None
  }

  predicate AllRead(docs: seq<Json>) {
    forall k :: 0 <= k < |docs| ==> Read(docs[k]).Some?
  }

  function Records(docs: seq<Json>): (rs: seq<Record>)
    requires AllRead(docs)
    ensures |rs| == |docs|
    ensures forall k :: 0 <= k < |docs| ==> rs[k] == Read(docs[k]).value
  {
    seq(|docs|, k requires 0 <= k < |docs| => Read(docs[k]).value)
  }

  // ---- spend ----

  /** `parseFloat(String(v))`: a number reads back as itself, and any other value is parsed
      from the text JavaScript prints for it (an array as its elements joined with ','). */
  function ParseFloatOf(v: Json): JsNumber {
    match v
    case Num(n) => Finite(n)
    case _ => ParseFloat(TemplateText(v))
  }

  /** An array holding one string spends what that string parses to, as `String([x])` is
      `x`; so `["1200"]` spends 1200. */
  lemma ParseFloatOfSingleton(n: nat)
    ensures ParseFloatOf(Arr([Str(NatToString(n))])) == Finite(n as real)
  {
    assert TemplateText(Arr([Str(NatToString(n))])) == NatToString(n);
    ParseFloatOfNatToString(n);
  }

  /** `parseFloat(invoiceTotal?.value || "0")`. */
  function Spend(r: Record): (x: JsNumber)
    ensures !Truthy(r.invoiceTotal) ==> x == Finite(0.0)
    ensures r.invoiceTotal.Num? ==> x == Finite(r.invoiceTotal.n)
    ensures r.invoiceTotal.Str? && r.invoiceTotal.s != "" ==> x == ParseFloat(r.invoiceTotal.s)
  {
    var v := Or(r.invoiceTotal, Str("0"));
    if v.Num? then ParseFloatOf(v)
    else
      assert v.Str? ==> TemplateText(v) == v.s;
      ParseFloatOfNatToString(0);
      ParseFloatOf(v)
  }

  function Spends(rs: seq<Record>): (xs: seq<JsNumber>)
    ensures |xs| == |rs|
    ensures forall k :: 0 <= k < |rs| ==> xs[k] == Spend(rs[k])
  {
    seq(|rs|, k requires 0 <= k < |rs| => Spend(rs[k]))
  }

  /** `reduce((acc, curr) => acc + spend, 0)`, left to right. */
  function SpendSum(rs: seq<Record>): JsNumber {
    Sum(Spends(rs))
  }

  // ---- the summary ----

  datatype Summary = Summary(totalVendors: nat, totalCustomers: nat, totalInvoices: nat, totalSpend: JsNumber)

  function VendorNames(rs: seq<Record>): (names: seq<Json>)
    ensures |names| == |rs|
    ensures forall k :: 0 <= k < |rs| ==> names[k] == rs[k].vendorName
  {
    seq(|rs|, k requires 0 <= k < |rs| => rs[k].vendorName)
  }

  function CustomerNames(rs: seq<Record>): (names: seq<Json>)
    ensures |names| == |rs|
    ensures forall k :: 0 <= k < |rs| ==> names[k] == rs[k].customerName
  {
    seq(|rs|, k requires 0 <= k < |rs| => rs[k].customerName)
  }

  /** `new Set(values).size`: a set keeps the first appearance of every value. */
  function SetSize(values: seq<Json>): nat {
    |Distinct(values)|
  }

  function SummaryOf(rs: seq<Record>): Summary {
    Summary(SetSize(VendorNames(rs)), SetSize(CustomerNames(rs)), |rs|, SpendSum(rs))
  }

  /** The counts are the numbers of different name values (`undefined` among them), never
      more than the number of documents; `totalSpend` is a number unless some spend is NaN. */
  lemma SummaryMeaning(rs: seq<Record>)
    ensures SummaryOf(rs).totalVendors == |set r | r in rs :: r.vendorName| <= |rs|
    ensures SummaryOf(rs).totalCustomers == |set r | r in rs :: r.customerName| <= |rs|
    ensures SummaryOf(rs).totalInvoices == |rs|
    ensures SummaryOf(rs).totalSpend.Finite? <==> forall k :: 0 <= k < |rs| ==> Spend(rs[k]).Finite?
  {
    var s := SummaryOf(rs);
    assert s.totalVendors == |set r | r in rs :: r.vendorName| <= |rs| by { VendorCount(rs); }
    assert s.totalCustomers == |set r | r in rs :: r.customerName| <= |rs| by { CustomerCount(rs); }
    SpendSumFinite(rs);
  }

  lemma SpendSumFinite(rs: seq<Record>)
    ensures SpendSum(rs).Finite? <==> forall k :: 0 <= k < |rs| ==> Spend(rs[k]).Finite?
  {
    var xs := Spends(rs);
    SumFinite(xs);
    assert (forall k :: 0 <= k < |xs| ==> xs[k].Finite?) <==> (forall k :: 0 <= k < |rs| ==> Spend(rs[k]).Finite?);
  }

  lemma VendorCount(rs: seq<Record>)
    ensures SetSize(VendorNames(rs)) == |set r | r in rs :: r.vendorName| <= |rs|
  {
    var vendors := VendorNames(rs);
    DistinctSize(vendors);
    forall x | x in vendors ensures x in (set r | r in rs :: r.vendorName) {
      var k :| 0 <= k < |vendors| && vendors[k] == x;
      assert rs[k] in rs;
    }
    forall r | r in rs ensures r.vendorName in vendors {
      var k :| 0 <= k < |rs| && rs[k] == r;
      assert vendors[k] == r.vendorName;
    }
    assert (set x | x in vendors) == (set r | r in rs :: r.vendorName);
  }

  lemma CustomerCount(rs: seq<Record>)
    ensures SetSize(CustomerNames(rs)) == |set r | r in rs :: r.customerName| <= |rs|
  {
    var customers := CustomerNames(rs);
    DistinctSize(customers);
    forall x | x in customers ensures x in (set r | r in rs :: r.customerName) {
      var k :| 0 <= k < |customers| && customers[k] == x;
      assert rs[k] in rs;
    }
    forall r | r in rs ensures r.customerName in customers {
      var k :| 0 <= k < |rs| && rs[k] == r;
      assert customers[k] == r.customerName;
    }
    assert (set x | x in customers) == (set r | r in rs :: r.customerName);
  }

  /** The first appearances are as many as the different values, and no more than all of them. */
  lemma DistinctSize<T>(s: seq<T>)
    ensures |Distinct(s)| == |set x | x in s|
    ensures |Distinct(s)| <= |s|
  {
    var d := Distinct(s);
    assert (set x | x in d) == (set x | x in s);
    DistinctCard(d);
    assert |Distinct(s)| <= |s| by {
      CardOfSeqSet(s);
    }
  }

  /** A sequence without repetitions has as many elements as its set. */
  lemma {:induction false} DistinctCard<T>(d: seq<T>)
    requires forall i, j :: 0 <= i < j < |d| ==> d[i] != d[j]
    ensures |set x | x in d| == |d|
  {
    if d != [] {
      var p := d[..|d| - 1];
      DistinctCard(p);
      assert (set x | x in d) == (set x | x in p) + {d[|d| - 1]} by {
        assert d == p + [d[|d| - 1]];
      }
      assert d[|d| - 1] !in p;
    }
  }

  /** A sequence has no more different values than elements. */
  lemma {:induction false} CardOfSeqSet<T>(s: seq<T>)
    ensures |set x | x in s| <= |s|
  {
    if s != [] {
      var p := s[..|s| - 1];
      CardOfSeqSet(p);
      assert (set x | x in s) == (set x | x in p) + {s[|s| - 1]} by {
        assert s == p + [s[|s| - 1]];
      }
    }
  }

  // ---- the six month windows ----

  /** One month: the month its 'yyyy-MM' label is printed from and `[start, end)`, `end`
      being the next month's start. */
  datatype Window = Window(month: YearMonth, start: int, end: int)

  function WindowOf(mi: int): Window {
    Window(YearMonthOf(mi), MonthStart(mi), MonthStart(mi + 1))
  }

  /** The windows of the five months before the month `current` and of that month. */
  function Windows(current: int): (ws: seq<Window>)
    ensures |ws| == 6
  {
    seq(6, k => WindowOf(current - 5 + k))
  }

  /** The `for (let i = 5; i >= 0; i--)` loop that pushes `startOfMonth(subMonths(now, i))`. */
  method MonthWindows(now: int) returns (months: seq<Window>)
    ensures months == Windows(MonthOf(now))
  {
    var current := MonthOf(now);
    months := [];
    var i := 5;
    while i >= 0
      invariant -1 <= i <= 5
      invariant |months| == 5 - i
      invariant forall k :: 0 <= k < |months| ==> months[k] == WindowOf(current - 5 + k)
    {
      var mi := current - i;
      var start := MonthStart(mi);
      var end := MonthStart(mi + 1);
      WindowShift(current, i, |months|);
      months := months + [Window(YearMonthOf(mi), start, end)];
      i := i - 1;
    }
    WindowsAre(current, months);
  }

  /** Six windows, each the one of its month counted from five months before `current`, are
      `Windows(current)`. */
  lemma WindowsAre(current: int, ws: seq<Window>)
    requires |ws| == 6 && forall k :: 0 <= k < 6 ==> ws[k] == WindowOf(current - 5 + k)
    ensures ws == Windows(current)
  {
  }

  /** The window `i` months back is the one at position `k` when `k + i` is 5. */
  lemma WindowShift(current: int, i: int, k: int)
    requires k == 5 - i
    ensures Window(YearMonthOf(current - i), MonthStart(current - i), MonthStart(current - i + 1)) ==
      WindowOf(current - 5 + k)
  {
    assert current - i == current - 5 + k;
  }

  /** The windows are non-empty and oldest first, and each ends where the next one starts. */
  lemma WindowsChain(current: int)
    ensures var ws := Windows(current);
      (forall k :: 0 <= k < 6 ==> ws[k].start < ws[k].end) &&
      (forall k :: 0 <= k < 5 ==> ws[k].end == ws[k + 1].start)
  {
    var ws := Windows(current);
    forall k | 0 <= k < 6 ensures ws[k].start < ws[k].end {
      var mi := current - 5 + k;
      assert ws[k] == WindowOf(mi);
      MonthStartIncreasing(mi);
    }
    forall k | 0 <= k < 5 ensures ws[k].end == ws[k + 1].start {
      assert ws[k] == WindowOf(current - 5 + k) && ws[k + 1] == WindowOf(current - 5 + (k + 1));
      WindowShift(current, 5 - (k + 1), k + 1);
    }
  }

  // ---- the monthly spend ----

  /** `parseISO(v || "")` with the ISO-8601 parser `parseIso` (`None` for an Invalid Date):
      an empty string and a value that is no string give an Invalid Date. */
  function DateOf(v: Json, parseIso: string -> Option<int>): (t: Option<int>)
    ensures !Truthy(v) ==> t.None?
  {
    if v.Str? && v.s != "" then parseIso(v.s) else None
  }

  /** `invoiceDate >= m.start && invoiceDate < m.end`: an Invalid Date compares false. */
  predicate InWindow(r: Record, w: Window, parseIso: string -> Option<int>) {
    var t := DateOf(r.invoiceDate, parseIso);
    t.Some? && w.start <= t.value < w.end
  }

  /** The records of one window, in order. */
  function WindowRecords(rs: seq<Record>, w: Window, parseIso: string -> Option<int>): (r: seq<Record>)
    ensures |r| <= |rs|
    ensures forall k :: 0 <= k < |r| ==> r[k] in rs && InWindow(r[k], w, parseIso)
    ensures forall k :: 0 <= k < |rs| && InWindow(rs[k], w, parseIso) ==> rs[k] in r
  {
    if rs == [] then []
    else
      var rest := WindowRecords(rs[..|rs| - 1], w, parseIso);
      assert rs == rs[..|rs| - 1] + [rs[|rs| - 1]];
      if InWindow(rs[|rs| - 1], w, parseIso) then rest + [rs[|rs| - 1]] else rest
  }

  datatype MonthSpend = MonthSpend(month: YearMonth, spend: JsNumber)

  /** `months.map(m => ({ month: m.label, spend }))`, each spend summed over the records dated
      in that month. */
  function MonthlySpend(rs: seq<Record>, ws: seq<Window>, parseIso: string -> Option<int>): (ms: seq<MonthSpend>)
    ensures |ms| == |ws|
  {
    seq(|ws|, k requires 0 <= k < |ws| => MonthSpend(ws[k].month, SpendSum(WindowRecords(rs, ws[k], parseIso))))
  }

  /** A record is summed into at most one of the six months, and into one exactly when its date
      lies between the start of the first and the end of the last. */
  lemma MonthlySpendCountsOnce(r: Record, current: int, parseIso: string -> Option<int>)
    ensures var ws := Windows(current);
      (forall i, j :: 0 <= i < j < 6 && InWindow(r, ws[i], parseIso) ==> !InWindow(r, ws[j], parseIso)) &&
      ((exists i :: 0 <= i < 6 && InWindow(r, ws[i], parseIso)) <==>
        (var t := DateOf(r.invoiceDate, parseIso); t.Some? && ws[0].start <= t.value < ws[5].end))
  {
    var ws := Windows(current);
    WindowsChain(current);
    var t := DateOf(r.invoiceDate, parseIso);
    WindowsAscending(current);
    if t.Some? && ws[0].start <= t.value < ws[5].end {
      var i := 0;
      while i < 5 && ws[i].end <= t.value
        invariant 0 <= i <= 5 && ws[i].start <= t.value
      {
        i := i + 1;
      }
      assert InWindow(r, ws[i], parseIso);
    }
  }

  /** A later window starts no earlier than an earlier one ends. */
  lemma WindowsAscending(current: int)
    ensures var ws := Windows(current);
      forall i, j :: 0 <= i < j < 6 ==> ws[i].end <= ws[j].start
  {
    var ws := Windows(current);
    WindowsChain(current);
    forall i, j | 0 <= i < j < 6 ensures ws[i].end <= ws[j].start {
      var k := i + 1;
      while k < j
        invariant i + 1 <= k <= j && ws[i].end <= ws[k].start
      {
        k := k + 1;
      }
    }
  }

  // ---- the spend by vendor ----

  /** `vendorName?.value || "Unknown"`, the key of the vendor map. */
  function VendorKey(r: Record): (key: Json)
    ensures Truthy(key)
  {
    Or(r.vendorName, Str("Unknown"))
  }

  /** A `{ vendor, spend }` pair: one document's contribution, or one row of the reply. */
  datatype VendorRow = VendorRow(vendor: Json, spend: JsNumber)

  /** What each document adds to the vendor map, in document order. */
  function Contributions(rs: seq<Record>): (cs: seq<VendorRow>)
    ensures |cs| == |rs|
    ensures forall k :: 0 <= k < |rs| ==> cs[k] == VendorRow(VendorKey(rs[k]), Spend(rs[k]))
  {
    seq(|rs|, k requires 0 <= k < |rs| => VendorRow(VendorKey(rs[k]), Spend(rs[k])))
  }

  function Vendors(cs: seq<VendorRow>): (keys: seq<Json>)
    ensures |keys| == |cs|
    ensures forall k :: 0 <= k < |cs| ==> keys[k] == cs[k].vendor
  {
    if cs == [] then [] else Vendors(cs[..|cs| - 1]) + [cs[|cs| - 1].vendor]
  }

  /** `(spendByVendorMap.get(vendorName) || 0) + spend`: a missing entry, a zero and a NaN
      all count as 0. */
  function Accumulate(entry: Option<JsNumber>, spend: JsNumber): (r: JsNumber)
    ensures entry.Some? && entry.value.Finite? ==> r == Plus(entry.value, spend)
    ensures (entry.None? || entry.value.NaN?) && spend.Finite? ==> r == spend
  {
    Plus(if entry.Some? && entry.value.Finite? then entry.value else Finite(0.0), spend)
  }

  /** The entry of `key` in the vendor map once the contributions `cs` are added, `None`
      while absent. */
  function VendorSpend(cs: seq<VendorRow>, key: Json): Option<JsNumber> {
    if cs == [] then None
    else
      var before := VendorSpend(cs[..|cs| - 1], key);
      if cs[|cs| - 1].vendor == key then Some(Accumulate(before, cs[|cs| - 1].spend)) else before
  }

  lemma VendorSpendStep(cs: seq<VendorRow>, c: VendorRow, key: Json)
    ensures VendorSpend(cs + [c], key) ==
      if c.vendor == key then Some(Accumulate(VendorSpend(cs, key), c.spend)) else VendorSpend(cs, key)
  {
    assert (cs + [c])[..|cs|] == cs;
  }

  /** The spends of one vendor, in order. */
  function SpendsOf(cs: seq<VendorRow>, key: Json): (xs: seq<JsNumber>)
    ensures |xs| <= |cs|
    ensures (exists k :: 0 <= k < |cs| && cs[k].vendor == key) <==> xs != []
    ensures (forall k :: 0 <= k < |cs| && cs[k].vendor == key ==> cs[k].spend.Finite?) ==>
      forall k :: 0 <= k < |xs| ==> xs[k].Finite?
  {
    if cs == [] then []
    else
      var p := cs[..|cs| - 1];
      var rest := SpendsOf(p, key);
      assert forall k :: 0 <= k < |p| ==> p[k] == cs[k];
      if cs[|cs| - 1].vendor == key then rest + [cs[|cs| - 1].spend] else rest
  }

  /** A vendor has an entry exactly when one of its documents was read, and when none of its
      spends is NaN the entry is the sum of its spends. */
  lemma {:induction false} VendorSpendIsSum(cs: seq<VendorRow>, key: Json)
    ensures VendorSpend(cs, key).Some? <==> SpendsOf(cs, key) != []
    ensures SpendsOf(cs, key) != [] && (forall k :: 0 <= k < |cs| && cs[k].vendor == key ==> cs[k].spend.Finite?) ==>
      VendorSpend(cs, key) == Some(Sum(SpendsOf(cs, key)))
  {
    if cs != [] {
      var p, c := cs[..|cs| - 1], cs[|cs| - 1];
      assert cs == p + [c];
      VendorSpendStep(p, c, key);
      VendorSpendIsSum(p, key);
      assert forall k :: 0 <= k < |p| ==> p[k] == cs[k];
      var xs := SpendsOf(p, key);
      if c.vendor == key {
        assert SpendsOf(cs, key) == xs + [c.spend];
        SumAppend(xs, c.spend);
        SumFinite(xs);
        if xs == [] && c.spend.Finite? {
          assert VendorSpend(p, key) == None;
          assert xs + [c.spend] == [] + [c.spend];
          SumAppend([], c.spend);
        }
      }
    }
  }

  /** An unreadable total resets its vendor's sum: after a NaN spend, a spend of 5 leaves 5. */
  lemma NaNResetsVendorSpend(vendor: Json)
    ensures VendorSpend([VendorRow(vendor, NaN), VendorRow(vendor, Finite(5.0))], vendor) == Some(Finite(5.0))
  {
    var cs := [VendorRow(vendor, NaN), VendorRow(vendor, Finite(5.0))];
    assert cs[..1] == [VendorRow(vendor, NaN)];
    assert cs[..1][..0] == [];
  }

  /** `keys` and `sums` are the vendor map once the contributions `cs` are added: its keys in
      insertion order, and its entries. */
  ghost predicate Filled(cs: seq<VendorRow>, keys: seq<Json>, sums: map<Json, JsNumber>) {
    keys == Distinct(Vendors(cs)) &&
    (forall key :: key in sums <==> key in keys) &&
    (forall key :: VendorSpend(cs, key) == if key in sums then Some(sums[key]) else None)
  }

  /** `map.set(c.vendor, (map.get(c.vendor) || 0) + c.spend)` on the map of `cs`. */
  lemma FilledStep(cs: seq<VendorRow>, c: VendorRow, keys: seq<Json>, sums: map<Json, JsNumber>)
    requires Filled(cs, keys, sums)
    ensures Filled(cs + [c], if c.vendor in sums then keys else keys + [c.vendor],
                   sums[c.vendor := Accumulate(if c.vendor in sums then Some(sums[c.vendor]) else None, c.spend)])
  {
    var keys' := if c.vendor in sums then keys else keys + [c.vendor];
    var sums' := sums[c.vendor := Accumulate(if c.vendor in sums then Some(sums[c.vendor]) else None, c.spend)];
    assert keys' == Distinct(Vendors(cs + [c])) by {
      var d := Distinct(Vendors(cs));
      assert d == keys;
      assert c.vendor in sums <==> c.vendor in d;
      assert Vendors(cs + [c]) == Vendors(cs) + [c.vendor] by { VendorsStep(cs, c); }
      assert Distinct(Vendors(cs) + [c.vendor]) == if c.vendor in d then d else d + [c.vendor] by {
        DistinctStep(Vendors(cs), c.vendor);
      }
    }
    assert forall key :: key in sums' <==> key in keys';
    assert forall key :: VendorSpend(cs + [c], key) == if key in sums' then Some(sums'[key]) else None by {
      SumsStep(cs, c, sums);
    }
    assert Filled(cs + [c], keys', sums');
  }

  /** The entries after adding one contribution to the map of `cs`. */
  lemma SumsStep(cs: seq<VendorRow>, c: VendorRow, sums: map<Json, JsNumber>)
    requires forall key :: VendorSpend(cs, key) == if key in sums then Some(sums[key]) else None
    ensures var next := sums[c.vendor := Accumulate(if c.vendor in sums then Some(sums[c.vendor]) else None, c.spend)];
      forall key :: VendorSpend(cs + [c], key) == if key in next then Some(next[key]) else None
  {
    forall key {
      VendorSpendStep(cs, c, key);
    }
  }

  /** The forEach loop that fills the vendor map. */
  method VendorTotals(cs: seq<VendorRow>) returns (keys: seq<Json>, sums: map<Json, JsNumber>)
    ensures keys == Distinct(Vendors(cs))
    ensures forall key :: key in sums <==> key in keys
    ensures forall key :: VendorSpend(cs, key) == if key in sums then Some(sums[key]) else None
  {
    keys, sums := [], map[];
    var i := 0;
    FilledEmpty(cs);
    while i < |cs|
      invariant 0 <= i <= |cs|
      invariant Filled(cs[..i], keys, sums)
    {
      var vendor := cs[i].vendor;
      var entry := if vendor in sums then Some(sums[vendor]) else None;
      FilledNext(cs, i, keys, sums);
      if vendor !in sums {
        keys := keys + [vendor];
      }
      sums := sums[vendor := Accumulate(entry, cs[i].spend)];
      i := i + 1;
    }
    assert cs[..|cs|] == cs;
  }

  lemma FilledEmpty(cs: seq<VendorRow>)
    ensures Filled(cs[..0], [], map[])
  {
    assert cs[..0] == [];
  }

  /** One turn of the forEach: the map of the first `i` contributions becomes that of `i + 1`. */
  lemma FilledNext(cs: seq<VendorRow>, i: nat, keys: seq<Json>, sums: map<Json, JsNumber>)
    requires i < |cs| && Filled(cs[..i], keys, sums)
    ensures var c := cs[i];
      Filled(cs[..i + 1], if c.vendor in sums then keys else keys + [c.vendor],
             sums[c.vendor := Accumulate(if c.vendor in sums then Some(sums[c.vendor]) else None, c.spend)])
  {
    var c := cs[i];
    var keys' := if c.vendor in sums then keys else keys + [c.vendor];
    var sums' := sums[c.vendor := Accumulate(if c.vendor in sums then Some(sums[c.vendor]) else None, c.spend)];
    assert Filled(cs[..i] + [c], keys', sums') by { FilledStep(cs[..i], c, keys, sums); }
    TakeOneMore(cs, i);
    assert Filled(cs[..i + 1], keys', sums');
  }

  lemma VendorsStep(cs: seq<VendorRow>, c: VendorRow)
    ensures Vendors(cs + [c]) == Vendors(cs) + [c.vendor]
  {
    assert (cs + [c])[..|cs|] == cs;
  }

  lemma DistinctStep<T>(s: seq<T>, x: T)
    ensures Distinct(s + [x]) == if x in Distinct(s) then Distinct(s) else Distinct(s) + [x]
  {
    assert (s + [x])[..|s|] == s;
  }

  /** `Array.from(map.entries())`: the entries in insertion order. */
  function EntryRows(keys: seq<Json>, sums: map<Json, JsNumber>): (rows: seq<VendorRow>)
    requires forall k :: 0 <= k < |keys| ==> keys[k] in sums
    ensures |rows| == |keys|
    ensures forall k :: 0 <= k < |keys| ==> rows[k] == VendorRow(keys[k], sums[keys[k]])
  {
    seq(|keys|, k requires 0 <= k < |keys| => VendorRow(keys[k], sums[keys[k]]))
  }

  lemma {:induction false} VendorSpendPresent(cs: seq<VendorRow>, key: Json)
    requires key in Vendors(cs)
    ensures VendorSpend(cs, key).Some?
  {
    var p := cs[..|cs| - 1];
    if cs[|cs| - 1].vendor != key {
      assert Vendors(cs) == Vendors(p) + [cs[|cs| - 1].vendor];
      VendorSpendPresent(p, key);
    }
  }

  function VendorSpendOf(cs: seq<VendorRow>, key: Json): (x: JsNumber)
    requires key in Vendors(cs)
    ensures VendorSpend(cs, key) == Some(x)
  {
    VendorSpendPresent(cs, key);
    VendorSpend(cs, key).value
  }

  /** The rows of the vendor map, in insertion order: one per vendor. */
  function VendorEntries(cs: seq<VendorRow>): (rows: seq<VendorRow>)
    ensures forall k :: 0 <= k < |rows| ==> VendorSpend(cs, rows[k].vendor) == Some(rows[k].spend)
    ensures forall i, j :: 0 <= i < j < |rows| ==> rows[i].vendor != rows[j].vendor
  {
    var keys := Distinct(Vendors(cs));
    seq(|keys|, k requires 0 <= k < |keys| => VendorRow(keys[k], VendorSpendOf(cs, keys[k])))
  }

  /** `b.spend - a.spend`: a NaN spend has no place, and is put last. */
  function RowKey(row: VendorRow): Key {
    if row.spend.Finite? then Val(row.spend.value) else Bottom
  }

  /** The top ten: the entries by spend, highest first, ties in insertion order. */
  function TopVendorSpend(cs: seq<VendorRow>): (rows: seq<VendorRow>)
    ensures |rows| <= 10 && SortedDesc(rows, RowKey)
    ensures forall k :: 0 <= k < |rows| ==> VendorSpend(cs, rows[k].vendor) == Some(rows[k].spend)
  {
    var sorted := SortDesc(VendorEntries(cs), RowKey);
    TakeSorted(sorted, 10, RowKey);
    forall k | 0 <= k < |Take(sorted, 10)|
      ensures VendorSpend(cs, Take(sorted, 10)[k].vendor) == Some(Take(sorted, 10)[k].spend)
    {
      assert Take(sorted, 10)[k] in multiset(VendorEntries(cs));
    }
    Take(sorted, 10)
  }

  /** A vendor that is left out is outspent by, or tied with, all ten listed ones. */
  lemma TopVendorSpendComplete(cs: seq<VendorRow>, row: VendorRow)
    requires row in VendorEntries(cs) && row !in TopVendorSpend(cs)
    ensures |TopVendorSpend(cs)| == 10
    ensures forall k :: 0 <= k < 10 ==> KeyLe(RowKey(row), RowKey(TopVendorSpend(cs)[k]))
  {
    var sorted := SortDesc(VendorEntries(cs), RowKey);
    assert row in multiset(sorted);
    var j :| 0 <= j < |sorted| && sorted[j] == row;
    assert j >= 10;
  }

  // ---- the vendor sums add up to the total spend ----

  /** The spends of a list of rows, in order. */
  function RowSpends(rows: seq<VendorRow>): (xs: seq<JsNumber>)
    ensures |xs| == |rows|
    ensures forall k :: 0 <= k < |rows| ==> xs[k] == rows[k].spend
  {
    if rows == [] then [] else RowSpends(rows[..|rows| - 1]) + [rows[|rows| - 1].spend]
  }

  predicate AllFinite(cs: seq<VendorRow>) {
    forall k :: 0 <= k < |cs| ==> cs[k].spend.Finite?
  }

  /** The exact sum of all contributions, and of one vendor's (NaN spends count 0). */
  function ExactTotal(cs: seq<VendorRow>): real {
    if cs == [] then 0.0
    else ExactTotal(cs[..|cs| - 1]) + (if cs[|cs| - 1].spend.Finite? then cs[|cs| - 1].spend.value else 0.0)
  }

  function KeyTotal(cs: seq<VendorRow>, key: Json): real {
    if cs == [] then 0.0
    else KeyTotal(cs[..|cs| - 1], key) +
         (if cs[|cs| - 1].vendor == key && cs[|cs| - 1].spend.Finite? then cs[|cs| - 1].spend.value else 0.0)
  }

  /** The exact sum of the vendor sums of `keys`. */
  function KeysTotal(cs: seq<VendorRow>, keys: seq<Json>): real {
    if keys == [] then 0.0 else KeysTotal(cs, keys[..|keys| - 1]) + KeyTotal(cs, keys[|keys| - 1])
  }

  /** One more contribution adds its spend to its vendor's sum, and to no other. */
  lemma {:induction false} KeysTotalStep(p: seq<VendorRow>, c: VendorRow, keys: seq<Json>)
    requires forall i, j :: 0 <= i < j < |keys| ==> keys[i] != keys[j]
    ensures KeysTotal(p + [c], keys) ==
            KeysTotal(p, keys) + (if c.vendor in keys && c.spend.Finite? then c.spend.value else 0.0)
  {
    assert (p + [c])[..|p|] == p;
    if keys != [] {
      var q := keys[..|keys| - 1];
      KeysTotalStep(p, c, q);
      assert keys == q + [keys[|keys| - 1]];
      assert c.vendor == keys[|keys| - 1] ==> c.vendor !in q;
    }
  }

  lemma {:induction false} KeyTotalAbsent(cs: seq<VendorRow>, key: Json)
    requires key !in Vendors(cs)
    ensures KeyTotal(cs, key) == 0.0
  {
    if cs != [] {
      var p := cs[..|cs| - 1];
      VendorsStep(p, cs[|cs| - 1]);
      assert cs == p + [cs[|cs| - 1]];
      KeyTotalAbsent(p, key);
    }
  }

  /** The vendor sums, over each vendor once, add up to the sum of all contributions. */
  lemma {:induction false} VendorTotalsAddUp(cs: seq<VendorRow>)
    ensures KeysTotal(cs, Distinct(Vendors(cs))) == ExactTotal(cs)
  {
    if cs != [] {
      var p, c := cs[..|cs| - 1], cs[|cs| - 1];
      assert cs == p + [c];
      VendorTotalsAddUp(p);
      AddUpStep(p, c);
    }
  }

  /** One more contribution keeps the vendor sums adding up to the total. */
  lemma AddUpStep(p: seq<VendorRow>, c: VendorRow)
    requires KeysTotal(p, Distinct(Vendors(p))) == ExactTotal(p)
    ensures KeysTotal(p + [c], Distinct(Vendors(p + [c]))) == ExactTotal(p + [c])
  {
    var cs := p + [c];
    var v := if c.spend.Finite? then c.spend.value else 0.0;
    var d := Distinct(Vendors(p));
    assert ExactTotal(cs) == ExactTotal(p) + v by { assert cs[..|cs| - 1] == p; }
    assert KeysTotal(cs, d) == KeysTotal(p, d) + (if c.vendor in d && c.spend.Finite? then c.spend.value else 0.0) by {
      KeysTotalStep(p, c, d);
    }
    assert Distinct(Vendors(cs)) == if c.vendor in d then d else d + [c.vendor] by {
      VendorsStep(p, c);
      DistinctStep(Vendors(p), c.vendor);
    }
    if c.vendor !in d {
      NewVendorTotal(p, c, d);
    }
  }

  /** A vendor seen for the first time adds exactly its one spend. */
  lemma NewVendorTotal(p: seq<VendorRow>, c: VendorRow, d: seq<Json>)
    requires d == Distinct(Vendors(p)) && c.vendor !in d
    ensures KeysTotal(p + [c], d + [c.vendor]) ==
            KeysTotal(p + [c], d) + (if c.spend.Finite? then c.spend.value else 0.0)
  {
    var cs := p + [c];
    assert cs[..|cs| - 1] == p;
    assert KeyTotal(cs, c.vendor) == if c.spend.Finite? then c.spend.value else 0.0 by {
      assert c.vendor !in Vendors(p);
      KeyTotalAbsent(p, c.vendor);
    }
    assert (d + [c.vendor])[..|d|] == d;
  }

  /** Without NaN spends, a vendor's map entry is the exact sum of its spends. */
  lemma {:induction false} EntryIsKeyTotal(cs: seq<VendorRow>, key: Json)
    requires AllFinite(cs)
    ensures VendorSpend(cs, key).Some? ==> VendorSpend(cs, key) == Some(Finite(KeyTotal(cs, key)))
    ensures VendorSpend(cs, key).None? ==> KeyTotal(cs, key) == 0.0
  {
    if cs != [] {
      var p, c := cs[..|cs| - 1], cs[|cs| - 1];
      assert cs == p + [c];
      assert AllFinite(p) && c.spend.Finite? by { assert forall k :: 0 <= k < |p| ==> p[k] == cs[k]; }
      EntryIsKeyTotal(p, key);
      var before := VendorSpend(p, key);
      var total := KeyTotal(p, key);
      assert KeyTotal(cs, key) == total + (if c.vendor == key then c.spend.value else 0.0);
      VendorSpendStep(p, c, key);
      if c.vendor == key {
        if before.Some? {
          assert Accumulate(before, c.spend) == Finite(total + c.spend.value);
        } else {
          assert Accumulate(before, c.spend) == Finite(0.0 + c.spend.value);
        }
      }
    }
  }

  lemma {:induction false} RowsSum(cs: seq<VendorRow>, keys: seq<Json>, rows: seq<VendorRow>)
    requires |rows| == |keys|
    requires forall k :: 0 <= k < |keys| ==> rows[k].spend == Finite(KeyTotal(cs, keys[k]))
    ensures Sum(RowSpends(rows)) == Finite(KeysTotal(cs, keys))
  {
    if keys != [] {
      var n := |keys| - 1;
      var ks, rs := keys[..n], rows[..n];
      assert Sum(RowSpends(rs)) == Finite(KeysTotal(cs, ks)) by {
        forall k | 0 <= k < n ensures rs[k].spend == Finite(KeyTotal(cs, ks[k])) {
          assert rs[k] == rows[k] && ks[k] == keys[k];
        }
        RowsSum(cs, ks, rs);
      }
      assert Sum(RowSpends(rows)) == Plus(Sum(RowSpends(rs)), rows[n].spend) by {
        assert RowSpends(rows) == RowSpends(rs) + [rows[n].spend];
        SumAppend(RowSpends(rs), rows[n].spend);
      }
      assert KeysTotal(cs, keys) == KeysTotal(cs, ks) + KeyTotal(cs, keys[n]);
    }
  }

  lemma {:induction false} SumIsTotal(cs: seq<VendorRow>)
    requires AllFinite(cs)
    ensures Sum(RowSpends(cs)) == Finite(ExactTotal(cs))
  {
    if cs != [] {
      var p := cs[..|cs| - 1];
      assert AllFinite(p) by { assert forall k :: 0 <= k < |p| ==> p[k] == cs[k]; }
      SumIsTotal(p);
      assert RowSpends(cs) == RowSpends(p) + [cs[|cs| - 1].spend];
      SumAppend(RowSpends(p), cs[|cs| - 1].spend);
    }
  }

  /** When every total reads as a number, the spends of the vendor map's entries, before
      the top ten are cut, add up to the summary's total spend (in exact arithmetic). */
  lemma VendorSpendAddsUpToTotal(rs: seq<Record>)
    requires forall k :: 0 <= k < |rs| ==> Spend(rs[k]).Finite?
    ensures Sum(RowSpends(VendorEntries(Contributions(rs)))) == SpendSum(rs)
  {
    var cs := Contributions(rs);
    assert AllFinite(cs);
    EntriesSum(cs);
    VendorTotalsAddUp(cs);
    assert SpendSum(rs) == Finite(ExactTotal(cs)) by {
      SumIsTotal(cs);
      assert Spends(rs) == RowSpends(cs);
    }
  }

  /** Without NaN spends, the entries' spends add up to the exact vendor sums. */
  lemma EntriesSum(cs: seq<VendorRow>)
    requires AllFinite(cs)
    ensures Sum(RowSpends(VendorEntries(cs))) == Finite(KeysTotal(cs, Distinct(Vendors(cs))))
  {
    var keys := Distinct(Vendors(cs));
    var rows := VendorEntries(cs);
    forall k | 0 <= k < |keys| ensures rows[k].spend == Finite(KeyTotal(cs, keys[k])) {
      EntryIsKeyTotal(cs, keys[k]);
    }
    RowsSum(cs, keys, rows);
  }

  // ---- the recent invoices ----

  /** The sort key of a document: its parsed invoice date, an Invalid Date last. */
  function DateKey(d: Json, parseIso: string -> Option<int>): Key {
    var r := Read(d);
    if r.Some? && DateOf(r.value.invoiceDate, parseIso).Some? then
      Val(DateOf(r.value.invoiceDate, parseIso).value as real)
    else Bottom
  }

  function DateKeyOf(parseIso: string -> Option<int>): Json -> Key {
    d => DateKey(d, parseIso)
  }

  lemma AllReadPermutation(a: seq<Json>, b: seq<Json>)
    requires AllRead(a) && multiset(a) == multiset(b)
    ensures AllRead(b)
  {
    forall k | 0 <= k < |b| ensures Read(b[k]).Some? {
      assert b[k] in multiset(a);
      var j :| 0 <= j < |a| && a[j] == b[k];
    }
  }

  // ---- the route ----

  datatype Payload = Payload(summary: Summary, monthlySpend: seq<MonthSpend>, spendByVendor: seq<VendorRow>,
                             recentInvoices: seq<Record>, timestamp: string)

  /** The reply: the payload, or the 500 the catch sends when a read throws; its `error`
      text, the TypeError's message, is not modelled. */
  datatype StatsReply = Ok(payload: Payload) | ServerError

  /** The route module's state: the bundled document array, shared by every request. */
  class StatsRoute {
    var data: seq<Json>

    constructor(docs: seq<Json>)
      ensures data == docs
    {
      data := docs;
    }

    /** `GET /` at the instant `now`. A read that throws is caught before the array is sorted;
        otherwise the array is left sorted newest first for every later request. */
    method Get(now: int, parseIso: string -> Option<int>) returns (reply: StatsReply)
      modifies this
      ensures !AllRead(old(data)) ==> reply == ServerError && data == old(data)
      ensures AllRead(old(data)) ==>
        var rs := Records(old(data));
        data == SortDesc(old(data), DateKeyOf(parseIso)) && AllRead(data) &&
        reply == Ok(Payload(SummaryOf(rs), MonthlySpend(rs, Windows(MonthOf(now)), parseIso),
                            TopVendorSpend(Contributions(rs)), Records(Take(data, 20)), IsoString(now)))
    {
      if !AllRead(data) {
        return ServerError;
      }
      var rs := Records(data);
      var summary := SummaryOf(rs);
      var months := MonthWindows(now);
      var monthly := MonthlySpend(rs, months, parseIso);
      var keys, sums := VendorTotals(Contributions(rs));
      assert EntryRows(keys, sums) == VendorEntries(Contributions(rs));
      var byVendor := Take(SortDesc(EntryRows(keys, sums), RowKey), 10);
      data := SortDesc(data, DateKeyOf(parseIso));
      AllReadPermutation(old(data), data);
      var recent := Records(Take(data, 20));
      reply := Ok(Payload(summary, monthly, byVendor, recent, IsoString(now)));
    }
  }

  /** The recent invoices are at most twenty documents, newest first, and none newer was left out. */
  lemma RecentInvoicesNewest(docs: seq<Json>, parseIso: string -> Option<int>, d: Json)
    requires AllRead(docs)
    ensures var sorted := SortDesc(docs, DateKeyOf(parseIso));
      |Take(sorted, 20)| <= 20 && SortedDesc(Take(sorted, 20), DateKeyOf(parseIso)) &&
      (d in docs && d !in Take(sorted, 20) ==>
        |Take(sorted, 20)| == 20 &&
        forall k :: 0 <= k < 20 ==> KeyLe(DateKey(d, parseIso), DateKey(Take(sorted, 20)[k], parseIso)))
  {
    var key := DateKeyOf(parseIso);
    var sorted := SortDesc(docs, key);
    TakeSorted(sorted, 20, key);
    if d in docs && d !in Take(sorted, 20) {
      assert d in multiset(sorted);
      TakeKeepsLargest(sorted, 20, key, d);
    }
  }
}
