/** The canned database queries that both chat routes answer without the remote SQL service:
    the vendor spend ranking, the spend total, the overdue list and the average invoice,
    together with the keyword tables that pick one of them. */
module FallbackQueries {
  import opened Wrappers
  import opened Text
  import opened Numbers
  import opened JsonValues
  import opened Sorting
  import opened Store
  import opened Calendar

  /** The store as a fallback query meets it: readable, or failing every query with a message. */
  datatype Source = Reachable(db: Db) | Unreachable(message: string)

  // ---- first-match keyword tables ----

  /** Every word of the entry occurs in the lowercased question. */
  predicate AllOccur(lower: string, words: seq<string>) {
    forall k :: 0 <= k < |words| ==> Contains(lower, words[k])
  }

  /** The first table entry whose words all occur, if any. */
  function FirstMatch(lower: string, table: seq<seq<string>>): (r: Option<nat>)
    ensures r.Some? ==> r.value < |table| && AllOccur(lower, table[r.value])
    ensures r.Some? ==> forall k :: 0 <= k < r.value ==> !AllOccur(lower, table[k])
    ensures r.None? ==> forall k :: 0 <= k < |table| ==> !AllOccur(lower, table[k])
  {
    if table == [] then None
    else if AllOccur(lower, table[0]) then Some(0)
    else
      var rest := FirstMatch(lower, table[1..]);
      if rest.Some? then Some(rest.value + 1) else None
  }

  // ---- the vendor ranking ----

  /** The limit of a "top N vendors" question: `parseInt(q.match(/\d+/)?.[0] || '5')`. A digit
      run is never empty, so the default applies exactly when the question has no digit. */
  function TopLimit(lower: string): (n: nat)
    ensures FirstDigitRun(lower).None? ==> n == 5
    ensures FirstDigitRun(lower).Some? ==> n == DigitsValue(FirstDigitRun(lower).value)
  {
    var text := match FirstDigitRun(lower) case Some(run) => run case None => "5";
    ParseIntOfDigits(text);
    ParseInt(text).value
  }

  /** A vendor's name for an answer row: the looked-up name, or 'Unknown' when there is no
      vendor row or its name is empty. */
  function VendorName(db: Db, id: Option<nat>): (name: string)
    ensures name != ""
    ensures name != "Unknown" ==> VendorById(db.vendors, id).Some? &&
                                  VendorById(db.vendors, id).value.name == Some(name)
    ensures VendorById(db.vendors, id).None? ==> name == "Unknown"
    ensures VendorById(db.vendors, id).Some? ==>
      var v := VendorById(db.vendors, id).value;
      name == if v.name.Some? && v.name.value != "" then v.name.value else "Unknown"
  {
    match VendorById(db.vendors, id)
    case Some(v) => if v.name.Some? && v.name.value != "" then v.name.value else "Unknown"
    case None => "Unknown"
  }

  datatype Row =
    | VendorSpendRow(vendorName: string, totalSpend: real, invoiceCount: nat)
    | SpendTotalRow(totalSpend: real, invoiceCount: nat)
    | OverdueRow(invoiceRef: Option<string>, vendorName: string, amount: real, dueDate: Option<int>,
                 daysOverdue: Option<int>)
    | AverageRow(avgInvoiceValue: real, totalInvoices: nat)

  /** A row as the route sends it; a due date is sent as its ISO string, and a missing
      `days_overdue` is no key at all. */
  function RowJson(row: Row): Json {
    match row
    case VendorSpendRow(name, spend, count) =>
      Obj([("vendor_name", Str(name)), ("total_spend", Num(spend)), ("invoice_count", Count(count))])
    case SpendTotalRow(spend, count) =>
      Obj([("total_spend", Num(spend)), ("invoice_count", Count(count))])
    case OverdueRow(ref, name, amount, due, days) =>
      Obj([("invoice_ref", StrOrNull(ref)), ("vendor_name", Str(name)), ("amount", Num(amount)),
           ("due_date", if due.Some? then Str(IsoString(due.value)) else Null)] +
          (if days.Some? then [("days_overdue", Num(days.value as real))] else []))
    case AverageRow(avg, count) =>
      Obj([("avg_invoice_value", Num(avg)), ("total_invoices", Count(count))])
  }

  function RowsJson(rows: seq<Row>): (j: Json)
    ensures j.Arr? && |j.items| == |rows|
    ensures forall i :: 0 <= i < |rows| ==> j.items[i] == RowJson(rows[i])
  {
    Arr(seq(|rows|, i requires 0 <= i < |rows| => RowJson(rows[i])))
  }

  /** The answer row of one vendor group: a NULL sum is sent as 0. */
  function SpendRow(db: Db, g: Group): Row {
    VendorSpendRow(VendorName(db, g.vendorId), g.sum.GetOr(0.0), g.count)
  }

  function SpendRows(db: Db, gs: seq<Group>): (rows: seq<Row>)
    ensures |rows| == |gs|
    ensures forall i :: 0 <= i < |gs| ==> rows[i] == SpendRow(db, gs[i])
  {
    if gs == [] then [] else [SpendRow(db, gs[0])] + SpendRows(db, gs[1..])
  }

  /** `groupBy vendorId … orderBy _sum desc, take limit`, then the name lookup. */
  function TopVendorRows(db: Db, limit: nat): (rows: seq<Row>)
    ensures |rows| <= limit
    ensures var ranked := RankedGroups(db.invoices);
      |rows| == (if limit < |ranked| then limit else |ranked|) &&
      forall i :: 0 <= i < |rows| ==> rows[i] == SpendRow(db, ranked[i])
  {
    SpendRows(db, Take(RankedGroups(db.invoices), limit))
  }

  /** The rows come in the order of summed spend, highest first; only a group whose sum is
      NULL (sent as 0) can stand before a higher total, as Postgres sorts NULL first. */
  lemma TopVendorRowsOrdered(db: Db, limit: nat)
    ensures var rows := TopVendorRows(db, limit);
      var ranked := RankedGroups(db.invoices);
      forall i, j :: 0 <= i < j < |rows| ==>
        ranked[i].sum.None? || rows[j].totalSpend <= rows[i].totalSpend
  {
    var ranked := RankedGroups(db.invoices);
    var top := Take(ranked, limit);
    TakeSorted(ranked, limit, SpendKey);
    SpendRowsOrdered(db, top);
    assert TopVendorRows(db, limit) == SpendRows(db, top);
  }

  lemma SpendRowsOrdered(db: Db, gs: seq<Group>)
    requires SortedDesc(gs, SpendKey)
    ensures var rows := SpendRows(db, gs);
      forall i, j :: 0 <= i < j < |rows| ==> gs[i].sum.None? || rows[j].totalSpend <= rows[i].totalSpend
  {
    var rows := SpendRows(db, gs);
    forall i, j | 0 <= i < j < |rows| && gs[i].sum.Some?
      ensures rows[j].totalSpend <= rows[i].totalSpend
    {
      assert KeyLe(SpendKey(gs[j]), SpendKey(gs[i]));
    }
  }

  /** When every invoice has an amount, no group sum is NULL and the totals never increase. */
  lemma TopVendorRowsDescending(db: Db, limit: nat)
    requires forall k :: 0 <= k < |db.invoices| ==> db.invoices[k].totalAmount.Some?
    ensures var rows := TopVendorRows(db, limit);
      forall i, j :: 0 <= i < j < |rows| ==> rows[j].totalSpend <= rows[i].totalSpend
  {
    var rows := TopVendorRows(db, limit);
    var ranked := RankedGroups(db.invoices);
    TopVendorRowsOrdered(db, limit);
    forall i | 0 <= i < |rows| ensures ranked[i].sum.Some? {
      GroupSumPresent(db.invoices, ranked[i]);
    }
  }

  /** A group of invoices that all have amounts has a sum. */
  lemma GroupSumPresent(invs: seq<Invoice>, g: Group)
    requires forall k :: 0 <= k < |invs| ==> invs[k].totalAmount.Some?
    requires g in multiset(RankedGroups(invs))
    ensures g.sum.Some?
  {
    var gs := GroupByVendor(invs);
    assert g in multiset(gs);
    var i :| 0 <= i < |gs| && gs[i] == g;
    GroupByVendorAggregates(invs);
    var members := OfVendor(invs, g.vendorId);
    assert |members| > 0 && members[0] in invs;
    assert members[0].totalAmount.Some?;
  }

  // ---- the spend total, the overdue list and the average ----

  /** `aggregate _sum totalAmount, _count id` over the given invoices; NULL is sent as 0. */
  function SpendTotal(invs: seq<Invoice>): (row: Row)
    ensures row.SpendTotalRow?
    ensures row.totalSpend == Total(invs) && row.invoiceCount == |invs|
  {
    SumOrZeroIsTotal(invs);
    SpendTotalRow(SumAmounts(invs).GetOr(0.0), |invs|)
  }

  /** `Math.floor((now - (due?.getTime() || now)) / 86400000)`: a missing due date and, through
      `||`, a due date at the epoch itself both count as due now. */
  function DaysOverdue(now: int, due: Option<int>): (d: int)
    ensures due.None? || due.value == 0 ==> d == 0
    ensures due.Some? && due.value != 0 ==>
      d * DayMs <= now - due.value < (d + 1) * DayMs
  {
    var from := if due.Some? && due.value != 0 then due.value else now;
    (now - from) / DayMs
  }

  /** The answer row of one overdue invoice; `days` decides whether `days_overdue` is sent. */
  function OverdueRowOf(db: Db, inv: Invoice, now: int, days: bool): Row {
    OverdueRow(inv.invoiceRef, VendorName(db, inv.vendorId), inv.totalAmount.GetOr(0.0), inv.dueDate,
               if days then Some(DaysOverdue(now, inv.dueDate)) else None)
  }

  function OverdueRowsOf(db: Db, invs: seq<Invoice>, now: int, days: bool): (rows: seq<Row>)
    ensures |rows| == |invs|
    ensures forall i :: 0 <= i < |invs| ==> rows[i] == OverdueRowOf(db, invs[i], now, days)
  {
    if invs == [] then [] else [OverdueRowOf(db, invs[0], now, days)] + OverdueRowsOf(db, invs[1..], now, days)
  }

  /** `rows` are the rows of the overdue invoices that `OverdueInvoices` selects (no invoice
      twice, the earliest due first), one row each and in that order. */
  predicate SelectedOverdueRows(db: Db, now: int, n: nat, days: bool, rows: seq<Row>) {
    var sel := OverdueInvoices(db.invoices, now, n);
    |rows| == |sel| && forall i :: 0 <= i < |rows| ==> rows[i] == OverdueRowOf(db, sel[i], now, days)
  }

  /** Row `r` is an overdue row due no later than `due`. */
  predicate DueNoLater(r: Row, due: Option<int>) {
    r.OverdueRow? && r.dueDate.Some? && due.Some? && r.dueDate.value <= due.value
  }

  /** Every row is the row of an overdue invoice of the store: due before `now`, and with
      whole days overdue exactly when `days` asks for them. */
  predicate RowsOfOverdue(db: Db, now: int, days: bool, rows: seq<Row>) {
    forall i :: 0 <= i < |rows| ==>
      rows[i].OverdueRow? && rows[i].dueDate.Some? && rows[i].dueDate.value < now &&
      (days <==> rows[i].daysOverdue.Some?) && (days ==> rows[i].daysOverdue.value >= 0) &&
      exists inv :: inv in db.invoices && Overdue(inv, now) && rows[i] == OverdueRowOf(db, inv, now, days)
  }

  /** The rows come earliest due first. */
  predicate EarliestDueFirst(rows: seq<Row>) {
    forall i, j :: 0 <= i < j < |rows| ==> rows[j].OverdueRow? && DueNoLater(rows[i], rows[j].dueDate)
  }

  /** An overdue invoice of the store is missing from the rows only when there are `n` rows,
      each due no later than it. */
  predicate OverdueSkippedOnlyWhenFull(db: Db, now: int, n: nat, days: bool, rows: seq<Row>) {
    forall x :: x in db.invoices && Overdue(x, now) && OverdueRowOf(db, x, now, days) !in rows ==>
      |rows| == n && forall i :: 0 <= i < |rows| ==> DueNoLater(rows[i], x.dueDate)
  }

  /** Unpaid invoices due before `now`, earliest first, at most `n` of them, as rows. An
      overdue invoice of the store is missing from the rows only when there are `n` rows, each
      due no later than it. */
  function OverdueRows(db: Db, now: int, n: nat, days: bool): (rows: seq<Row>)
    ensures SelectedOverdueRows(db, now, n, days, rows)
    ensures |rows| <= n
    ensures RowsOfOverdue(db, now, days, rows)
    ensures EarliestDueFirst(rows)
    ensures OverdueSkippedOnlyWhenFull(db, now, n, days, rows)
  {
    var rows := OverdueRowsOf(db, OverdueInvoices(db.invoices, now, n), now, days);
    OverdueRowsMeaning(db, now, n, days, rows);
    rows
  }

  /** What the selected rows say about the store. */
  lemma OverdueRowsMeaning(db: Db, now: int, n: nat, days: bool, rows: seq<Row>)
    requires SelectedOverdueRows(db, now, n, days, rows)
    ensures |rows| <= n
    ensures RowsOfOverdue(db, now, days, rows)
    ensures EarliestDueFirst(rows)
    ensures OverdueSkippedOnlyWhenFull(db, now, n, days, rows)
  {
    var sel := OverdueInvoices(db.invoices, now, n);
    forall i | 0 <= i < |rows|
      ensures rows[i].OverdueRow? && rows[i].dueDate.Some? && rows[i].dueDate.value < now &&
              (days <==> rows[i].daysOverdue.Some?) && (days ==> rows[i].daysOverdue.value >= 0)
      ensures exists inv :: inv in db.invoices && Overdue(inv, now) && rows[i] == OverdueRowOf(db, inv, now, days)
    {
      OverdueRowFacts(db, sel[i], now, days);
    }
    forall i, j | 0 <= i < j < |rows| ensures rows[j].OverdueRow? && DueNoLater(rows[i], rows[j].dueDate) {
      assert rows[i].dueDate == sel[i].dueDate && rows[j].dueDate == sel[j].dueDate;
    }
    forall x | x in db.invoices && Overdue(x, now) && OverdueRowOf(db, x, now, days) !in rows
      ensures |rows| == n && forall i :: 0 <= i < |rows| ==> DueNoLater(rows[i], x.dueDate)
    {
      SkippedOverdue(db, now, n, days, rows, x);
    }
  }

  /** The row of one overdue invoice. */
  lemma OverdueRowFacts(db: Db, inv: Invoice, now: int, days: bool)
    requires inv in db.invoices && Overdue(inv, now)
    ensures var row := OverdueRowOf(db, inv, now, days);
      row.OverdueRow? && row.dueDate.Some? && row.dueDate.value < now &&
      (days <==> row.daysOverdue.Some?) && (days ==> row.daysOverdue.value >= 0)
  {
  }

  /** An overdue invoice whose row is missing was not selected. */
  lemma SkippedOverdue(db: Db, now: int, n: nat, days: bool, rows: seq<Row>, x: Invoice)
    requires SelectedOverdueRows(db, now, n, days, rows)
    requires x in db.invoices && Overdue(x, now) && OverdueRowOf(db, x, now, days) !in rows
    ensures |rows| == n && forall i :: 0 <= i < |rows| ==> DueNoLater(rows[i], x.dueDate)
  {
    var sel := OverdueInvoices(db.invoices, now, n);
    assert x !in sel by {
      forall k | 0 <= k < |sel| ensures sel[k] != x {
        assert rows[k] == OverdueRowOf(db, sel[k], now, days) && rows[k] in rows;
      }
    }
    forall i | 0 <= i < |rows| ensures DueNoLater(rows[i], x.dueDate) {
      assert rows[i].dueDate == sel[i].dueDate;
    }
  }

  /** `aggregate _avg totalAmount, _count id`; NULL is sent as 0. */
  function AverageInvoice(invs: seq<Invoice>): (row: Row)
    ensures row.AverageRow? && row.totalInvoices == |invs|
    ensures AmountCount(invs) == 0 ==> row.avgInvoiceValue == 0.0
    ensures AmountCount(invs) > 0 ==>
      IsMeanOf(row.avgInvoiceValue, AmountCount(invs), SumAmounts(invs).value)
  {
    AverageRow(AvgAmount(invs).GetOr(0.0), |invs|)
  }
}
