/** The dashboard routes: spend by keyword category, the cash-outflow forecast, the
    paginated invoice list, the ten biggest vendors, the overview cards and the monthly
    trend, each over the stored rows at the instant `now` (milliseconds, UTC). */
module Dashboard {
  import opened Wrappers
  import opened Text
  import opened Numbers
  import opened Sorting
  import opened Store
  import opened Calendar
  import opened FallbackQueries
  import opened JsonValues

  // ---- spend by category (lines 150-210) ----

  datatype Category = Operations | Marketing | Facilities | IT | Other

  /** The order in which the `categories` record was written, which `Object.entries` keeps. */
  const CategoryOrder: seq<Category> := [Operations, Marketing, Facilities, IT, Other]

  function CategoryName(c: Category): string {
    match c
    case Operations => "Operations"
    case Marketing => "Marketing"
    case Facilities => "Facilities"
    case IT => "IT"
    case Other => "Other"
  }

  /** The first keyword group that occurs in the lowercased vendor name decides. */
  function Classify(name: string): Category {
    if Contains(name, "tech") || Contains(name, "software") || Contains(name, "it") then IT
    else if Contains(name, "market") || Contains(name, "advert") then Marketing
    else if Contains(name, "facility") || Contains(name, "maintenance") then Facilities
    else if Contains(name, "operation") || Contains(name, "service") then Operations
    else Other
  }

  /** "facility" contains "it", so a facility vendor is always classed IT. */
  lemma FacilityIsIT(name: string)
    requires Contains(name, "facility")
    ensures Classify(name) == IT
  {
    assert "facility"[5..7] == "it";
    ContainsAt("facility", "it", 5);
    ContainsTransitive(name, "facility", "it");
  }

  /** Facilities is reached only through "maintenance", and never by "facility". */
  lemma FacilitiesOnlyByMaintenance(name: string)
    requires Classify(name) == Facilities
    ensures Contains(name, "maintenance") && !Contains(name, "facility")
  {
    if Contains(name, "facility") {
      FacilityIsIT(name);
    }
  }

  /** `invoice.vendor?.name?.toLowerCase() || ''`. */
  function VendorKey(db: Db, inv: Invoice): string {
    match VendorById(db.vendors, inv.vendorId)
    case Some(v) => if v.name.Some? then Lower(v.name.value) else ""
    case None => ""
  }

  /** `invoice.totalAmount || 0`. */
  function Amount(inv: Invoice): real {
    inv.totalAmount.GetOr(0.0)
  }

  function CategoryOf(db: Db, inv: Invoice): Category {
    Classify(VendorKey(db, inv))
  }

  /** The amounts of the invoices classed `c`. */
  function CategorySum(db: Db, invs: seq<Invoice>, c: Category): real {
    if invs == [] then 0.0
    else
      var last := invs[|invs| - 1];
      CategorySum(db, invs[..|invs| - 1], c) + (if CategoryOf(db, last) == c then Amount(last) else 0.0)
  }

  /** The five category sums add up to the total amount: every invoice lands in exactly one. */
  lemma {:induction false} CategorySumsAddUp(db: Db, invs: seq<Invoice>)
    ensures CategorySum(db, invs, Operations) + CategorySum(db, invs, Marketing) +
            CategorySum(db, invs, Facilities) + CategorySum(db, invs, IT) +
            CategorySum(db, invs, Other) == Total(invs)
  {
    if invs != [] {
      CategorySumsAddUp(db, invs[..|invs| - 1]);
    }
  }

  /** With no negative amount, no category sum is negative. */
  lemma {:induction false} CategorySumNonNegative(db: Db, invs: seq<Invoice>, c: Category)
    requires forall k :: 0 <= k < |invs| ==> Amount(invs[k]) >= 0.0
    ensures CategorySum(db, invs, c) >= 0.0
  {
    if invs != [] {
      CategorySumNonNegative(db, invs[..|invs| - 1], c);
    }
  }

  /** The record holds the category sums of `invs`. */
  predicate SumsOf(categories: map<Category, real>, db: Db, invs: seq<Invoice>) {
    categories.Keys == {Operations, Marketing, Facilities, IT, Other} &&
    categories[Operations] == CategorySum(db, invs, Operations) &&
    categories[Marketing] == CategorySum(db, invs, Marketing) &&
    categories[Facilities] == CategorySum(db, invs, Facilities) &&
    categories[IT] == CategorySum(db, invs, IT) &&
    categories[Other] == CategorySum(db, invs, Other)
  }

  /** The `forEach` over all invoices that adds each amount to its category. */
  method CategoryTotals(db: Db) returns (categories: map<Category, real>)
    ensures SumsOf(categories, db, db.invoices)
  {
    categories := map[Operations := 0.0, Marketing := 0.0, Facilities := 0.0, IT := 0.0, Other := 0.0];
    var i := 0;
    SumsEmpty(db);
    while i < |db.invoices|
      invariant 0 <= i <= |db.invoices|
      invariant SumsOf(categories, db, db.invoices[..i])
    {
      var invoice := db.invoices[i];
      var c := CategoryOf(db, invoice);
      SumsNext(categories, db, i);
      categories := categories[c := categories[c] + Amount(invoice)];
      i := i + 1;
    }
    assert db.invoices[..i] == db.invoices;
  }

  lemma SumsEmpty(db: Db)
    ensures SumsOf(map[Operations := 0.0, Marketing := 0.0, Facilities := 0.0, IT := 0.0, Other := 0.0],
                   db, db.invoices[..0])
  {
    assert db.invoices[..0] == [];
  }

  /** One turn of the `forEach`. */
  lemma SumsNext(m: map<Category, real>, db: Db, i: nat)
    requires i < |db.invoices| && SumsOf(m, db, db.invoices[..i])
    ensures var inv := db.invoices[i]; var c := CategoryOf(db, inv);
      SumsOf(m[c := m[c] + Amount(inv)], db, db.invoices[..i + 1])
  {
    SumsStep(m, db, db.invoices[..i], db.invoices[i]);
    TakeOneMore(db.invoices, i);
  }

  /** Adding one invoice's amount to its category gives the sums of the longer list. */
  lemma SumsStep(m: map<Category, real>, db: Db, invs: seq<Invoice>, inv: Invoice)
    requires SumsOf(m, db, invs)
    ensures var c := CategoryOf(db, inv);
      SumsOf(m[c := m[c] + Amount(inv)], db, invs + [inv])
  {
    assert (invs + [inv])[..|invs|] == invs;
  }

  /** `getCategoryColor`. */
  function CategoryColor(name: string): (color: string)
    ensures name == "Operations" ==> color == "#1E1B4F"
    ensures name == "Marketing" ==> color == "#F97316"
    ensures name == "Facilities" ==> color == "#D8D6F8"
    ensures name == "IT" ==> color == "#6366F1"
    ensures name != "Operations" && name != "Marketing" && name != "Facilities" && name != "IT" ==>
      color == "#9CA3AF"
  {
    if name == "Operations" then "#1E1B4F"
    else if name == "Marketing" then "#F97316"
    else if name == "Facilities" then "#D8D6F8"
    else if name == "IT" then "#6366F1"
    else "#9CA3AF"
  }

  datatype CategoryRow = CategoryRow(category: string, amount: real, color: string)

  function AmountKey(r: CategoryRow): Key { Val(r.amount) }

  function RowsSum(rows: seq<CategoryRow>): real {
    if rows == [] then 0.0 else rows[0].amount + RowsSum(rows[1..])
  }

  /** The entries in record order with their colours, the positive ones only. */
  function PositiveRows(categories: map<Category, real>, cs: seq<Category>): (rows: seq<CategoryRow>)
    requires forall k :: 0 <= k < |cs| ==> cs[k] in categories
    ensures forall k :: 0 <= k < |rows| ==> rows[k].amount > 0.0 && rows[k].color == CategoryColor(rows[k].category)
    ensures forall c :: c in cs && c in categories && categories[c] > 0.0 ==>
      CategoryRow(CategoryName(c), categories[c], CategoryColor(CategoryName(c))) in rows
  {
    if cs == [] then []
    else
      var c := cs[0];
      var rest := PositiveRows(categories, cs[1..]);
      if categories[c] > 0.0 then [CategoryRow(CategoryName(c), categories[c], CategoryColor(CategoryName(c)))] + rest
      else rest
  }

  /** The route's body: the positive categories, highest amount first, and their total. */
  function CategorySpend(categories: map<Category, real>): (r: (seq<CategoryRow>, real))
    requires categories.Keys == {Operations, Marketing, Facilities, IT, Other}
    ensures forall k :: 0 <= k < |r.0| ==> r.0[k].amount > 0.0 && r.0[k].color == CategoryColor(r.0[k].category)
    ensures forall i, j :: 0 <= i < j < |r.0| ==> r.0[j].amount <= r.0[i].amount
    ensures multiset(r.0) == multiset(PositiveRows(categories, CategoryOrder))
    ensures r.1 == RowsSum(r.0)
  {
    assert forall k :: 0 <= k < |CategoryOrder| ==> CategoryOrder[k] in categories;
    var positive := PositiveRows(categories, CategoryOrder);
    var rows := SortDesc(positive, AmountKey);
    SortedRows(positive, rows);
    (rows, RowsSum(rows))
  }

  predicate RowOk(r: CategoryRow) { r.amount > 0.0 && r.color == CategoryColor(r.category) }

  lemma SortedRows(positive: seq<CategoryRow>, rows: seq<CategoryRow>)
    requires forall k :: 0 <= k < |positive| ==> RowOk(positive[k])
    requires rows == SortDesc(positive, AmountKey)
    ensures forall k :: 0 <= k < |rows| ==> RowOk(rows[k])
    ensures forall i, j :: 0 <= i < j < |rows| ==> rows[j].amount <= rows[i].amount
  {
    assert forall i, j :: 0 <= i < j < |rows| ==> KeyLe(AmountKey(rows[j]), AmountKey(rows[i]));
    forall k | 0 <= k < |rows| ensures RowOk(rows[k]) {
      assert rows[k] in multiset(positive);
    }
  }

  /** `GET /category-spend`: sums per category, then the shaped rows. */
  method CategorySpendRoute(db: Db) returns (rows: seq<CategoryRow>, total: real)
    ensures (rows, total) == CategorySpend(CategoriesOf(db))
  {
    var categories := CategoryTotals(db);
    assert categories == CategoriesOf(db);
    rows, total := CategorySpend(categories).0, CategorySpend(categories).1;
  }

  /** The record the `forEach` leaves behind. */
  function CategoriesOf(db: Db): (m: map<Category, real>)
    ensures SumsOf(m, db, db.invoices)
  {
    var invs := db.invoices;
    map[Operations := CategorySum(db, invs, Operations), Marketing := CategorySum(db, invs, Marketing),
        Facilities := CategorySum(db, invs, Facilities), IT := CategorySum(db, invs, IT),
        Other := CategorySum(db, invs, Other)]
  }

  /** With no negative amount the reported total is the total amount of all invoices. */
  lemma CategoryTotalIsTotalSpend(db: Db)
    requires forall k :: 0 <= k < |db.invoices| ==> Amount(db.invoices[k]) >= 0.0
    ensures CategorySpend(CategoriesOf(db)).1 == Total(db.invoices)
  {
    var invs := db.invoices;
    var m := CategoriesOf(db);
    var positive := PositiveRows(m, CategoryOrder);
    assert m[Operations] == CategorySum(db, invs, Operations) && m[Marketing] == CategorySum(db, invs, Marketing) &&
           m[Facilities] == CategorySum(db, invs, Facilities) && m[IT] == CategorySum(db, invs, IT) &&
           m[Other] == CategorySum(db, invs, Other);
    CategorySumNonNegative(db, invs, Operations);
    CategorySumNonNegative(db, invs, Marketing);
    CategorySumNonNegative(db, invs, Facilities);
    CategorySumNonNegative(db, invs, IT);
    CategorySumNonNegative(db, invs, Other);
    OrderedNonNegative(m);
    assert RowsSum(positive) == m[Operations] + m[Marketing] + m[Facilities] + m[IT] + m[Other] by {
      PositiveRowsSum(m, CategoryOrder);
      FiveSum(m);
    }
    assert CategorySpend(m).1 == RowsSum(positive) by {
      RowsSumPermutation(CategorySpend(m).0, positive);
    }
    CategorySumsAddUp(db, invs);
  }

  /** Five non-negative sums, in the order the chart lists them. */
  lemma OrderedNonNegative(m: map<Category, real>)
    requires m.Keys == {Operations, Marketing, Facilities, IT, Other}
    requires m[Operations] >= 0.0 && m[Marketing] >= 0.0 && m[Facilities] >= 0.0 && m[IT] >= 0.0 && m[Other] >= 0.0
    ensures forall k :: 0 <= k < |CategoryOrder| ==> CategoryOrder[k] in m && m[CategoryOrder[k]] >= 0.0
  {
    forall k | 0 <= k < |CategoryOrder| ensures CategoryOrder[k] in m && m[CategoryOrder[k]] >= 0.0 {
      assert CategoryOrder[k] in {Operations, Marketing, Facilities, IT, Other};
    }
  }

  /** Dropping the zero entries of non-negative sums does not change their sum. */
  lemma {:induction false} PositiveRowsSum(m: map<Category, real>, cs: seq<Category>)
    requires forall k :: 0 <= k < |cs| ==> cs[k] in m && m[cs[k]] >= 0.0
    ensures RowsSum(PositiveRows(m, cs)) == CategoryListSum(m, cs)
  {
    if cs != [] {
      PositiveRowsSum(m, cs[1..]);
    }
  }

  function CategoryListSum(m: map<Category, real>, cs: seq<Category>): real
    requires forall k :: 0 <= k < |cs| ==> cs[k] in m
  {
    if cs == [] then 0.0 else m[cs[0]] + CategoryListSum(m, cs[1..])
  }

  lemma FiveSum(m: map<Category, real>)
    requires m.Keys == {Operations, Marketing, Facilities, IT, Other}
    ensures CategoryListSum(m, CategoryOrder) ==
      m[Operations] + m[Marketing] + m[Facilities] + m[IT] + m[Other]
  {
    assert [Other][1..] == [];
    assert CategoryListSum(m, [Other]) == m[Other];
    assert [IT, Other][1..] == [Other];
    assert CategoryListSum(m, [IT, Other]) == m[IT] + m[Other];
    assert [Facilities, IT, Other][1..] == [IT, Other];
    assert CategoryListSum(m, [Facilities, IT, Other]) == m[Facilities] + m[IT] + m[Other];
    assert [Marketing, Facilities, IT, Other][1..] == [Facilities, IT, Other];
    assert CategoryOrder[1..] == [Marketing, Facilities, IT, Other];
  }

  /** Reordering rows does not change their sum. */
  lemma {:induction false} RowsSumPermutation(a: seq<CategoryRow>, b: seq<CategoryRow>)
    requires multiset(a) == multiset(b)
    ensures RowsSum(a) == RowsSum(b)
    decreases |a|
  {
    if a != [] {
      assert a[0] in multiset(b);
      var i :| 0 <= i < |b| && b[i] == a[0];
      var rest := RemoveAt(b, i);
      RemoveAtMultiset(b, i);
      MultisetTail(a);
      RowsSumPermutation(a[1..], rest);
      RowsSumRemove(b, i);
    }
  }
  function RemoveAt(b: seq<CategoryRow>, i: nat): seq<CategoryRow>
    requires i < |b|
  {
    b[..i] + b[i + 1..]
  }
  lemma RemoveAtMultiset(b: seq<CategoryRow>, i: nat)
    requires i < |b|
    ensures multiset(RemoveAt(b, i)) == multiset(b) - multiset{b[i]}
  {
    assert b == b[..i] + [b[i]] + b[i + 1..];
  }
  lemma MultisetTail(a: seq<CategoryRow>)
    requires a != []
    ensures multiset(a[1..]) == multiset(a) - multiset{a[0]}
  {
    assert a == [a[0]] + a[1..];
  }
  lemma {:induction false} RowsSumRemove(b: seq<CategoryRow>, i: nat)
    requires i < |b|
    ensures RowsSum(b) == b[i].amount + RowsSum(RemoveAt(b, i))
  {
    if i > 0 {
      var t := b[1..];
      RowsSumRemove(t, i - 1);
      assert b[..i] == [b[0]] + t[..i - 1];
      assert b[i + 1..] == t[i..];
      var r := RemoveAt(t, i - 1);
      assert RemoveAt(b, i) == [b[0]] + r;
      assert ([b[0]] + r)[1..] == r;
    } else {
      assert RemoveAt(b, 0) == b[1..];
    }
  }

  // ---- the cash-outflow forecast (lines 216-263) ----

  datatype Range = Range(period: string, start: int, end: int)

  /** `new Date(2100, 0, 1)`, taken in UTC. */
  const Year2100: int := DaysFromCivil(2100, 1, 1) * DayMs

  /** The four day ranges, both ends inclusive. */
  function OutflowRanges(now: int): (rs: seq<Range>)
    ensures |rs| == 4
    ensures rs[0].start == now && rs[0].end == now + 7 * DayMs
    ensures rs[1].start == now + 8 * DayMs && rs[1].end == now + 30 * DayMs
    ensures rs[2].start == now + 31 * DayMs && rs[2].end == now + 60 * DayMs
    ensures rs[3].start == now + 61 * DayMs && rs[3].end == Year2100
  {
    [Range("0-7 days", now, now + 7 * DayMs),
     Range("8-30 days", now + 8 * DayMs, now + 30 * DayMs),
     Range("31-60 days", now + 31 * DayMs, now + 60 * DayMs),
     Range("60+ days", now + 61 * DayMs, Year2100)]
  }

  predicate InRange(t: int, r: Range) { r.start <= t <= r.end }

  /** No instant lies in two ranges, and one day separates each range from the next. */
  lemma OutflowRangesDisjoint(now: int, t: int)
    ensures var rs := OutflowRanges(now);
      (forall i, j :: 0 <= i < j < 4 && InRange(t, rs[i]) ==> !InRange(t, rs[j])) &&
      (forall i :: 0 <= i < 3 ==> rs[i + 1].start == rs[i].end + DayMs)
  {
  }

  /** An instant in the gap after a range is in none of them. */
  lemma OutflowGap(now: int, i: nat, t: int)
    requires i < 3
    requires OutflowRanges(now)[i].end < t < OutflowRanges(now)[i + 1].start
    ensures forall j :: 0 <= j < 4 ==> !InRange(t, OutflowRanges(now)[j])
  {
  }

  /** `paymentDueDate: { gte, lte }` and not paid. */
  predicate DueIn(inv: Invoice, r: Range) {
    inv.dueDate.Some? && InRange(inv.dueDate.value, r) && NotPaid(inv)
  }

  datatype OutflowRow = OutflowRow(period: string, amount: real)

  function OutflowOf(invs: seq<Invoice>, r: Range): (row: OutflowRow)
    ensures row.period == r.period
    ensures row.amount == Total(Filter(invs, (inv: Invoice) => DueIn(inv, r)))
  {
    var due := Filter(invs, (inv: Invoice) => DueIn(inv, r));
    SumOrZeroIsTotal(due);
    OutflowRow(r.period, SumAmounts(due).GetOr(0.0))
  }

  /** One row per range, in range order, each the unpaid amount due in it. */
  function CashOutflow(db: Db, now: int): (rows: seq<OutflowRow>)
    ensures |rows| == 4
    ensures forall i :: 0 <= i < 4 ==> rows[i] == OutflowOf(db.invoices, OutflowRanges(now)[i])
  {
    var rs := OutflowRanges(now);
    seq(4, i requires 0 <= i < 4 => OutflowOf(db.invoices, rs[i]))
  }

  /** An invoice is counted in at most one row. */
  lemma CashOutflowCountsOnce(now: int, inv: Invoice, i: nat, j: nat)
    requires i < j < 4
    requires DueIn(inv, OutflowRanges(now)[i])
    ensures !DueIn(inv, OutflowRanges(now)[j])
  {
    OutflowRangesDisjoint(now, inv.dueDate.value);
  }

  // ---- the invoice list (lines 269-342) ----

  /** The query string; a missing parameter is `None`. */
  datatype ListQuery = ListQuery(page: Option<string>, limit: Option<string>, search: Option<string>,
                                 status: Option<string>, sortBy: Option<string>, sortOrder: Option<string>)

  datatype Direction = Asc | Desc

  /** The `where` object: an optional search text and an optional status. */
  datatype InvoiceWhere = InvoiceWhere(search: Option<string>, status: Option<string>)

  /** What the route asks the store for; `None` for a page, limit or skip is NaN. */
  datatype ListPlan = ListPlan(page: Option<int>, limit: Option<int>, skip: Option<int>,
                               where: InvoiceWhere, sortBy: string, order: Direction)

  function ListPlanOf(q: ListQuery): (p: ListPlan)
    ensures q.page.None? ==> p.page == Some(1)
    ensures q.limit.None? ==> p.limit == Some(20)
    ensures q.page.Some? ==> p.page == ParseInt(q.page.value)
    ensures q.limit.Some? ==> p.limit == ParseInt(q.limit.value)
    ensures p.skip == Skip(p.page, p.limit)
    ensures p.where.search.Some? <==> q.search.Some? && q.search.value != ""
    ensures p.where.search.Some? ==> p.where.search == q.search
    ensures p.where.status.Some? <==> q.status.Some? && q.status.value != "" && q.status.value != "all"
    ensures p.where.status.Some? ==> p.where.status == q.status
    ensures p.sortBy == q.sortBy.GetOr("invoiceDate")
    ensures p.order == Asc <==> q.sortOrder == Some("asc")
  {
    var page := IntParam(q.page, 1);
    var limit := IntParam(q.limit, 20);
    var order := OrderOf(q.sortOrder);
    ListPlan(page, limit, Skip(page, limit), WhereOf(q.search, q.status), q.sortBy.GetOr("invoiceDate"), order)
  }

  /** `sortOrder = 'desc'` by default; only 'asc' sorts ascending. */
  function OrderOf(sortOrder: Option<string>): (d: Direction)
    ensures d == Asc <==> sortOrder == Some("asc")
  {
    assert "desc" != "asc" by { assert "desc"[0] != "asc"[0]; }
    if sortOrder.GetOr("desc") == "asc" then Asc else Desc
  }

  /** `parseInt(param ?? String(default), 10)`. */
  function IntParam(param: Option<string>, default: nat): (r: Option<int>)
    ensures param.None? ==> r == Some(default)
    ensures param.Some? ==> r == ParseInt(param.value)
  {
    ParseIntOfNatToString(default);
    ParseInt(param.GetOr(NatToString(default)))
  }

  /** `(page - 1) * limit`, NaN when either is. */
  function Skip(page: Option<int>, limit: Option<int>): (r: Option<int>)
    ensures r.Some? <==> page.Some? && limit.Some?
    ensures r.Some? ==> r.value == (page.value - 1) * limit.value
  {
    if page.Some? && limit.Some? then Some((page.value - 1) * limit.value) else None
  }

  /** The `where` object: a truthy search and a status other than '' and 'all'. */
  function WhereOf(search: Option<string>, status: Option<string>): (w: InvoiceWhere)
    ensures w.search.Some? <==> search.Some? && search.value != ""
    ensures w.search.Some? ==> w.search == search
    ensures w.status.Some? <==> status.Some? && status.value != "" && status.value != "all"
    ensures w.status.Some? ==> w.status == status
  {
    var text := search.GetOr("");
    var wanted := status.GetOr("");
    InvoiceWhere(if text != "" then Some(text) else None,
                 if wanted != "" && wanted != "all" then Some(wanted) else None)
  }

  /** `contains`, `mode: 'insensitive'`. */
  predicate ContainsInsensitive(s: Option<string>, sub: string) {
    s.Some? && Contains(Lower(s.value), Lower(sub))
  }

  /** An invoice the `where` object selects: the search text in its reference or its vendor's
      name, and the status equal. */
  predicate Selected(db: Db, w: InvoiceWhere, inv: Invoice) {
    (w.search.None? ||
     ContainsInsensitive(inv.invoiceRef, w.search.value) ||
     (VendorById(db.vendors, inv.vendorId).Some? &&
      ContainsInsensitive(VendorById(db.vendors, inv.vendorId).value.name, w.search.value))) &&
    (w.status.None? || inv.status == w.status)
  }

  /** `Math.ceil(total / limit)`: a whole number, +Infinity, or NaN. */
  datatype PageCount = Pages(n: int) | Infinite | NotANumber

  function TotalPages(total: nat, limit: Option<int>): (r: PageCount)
    ensures limit.None? ==> r == NotANumber
    ensures limit == Some(0) ==> r == (if total == 0 then NotANumber else Infinite)
    ensures limit.Some? && limit.value > 0 ==> r.Pages? && (r.n - 1) * limit.value < total <= r.n * limit.value
    ensures limit.Some? && limit.value < 0 ==> r.Pages? && r.n <= 0
  {
    match limit
    case None => NotANumber
    case Some(l) =>
      if l > 0 then Pages(CeilDiv(total, l))
      else if l == 0 then (if total == 0 then NotANumber else Infinite)
      else Pages(-(total / -l))
  }

  datatype Pagination = Pagination(page: Option<int>, limit: Option<int>, total: nat, totalPages: PageCount)

  /** The invoices the `where` object selects, in stored order. */
  function Matching(db: Db, w: InvoiceWhere): (r: seq<Invoice>)
    ensures |r| <= |db.invoices|
    ensures forall inv :: inv in r <==> inv in db.invoices && Selected(db, w, inv)
    ensures multiset(r) <= multiset(db.invoices)
  {
    Filter(db.invoices, (inv: Invoice) => Selected(db, w, inv))
  }

  /** An empty `where` object selects every invoice. */
  lemma MatchingAll(db: Db, w: InvoiceWhere)
    requires w.search.None? && w.status.None?
    ensures Matching(db, w) == db.invoices
  {
    FilterAll(db.invoices, (inv: Invoice) => Selected(db, w, inv));
  }

  /** The `pagination` object of `GET /invoices`: the count of the selected invoices and
      the page count it gives at the requested limit. */
  function ListPagination(db: Db, q: ListQuery): (r: Pagination)
    ensures r.page == ListPlanOf(q).page && r.limit == ListPlanOf(q).limit
    ensures r.total == |Matching(db, ListPlanOf(q).where)| && r.total <= |db.invoices|
    ensures r.totalPages == TotalPages(r.total, r.limit)
  {
    var p := ListPlanOf(q);
    var total := |Matching(db, p.where)|;
    Pagination(p.page, p.limit, total, TotalPages(total, p.limit))
  }

  /** The store refuses the list query when `skip` or `take` is NaN, when `skip` is negative
      (a page below 1), or when `sortBy` names no field of an invoice; `fields` are those
      field names, since the store's schema is not part of this model. */
  predicate ListAccepted(p: ListPlan, fields: set<string>) {
    p.skip.Some? && p.skip.value >= 0 && p.limit.Some? && p.sortBy in fields
  }

  /** The answer of `GET /invoices`: its pagination, or the 500 reply whose `message` is the
      store's error text. */
  datatype ListReply = ListPage(pagination: Pagination) | ListFailed(message: string)

  /** The 500 body of the invoice list. */
  function ListErrorBody(message: string): (j: Json)
    ensures Get(j, "success") == Bool(false) && Get(j, "error") == Str("Failed to fetch invoices") &&
            Get(j, "message") == Str(message)
  {
    var body := Obj([("success", Bool(false)), ("error", Str("Failed to fetch invoices")), ("message", Str(message))]);
    GetAt(body, 0);
    GetAt(body, 1);
    GetAt(body, 2);
    body
  }

  /** `GET /invoices`: a query the store refuses fails with its message `rejected`; any other
      query gets the pagination of the selected invoices. */
  function ListInvoices(db: Db, q: ListQuery, fields: set<string>, rejected: string): (r: ListReply)
    ensures r.ListFailed? <==> !ListAccepted(ListPlanOf(q), fields)
    ensures r.ListFailed? ==> r.message == rejected
    ensures r.ListPage? ==> r.pagination == ListPagination(db, q)
  {
    var p := ListPlanOf(q);
    if !ListAccepted(p, fields) then ListFailed(rejected) else ListPage(ListPagination(db, q))
  }

  /** With no query parameters the list is accepted (when invoices have an `invoiceDate`
      field), shows page 1 of 20, and counts every invoice. */
  lemma DefaultListCountsAll(db: Db, fields: set<string>, rejected: string)
    requires "invoiceDate" in fields
    ensures var r := ListInvoices(db, ListQuery(None, None, None, None, None, None), fields, rejected);
      r.ListPage? && r.pagination.page == Some(1) && r.pagination.limit == Some(20) &&
      r.pagination.total == |db.invoices|
  {
    var q := ListQuery(None, None, None, None, None, None);
    MatchingAll(db, ListPlanOf(q).where);
  }

  /** A filter that keeps everything keeps the whole list. */
  lemma {:induction false} FilterAll<T>(s: seq<T>, p: T -> bool)
    requires forall k :: 0 <= k < |s| ==> p(s[k])
    ensures Filter(s, p) == s
  {
    if s != [] {
      FilterAll(s[..|s| - 1], p);
      assert s == s[..|s| - 1] + [s[|s| - 1]];
    }
  }

  // ---- the ten biggest vendors (lines 72-144) ----

  datatype TopVendor = TopVendor(vendorId: nat, vendorName: string, totalSpend: real, invoiceCount: nat)

  /** `vendor?.name || 'Unknown Vendor'`, `_sum.totalAmount ?? 0`. */
  function TopVendorOf(db: Db, g: Group): TopVendor
    requires g.vendorId.Some?
  {
    var v := VendorById(db.vendors, g.vendorId);
    var name := if v.Some? && v.value.name.Some? && v.value.name.value != "" then v.value.name.value
                else "Unknown Vendor";
    TopVendor(g.vendorId.value, name, g.sum.GetOr(0.0), g.count)
  }

  predicate Listed(db: Db, g: Group) {
    g.vendorId.Some? && TopVendorOf(db, g).vendorName != "Unknown Vendor"
  }

  /** Drops the NULL-vendor group, names the rest, and drops those named 'Unknown Vendor'. */
  function ShapeTop(db: Db, gs: seq<Group>): (rows: seq<TopVendor>)
    ensures |rows| <= |gs|
    ensures forall k :: 0 <= k < |rows| ==> rows[k].vendorName != "Unknown Vendor"
  {
    if gs == [] then []
    else
      var rest := ShapeTop(db, gs[1..]);
      if Listed(db, gs[0]) then [TopVendorOf(db, gs[0])] + rest else rest
  }

  /** Every row is the row of a listed group. */
  lemma {:induction false} ShapeTopSound(db: Db, gs: seq<Group>)
    ensures forall row :: row in ShapeTop(db, gs) ==> exists g :: g in gs && Listed(db, g) && row == TopVendorOf(db, g)
  {
    if gs != [] {
      var tail := gs[1..];
      ShapeTopSound(db, tail);
      var rest := ShapeTop(db, tail);
      forall row | row in ShapeTop(db, gs) ensures exists g :: g in gs && Listed(db, g) && row == TopVendorOf(db, g) {
        if Listed(db, gs[0]) && row == TopVendorOf(db, gs[0]) {
          assert gs[0] in gs;
        } else {
          assert row in rest;
          var g :| g in tail && Listed(db, g) && row == TopVendorOf(db, g);
          assert g in gs;
        }
      }
    }
  }

  /** Every listed group has its row. */
  lemma {:induction false} ShapeTopComplete(db: Db, gs: seq<Group>)
    ensures forall g :: g in gs && Listed(db, g) ==> TopVendorOf(db, g) in ShapeTop(db, gs)
  {
    if gs != [] {
      ShapeTopComplete(db, gs[1..]);
      assert forall g :: g in gs ==> g == gs[0] || g in gs[1..];
    }
  }

  /** `GET /vendors/top10`: the rows of the ten biggest groups that have a named vendor. */
  function TopVendors(db: Db): (rows: seq<TopVendor>)
    ensures |rows| <= 10
    ensures forall k :: 0 <= k < |rows| ==> rows[k].vendorName != "Unknown Vendor"
  {
    ShapeTop(db, Take(RankedGroups(db.invoices), 10))
  }

  /** The kept rows stay in the order of the ranking: with no NULL sum among the groups the
      spend never increases down the list. */
  lemma {:induction false} ShapeTopOrdered(db: Db, gs: seq<Group>)
    requires SortedDesc(gs, SpendKey)
    requires forall i :: 0 <= i < |gs| ==> gs[i].sum.Some?
    ensures forall i, j :: 0 <= i < j < |ShapeTop(db, gs)| ==>
      ShapeTop(db, gs)[j].totalSpend <= ShapeTop(db, gs)[i].totalSpend
  {
    if gs != [] {
      var tail := gs[1..];
      assert SortedDesc(tail, SpendKey) by {
        forall i, j | 0 <= i < j < |tail| ensures KeyLe(SpendKey(tail[j]), SpendKey(tail[i])) {
          assert tail[i] == gs[i + 1] && tail[j] == gs[j + 1];
        }
      }
      assert forall i :: 0 <= i < |tail| ==> tail[i].sum.Some? && tail[i].sum.value <= gs[0].sum.value by {
        forall i | 0 <= i < |tail| ensures tail[i].sum.Some? && tail[i].sum.value <= gs[0].sum.value {
          assert tail[i] == gs[i + 1];
          assert KeyLe(SpendKey(gs[i + 1]), SpendKey(gs[0]));
        }
      }
      ShapeTopOrdered(db, tail);
      var rest := ShapeTop(db, tail);
      if Listed(db, gs[0]) {
        ShapeTopBounded(db, tail, gs[0].sum.value);
        var rows := [TopVendorOf(db, gs[0])] + rest;
        assert ShapeTop(db, gs) == rows;
        assert rows[0].totalSpend == gs[0].sum.value;
        forall i, j | 0 <= i < j < |rows| ensures rows[j].totalSpend <= rows[i].totalSpend {
          assert rows[j] == rest[j - 1];
          if i > 0 { assert rows[i] == rest[i - 1]; }
        }
      }
    }
  }

  /** Rows made from groups whose sums are at most `bound` have spend at most `bound`. */
  lemma {:induction false} ShapeTopBounded(db: Db, gs: seq<Group>, bound: real)
    requires forall i :: 0 <= i < |gs| ==> gs[i].sum.Some? && gs[i].sum.value <= bound
    ensures forall k :: 0 <= k < |ShapeTop(db, gs)| ==> ShapeTop(db, gs)[k].totalSpend <= bound
  {
    if gs != [] {
      var tail := gs[1..];
      assert forall i :: 0 <= i < |tail| ==> tail[i] == gs[i + 1];
      ShapeTopBounded(db, tail, bound);
    }
  }

  /** When every invoice has an amount the ten rows never increase in spend. */
  lemma TopVendorsDescending(db: Db)
    requires forall k :: 0 <= k < |db.invoices| ==> db.invoices[k].totalAmount.Some?
    ensures var rows := TopVendors(db);
      forall i, j :: 0 <= i < j < |rows| ==> rows[j].totalSpend <= rows[i].totalSpend
  {
    var ranked := RankedGroups(db.invoices);
    var top := Take(ranked, 10);
    TakeSorted(ranked, 10, SpendKey);
    forall i | 0 <= i < |top| ensures top[i].sum.Some? {
      assert top[i] == ranked[i];
      GroupSumPresent(db.invoices, top[i]);
    }
    ShapeTopOrdered(db, top);
  }

  // ---- the overview cards (lines 348-414) ----

  /** A document row as the cards read it. */
  datatype DocumentRow = DocumentRow(isValidatedByHuman: bool, confidenceScore: Option<real>)

  function ValidatedCount(docs: seq<DocumentRow>): (n: nat)
    ensures n <= |docs|
  {
    if docs == [] then 0
    else ValidatedCount(docs[..|docs| - 1]) + (if docs[|docs| - 1].isValidatedByHuman then 1 else 0)
  }

  /** `_avg.confidenceScore || 0`: the mean of the scores, 0 when no document has one. */
  function AvgConfidence(docs: seq<DocumentRow>): (avg: real)
    ensures ScoreCount(docs) > 0 ==> IsMeanOf(avg, ScoreCount(docs), ScoreSum(docs))
    ensures ScoreCount(docs) == 0 ==> avg == 0.0
  {
    MeanTimesCount(ScoreSum(docs), ScoreCount(docs));
    Mean(ScoreSum(docs), ScoreCount(docs))
  }

  function ScoreSum(docs: seq<DocumentRow>): real {
    if docs == [] then 0.0 else ScoreSum(docs[..|docs| - 1]) + docs[|docs| - 1].confidenceScore.GetOr(0.0)
  }

  function ScoreCount(docs: seq<DocumentRow>): nat {
    if docs == [] then 0 else ScoreCount(docs[..|docs| - 1]) + (if docs[|docs| - 1].confidenceScore.Some? then 1 else 0)
  }

  datatype Cards = Cards(totalSpend: real, totalInvoices: nat, documentsUploaded: nat, avgInvoiceValue: real,
                         avgConfidence: real, spendChange: real, invoiceChange: real)

  /** Invoices dated within month `mi` (`gte startOfMonth`, `lte endOfMonth`). */
  predicate InMonth(inv: Invoice, mi: int) {
    inv.invoiceDate.Some? && MonthStart(mi) <= inv.invoiceDate.value < MonthStart(mi + 1)
  }

  function MonthInvoices(invs: seq<Invoice>, mi: int): (r: seq<Invoice>)
    ensures forall k :: 0 <= k < |r| ==> r[k] in invs && InMonth(r[k], mi)
    ensures forall k :: 0 <= k < |invs| && InMonth(invs[k], mi) ==> invs[k] in r
  {
    if invs == [] then []
    else
      var rest := MonthInvoices(invs[..|invs| - 1], mi);
      assert invs == invs[..|invs| - 1] + [invs[|invs| - 1]];
      if InMonth(invs[|invs| - 1], mi) then rest + [invs[|invs| - 1]] else rest
  }

  /** `(current - base) / base * 100`, or 0 when the base is not positive. */
  function Change(current: real, base: real): real {
    if base > 0.0 then (current - base) / base * 100.0 else 0.0
  }

  /** A positive base gives the relative change in percent; any other base gives 0. */
  lemma ChangeMeaning(current: real, base: real)
    ensures base <= 0.0 ==> Change(current, base) == 0.0
    ensures base > 0.0 ==> Change(current, base) * base == (current - base) * 100.0
  {
  }

  /** `GET /stats`: the totals over all invoices against those of the previous month. The
      `documentsUploaded` card counts the human-validated documents. */
  function StatsCards(db: Db, docs: seq<DocumentRow>, now: int): (r: Cards)
    ensures r.totalSpend == Total(db.invoices) && r.totalInvoices == |db.invoices|
    ensures r.avgInvoiceValue == Mean(Total(db.invoices), |db.invoices|)
    ensures r.documentsUploaded == ValidatedCount(docs) && r.avgConfidence == AvgConfidence(docs)
    ensures var last := MonthInvoices(db.invoices, MonthOf(now) - 1);
      r.spendChange == Change(Total(db.invoices), Total(last)) &&
      r.invoiceChange == Change(|db.invoices| as real, |last| as real)
  {
    var totalSpend := SumOrZero(db.invoices);
    var count := |db.invoices|;
    var last := MonthInvoices(db.invoices, MonthOf(now) - 1);
    Cards(totalSpend, count, ValidatedCount(docs), Mean(totalSpend, count),
          AvgConfidence(docs), Change(totalSpend, SumOrZero(last)), Change(count as real, |last| as real))
  }

  /** `_sum.totalAmount || 0`. */
  function SumOrZero(invs: seq<Invoice>): (r: real)
    ensures r == Total(invs)
  {
    SumOrZeroIsTotal(invs);
    SumAmounts(invs).GetOr(0.0)
  }

  // ---- the monthly trend (lines 12-66) ----

  /** A trend row; `month` is the month the 'MMM' and 'yyyy-MM' labels are printed from. */
  datatype TrendRow = TrendRow(month: YearMonth, invoiceCount: nat, totalSpend: real)

  /** The row of month `mi`: its count and its spend with NULL read as 0. */
  function TrendOf(invs: seq<Invoice>, mi: int): (row: TrendRow)
    ensures row.invoiceCount == |MonthInvoices(invs, mi)| && row.totalSpend == Total(MonthInvoices(invs, mi))
    ensures row.month == YearMonthOf(mi)
  {
    var inMonth := MonthInvoices(invs, mi);
    SumOrZeroIsTotal(inMonth);
    TrendRow(YearMonthOf(mi), |inMonth|, SumAmounts(inMonth).GetOr(0.0))
  }

  const TrendPeriod: string := "12 months"

  /** `GET /invoice-trends` at the instant `now`: the rows of the twelve months ending with the
      current one, oldest first. */
  method InvoiceTrends(db: Db, now: int) returns (months: seq<TrendRow>, period: string)
    ensures |months| == 12 && period == "12 months"
    ensures forall k :: 0 <= k < 12 ==> months[k] == TrendOf(db.invoices, MonthOf(now) - 11 + k)
  {
    months := TrendLoop(db, MonthOf(now));
    period := TrendPeriod;
  }

  /** The loop from eleven months back to the current month `current`. */
  method TrendLoop(db: Db, current: int) returns (months: seq<TrendRow>)
    ensures |months| == 12
    ensures forall k :: 0 <= k < 12 ==> months[k] == TrendOf(db.invoices, current - 11 + k)
  {
    months := [];
    var i := 11;
    while i >= 0
      invariant -1 <= i <= 11
      invariant |months| == 11 - i
      invariant forall k :: 0 <= k < |months| ==> months[k] == TrendOf(db.invoices, current - 11 + k)
    {
      var row := TrendOf(db.invoices, current - i);
      months := months + [row];
      i := i - 1;
    }
  }

  /** The trend months are consecutive and oldest first, so no invoice is counted twice. */
  lemma TrendMonthsDisjoint(inv: Invoice, a: int, b: int)
    requires a < b && InMonth(inv, a)
    ensures !InMonth(inv, b)
  {
    if a + 1 < b {
      MonthStartMonotone(a + 1, b);
    }
  }
}
