/** The invoice database as the API routes read it, and the ORM queries they run, as pure
    functions of the stored rows. Rows are in their stored order; an SQL aggregate over
    `total_amount` ignores NULLs and is NULL when no value is left. */
module Store {
  import opened Wrappers
  import opened Numbers
  import opened Sorting

  datatype Invoice = Invoice(
    id: nat,
    invoiceRef: Option<string>,
    invoiceDate: Option<int>,
    dueDate: Option<int>,
    totalAmount: Option<real>,
    subTotal: Option<real>,
    totalTax: Option<real>,
    currency: Option<string>,
    status: Option<string>,
    paymentTerms: Option<string>,
    vendorId: Option<nat>,
    customerId: Option<nat>)

  datatype Vendor = Vendor(id: nat, name: Option<string>, taxId: Option<string>)

  datatype Customer = Customer(id: nat, name: Option<string>)

  datatype Db = Db(invoices: seq<Invoice>, vendors: seq<Vendor>, customers: seq<Customer>)

  /** The elements that satisfy `p`, in order (`WHERE`, `Array.prototype.filter`). */
  function Filter<T>(s: seq<T>, p: T -> bool): (r: seq<T>)
    ensures |r| <= |s|
    ensures forall k :: 0 <= k < |r| ==> r[k] in s && p(r[k])
    ensures forall k :: 0 <= k < |s| && p(s[k]) ==> s[k] in r
    ensures multiset(r) <= multiset(s)
  {
    if s == [] then []
    else
      var rest := Filter(s[..|s| - 1], p);
      assert s == s[..|s| - 1] + [s[|s| - 1]];
      if p(s[|s| - 1]) then rest + [s[|s| - 1]] else rest
  }

  lemma FilterAppend<T>(s: seq<T>, x: T, p: T -> bool)
    ensures Filter(s + [x], p) == if p(x) then Filter(s, p) + [x] else Filter(s, p)
  {
    assert (s + [x])[..|s|] == s;
  }

  /** The vendor row with this id (ids are unique), if any. */
  function VendorById(vendors: seq<Vendor>, id: Option<nat>): (r: Option<Vendor>)
    ensures r.Some? ==> id.Some? && r.value in vendors && r.value.id == id.value
    ensures r.None? ==> id.None? || forall v :: v in vendors ==> v.id != id.value
  {
    if id.None? || vendors == [] then None
    else if vendors[0].id == id.value then Some(vendors[0])
    else VendorById(vendors[1..], id)
  }

  /** `SUM(total_amount)`: `None` (NULL) when no invoice has an amount. */
  function SumAmounts(invs: seq<Invoice>): (r: Option<real>)
    ensures r.None? <==> forall k :: 0 <= k < |invs| ==> invs[k].totalAmount.None?
  {
    if invs == [] then None
    else
      var last := invs[|invs| - 1].totalAmount;
      var rest := SumAmounts(invs[..|invs| - 1]);
      if last.None? then rest
      else Some(rest.GetOr(0.0) + last.value)
  }

  /** The sum of the amounts with a missing amount read as 0. */
  function Total(invs: seq<Invoice>): real {
    if invs == [] then 0.0 else Total(invs[..|invs| - 1]) + invs[|invs| - 1].totalAmount.GetOr(0.0)
  }

  /** `_sum.totalAmount || 0` is the sum with NULL amounts read as 0. */
  lemma {:induction false} SumOrZeroIsTotal(invs: seq<Invoice>)
    ensures SumAmounts(invs).GetOr(0.0) == Total(invs)
  {
    if invs != [] {
      SumOrZeroIsTotal(invs[..|invs| - 1]);
    }
  }

  /** The number of invoices that have an amount. */
  function AmountCount(invs: seq<Invoice>): (n: nat)
    ensures n <= |invs|
    ensures n == 0 <==> SumAmounts(invs).None?
  {
    if invs == [] then 0
    else AmountCount(invs[..|invs| - 1]) + (if invs[|invs| - 1].totalAmount.Some? then 1 else 0)
  }

  /** `AVG(total_amount)`: NULL when no invoice has an amount. */
  function AvgAmount(invs: seq<Invoice>): (r: Option<real>)
    ensures r.None? <==> SumAmounts(invs).None?
    ensures r.Some? ==> IsMeanOf(r.value, AmountCount(invs), SumAmounts(invs).value)
  {
    match SumAmounts(invs)
    case None => None
    case Some(total) => Some(total / AmountCount(invs) as real)
  }

  /** One group of `groupBy({ by: ['vendorId'] })` with its aggregates. */
  datatype Group = Group(vendorId: Option<nat>, sum: Option<real>, count: nat, avg: Option<real>)

  /** A prefix one element longer. */
  lemma TakeOneMore<T>(s: seq<T>, i: nat)
    requires i < |s|
    ensures s[..i + 1] == s[..i] + [s[i]]
  {
  }

  /** The distinct elements in first-appearance order. */
  function Distinct<T(==)>(s: seq<T>): (r: seq<T>)
    ensures forall k :: 0 <= k < |r| ==> r[k] in s
    ensures forall k :: 0 <= k < |s| ==> s[k] in r
    ensures forall i, j :: 0 <= i < j < |r| ==> r[i] != r[j]
  {
    if s == [] then []
    else
      var d := Distinct(s[..|s| - 1]);
      assert s == s[..|s| - 1] + [s[|s| - 1]];
      if s[|s| - 1] in d then d else d + [s[|s| - 1]]
  }

  function VendorIds(invs: seq<Invoice>): (r: seq<Option<nat>>)
    ensures |r| == |invs|
    ensures forall k :: 0 <= k < |invs| ==> r[k] == invs[k].vendorId
  {
    if invs == [] then [] else VendorIds(invs[..|invs| - 1]) + [invs[|invs| - 1].vendorId]
  }

  /** The invoices of one vendor (NULL is a group of its own). */
  function OfVendor(invs: seq<Invoice>, vid: Option<nat>): (r: seq<Invoice>)
    ensures |r| <= |invs|
    ensures forall k :: 0 <= k < |r| ==> r[k] in invs && r[k].vendorId == vid
    ensures forall k :: 0 <= k < |invs| && invs[k].vendorId == vid ==> invs[k] in r
  {
    if invs == [] then []
    else
      var rest := OfVendor(invs[..|invs| - 1], vid);
      assert invs == invs[..|invs| - 1] + [invs[|invs| - 1]];
      if invs[|invs| - 1].vendorId == vid then rest + [invs[|invs| - 1]] else rest
  }

  function GroupOf(invs: seq<Invoice>, vid: Option<nat>): Group {
    var members := OfVendor(invs, vid);
    Group(vid, SumAmounts(members), |members|, AvgAmount(members))
  }

  /** One group per distinct vendor id, in first-appearance order. */
  function GroupByVendor(invs: seq<Invoice>): seq<Group> {
    GroupsOf(invs, Distinct(VendorIds(invs)))
  }

  /** Every invoice's vendor id has its group. */
  lemma GroupByVendorCovers(invs: seq<Invoice>)
    ensures var gs := GroupByVendor(invs);
      forall k :: 0 <= k < |invs| ==> exists i :: 0 <= i < |gs| && gs[i].vendorId == invs[k].vendorId
  {
    var ids := Distinct(VendorIds(invs));
    var gs := GroupsOf(invs, ids);
    assert gs == GroupByVendor(invs);
    GroupsCover(invs, ids);
    forall k | 0 <= k < |invs| ensures exists i :: 0 <= i < |gs| && gs[i].vendorId == invs[k].vendorId {
      var x := invs[k].vendorId;
      assert x in ids;
      var i :| 0 <= i < |ids| && ids[i] == x;
      assert gs[i].vendorId == ids[i];
    }
  }

  /** No vendor id has two groups. */
  lemma GroupByVendorDistinct(invs: seq<Invoice>)
    ensures var gs := GroupByVendor(invs);
      forall i, j :: 0 <= i < j < |gs| ==> gs[i].vendorId != gs[j].vendorId
  {
    var gs := GroupsOf(invs, Distinct(VendorIds(invs)));
    assert forall i, j :: 0 <= i < j < |gs| ==> gs[i].vendorId != gs[j].vendorId;
  }

  /** Each group holds the aggregates of its vendor's invoices, of which there is at least one. */
  lemma GroupByVendorAggregates(invs: seq<Invoice>)
    ensures var gs := GroupByVendor(invs);
      forall i :: 0 <= i < |gs| ==> gs[i] == GroupOf(invs, gs[i].vendorId) && gs[i].count > 0
  {
    var ids := Distinct(VendorIds(invs));
    GroupsNonEmpty(invs, ids);
  }

  function GroupsOf(invs: seq<Invoice>, ids: seq<Option<nat>>): (gs: seq<Group>)
    ensures |gs| == |ids|
    ensures forall i :: 0 <= i < |ids| ==> gs[i] == GroupOf(invs, ids[i]) && gs[i].vendorId == ids[i]
  {
    if ids == [] then [] else [GroupOf(invs, ids[0])] + GroupsOf(invs, ids[1..])
  }

  lemma GroupsCover(invs: seq<Invoice>, ids: seq<Option<nat>>)
    requires forall k :: 0 <= k < |invs| ==> VendorIds(invs)[k] in ids
    ensures forall k :: 0 <= k < |invs| ==> invs[k].vendorId in ids
  {
    forall k | 0 <= k < |invs| ensures invs[k].vendorId in ids {
      assert VendorIds(invs)[k] == invs[k].vendorId;
    }
  }

  lemma GroupsNonEmpty(invs: seq<Invoice>, ids: seq<Option<nat>>)
    requires forall i :: 0 <= i < |ids| ==> ids[i] in VendorIds(invs)
    ensures forall i :: 0 <= i < |ids| ==> |OfVendor(invs, ids[i])| > 0
  {
    forall i | 0 <= i < |ids| ensures |OfVendor(invs, ids[i])| > 0 {
      var k :| 0 <= k < |invs| && VendorIds(invs)[k] == ids[i];
      assert invs[k].vendorId == ids[i];
    }
  }

  /** `orderBy: { _sum: { totalAmount: 'desc' } }`: Postgres sorts a NULL sum first. */
  function SpendKey(g: Group): Key {
    if g.sum.None? then Top else Val(g.sum.value)
  }

  /** The vendor groups by summed spend, highest first; ties keep first-appearance order. */
  function RankedGroups(invs: seq<Invoice>): (gs: seq<Group>)
    ensures SortedDesc(gs, SpendKey)
    ensures multiset(gs) == multiset(GroupByVendor(invs))
  {
    SortDesc(GroupByVendor(invs), SpendKey)
  }

  /** `paymentStatus: { not: 'paid' }`: SQL `<> 'paid'`, which a NULL status does not satisfy. */
  predicate NotPaid(inv: Invoice) {
    inv.status.Some? && inv.status.value != "paid"
  }

  /** `paymentDueDate: { lt: now }` and not paid. */
  predicate Overdue(inv: Invoice, now: int) {
    inv.dueDate.Some? && inv.dueDate.value < now && NotPaid(inv)
  }

  /** `orderBy: { paymentDueDate: 'asc' }`: the negated due date, descending. */
  function DueKey(inv: Invoice): Key {
    if inv.dueDate.Some? then Val(-(inv.dueDate.value as real)) else Bottom
  }

  /** Every overdue invoice of the store, in stored order (the `where` of the query). */
  function OverdueOf(invs: seq<Invoice>, now: int): (due: seq<Invoice>)
    ensures forall k :: 0 <= k < |due| ==> due[k] in invs && Overdue(due[k], now)
    ensures forall k :: 0 <= k < |invs| && Overdue(invs[k], now) ==> invs[k] in due
    ensures multiset(due) <= multiset(invs)
  {
    Filter(invs, (inv: Invoice) => Overdue(inv, now))
  }

  /** Overdue invoices, earliest due date first, at most `n`: the rows are taken from the
      overdue ones without repeating any, and an overdue invoice is left out only when `n`
      rows were returned, each due no later than it. */
  function OverdueInvoices(invs: seq<Invoice>, now: int, n: nat): (r: seq<Invoice>)
    ensures |r| <= n
    ensures multiset(r) <= multiset(OverdueOf(invs, now))
    ensures forall k :: 0 <= k < |r| ==> r[k] in invs && Overdue(r[k], now)
    ensures forall i, j :: 0 <= i < j < |r| ==>
      r[i].dueDate.Some? && r[j].dueDate.Some? && r[i].dueDate.value <= r[j].dueDate.value
    ensures forall x :: x in invs && Overdue(x, now) && x !in r ==>
      |r| == n && forall k :: 0 <= k < |r| ==> r[k].dueDate.value <= x.dueDate.value
  {
    var due := OverdueOf(invs, now);
    var r := Take(SortDesc(due, DueKey), n);
    OverdueTake(invs, due, now, n, r);
    OverdueTakeOrdered(due, now, n, r);
    OverdueTakeSub(due, n, r);
    forall x | x in invs && Overdue(x, now) && x !in r
      ensures |r| == n && forall k :: 0 <= k < |r| ==> r[k].dueDate.value <= x.dueDate.value
    {
      OverdueTakeEarliest(invs, due, now, n, r, x);
    }
    r
  }

  /** The first `n` of the sorted list are some of its elements. */
  lemma OverdueTakeSub(due: seq<Invoice>, n: nat, r: seq<Invoice>)
    requires r == Take(SortDesc(due, DueKey), n)
    ensures multiset(r) <= multiset(due)
  {
    var sorted := SortDesc(due, DueKey);
    assert sorted == r + sorted[|r|..];
    assert multiset(sorted) == multiset(r) + multiset(sorted[|r|..]);
  }

  /** An overdue invoice the first `n` leave out is due no earlier than any of them. */
  lemma OverdueTakeEarliest(invs: seq<Invoice>, due: seq<Invoice>, now: int, n: nat, r: seq<Invoice>, x: Invoice)
    requires due == OverdueOf(invs, now) && r == Take(SortDesc(due, DueKey), n)
    requires forall k :: 0 <= k < |r| ==> Overdue(r[k], now)
    requires x in invs && Overdue(x, now) && x !in r
    ensures |r| == n && forall k :: 0 <= k < |r| ==> r[k].dueDate.value <= x.dueDate.value
  {
    var sorted := SortDesc(due, DueKey);
    var i :| 0 <= i < |invs| && invs[i] == x;
    assert x in due;
    assert x in multiset(sorted);
    TakeKeepsLargest(sorted, n, DueKey, x);
    forall k | 0 <= k < |r| ensures r[k].dueDate.value <= x.dueDate.value {
      assert KeyLe(DueKey(x), DueKey(r[k]));
    }
  }

  /** With no more than `n` overdue invoices, all of them are returned. */
  lemma OverdueAllWhenFew(invs: seq<Invoice>, now: int, n: nat)
    requires |OverdueOf(invs, now)| <= n
    ensures multiset(OverdueInvoices(invs, now, n)) == multiset(OverdueOf(invs, now))
  {
    var due := OverdueOf(invs, now);
    assert SortDesc(due, DueKey) == OverdueInvoices(invs, now, n);
  }

  /** The first `n` of a list of overdue invoices from the store, sorted by `DueKey`, come
      from the store. */
  lemma OverdueTake(invs: seq<Invoice>, due: seq<Invoice>, now: int, n: nat, r: seq<Invoice>)
    requires forall k :: 0 <= k < |due| ==> due[k] in invs && Overdue(due[k], now)
    requires r == Take(SortDesc(due, DueKey), n)
    ensures forall k :: 0 <= k < |r| ==> r[k] in invs && Overdue(r[k], now)
  {
    var sorted := SortDesc(due, DueKey);
    forall k | 0 <= k < |r| ensures r[k] in invs && Overdue(r[k], now) {
      assert r[k] == sorted[k];
      assert sorted[k] in multiset(due);
      var idx :| 0 <= idx < |due| && due[idx] == r[k];
    }
  }

  /** ... and are in ascending due-date order. */
  lemma OverdueTakeOrdered(due: seq<Invoice>, now: int, n: nat, r: seq<Invoice>)
    requires r == Take(SortDesc(due, DueKey), n)
    requires forall k :: 0 <= k < |r| ==> Overdue(r[k], now)
    ensures forall i, j :: 0 <= i < j < |r| ==>
        r[i].dueDate.Some? && r[j].dueDate.Some? && r[i].dueDate.value <= r[j].dueDate.value
  {
    var sorted := SortDesc(due, DueKey);
    forall i, j | 0 <= i < j < |r|
      ensures r[i].dueDate.Some? && r[j].dueDate.Some? && r[i].dueDate.value <= r[j].dueDate.value
    {
      assert r[i] == sorted[i] && r[j] == sorted[j];
      assert KeyLe(DueKey(r[j]), DueKey(r[i]));
    }
  }
}
