/** `POST /chat-with-data` of apps/api/src/routes/chat.ts: it validates the question, forwards it
    to the remote SQL service when one is configured, and otherwise (or when the call fails)
    answers from its own keyword-matched queries, saving a history entry on the local path. */
module Chat {
  import opened Wrappers
  import opened Text
  import opened Numbers
  import opened JsonValues
  import opened Store
  import opened Calendar
  import opened FallbackQueries

  // ---- the local matcher ----

  datatype Intent = RecentSpend | TopVendors(limit: nat) | OverdueList | AverageValue | NotRecognized

  /** The keyword table in the order the local handler tries it. */
  const IntentTable: seq<seq<string>> := [["total spend", "90 days"], ["top", "vendor"], ["overdue"], ["average invoice"]]

  function MatchIntent(lower: string): Intent {
    if Contains(lower, "total spend") && Contains(lower, "90 days") then RecentSpend
    else if Contains(lower, "top") && Contains(lower, "vendor") then TopVendors(TopLimit(lower))
    else if Contains(lower, "overdue") then OverdueList
    else if Contains(lower, "average invoice") then AverageValue
    else NotRecognized
  }

  /** The position of an intent in the keyword table. */
  function Rank(i: Intent): nat {
    match i
    case RecentSpend => 0
    case TopVendors(_) => 1
    case OverdueList => 2
    case AverageValue => 3
    case NotRecognized => 4
  }

  /** The matcher picks the first table entry whose words all occur in the question, and
      nothing exactly when no entry matches; "total spend" alone (without "90 days") is not
      a spend question here. */
  lemma MatchIntentIsFirstMatch(lower: string)
    ensures var i := MatchIntent(lower);
      (i.NotRecognized? <==> FirstMatch(lower, IntentTable).None?) &&
      (!i.NotRecognized? ==> FirstMatch(lower, IntentTable) == Some(Rank(i)))
  {
    var t := IntentTable;
    assert AllOccur(lower, t[0]) <==> Contains(lower, "total spend") && Contains(lower, "90 days") by {
      assert t[0][0] == "total spend" && t[0][1] == "90 days";
    }
    assert AllOccur(lower, t[1]) <==> Contains(lower, "top") && Contains(lower, "vendor") by {
      assert t[1][0] == "top" && t[1][1] == "vendor";
    }
    assert AllOccur(lower, t[2]) <==> Contains(lower, "overdue") by {
      assert t[2][0] == "overdue";
    }
    assert AllOccur(lower, t[3]) <==> Contains(lower, "average invoice") by {
      assert t[3][0] == "average invoice";
    }
    var r := FirstMatch(lower, t);
    if r.Some? {
      assert r.value < 4;
    }
  }

  // ---- the local queries ----

  /** What the local handler returns: a canned answer, the "not recognized" reply, or the
      reply to a store that threw. */
  datatype LocalAnswer =
    | Answered(sql: string, rows: seq<Row>, answer: string)
    | Unrecognized
    | StoreFailed(message: string)

  const RecentSql: string :=
    "SELECT SUM(total_amount) as total_spend, COUNT(*) as invoice_count\nFROM Invoice\n" +
    "WHERE invoice_date >= NOW() - INTERVAL '90 days';"
  const TopSqlHead: string :=
    "SELECT v.name as vendor_name, SUM(i.total_amount) as total_spend, COUNT(i.id) as invoice_count\n" +
    "FROM Invoice i\nJOIN Vendor v ON i.vendor_id = v.id\nGROUP BY v.id, v.name\nORDER BY total_spend DESC\nLIMIT "
  const OverdueSql: string :=
    "SELECT i.invoice_ref, v.name as vendor_name, i.total_amount as amount,\n       i.payment_due_date as due_date,\n" +
    "       EXTRACT(DAY FROM (NOW() - i.payment_due_date)) as days_overdue\nFROM Invoice i\n" +
    "JOIN Vendor v ON i.vendor_id = v.id\nWHERE i.payment_due_date < NOW()\n  AND i.payment_status != 'paid'\n" +
    "ORDER BY i.payment_due_date ASC\nLIMIT 20;"
  const AverageSql: string :=
    "SELECT AVG(total_amount) as avg_invoice_value, COUNT(*) as total_invoices\nFROM Invoice;"

  const RecentAnswerHead: string := "The total spend in the last 90 days is €"
  const TopAnswerHead: string := "Here are the top "
  const TopAnswerTail: string := " vendors by spend."
  const OverdueAnswerHead: string := "Found "
  const OverdueAnswerTail: string := " overdue invoices."
  const AverageAnswerHead: string := "The average invoice value is €"
  const AcrossText: string := " across "
  const InvoicesTail: string := " invoices."
  const NotRecognizedText: string := "Query not recognized"
  const NotRecognizedAnswer: string :=
    "I couldn't understand your question. Try asking about:\n• Total spend in the last 90 days\n" +
    "• Top 5 vendors by spend\n• Overdue invoices\n• Average invoice value"
  const StoreErrorAnswer: string := "An error occurred while processing your query."

  /** `invoiceDate: { gte: since }`: a NULL date is not in the window. */
  predicate InWindow(inv: Invoice, since: int) {
    inv.invoiceDate.Some? && inv.invoiceDate.value >= since
  }

  function Since(invs: seq<Invoice>, since: int): (r: seq<Invoice>)
    ensures forall k :: 0 <= k < |r| ==> r[k] in invs && InWindow(r[k], since)
    ensures forall k :: 0 <= k < |invs| && InWindow(invs[k], since) ==> invs[k] in r
  {
    Filter(invs, (inv: Invoice) => InWindow(inv, since))
  }

  /** Ninety days before `now`, as `setDate(getDate() - 90)` moves a UTC clock. */
  function NinetyDaysAgo(now: int): int {
    now - 90 * DayMs
  }

  /** The 90-day total: one row with the summed amounts (NULL read as 0) and the number of
      invoices dated within the last 90 days, and no other invoice. */
  function RecentSpendAnswer(db: Db, now: int): (a: LocalAnswer)
    ensures var window := Since(db.invoices, NinetyDaysAgo(now));
      a.Answered? && a.sql == RecentSql && a.rows == [SpendTotalRow(Total(window), |window|)]
  {
    var row := SpendTotal(Since(db.invoices, NinetyDaysAgo(now)));
    Answered(RecentSql, [row],
             RecentAnswerHead + DeAmount(row.totalSpend) + AcrossText + NatToString(row.invoiceCount) + InvoicesTail)
  }

  function TopSql(limit: nat): string {
    TopSqlHead + NatToString(limit) + ";"
  }

  /** The top-vendor answer: at most `limit` rows, ranked by spend. */
  function TopVendorsAnswer(db: Db, limit: nat): (a: LocalAnswer)
    ensures a.Answered? && a.rows == TopVendorRows(db, limit) && |a.rows| <= limit
  {
    Answered(TopSql(limit), TopVendorRows(db, limit), TopAnswerHead + NatToString(limit) + TopAnswerTail)
  }

  /** The SQL of a top-vendor answer ends in `LIMIT <limit>;`, from which `parseInt` reads the
      limit back, and the answer text names the limit. */
  lemma TopVendorsAnswerLimit(db: Db, limit: nat)
    ensures var a := TopVendorsAnswer(db, limit);
      |TopSqlHead| < |a.sql| && ParseInt(a.sql[|TopSqlHead|..|a.sql| - 1]) == Some(limit) &&
      Contains(a.answer, NatToString(limit))
  {
    ReadBack(TopSqlHead, limit, ";");
    ReadBack(TopAnswerHead, limit, TopAnswerTail);
  }

  /** The overdue answer: the first 20 unpaid invoices due before `now`, earliest first, each
      with its whole days overdue. */
  function OverdueAnswer(db: Db, now: int): (a: LocalAnswer)
    ensures a.Answered? && |a.rows| <= 20
    ensures SelectedOverdueRows(db, now, 20, true, a.rows)
    ensures RowsOfOverdue(db, now, true, a.rows)
    ensures forall i :: 0 <= i < |a.rows| && a.rows[i].OverdueRow? ==>
      a.rows[i].daysOverdue == Some(DaysOverdue(now, a.rows[i].dueDate))
    ensures EarliestDueFirst(a.rows)
    ensures OverdueSkippedOnlyWhenFull(db, now, 20, true, a.rows)
  {
    var rows := OverdueRows(db, now, 20, true);
    Answered(OverdueSql, rows, OverdueAnswerHead + NatToString(|rows|) + OverdueAnswerTail)
  }

  /** The count in the overdue answer text, read back with `parseInt`, is the number of rows. */
  lemma OverdueAnswerCount(db: Db, now: int)
    ensures var a := OverdueAnswer(db, now);
      |OverdueAnswerHead| + |OverdueAnswerTail| <= |a.answer| &&
      ParseInt(a.answer[|OverdueAnswerHead|..|a.answer| - |OverdueAnswerTail|]) == Some(|a.rows|)
  {
    var a := OverdueAnswer(db, now);
    ReadBack(OverdueAnswerHead, |a.rows|, OverdueAnswerTail);
  }

  /** The average answer: one row with the mean amount (0 without amounts) over all invoices. */
  function AverageAnswer(db: Db): (a: LocalAnswer)
    ensures a.Answered? && a.sql == AverageSql && |a.rows| == 1 && a.rows[0] == AverageInvoice(db.invoices)
  {
    var row := AverageInvoice(db.invoices);
    Answered(AverageSql, [row],
             AverageAnswerHead + DeAmount(row.avgInvoiceValue) + AcrossText + NatToString(row.totalInvoices) + InvoicesTail)
  }

  function Execute(intent: Intent, db: Db, now: int): (a: LocalAnswer)
    requires !intent.NotRecognized?
    ensures a.Answered?
  {
    match intent
    case RecentSpend => RecentSpendAnswer(db, now)
    case TopVendors(n) => TopVendorsAnswer(db, n)
    case OverdueList => OverdueAnswer(db, now)
    case AverageValue => AverageAnswer(db)
  }

  /** `handleQueryFallback(query)`: an unmatched question gets "not recognized" without any
      store access; a matched one gets its canned answer, or the store's error message. */
  function Fallback(query: string, src: Source, now: int): (a: LocalAnswer)
    ensures a.Unrecognized? <==> MatchIntent(Lower(query)).NotRecognized?
    ensures a.StoreFailed? <==> !MatchIntent(Lower(query)).NotRecognized? && src.Unreachable?
    ensures a.StoreFailed? ==> a.message == src.message
    ensures a.Answered? ==> a == Execute(MatchIntent(Lower(query)), src.db, now)
  {
    var intent := MatchIntent(Lower(query));
    if intent.NotRecognized? then Unrecognized
    else if src.Unreachable? then StoreFailed(src.message)
    else Execute(intent, src.db, now)
  }

  /** The object the local handler returns, as it is sent. */
  function Body(a: LocalAnswer): (j: Json)
    ensures Get(j, "success") == Bool(a.Answered?)
    ensures a.Answered? ==>
      Get(j, "sql") == Str(a.sql) && Get(j, "results") == RowsJson(a.rows) &&
      Get(j, "answer") == Str(a.answer) && Get(j, "error") == Undefined
    ensures !a.Answered? ==> Get(j, "sql") == Undefined && Get(j, "results") == Undefined
    ensures a.Unrecognized? ==>
      Get(j, "error") == Str(NotRecognizedText) && Get(j, "answer") == Str(NotRecognizedAnswer)
    ensures a.StoreFailed? ==>
      Get(j, "error") == Str(a.message) && Get(j, "answer") == Str(StoreErrorAnswer)
  {
    match a
    case Answered(sql, rows, answer) => AnsweredBody(sql, rows, answer)
    case Unrecognized => FailureBody(Str(NotRecognizedText), NotRecognizedAnswer)
    case StoreFailed(message) => FailureBody(Str(message), StoreErrorAnswer)
  }

  function AnsweredBody(sql: string, rows: seq<Row>, answer: string): (j: Json)
    ensures Get(j, "success") == Bool(true) && Get(j, "sql") == Str(sql) && Get(j, "results") == RowsJson(rows)
    ensures Get(j, "answer") == Str(answer) && Get(j, "error") == Undefined
  {
    var j := Obj([("success", Bool(true)), ("sql", Str(sql)), ("results", RowsJson(rows)), ("answer", Str(answer))]);
    GetAt(j, 0); GetAt(j, 1); GetAt(j, 2); GetAt(j, 3);
    j
  }

  function FailureBody(error: Json, answer: string): (j: Json)
    ensures Get(j, "success") == Bool(false) && Get(j, "error") == error && Get(j, "answer") == Str(answer)
    ensures Get(j, "sql") == Undefined && Get(j, "results") == Undefined
  {
    var j := Obj([("success", Bool(false)), ("error", error), ("answer", Str(answer))]);
    GetAt(j, 0); GetAt(j, 1); GetAt(j, 2);
    assert "results"[0] != "success"[0];
    j
  }

  /** An unrecognised question and a failing store are told apart: whatever the store's
      message, the two bodies differ in their answer text. */
  lemma UnrecognizedIsNotStoreError(message: string)
    ensures Get(Body(Unrecognized), "answer") != Get(Body(StoreFailed(message)), "answer")
  {
    assert NotRecognizedAnswer[|NotRecognizedAnswer| - 1] != StoreErrorAnswer[|StoreErrorAnswer| - 1];
  }

  // ---- the answer text of a remote result ----

  const NoResultsAnswer: string := "No results found for your query."
  const FoundHead: string := "I found "
  const ForQueryTail: string := " result(s) for your query."
  const ListHead: string := "Here are the top "
  const ListTail: string := " results for your query."
  const MatchingTail: string := " result(s) matching your query."

  /** `generateAnswer(query, results)`: "No results" exactly for absent or empty results, and
      otherwise a sentence naming `results.length`, worded by the first of 'total'/'sum' and
      'top'/'list' that occurs. */
  function GenerateAnswer(query: string, results: Json): (a: string)
    ensures a == NoResultsAnswer <==> !Truthy(results) || LengthProp(results) == Num(0.0)
    ensures Truthy(results) && LengthProp(results) != Num(0.0) &&
            (Contains(Lower(query), "total") || Contains(Lower(query), "sum")) ==>
      a == FoundHead + TemplateText(LengthProp(results)) + ForQueryTail
  {
    if !Truthy(results) || LengthProp(results) == Num(0.0) then NoResultsAnswer
    else
      var lower := Lower(query);
      var n := TemplateText(LengthProp(results));
      var a := if Contains(lower, "total") || Contains(lower, "sum") then FoundHead + n + ForQueryTail
               else if Contains(lower, "top") || Contains(lower, "list") then ListHead + n + ListTail
               else FoundHead + n + MatchingTail;
      assert a[0] != NoResultsAnswer[0];
      a
  }

  /** For a non-empty array of results the answer names its length. */
  lemma GenerateAnswerCount(query: string, results: Json)
    requires results.Arr? && |results.items| > 0
    ensures Contains(GenerateAnswer(query, results), NatToString(|results.items|))
  {
    var n := |results.items|;
    var d := NatToString(n);
    assert TemplateText(LengthProp(results)) == d by { NumberTextOfInt(n); }
    assert Truthy(results) && LengthProp(results) != Num(0.0);
    var lower := Lower(query);
    var a := GenerateAnswer(query, results);
    if Contains(lower, "total") || Contains(lower, "sum") {
      assert a == FoundHead + d + ForQueryTail;
      ReadBack(FoundHead, n, ForQueryTail);
    } else if Contains(lower, "top") || Contains(lower, "list") {
      assert a == ListHead + d + ListTail;
      ReadBack(ListHead, n, ListTail);
    } else {
      assert a == FoundHead + d + MatchingTail;
      ReadBack(FoundHead, n, MatchingTail);
    }
  }

  // ---- the route ----

  /** One saved question: `userId || null`, the question, the answer's `sql`, its
      `results || []` and its `error || null`. */
  datatype HistoryEntry = HistoryEntry(userId: Json, query: string, sql: Json, results: Json, error: Json)

  function EntryFor(userId: Json, query: string, body: Json): HistoryEntry {
    HistoryEntry(Or(userId, Null), query, Get(body, "sql"), Or(Get(body, "results"), Arr([])), Or(Get(body, "error"), Null))
  }

  /** A saved canned answer keeps its SQL and rows and no error; a saved "not recognized"
      keeps no SQL, no rows and its error text. */
  lemma EntryForAnswer(userId: Json, query: string, a: LocalAnswer)
    ensures var e := EntryFor(userId, query, Body(a));
      e.query == query && !Nullish(e.results) &&
      (a.Answered? ==> e.sql == Str(a.sql) && e.results == RowsJson(a.rows) && e.error == Null) &&
      (a.Unrecognized? ==> e.sql == Undefined && e.results == Arr([]) && e.error == Str(NotRecognizedText))
  {
    if a.Unrecognized? {
      assert NotRecognizedText[0] == 'Q';
    }
  }

  /** The `chatHistory` table; writing to it fails while it is unavailable. */
  class ChatHistory {
    var entries: seq<HistoryEntry>
    var available: bool

    constructor(available: bool)
      ensures entries == [] && this.available == available
    {
      entries := [];
      this.available := available;
    }

    /** `chatHistory.create`: appends the entry, or fails and changes nothing. */
    method Create(entry: HistoryEntry) returns (ok: bool)
      modifies this
      ensures ok == old(available) && available == old(available)
      ensures entries == if ok then old(entries) + [entry] else old(entries)
    {
      ok := available;
      if ok {
        entries := entries + [entry];
      }
    }
  }

  /** The remote service: not configured, answered with a body, or failed. */
  datatype Outcome = Unconfigured | Responded(data: Json) | CallFailed

  /** `!query || typeof query !== 'string'` rejects the request. */
  predicate ValidQuery(query: Json) {
    query.Str? && query.s != ""
  }

  const InvalidText: string := "Invalid request"
  const InvalidMessage: string := "Query parameter is required and must be a string"
  const SqlErrorAnswer: string := "I encountered an error generating SQL for your question."

  const InvalidRequest: Reply :=
    Reply(400, Obj([("success", Bool(false)), ("error", Str(InvalidText)), ("message", Str(InvalidMessage))]))

  /** Lines 68-83: a truthy remote `error` is passed on with a fixed answer; otherwise the
      remote SQL and results (`[]` when falsy) are passed on with a generated answer. */
  function RemoteAnswer(query: string, data: Json): (r: Reply)
    ensures r.status == 200
    ensures Get(r.body, "success") == Bool(!Truthy(Get(data, "error")))
    ensures Truthy(Get(data, "error")) ==>
      Get(r.body, "error") == Get(data, "error") && Get(r.body, "answer") == Str(SqlErrorAnswer)
    ensures !Truthy(Get(data, "error")) ==>
      Get(r.body, "sql") == Get(data, "sql") && Get(r.body, "results") == Or(Get(data, "results"), Arr([])) &&
      Truthy(Get(r.body, "results")) && Get(r.body, "answer") == Str(GenerateAnswer(query, Get(data, "results")))
  {
    var error := Get(data, "error");
    if Truthy(error) then Reply(200, FailureBody(error, SqlErrorAnswer))
    else
      var results := Get(data, "results");
      Reply(200, ResultsBody(Get(data, "sql"), Or(results, Arr([])), GenerateAnswer(query, results)))
  }

  /** A passed-on remote body: the remote SQL and results with a generated answer. */
  function ResultsBody(sql: Json, results: Json, answer: string): (j: Json)
    ensures Get(j, "success") == Bool(true) && Get(j, "sql") == sql && Get(j, "results") == results
    ensures Get(j, "answer") == Str(answer)
  {
    var j := Obj([("success", Bool(true)), ("sql", sql), ("results", results), ("answer", Str(answer))]);
    GetAt(j, 0); GetAt(j, 1); GetAt(j, 2); GetAt(j, 3);
    j
  }

  /** The route. An invalid question is refused before anything else. Without a configured
      service the local answer is sent and one history write is attempted, whose failure
      changes nothing in the reply. A remote body is passed on; a failed call, or a body that
      cannot be destructured (`null`/`undefined`), gets the local answer instead. */
  method HandleChat(query: Json, userId: Json, remote: Outcome, src: Source, now: int, history: ChatHistory)
    returns (r: Reply)
    modifies history
    ensures history.available == old(history.available)
    ensures !ValidQuery(query) ==> r == InvalidRequest && history.entries == old(history.entries)
    ensures ValidQuery(query) && remote.Unconfigured? ==>
      var body := Body(Fallback(query.s, src, now));
      r == Reply(200, body) &&
      history.entries == old(history.entries) + (if old(history.available) then [EntryFor(userId, query.s, body)] else [])
    ensures ValidQuery(query) && remote.Responded? && !Nullish(remote.data) ==>
      r == RemoteAnswer(query.s, remote.data) && history.entries == old(history.entries)
    ensures ValidQuery(query) && (remote.CallFailed? || (remote.Responded? && Nullish(remote.data))) ==>
      r == Reply(200, Body(Fallback(query.s, src, now))) && history.entries == old(history.entries)
  {
    if !ValidQuery(query) {
      return InvalidRequest;
    }
    if remote.Unconfigured? {
      var body := Body(Fallback(query.s, src, now));
      var saved := history.Create(EntryFor(userId, query.s, body));
      return Reply(200, body);
    }
    if remote.Responded? && !Nullish(remote.data) {
      return RemoteAnswer(query.s, remote.data);
    }
    return Reply(200, Body(Fallback(query.s, src, now)));
  }
}
