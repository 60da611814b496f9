/** `POST /` of the compiled chat-with-data router (apps/api/dist/routes/chatWithData.js): it checks
    the question, asks the remote SQL service when one is configured, and on any bad outcome
    answers from a keyword-matched canned query; the remote call and the store are inputs. */
module ChatWithData {
  import opened Wrappers
  import opened Text
  import opened Numbers
  import opened JsonValues
  import opened Store
  import opened FallbackQueries

  // ---- the fallback matcher and its queries ----

  datatype Intent = TopVendors(limit: nat) | TotalSpend | OverdueList | NoIntent

  /** The keyword table in the order the fallback tries it. */
  const IntentTable: seq<seq<string>> := [["top", "vendor"], ["total", "spend"], ["overdue"]]

  function MatchIntent(lower: string): Intent {
    if Contains(lower, "top") && Contains(lower, "vendor") then TopVendors(TopLimit(lower))
    else if Contains(lower, "total") && Contains(lower, "spend") then TotalSpend
    else if Contains(lower, "overdue") then OverdueList
    else NoIntent
  }

  /** The position of an intent in the keyword table. */
  function Rank(i: Intent): nat {
    match i
    case TopVendors(_) => 0
    case TotalSpend => 1
    case OverdueList => 2
    case NoIntent => 3
  }

  /** The matcher picks the first table entry whose words all occur in the question, and no
      intent exactly when no entry matches; a question naming top vendors and total spend
      is therefore a top-vendor question. */
  lemma MatchIntentIsFirstMatch(lower: string)
    ensures var i := MatchIntent(lower);
      (i.NoIntent? <==> FirstMatch(lower, IntentTable).None?) &&
      (!i.NoIntent? ==> FirstMatch(lower, IntentTable) == Some(Rank(i)))
  {
    var t := IntentTable;
    assert AllOccur(lower, t[0]) <==> Contains(lower, "top") && Contains(lower, "vendor") by {
      assert t[0][0] == "top" && t[0][1] == "vendor";
    }
    assert AllOccur(lower, t[1]) <==> Contains(lower, "total") && Contains(lower, "spend") by {
      assert t[1][0] == "total" && t[1][1] == "spend";
    }
    assert AllOccur(lower, t[2]) <==> Contains(lower, "overdue") by {
      assert t[2][0] == "overdue";
    }
    var r := FirstMatch(lower, t);
    if r.Some? {
      assert r.value < 3;
    }
  }

  datatype FallbackResult = FallbackResult(sql: string, rows: seq<Row>, answer: string)

  const TopSqlHead: string :=
    "SELECT v.name as vendor_name, SUM(i.total_amount) as total_spend, COUNT(i.id) as invoice_count " +
    "FROM \"Invoice\" i JOIN \"Vendor\" v ON i.vendor_id = v.id GROUP BY v.id, v.name " +
    "ORDER BY total_spend DESC LIMIT "

  const TopAnswerHead: string := "Here are the top "
  const TopAnswerTail: string := " vendors by spend (using fast database query)."
  const OverdueAnswerHead: string := "Found "
  const OverdueAnswerTail: string := " overdue invoices (using fast database query)."

  const TotalAnswerHead: string := "Total spend is €"
  const TotalAnswerTail: string := " invoices (using fast database query)."

  const TotalSql: string := "SELECT SUM(total_amount) as total_spend, COUNT(*) as invoice_count FROM \"Invoice\";"

  const OverdueSql: string :=
    "SELECT i.invoice_ref, v.name as vendor_name, i.total_amount as amount, i.payment_due_date as due_date " +
    "FROM \"Invoice\" i JOIN \"Vendor\" v ON i.vendor_id = v.id WHERE i.payment_due_date < NOW() " +
    "AND i.payment_status != 'paid' ORDER BY i.payment_due_date ASC LIMIT 10;"

  /** The canned query of a matched intent, run against a readable store. */
  function Execute(intent: Intent, db: Db, now: int): FallbackResult
    requires !intent.NoIntent?
  {
    match intent
    case TopVendors(n) => TopVendorsResult(db, n)
    case TotalSpend => TotalSpendResult(db)
    case OverdueList => OverdueResult(db, now)
  }

  /** `handleQueryFallback` on the lowercased question: `None` (the source's `null`) when no
      intent matches, and also when the store fails, whose error the catch swallows. */
  function Fallback(lower: string, src: Source, now: int): (r: Option<FallbackResult>)
    ensures r.Some? <==> !MatchIntent(lower).NoIntent? && src.Reachable?
    ensures r.Some? ==> r.value == Execute(MatchIntent(lower), src.db, now)
  {
    var intent := MatchIntent(lower);
    if intent.NoIntent? || src.Unreachable? then None else Some(Execute(intent, src.db, now))
  }

  function TopSql(limit: nat): string {
    TopSqlHead + NatToString(limit) + ";"
  }

  function TopAnswer(limit: nat): string {
    TopAnswerHead + NatToString(limit) + TopAnswerTail
  }

  /** The top-vendor answer: at most `limit` rows, ranked by spend. */
  function TopVendorsResult(db: Db, limit: nat): (r: FallbackResult)
    ensures r.rows == TopVendorRows(db, limit) && |r.rows| <= limit
  {
    FallbackResult(TopSql(limit), TopVendorRows(db, limit), TopAnswer(limit))
  }

  /** The SQL of a top-vendor answer ends in `LIMIT <limit>;`, from which `parseInt` reads the
      limit back, and the answer text names the limit. */
  lemma TopVendorsResultLimit(db: Db, limit: nat)
    ensures var r := TopVendorsResult(db, limit);
      |TopSqlHead| < |r.sql| && ParseInt(r.sql[|TopSqlHead|..|r.sql| - 1]) == Some(limit) &&
      Contains(r.answer, NatToString(limit))
  {
    ReadBack(TopSqlHead, limit, ";");
    ReadBack(TopAnswerHead, limit, TopAnswerTail);
  }

  /** The total-spend answer is one row: the sum of all amounts (a missing one read as 0) and
      the number of all invoices; there is no date window. */
  function TotalSpendResult(db: Db): (r: FallbackResult)
    ensures r.sql == TotalSql && r.rows == [SpendTotalRow(Total(db.invoices), |db.invoices|)]
  {
    var row := SpendTotal(db.invoices);
    FallbackResult(TotalSql, [row], TotalAnswerHead + DeAmount(row.totalSpend) + " across " +
                                    NatToString(row.invoiceCount) + TotalAnswerTail)
  }

  function OverdueAnswer(count: nat): string {
    OverdueAnswerHead + NatToString(count) + OverdueAnswerTail
  }

  /** The overdue answer lists the first 10 unpaid invoices due before `now`, earliest first:
      an overdue invoice is left out only when 10 rows are listed, each due no later. */
  function OverdueResult(db: Db, now: int): (r: FallbackResult)
    ensures |r.rows| <= 10
    ensures SelectedOverdueRows(db, now, 10, false, r.rows)
    ensures RowsOfOverdue(db, now, false, r.rows)
    ensures EarliestDueFirst(r.rows)
    ensures OverdueSkippedOnlyWhenFull(db, now, 10, false, r.rows)
  {
    var rows := OverdueRows(db, now, 10, false);
    FallbackResult(OverdueSql, rows, OverdueAnswer(|rows|))
  }

  /** The count in the overdue answer text, read back with `parseInt`, is the number of rows. */
  lemma OverdueResultCount(db: Db, now: int)
    ensures var r := OverdueResult(db, now);
      |OverdueAnswerHead| + |OverdueAnswerTail| <= |r.answer| &&
      ParseInt(r.answer[|OverdueAnswerHead|..|r.answer| - |OverdueAnswerTail|]) == Some(|r.rows|)
  {
    var r := OverdueResult(db, now);
    ReadBack(OverdueAnswerHead, |r.rows|, OverdueAnswerTail);
  }

  /** No matching intent and a failing store give the same `null`: the route cannot tell
      them apart. */
  lemma MissIndistinguishable(lower: string, other: string, db: Db, message: string, now: int)
    requires MatchIntent(other).NoIntent?
    ensures Fallback(lower, Unreachable(message), now) == Fallback(other, Reachable(db), now) == None
  {
  }

  // ---- the remote service ----

  /** The `e.code` values the route tells apart; any other code is `OtherCode`. */
  datatype ErrorCode = ECONNABORTED | ECONNREFUSED | ENOTFOUND | OtherCode

  /** A rejected remote call: `e.code`, `e.message`, `e.response?.status`, `e.response?.data`
      (`Undefined` without a response) and `String(e)`. */
  datatype Failure = Failure(code: Option<ErrorCode>, message: Option<string>, status: Option<int>, data: Json,
                             text: string)

  /** The remote service: not configured (`VANNA_API_BASE_URL` unset or empty), answered with
      a body, or failed. */
  datatype Remote = Unconfigured | Responded(data: Json) | Failed(failure: Failure)

  /** Reading `.success` of a `null`/`undefined` body throws this TypeError, which the
      transport catch handles like a failed call. */
  function NullBodyFailure(data: Json): (e: Failure)
    requires Nullish(data)
    ensures e.code.None? && e.status.None? && e.message.Some?
  {
    var message := NullReadHead + (if data.Null? then "null" else "undefined") + NullReadTail;
    Failure(None, Some(message), None, Undefined, "TypeError: " + message)
  }

  const NullReadHead: string := "Cannot read properties of "
  const NullReadTail: string := " (reading 'success')"

  datatype FailureKind = TimedOut | Refused | ServerError | HttpError | OtherFailure

  /** The classes of lines 191-209, tried in order. */
  function KindOf(e: Failure): FailureKind {
    if e.code == Some(ECONNABORTED) || (e.message.Some? && Contains(e.message.value, "timeout")) then TimedOut
    else if e.code == Some(ECONNREFUSED) || e.code == Some(ENOTFOUND) then Refused
    else if e.status == Some(500) then ServerError
    else if e.status.Some? && e.status.value != 0 then HttpError
    else OtherFailure
  }

  const DefaultAdvice: string :=
    "The AI service is taking too long to respond. Please try a simpler query like 'Show top 5 vendors' or 'Total spend'."
  const TimeoutAdvice: string :=
    "The AI service is taking too long (possibly waking up). Try asking: 'Show top vendors', 'Total spend', or 'Overdue invoices'."
  const RefusedAdvice: string :=
    "The AI service is currently unavailable. Try asking: 'Show top vendors', 'Total spend', or 'Overdue invoices'."
  const ServerErrorAdvice: string :=
    "The AI service has an internal error. Try asking: 'Show top vendors', 'Total spend', or 'Overdue invoices'."
  const HttpErrorAdvice: string := "The AI service returned an error. Please try again."

  /** The answer text of each class. */
  function Advice(k: FailureKind): string {
    match k
    case TimedOut => TimeoutAdvice
    case Refused => RefusedAdvice
    case ServerError => ServerErrorAdvice
    case HttpError => HttpErrorAdvice
    case OtherFailure => DefaultAdvice
  }

  /** `e.message` as a value: `undefined` when absent. */
  function MessageJson(e: Failure): (j: Json)
    ensures e.message.None? <==> j == Undefined
  {
    if e.message.Some? then Str(e.message.value) else Undefined
  }

  /** The error text of each class: the template strings of lines 192-204, and for any other
      failure the first truthy of `data.detail`, `data.error`, `e.message` and `String(e)`. */
  function ErrorDetail(e: Failure, k: FailureKind): Json {
    match k
    case TimedOut => Str(TimeoutPrefix + TemplateText(MessageJson(e)))
    case Refused => Str(RefusedPrefix + TemplateText(MessageJson(e)))
    case OtherFailure =>
      Or(OptGet(e.data, "detail"), Or(OptGet(e.data, "error"), Or(MessageJson(e), Str(e.text))))
    case _ =>
      Str(StatusPrefix + TemplateText(StatusJson(e)) + "): " + TemplateText(Or(OptGet(e.data, "error"), MessageJson(e))))
  }

  const TimeoutPrefix: string := "Vanna AI service timeout: "
  const RefusedPrefix: string := "Cannot connect to Vanna AI service: "
  const StatusPrefix: string := "Vanna AI service error ("

  /** `e.response.status` as a value. */
  function StatusJson(e: Failure): (j: Json)
    ensures e.status.None? <==> j == Undefined
  {
    if e.status.Some? then Num(e.status.value as real) else Undefined
  }

  /** Lines 189-209: the error and answer texts of a failure nothing else could answer,
      assigned class by class. The source's initial "Unknown error" is overwritten on every
      path, and its initial answer text survives only in the last branch, where it is
      assigned here. */
  method ClassifyFailure(e: Failure) returns (errorMsg: Json, userMessage: string)
    ensures (errorMsg, userMessage) == (ErrorDetail(e, KindOf(e)), Advice(KindOf(e)))
  {
    if e.code == Some(ECONNABORTED) || (e.message.Some? && Contains(e.message.value, "timeout")) {
      errorMsg := Str(TimeoutPrefix + TemplateText(MessageJson(e)));
      userMessage := Advice(TimedOut);
    } else if e.code == Some(ECONNREFUSED) || e.code == Some(ENOTFOUND) {
      errorMsg := Str(RefusedPrefix + TemplateText(MessageJson(e)));
      userMessage := Advice(Refused);
    } else if e.status == Some(500) {
      errorMsg := Str(StatusPrefix + TemplateText(StatusJson(e)) + "): " + TemplateText(Or(OptGet(e.data, "error"), MessageJson(e))));
      userMessage := Advice(ServerError);
    } else if e.status.Some? && e.status.value != 0 {
      errorMsg := Str(StatusPrefix + TemplateText(StatusJson(e)) + "): " + TemplateText(Or(OptGet(e.data, "error"), MessageJson(e))));
      userMessage := Advice(HttpError);
    } else {
      errorMsg := Or(OptGet(e.data, "detail"), Or(OptGet(e.data, "error"), Or(MessageJson(e), Str(e.text))));
      userMessage := DefaultAdvice;
    }
  }

  // ---- the reply ----

  /** What one call of `handleQueryFallback(query)` does: a non-string question throws on
      `toLowerCase()` before the try, otherwise it returns a result or `null`. */
  datatype Attempt = Threw | Miss | Hit(result: FallbackResult)

  function RunFallback(query: Json, src: Source, now: int): (a: Attempt)
    ensures a.Threw? <==> !query.Str?
    ensures query.Str? ==> (a.Miss? <==> Fallback(Lower(query.s), src, now).None?)
  {
    if !query.Str? then Threw
    else match Fallback(Lower(query.s), src, now)
      case None => Miss
      case Some(r) => Hit(r)
  }

  const QueryRequired: Reply := Reply(400, Obj([("error", Str("query required"))]))

  /** A fallback answer: success with the canned SQL and rows. */
  function Served(r: FallbackResult): (reply: Reply)
    ensures reply.status == 200 && Get(reply.body, "success") == Bool(true)
    ensures Get(reply.body, "sql") == Str(r.sql) && Get(reply.body, "results") == RowsJson(r.rows)
  {
    var body := Obj([("answer", Str(r.answer)), ("sql", Str(r.sql)), ("results", RowsJson(r.rows)), ("success", Bool(true))]);
    GetAt(body, 1); GetAt(body, 2); GetAt(body, 3);
    Reply(200, body)
  }

  /** The failure envelope: no SQL, no rows, no success. */
  function Envelope(status: nat, error: Json, answer: string): (reply: Reply)
    ensures reply.status == status
    ensures Get(reply.body, "success") == Bool(false) && Get(reply.body, "sql") == Null
    ensures Get(reply.body, "results") == Arr([]) && Get(reply.body, "error") == error
    ensures Get(reply.body, "answer") == Str(answer)
  {
    var body := Obj([("error", error), ("answer", Str(answer)), ("sql", Null), ("results", Arr([])), ("success", Bool(false))]);
    GetAt(body, 0); GetAt(body, 1); GetAt(body, 2); GetAt(body, 3); GetAt(body, 4);
    Reply(status, body)
  }

  const DbErrorText: string := "Database connection error"
  const DbErrorAnswer: string := "Unable to connect to the database. Please try again later or contact support."
  const NotConfiguredText: string := "AI service not configured and no fallback available for this query."
  const NotConfiguredAnswer: string :=
    "The AI service is not available. Try asking: 'Show top vendors', 'Total spend', or 'Overdue invoices'."
  const InternalErrorText: string := "Internal server error"
  const InternalErrorAnswer: string := "An unexpected error occurred. Please try again later."

  function DbError(): Reply {
    Envelope(200, Str(DbErrorText), DbErrorAnswer)
  }

  function NotConfigured(): Reply {
    Envelope(200, Str(NotConfiguredText), NotConfiguredAnswer)
  }

  function InternalError(): Reply {
    Envelope(500, Str(InternalErrorText), InternalErrorAnswer)
  }

  /** The remote body passed on (lines 158-166): `error` is `null` after a success and otherwise
      the remote error or "Unknown error"; `results` are the remote's when truthy, else `[]`. */
  function RemoteReply(data: Json): (reply: Reply)
    ensures reply.status == 200
    ensures Get(reply.body, "success") == Get(data, "success")
    ensures Truthy(Get(data, "success")) ==> Get(reply.body, "error") == Null
    ensures !Truthy(Get(data, "success")) ==>
      Get(reply.body, "error") == Or(Get(data, "error"), Str("Unknown error")) && Truthy(Get(reply.body, "error"))
    ensures Get(reply.body, "results") == (if Truthy(Get(data, "results")) then Get(data, "results") else Arr([]))
  {
    var success := Get(data, "success");
    var results := Get(data, "results");
    var count := Or(if Nullish(results) then Undefined else LengthProp(results), Num(0.0));
    var answer := if Truthy(success) then FoundHead + TemplateText(count) + FoundTail else IssueAnswer;
    var error := if Truthy(success) then Null else Or(Get(data, "error"), Str("Unknown error"));
    Reply(200, PassedOnBody(answer, Get(data, "sql"), Or(results, Arr([])), error, success))
  }

  /** The object literal of lines 159-165. */
  function PassedOnBody(answer: string, sql: Json, results: Json, error: Json, success: Json): (body: Json)
    ensures Get(body, "results") == results && Get(body, "error") == error && Get(body, "success") == success
  {
    var body := Obj([("answer", Str(answer)), ("sql", sql), ("results", results), ("error", error), ("success", success)]);
    GetAt(body, 2); GetAt(body, 3); GetAt(body, 4);
    body
  }

  const FoundHead: string := "I found "
  const FoundTail: string := " results for your query."
  const IssueAnswer: string := "I encountered an issue processing your request."

  /** The failure the transport catch sees. */
  function FailureOf(remote: Remote): Failure
    requires remote.Failed? || (remote.Responded? && Nullish(remote.data))
  {
    if remote.Failed? then remote.failure else NullBodyFailure(remote.data)
  }

  /** Lines 104-135: without a configured service the fallback answers; a question it has no
      intent for (or whose store fails) gets the suggestion envelope, and only a non-string
      question reaches "Database connection error". */
  method LocalReply(query: Json, src: Source, now: int) returns (r: Reply)
    ensures r == match RunFallback(query, src, now)
                 case Threw => DbError()
                 case Miss => NotConfigured()
                 case Hit(result) => Served(result)
  {
    var attempt := RunFallback(query, src, now);
    if attempt.Threw? {
      return DbError();
    }
    if attempt.Hit? {
      return Served(attempt.result);
    }
    return NotConfigured();
  }

  /** Lines 150-167: a remote success is passed on; a remote `success: false` is passed on when
      the fallback has nothing. A non-string question makes the fallback throw into the
      transport catch, whose own fallback call throws again, ending in the outer 500. */
  method AnsweredReply(query: Json, data: Json, src: Source, now: int) returns (r: Reply)
    requires !Nullish(data)
    ensures Truthy(Get(data, "success")) ==> r == RemoteReply(data)
    ensures !Truthy(Get(data, "success")) ==>
      r == match RunFallback(query, src, now)
           case Threw => InternalError()
           case Miss => RemoteReply(data)
           case Hit(result) => Served(result)
  {
    if !Truthy(Get(data, "success")) {
      var attempt := RunFallback(query, src, now);
      if attempt.Threw? {
        return InternalError();
      }
      if attempt.Hit? {
        return Served(attempt.result);
      }
    }
    return RemoteReply(data);
  }

  /** Lines 169-216: after a failed call the fallback is tried once more, and only when it has
      nothing is the failure classified into a 500. */
  method FailedReply(query: Json, failure: Failure, src: Source, now: int) returns (r: Reply)
    ensures r == match RunFallback(query, src, now)
                 case Threw => InternalError()
                 case Miss => Envelope(500, ErrorDetail(failure, KindOf(failure)), Advice(KindOf(failure)))
                 case Hit(result) => Served(result)
  {
    var attempt := RunFallback(query, src, now);
    if attempt.Threw? {
      return InternalError();
    }
    if attempt.Hit? {
      return Served(attempt.result);
    }
    var errorMsg, userMessage := ClassifyFailure(failure);
    return Envelope(500, errorMsg, userMessage);
  }

  /** The route: a falsy question is refused before anything else, then the branch of the
      remote outcome answers. A body without `success` (`null` or `undefined`) throws when read
      and is handled like a failed call. */
  method HandleChat(query: Json, remote: Remote, src: Source, now: int) returns (r: Reply)
    ensures !Truthy(query) ==> r == QueryRequired
    ensures Truthy(query) && remote.Unconfigured? ==>
      r == match RunFallback(query, src, now)
           case Threw => DbError()
           case Miss => NotConfigured()
           case Hit(result) => Served(result)
    ensures Truthy(query) && remote.Responded? && !Nullish(remote.data) && Truthy(Get(remote.data, "success")) ==>
      r == RemoteReply(remote.data)
    ensures Truthy(query) && remote.Responded? && !Nullish(remote.data) && !Truthy(Get(remote.data, "success")) ==>
      r == match RunFallback(query, src, now)
           case Threw => InternalError()
           case Miss => RemoteReply(remote.data)
           case Hit(result) => Served(result)
    ensures Truthy(query) && (remote.Failed? || (remote.Responded? && Nullish(remote.data))) ==>
      r == match RunFallback(query, src, now)
           case Threw => InternalError()
           case Miss => Envelope(500, ErrorDetail(FailureOf(remote), KindOf(FailureOf(remote))),
                                 Advice(KindOf(FailureOf(remote))))
           case Hit(result) => Served(result)
  {
    if !Truthy(query) {
      return QueryRequired;
    }
    if remote.Unconfigured? {
      r := LocalReply(query, src, now);
    } else if remote.Responded? && !Nullish(remote.data) {
      r := AnsweredReply(query, remote.data, src, now);
    } else {
      r := FailedReply(query, FailureOf(remote), src, now);
    }
  }
}
