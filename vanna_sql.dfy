/** The SQL service's `/query` endpoint: it asks the Groq model for SQL when a key is set,
    keeps the part of the answer from the first SELECT on, falls back to a fixed query
    picked from the prompt's keywords, and runs the SQL. The Groq call and the database
    are parameters: `groq` is what the call returned or that it raised, and `exec(db, sql)`
    is what running `sql` against `db` gave. */
module VannaSql {
  import opened Wrappers
  import opened Text
  import opened JsonValues

  const TopVendorsSql: string :=
    "SELECT v.name AS vendor, SUM(i.\"totalAmount\") AS total FROM \"Vendor\" v JOIN \"Invoice\" i ON i.\"vendorId\" = v.id GROUP BY v.name ORDER BY total DESC LIMIT 10;"
  const RecentInvoicesSql: string :=
    "SELECT id, \"invoiceRef\", \"invoiceDate\", \"totalAmount\" FROM \"Invoice\" ORDER BY \"invoiceDate\" DESC LIMIT 100;"

  /** `simple_sql`: the vendor ranking when the prompt mentions both "top" and "vendor" in
      any case, the latest invoices otherwise. */
  function SimpleSql(prompt: string): (sql: string)
    ensures sql != ""
    ensures sql == TopVendorsSql <==> Contains(Lower(prompt), "top") && Contains(Lower(prompt), "vendor")
    ensures sql != TopVendorsSql ==> sql == RecentInvoicesSql
  {
    var p := Lower(prompt);
    if Contains(p, "top") && Contains(p, "vendor") then TopVendorsSql else RecentInvoicesSql
  }

  // ---------------------------------------------------------------------------------------
  // Extracting SQL from the model's answer

  /** `s.strip().strip('`').strip()`. */
  function Stripped(text: string): (s: string)
    ensures |s| <= |text|
    ensures s == "" || (s[0] !in PyWhitespace && s[|s| - 1] !in PyWhitespace)
  {
    Trim(Trim(Trim(text, PyWhitespace), {'`'}), PyWhitespace)
  }

  /** The stripped answer is a slice of the answer with only whitespace and backticks
      around it. */
  lemma StrippedIsPadded(text: string)
    ensures PaddedBy(text, Stripped(text), PyWhitespace + {'`'})
  {
    var a := Trim(text, PyWhitespace);
    var b := Trim(a, {'`'});
    TrimIsPadded(text, PyWhitespace);
    TrimIsPadded(a, {'`'});
    TrimIsPadded(b, PyWhitespace);
    ThreeTrimsPadded(text, a, b, Stripped(text));
  }

  lemma ThreeTrimsPadded(text: string, a: string, b: string, s: string)
    requires PaddedBy(text, a, PyWhitespace) && PaddedBy(a, b, {'`'}) && PaddedBy(b, s, PyWhitespace)
    ensures PaddedBy(text, s, PyWhitespace + {'`'})
  {
    PaddedTwice(text, a, b, PyWhitespace, {'`'});
    PaddedTwice(text, b, s, PyWhitespace + {'`'}, PyWhitespace);
    assert PyWhitespace + {'`'} + PyWhitespace == PyWhitespace + {'`'};
  }

  /** An answer that neither starts nor ends with whitespace or a backtick is kept whole. */
  lemma StrippedKeepsBare(text: string)
    requires text != "" && text[0] !in PyWhitespace + {'`'} && text[|text| - 1] !in PyWhitespace + {'`'}
    ensures Stripped(text) == text
  {
    TrimBare(text, PyWhitespace);
    TrimBare(text, {'`'});
  }

  /** "SELECT" in any case starts at `i` and at least one character follows it: where
      `SELECT[\s\S]+` can match under `re.IGNORECASE`. */
  predicate SelectAt(s: string, i: nat) {
    i + 6 < |s| && Lower(s[i..i + 6]) == "select"
  }

  /** The first index where `SELECT[\s\S]+` matches, searching from `from`. */
  function FirstSelect(s: string, from: nat): (r: Option<nat>)
    ensures r.Some? ==> from <= r.value && SelectAt(s, r.value)
    ensures r.Some? ==> forall j :: from <= j < r.value ==> !SelectAt(s, j)
    ensures r.None? ==> forall j :: from <= j ==> !SelectAt(s, j)
    decreases |s| - from
  {
    if from + 6 >= |s| then None
    else if SelectAt(s, from) then Some(from)
    else FirstSelect(s, from + 1)
  }

  /** What `re.search(r'(SELECT[\s\S]+);?', s, re.IGNORECASE)` leaves as the SQL: group 1
      is everything from the first match to the end (the greedy `[\s\S]+` leaves nothing
      for `;?`), and without a match the stripped answer itself. */
  function ExtractSql(text: string): (sql: string)
    ensures |sql| <= |Stripped(text)|
  {
    var s := Stripped(text);
    match FirstSelect(s, 0)
    case Some(i) => s[i..]
    case None => s
  }

  /** The SQL is the stripped answer from its first SELECT on, and the whole stripped answer
      when it has none; either way a suffix of it. */
  lemma ExtractSqlMeaning(text: string)
    ensures var s := Stripped(text); var sql := ExtractSql(text);
      (FirstSelect(s, 0).Some? ==> sql == s[FirstSelect(s, 0).value..] && |sql| > 6 && Lower(sql[..6]) == "select") &&
      (FirstSelect(s, 0).None? ==> sql == s) &&
      sql == s[|s| - |sql|..]
  {
    var s := Stripped(text);
    match FirstSelect(s, 0)
    case Some(i) =>
      SelectSuffix(s, i);
    case None =>
      assert s[|s| - |s|..] == s;
  }

  /** The text from a SELECT on starts with it and is a suffix of the text. */
  lemma SelectSuffix(s: string, i: nat)
    requires SelectAt(s, i)
    ensures |s[i..]| > 6 && Lower(s[i..][..6]) == "select"
    ensures s[i..] == s[|s| - |s[i..]|..]
  {
    assert s[i..][..6] == s[i..i + 6];
  }

  /** An answer that is already a bare query (it starts with SELECT in any case, and neither
      end is whitespace or a backtick) is used as it is. */
  lemma {:induction false} BareQueryKept(text: string)
    requires |text| > 6 && Lower(text[..6]) == "select"
    requires text[|text| - 1] !in PyWhitespace && text[|text| - 1] != '`'
    ensures ExtractSql(text) == text
  {
    assert text[0] == text[..6][0];
    assert Lower(text[..6])[0] == LowerChar(text[0]) == 's';
    assert text[0] !in PyWhitespace && text[0] != '`';
    TrimKeeps(text, PyWhitespace);
    TrimKeeps(text, {'`'});
    assert SelectAt(text, 0) by { assert text[0..6] == text[..6]; }
  }

  lemma {:induction false} TrimKeeps(s: string, ws: set<char>)
    requires s != "" && s[0] !in ws && s[|s| - 1] !in ws
    ensures Trim(s, ws) == s
  {
  }

  /** Text in front of the first SELECT is dropped: a Markdown fence opener such as
      "sql\n" left over after the backticks are stripped is not part of the SQL. */
  lemma {:induction false} LeadingTextDropped(text: string, i: nat)
    requires var s := Stripped(text); SelectAt(s, i) && forall j :: 0 <= j < i ==> !SelectAt(s, j)
    ensures ExtractSql(text) == Stripped(text)[i..]
  {
    var s := Stripped(text);
    assert FirstSelect(s, 0) == Some(i);
  }

  // ---------------------------------------------------------------------------------------
  // The endpoint

  /** What the Groq call gave: the answer's text, or an exception (HTTP errors after the
      retries, a timeout, an answer that is not text). */
  datatype GroqResult = Answer(text: string) | GroqFailed

  /** What running the SQL gave: the rows, or the database error's text. */
  datatype DbResult = Rows(rows: seq<Json>) | DbFailed(error: string)

  datatype QueryReply =
    | BadRequest(status: nat, detail: string)
    | Result(sql: string, results: seq<Json>, error: Option<string>)

  /** `req.database_url or os.getenv('DATABASE_URL')`; an empty string counts as unset. */
  function DatabaseUrl(requested: Option<string>, env: Option<string>): (db: Option<string>)
    ensures db.Some? ==> db.value != ""
    ensures requested.Some? && requested.value != "" ==> db == requested
    ensures (requested.None? || requested.value == "") && env.Some? && env.value != "" ==> db == env
  {
    if requested.Some? && requested.value != "" then requested
    else if env.Some? && env.value != "" then env
    else None
  }

  /** The SQL the endpoint runs: the extracted answer when a key is set, the call succeeded
      and the extraction is not empty; the keyword fallback otherwise. */
  function ChosenSql(prompt: string, groqKey: Option<string>, groq: GroqResult): (sql: string)
    ensures sql != ""
    ensures groqKey.None? || groqKey.value == "" || groq.GroqFailed? ==> sql == SimpleSql(prompt)
    ensures groqKey.Some? && groqKey.value != "" && groq.Answer? ==>
      sql == (if ExtractSql(groq.text) == "" then SimpleSql(prompt) else ExtractSql(groq.text))
  {
    if groqKey.Some? && groqKey.value != "" && groq.Answer? && ExtractSql(groq.text) != "" then ExtractSql(groq.text)
    else SimpleSql(prompt)
  }

  /** `query`: `sql` is reassigned as each step decides. */
  method Query(prompt: string, requestedDb: Option<string>, envDb: Option<string>,
               groqKey: Option<string>, groq: GroqResult, exec: (string, string) -> DbResult)
    returns (reply: QueryReply)
    ensures DatabaseUrl(requestedDb, envDb).None? <==> reply == BadRequest(400, "DATABASE_URL required")
    ensures DatabaseUrl(requestedDb, envDb).Some? ==>
      var db := DatabaseUrl(requestedDb, envDb).value;
      var sql := ChosenSql(prompt, groqKey, groq);
      reply.Result? && reply.sql == sql &&
      (exec(db, sql).Rows? ==> reply.results == exec(db, sql).rows && reply.error.None?) &&
      (exec(db, sql).DbFailed? ==> reply.results == [] && reply.error == Some(exec(db, sql).error))
  {
    var db := if requestedDb.Some? && requestedDb.value != "" then requestedDb else envDb;
    if db.None? || db.value == "" {
      return BadRequest(400, "DATABASE_URL required");
    }
    var sql: Option<string> := None;
    if groqKey.Some? && groqKey.value != "" {
      match groq {
        case Answer(text) =>
          var s := Stripped(text);
          var m := FirstSelect(s, 0);
          sql := if m.Some? then Some(s[m.value..]) else Some(s);
        case GroqFailed =>
          sql := None;
      }
    }
    if sql.None? || sql.value == "" {
      sql := Some(SimpleSql(prompt));
    }
    match exec(db.value, sql.value) {
      case Rows(rows) => reply := Result(sql.value, rows, None);
      case DbFailed(error) => reply := Result(sql.value, [], Some(error));
    }
  }
}
