# Invoice analytics: verified model of the decision logic

This project is a Dafny model of the invoice-analytics back end: an Express API over a
Prisma/Postgres store of invoices, vendors, customers and documents, with two ingestion
scripts and a small SQL-generating side service. Every database query is replaced by a
pure function over in-memory tables (`Store.Db`: a sequence of invoices and a sequence of
vendors). Every outside call is an input value: the remote NL-to-SQL service, the Groq
model, the clock, `Math.random`, the URL parser, date parsing and database failures.
The rules that decide what a route answers are then stated and proved:

- **Chat with data** (`ChatWithData`, `FallbackQueries`): the fallback-capable
  `POST /chat-with-data` gateway from the compiled route. It validates the query,
  branches on the remote outcome, classifies transport failures, and re-resolves the
  question through an ordered keyword table: top vendors with a limit, total spend,
  overdue invoices.
- **Chat** (`Chat`): the TypeScript variant. Its table has five entries (90-day spend,
  top vendors, overdue with `days_overdue`, average invoice, not recognised). It also has
  `generateAnswer` and the swallowed chat-history write.
- **Dashboard** (`Dashboard`), covering these routes:
  - keyword categorisation of spend, with its colours;
  - cash-outflow buckets;
  - `/invoices` filter and pagination arithmetic;
  - top-10 vendor shaping;
  - the stat cards with their zero guards;
  - the 12-month trend loop.
- **In-memory stats** (`Stats`): distinct counts, total spend, six month windows, the
  per-vendor spend map with its top ten, and the in-place sort for the 20 most recent
  invoices.
- **Analytics** (`Analytics`): the `/summary` fold over a document file, the
  `/documents` filter and the fallback route.
- **Export** (`Export`): the `where` filter, the three row shapers and the JSON-or-CSV
  branch.
- **Seeding** (`Seed`): `pick`, `safeGet`, name defaults, amount normalisation, the
  vendor and customer caches and deduplication by invoice reference. The `Seeder`
  class holds the tables, caches and counter the seed loop updates. A record that
  throws (a nullish record, or a name or ref the store rejects) ends the whole run,
  keeping the rows already written.
- **Supabase import** (`SupabaseImport`): `nested_get`, `clean_ts`, the
  get-or-create helpers and the per-item transaction with its `imported`/`skipped`
  counters. The `Importer` class holds committed and uncommitted tables.
- **CORS and error masking** (`Cors`): the origin callback and the error handler.
- **SQL service** (`VannaSql`): `simple_sql`, extraction of SQL from the model's
  answer, and the `/query` endpoint.

Support modules:
- `Wrappers`: Option.
- `Text`: ASCII lower-casing, search, split, join and trim.
- `Numbers`: JS numbers with NaN, `parseInt`, `parseFloat`, `Number()` and de-DE
  amounts.
- `JsonValues`: JSON values with JS truthiness, `||`, `??` and optional chaining.
- `Calendar`: UTC civil dates, month indices and ISO strings.
- `Sorting`: a stable descending insertion sort.
- `Store`: Prisma `aggregate` and `groupBy` semantics.

Amounts are `real`; instants are integer milliseconds since the epoch; a month is the
index `year * 12 + month - 1`.

Facts about the code that the model keeps:
- The compiled gateway returns `null` both when no intent matched and when the store
  threw. `ChatWithData.MissIndistinguishable` proves the two cannot be told apart.
- In the compiled gateway, a transport failure with no fallback answer gets HTTP 500.
- The compiled gateway's total-spend intent has no time window.
- A successful fallback envelope carries no `error` field.

## Model

| member | source | states |
|---|---|---|
| FallbackQueries.FirstMatch | apps/api/dist/routes/chatWithData.js:15-61 | the chosen entry is the first table entry whose words all occur; none is chosen iff no entry matches |
| FallbackQueries.TopLimit | apps/api/dist/routes/chatWithData.js:19 | the limit is the value of the first digit run of the query, 5 when it has none |
| FallbackQueries.VendorName | apps/api/dist/routes/chatWithData.js:27-33 | a vendor found with a non-empty name gives that name; a vendor missing from the lookup, or found without a name, gives 'Unknown' |
| FallbackQueries.TopVendorRows | apps/api/dist/routes/chatWithData.js:20-36 | at most `limit` rows, exactly the first min(limit, groups) groups of the spend ranking, each named and with a NULL sum read as 0 |
| FallbackQueries.TopVendorRowsOrdered | apps/api/dist/routes/chatWithData.js:20-26 | rows are non-increasing in spend after any leading group whose sum is NULL (Postgres orders NULL first in DESC) |
| FallbackQueries.TopVendorRowsDescending | apps/api/dist/routes/chatWithData.js:20-36 | when every invoice has an amount, the rows are non-increasing in total spend |
| FallbackQueries.SpendTotal | apps/api/dist/routes/chatWithData.js:46-56 | one row: the sum of all amounts with NULL as 0, and the count of all invoices |
| FallbackQueries.DaysOverdue | apps/api/src/routes/chat.ts:232-235 | `days_overdue` is floor((now - due) / one day), 0 when the due date is absent (or the epoch, which `getTime() \|\| now` treats as absent) |
| FallbackQueries.OverdueRows | apps/api/dist/routes/chatWithData.js:62-79 | the rows of the invoices the overdue query selects, in order: at most n, each from an overdue invoice of the store, ascending by due date; an overdue invoice is missing only when there are n rows, each due no later than it |
| FallbackQueries.AverageInvoice | apps/api/src/routes/chat.ts:258-278 | the average times the number of non-NULL amounts is their sum, 0 when there are none; `total_invoices` counts every invoice |
| ChatWithData.MatchIntentIsFirstMatch | apps/api/dist/routes/chatWithData.js:15-61 | the matcher picks the first of top+vendor, total+spend, overdue whose words all occur, and nothing iff none does |
| ChatWithData.Fallback | apps/api/dist/routes/chatWithData.js:13-93 | a result exists iff an intent matched and the store was reachable; the result is that intent's executor |
| ChatWithData.TopVendorsResult | apps/api/dist/routes/chatWithData.js:18-43 | the rows are the top-vendor rows and number at most `limit` |
| ChatWithData.TopVendorsResultLimit | apps/api/dist/routes/chatWithData.js:19-41 | the `LIMIT` read back from the SQL text is the limit, and the answer text contains it |
| ChatWithData.TotalSpendResult | apps/api/dist/routes/chatWithData.js:45-58 | one row whose spend is the total over all invoices (no date window) and whose count is the number of invoices |
| ChatWithData.OverdueResult | apps/api/dist/routes/chatWithData.js:61-85 | the rows of the first 10 overdue invoices by due date: each from an overdue invoice of the store, ascending by due date; an overdue invoice is missing only when 10 rows are listed, each due no later |
| ChatWithData.OverdueResultCount | apps/api/dist/routes/chatWithData.js:80-85 | the count read back from the answer text equals the number of rows |
| ChatWithData.MissIndistinguishable | apps/api/dist/routes/chatWithData.js:87-92 | a store failure and a reachable store with no matching intent both give no result |
| ChatWithData.NullBodyFailure | apps/api/dist/routes/chatWithData.js:143-145 | a nullish remote body fails as a TypeError: a message but no code and no status |
| ChatWithData.ClassifyFailure | apps/api/dist/routes/chatWithData.js:189-209 | the detail and the answer are those of the first matching class: timeout, refused or not found, status 500, any status, other |
| ChatWithData.RunFallback | apps/api/dist/routes/chatWithData.js:13-16 | the fallback throws iff the query is not a string (`toLowerCase` sits outside the try); otherwise it misses iff the matcher gives no result |
| ChatWithData.Served | apps/api/dist/routes/chatWithData.js:110-115 | a fallback hit is served with 200, `success: true`, its SQL and its rows |
| ChatWithData.Envelope | apps/api/dist/routes/chatWithData.js:120-126 | an error envelope has the given status, `success: false`, `sql: null`, `results: []`, the error and the answer |
| ChatWithData.RemoteReply | apps/api/dist/routes/chatWithData.js:158-167 | status 200, the remote `success` passed on, `error` null after success and otherwise the remote error or 'Unknown error', `results` the remote's when truthy and `[]` otherwise |
| ChatWithData.LocalReply | apps/api/dist/routes/chatWithData.js:104-135 | without a configured service: a hit is served, a miss gets the not-configured envelope, a throw gets the database-connection envelope |
| ChatWithData.AnsweredReply | apps/api/dist/routes/chatWithData.js:137-167 | a successful remote answer is passed on; after `success: false`, a hit is served, a miss passes the remote answer on, a throw becomes the outer 500 |
| ChatWithData.FailedReply | apps/api/dist/routes/chatWithData.js:169-216 | after a transport failure, a hit is served, a miss gets a 500 envelope with the classified detail and advice, a throw becomes the outer 500 |
| ChatWithData.HandleChat | apps/api/dist/routes/chatWithData.js:94-229 | a falsy query gets 400 'query required'; otherwise the reply is the one each remote outcome calls for, as listed in the four rows above |
| Chat.MatchIntentIsFirstMatch | apps/api/src/routes/chat.ts:105-257 | the matcher picks the first of "total spend"+"90 days", top+vendor, overdue, "average invoice" whose words all occur, and nothing iff none does |
| Chat.Since | apps/api/src/routes/chat.ts:113-118 | exactly the invoices dated at or after the window start |
| Chat.RecentSpendAnswer | apps/api/src/routes/chat.ts:109-145 | one row: the total and the count of the invoices dated at or after now minus 90 days, future dates included (the filter is `gte` only) |
| Chat.TopVendorsAnswer | apps/api/src/routes/chat.ts:149-198 | the rows are the top-vendor rows, at most `limit` of them |
| Chat.TopVendorsAnswerLimit | apps/api/src/routes/chat.ts:150-197 | the `LIMIT` read back from the SQL is the limit, and the answer contains it |
| Chat.OverdueAnswer | apps/api/src/routes/chat.ts:202-253 | the rows of the first 20 overdue invoices by due date, each with its `days_overdue`; an overdue invoice is missing only when 20 rows are listed, each due no later |
| Chat.OverdueAnswerCount | apps/api/src/routes/chat.ts:248-253 | the count in the answer is the number of rows |
| Chat.AverageAnswer | apps/api/src/routes/chat.ts:257-283 | one row, the average over all invoices |
| Chat.Execute | apps/api/src/routes/chat.ts:109-284 | a recognised intent always gets an answer |
| Chat.Fallback | apps/api/src/routes/chat.ts:104-300 | 'not recognised' iff no intent matched; a store error iff an intent matched and the store failed, carrying its message; otherwise the intent's answer |
| Chat.Body | apps/api/src/routes/chat.ts:131-299 | `success` is true exactly for an answer; an answer carries its SQL, rows and text; the two failures carry their own error and answer texts and no SQL or rows |
| Chat.UnrecognizedIsNotStoreError | apps/api/src/routes/chat.ts:286-299 | the not-recognised answer differs from the store-error answer |
| Chat.GenerateAnswer | apps/api/src/routes/chat.ts:306-322 | 'No results found' iff results are falsy or of length 0; 'total'/'sum' is checked before 'top'/'list' |
| Chat.GenerateAnswerCount | apps/api/src/routes/chat.ts:306-322 | for a non-empty array the answer contains its length |
| Chat.EntryForAnswer | apps/api/src/routes/chat.ts:33-42 | a saved answer keeps its SQL and rows with a null error; a saved 'not recognised' keeps no SQL, `[]` and its error |
| Chat.ChatHistory.Create | apps/api/src/routes/chat.ts:33-45 | when the store is available one entry is appended, otherwise nothing changes and the failure is reported to the caller only |
| Chat.RemoteAnswer | apps/api/src/routes/chat.ts:68-83 | a truthy remote error gives `success: false` with it and the fixed answer; otherwise the SQL, the results (`[]` when falsy) and the generated answer |
| Chat.HandleChat | apps/api/src/routes/chat.ts:13-98 | a non-string or empty query gets 400 and no history; unconfigured: the fallback body, with one history entry when the store accepts it; a remote body: its answer; a failed call: the fallback body |
| Dashboard.FacilityIsIT | apps/api/src/routes/dashboard.ts:174-179 | a vendor name containing 'facility' is always classed IT |
| Dashboard.FacilitiesOnlyByMaintenance | apps/api/src/routes/dashboard.ts:174-179 | a name classed Facilities contains 'maintenance' and not 'facility' |
| Dashboard.CategorySumsAddUp | apps/api/src/routes/dashboard.ts:169-185 | the five category sums add up to the total amount: every invoice lands in exactly one category |
| Dashboard.CategorySumNonNegative | apps/api/src/routes/dashboard.ts:169-185 | with non-negative amounts every category sum is non-negative |
| Dashboard.CategoryTotals | apps/api/src/routes/dashboard.ts:161-185 | the loop leaves the five keys, each holding the sum of the amounts classed into it |
| Dashboard.SumsStep | apps/api/src/routes/dashboard.ts:169-184 | adding one invoice's amount to its category keeps every entry equal to its category sum |
| Dashboard.CategoryColor | apps/api/src/routes/dashboard.ts:417-426 | the four fixed colours for the named categories, '#9CA3AF' for any other name |
| Dashboard.PositiveRows | apps/api/src/routes/dashboard.ts:188-194 | only positive amounts are kept, each with its colour, and every positive category is kept |
| Dashboard.CategorySpend | apps/api/src/routes/dashboard.ts:188-200 | rows are a permutation of the positive categories, non-increasing in amount, and `total` is the sum of the listed amounts |
| Dashboard.SortedRows | apps/api/src/routes/dashboard.ts:194-195 | sorting keeps every row positive and coloured, and orders them non-increasing |
| Dashboard.CategorySpendRoute | apps/api/src/routes/dashboard.ts:150-201 | the route's rows and total are those of the category sums of the store |
| Dashboard.CategoriesOf | apps/api/src/routes/dashboard.ts:161-185 | the record holds the five category sums |
| Dashboard.CategoryTotalIsTotalSpend | apps/api/src/routes/dashboard.ts:169-200 | with non-negative amounts the route's total equals the total amount of all invoices |
| Dashboard.PositiveRowsSum | apps/api/src/routes/dashboard.ts:194-200 | dropping the zero categories does not change the sum |
| Dashboard.RowsSumPermutation | apps/api/src/routes/dashboard.ts:195-200 | reordering the rows does not change their sum |
| Dashboard.OutflowRanges | apps/api/src/routes/dashboard.ts:219-224 | four ranges at day offsets [0,7], [8,30], [31,60] and [61, 2100-01-01] |
| Dashboard.OutflowRangesDisjoint | apps/api/src/routes/dashboard.ts:219-224 | no instant lies in two ranges, and each range starts one day after the previous one ends |
| Dashboard.OutflowGap | apps/api/src/routes/dashboard.ts:220-223 | an instant between two consecutive ranges lies in none |
| Dashboard.OutflowOf | apps/api/src/routes/dashboard.ts:228-246 | a bucket's amount is the total of the unpaid invoices due within its inclusive range |
| Dashboard.CashOutflow | apps/api/src/routes/dashboard.ts:216-248 | four rows in range order, each the bucket of its range |
| Dashboard.CashOutflowCountsOnce | apps/api/src/routes/dashboard.ts:226-247 | an invoice counted in one bucket is counted in no later one |
| Dashboard.ListPlanOf | apps/api/src/routes/dashboard.ts:271-322 | page and limit default to 1 and 20 and are parsed; skip is (page - 1) * limit; '' adds no search; '' or 'all' adds no status; the order is ascending iff `sortOrder` is 'asc' |
| Dashboard.OrderOf | apps/api/src/routes/dashboard.ts:318 | ascending iff the order is exactly 'asc' |
| Dashboard.IntParam | apps/api/src/routes/dashboard.ts:271-281 | an absent parameter takes its default, a present one is parsed |
| Dashboard.Skip | apps/api/src/routes/dashboard.ts:282 | skip is (page - 1) * limit, NaN when either is NaN |
| Dashboard.WhereOf | apps/api/src/routes/dashboard.ts:285-296 | a search filter iff the search is non-empty; a status filter iff the status is neither '' nor 'all' |
| Dashboard.TotalPages | apps/api/src/routes/dashboard.ts:331 | ceil(total / limit): the least page count covering `total` when limit > 0, Infinity or NaN for 0, NaN for NaN |
| Dashboard.Matching | apps/api/src/routes/dashboard.ts:285-299 | an invoice is listed iff it is in the store and matches the search and status; no invoice more often than stored |
| Dashboard.MatchingAll | apps/api/src/routes/dashboard.ts:285-299 | without search and status every invoice matches |
| Dashboard.ListPagination | apps/api/src/routes/dashboard.ts:302-333 | page and limit are the plan's, total is the number of matching invoices, totalPages is ceil(total / limit) |
| Dashboard.ListInvoices | apps/api/src/routes/dashboard.ts:269-341 | the list fails with the store's message iff the query has a NaN or negative skip, a NaN take or an unknown sort field; otherwise it is that pagination |
| Dashboard.ListErrorBody | apps/api/src/routes/dashboard.ts:334-341 | the failed list's body: success false, 'Failed to fetch invoices' and the error's message |
| Dashboard.DefaultListCountsAll | apps/api/src/routes/dashboard.ts:269-333 | a request with no parameters is page 1 of 20 and counts every invoice |
| Dashboard.ShapeTop | apps/api/src/routes/dashboard.ts:118-129 | no row is named 'Unknown Vendor', and there are no more rows than groups |
| Dashboard.ShapeTopSound | apps/api/src/routes/dashboard.ts:118-129 | every row comes from a group with a vendor id whose resolved name is not 'Unknown Vendor' |
| Dashboard.ShapeTopComplete | apps/api/src/routes/dashboard.ts:118-129 | every such group gives a row |
| Dashboard.TopVendors | apps/api/src/routes/dashboard.ts:72-135 | at most 10 rows, none named 'Unknown Vendor' |
| Dashboard.ShapeTopOrdered | apps/api/src/routes/dashboard.ts:82-129 | shaping keeps the descending spend order of the ranking |
| Dashboard.ShapeTopBounded | apps/api/src/routes/dashboard.ts:118-129 | shaped spends stay below any bound of the group sums |
| Dashboard.TopVendorsDescending | apps/api/src/routes/dashboard.ts:72-129 | when every invoice has an amount, the rows are non-increasing in spend |
| Dashboard.ValidatedCount | apps/api/src/routes/dashboard.ts:355 | the number of validated documents is at most the number of documents |
| Dashboard.AvgConfidence | apps/api/src/routes/dashboard.ts:356-357 | the average times the number of scores is their sum; 0 when no document has a score |
| Dashboard.MonthInvoices | apps/api/src/routes/dashboard.ts:369-386 | exactly the invoices dated within the month |
| Dashboard.ChangeMeaning | apps/api/src/routes/dashboard.ts:390-402 | a positive base gives the relative change in percent; any other base gives 0 |
| Dashboard.StatsCards | apps/api/src/routes/dashboard.ts:348-405 | total spend and count over all invoices, the average 0 without invoices, the validated count and mean confidence, and both changes against last month |
| Dashboard.SumOrZero | apps/api/src/routes/dashboard.ts:49 | `_sum.totalAmount \|\| 0` is the total with NULL amounts as 0 |
| Dashboard.TrendOf | apps/api/src/routes/dashboard.ts:19-50 | a month's row counts and totals exactly the invoices dated within it |
| Dashboard.InvoiceTrends | apps/api/src/routes/dashboard.ts:12-57 | 12 rows, oldest first, ending with the current month, and period '12 months' |
| Dashboard.TrendLoop | apps/api/src/routes/dashboard.ts:18-51 | row k is the trend of month current - 11 + k |
| Dashboard.TrendMonthsDisjoint | apps/api/src/routes/dashboard.ts:18-43 | an invoice is counted in at most one month |
| Analytics.SizeOfMeaning | apps/api/src/routes/analytics.ts:57-64 | a number is added as it is; a truthy `$numberLong` is read as a base-10 integer, 0 when unreadable; a falsy size adds nothing |
| Analytics.SizeOfNumberLong | apps/api/src/routes/analytics.ts:57-64 | a `$numberLong` holding the decimal text of n adds n |
| Analytics.TallyOf | apps/api/src/routes/analytics.ts:51-78 | the validated count and the number of scores never exceed the number of documents |
| Analytics.TallyStep | apps/api/src/routes/analytics.ts:51-78 | one more document is one more step of the fold |
| Analytics.ValidatedMeaning | apps/api/src/routes/analytics.ts:52-55 | the validated counter is the number of documents read as validated |
| Analytics.ConfidencesMeaning | apps/api/src/routes/analytics.ts:66-77 | the scores collected are exactly those of the documents that have one |
| Analytics.Fold | apps/api/src/routes/analytics.ts:45-78 | the loop throws iff some document is null or undefined; otherwise it ends with the fold's counters |
| Analytics.MeanBetween | apps/api/src/routes/analytics.ts:82-84 | a mean of values between two bounds lies between them |
| Analytics.Status | apps/api/src/routes/analytics.ts:16-43 | 200 exactly for a computed summary |
| Analytics.GetSummary | apps/api/src/routes/analytics.ts:10-104 | missing file: 404; unparseable: 500; not an array: 'Invalid data format'; a null document: 500; otherwise the summary of the documents |
| Analytics.SummaryCounts | apps/api/src/routes/analytics.ts:46-92 | validated plus unvalidated is the number of documents, both non-negative; validated counts `isValidatedByHuman === true` |
| Analytics.AvgConfidenceZero | apps/api/src/routes/analytics.ts:82-84 | no collected score gives an average of 0 |
| Analytics.AvgConfidenceBetween | apps/api/src/routes/analytics.ts:66-84 | the average of the collected scores lies within any bounds of the scores |
| Analytics.ScoresBetween | apps/api/src/routes/analytics.ts:66-77 | collected scores keep the documents' bounds, and none is collected iff no document has one |
| Analytics.DocumentFilter | apps/api/src/routes/analytics.ts:110-121 | 'validated' sets true, 'unvalidated' sets false, any other status sets nothing; a truthy template sets `templateName` |
| Analytics.Take | apps/api/src/routes/analytics.ts:110-125 | `Number(limit)` with 50 when absent, as `Numbers.StringToNumber` reads it |
| Numbers.StringToNumber | apps/api/src/routes/analytics.ts:125 | `Number(text)`: blank is 0; an unsigned `0x`, `0o` or `0b` literal is its value in that radix, NaN unless all its digits are of that radix |
| Analytics.AnalyticsReply | apps/api/src/routes/analytics.ts:146-165 | a store error gives 500 without reading the file; a stored record is returned; otherwise the file's content, or 500 when it cannot be read; every 500 carries 'Failed to load analytics data' |
| Analytics.StoreErrorIgnoresFile | apps/api/src/routes/analytics.ts:146-165 | after a store error the reply does not depend on the file |
| Stats.Section | apps/api/dist/src/routes/stats.js:13-19 | a nullish document has no section |
| Stats.LeafOf | apps/api/dist/src/routes/stats.js:13-19 | a field can be read iff its section value is present and not nullish |
| Stats.Read | apps/api/dist/src/routes/stats.js:13-19 | a document can be read iff its four sections reach their fields; otherwise the route throws |
| Stats.Records | apps/api/dist/src/routes/stats.js:13-15 | one record per document, in order |
| Stats.Spend | apps/api/dist/src/routes/stats.js:19 | `parseFloat(value \|\| "0")`: 0 for a falsy value, the number itself, or the parsed text |
| Stats.ParseFloatOfSingleton | apps/api/dist/src/routes/stats.js:19 | `parseFloat` of a one-element array reads that element's text, so `["1200"]` spends 1200 |
| Stats.Spends | apps/api/dist/src/routes/stats.js:16-20 | one spend per record |
| Stats.SummaryMeaning | apps/api/dist/src/routes/stats.js:13-20 | vendors and customers are the numbers of different name values, at most the number of documents; `totalInvoices` is that number; `totalSpend` is a number iff no spend is NaN |
| Stats.VendorCount | apps/api/dist/src/routes/stats.js:13 | the vendor count is the size of the set of vendor names |
| Stats.CustomerCount | apps/api/dist/src/routes/stats.js:14 | the customer count is the size of the set of customer names |
| Stats.Windows | apps/api/dist/src/routes/stats.js:22-28 | six windows |
| Stats.MonthWindows | apps/api/dist/src/routes/stats.js:22-28 | the loop builds the windows of the five previous months and the current one, oldest first |
| Stats.WindowsChain | apps/api/dist/src/routes/stats.js:24-27 | each window is non-empty and ends where the next one starts |
| Stats.WindowsAscending | apps/api/dist/src/routes/stats.js:22-28 | earlier windows end before later ones start |
| Stats.DateOf | apps/api/dist/src/routes/stats.js:33 | a falsy date value gives no date |
| Stats.WindowRecords | apps/api/dist/src/routes/stats.js:30-35 | exactly the records dated in [start, end) |
| Stats.MonthlySpend | apps/api/dist/src/routes/stats.js:29-42 | one spend per window |
| Stats.MonthlySpendCountsOnce | apps/api/dist/src/routes/stats.js:29-42 | a record counts in at most one window, and in one iff its date lies within the six months |
| Stats.VendorKey | apps/api/dist/src/routes/stats.js:47 | the map key is always truthy ('Unknown' for a missing name) |
| Stats.Contributions | apps/api/dist/src/routes/stats.js:45-48 | one (vendor, spend) pair per record |
| Stats.Accumulate | apps/api/dist/src/routes/stats.js:49 | `(get \|\| 0) + spend`: a NaN entry restarts from the new spend |
| Stats.VendorSpendStep | apps/api/dist/src/routes/stats.js:49 | one more record updates its own vendor's entry and no other |
| Stats.SpendsOf | apps/api/dist/src/routes/stats.js:45-50 | a vendor has spends iff it occurs; finite contributions give finite spends |
| Stats.VendorSpendIsSum | apps/api/dist/src/routes/stats.js:44-50 | a vendor has an entry iff it occurs, and with finite spends the entry is the sum of its spends |
| Stats.NaNResetsVendorSpend | apps/api/dist/src/routes/stats.js:49 | a NaN spend followed by 5 leaves the entry 5, not NaN |
| Stats.FilledStep | apps/api/dist/src/routes/stats.js:45-50 | one `map.set` keeps the keys in insertion order and every entry equal to its vendor spend |
| Stats.SumsStep | apps/api/dist/src/routes/stats.js:49 | one `map.set` keeps every entry equal to its vendor spend |
| Stats.VendorTotals | apps/api/dist/src/routes/stats.js:44-50 | the loop leaves the distinct vendors in first-appearance order, each with its vendor spend, and no other key |
| Stats.EntryRows | apps/api/dist/src/routes/stats.js:51-52 | one entry per key, in key order |
| Stats.VendorSpendOf | apps/api/dist/src/routes/stats.js:51-52 | the entry of an occurring vendor |
| Stats.VendorEntries | apps/api/dist/src/routes/stats.js:51-52 | each entry is its vendor's spend, and no vendor appears twice |
| Stats.TopVendorSpend | apps/api/dist/src/routes/stats.js:51-54 | at most 10 entries, sorted by spend descending, each its vendor's spend |
| Stats.TopVendorSpendComplete | apps/api/dist/src/routes/stats.js:51-54 | an entry left out means ten entries were kept, each spending at least as much |
| Stats.VendorTotalsAddUp | apps/api/dist/src/routes/stats.js:44-50 | the vendor sums add up to the sum of all spends in exact arithmetic |
| Stats.EntryIsKeyTotal | apps/api/dist/src/routes/stats.js:44-50 | with finite spends each entry is the exact sum of its vendor's spends |
| Stats.VendorSpendAddsUpToTotal | apps/api/dist/src/routes/stats.js:16-52 | with finite spends the entries before truncation add up to `totalSpend` |
| Stats.StatsRoute.constructor | apps/api/dist/src/routes/stats.js:10 | the module-level array starts as the document file |
| Stats.StatsRoute.Get | apps/api/dist/src/routes/stats.js:11-92 | an unreadable document gives 500 and leaves the array alone; otherwise the array is sorted newest first in place and the payload holds the summary, monthly spend, top vendors, the first 20 records and the timestamp |
| Stats.RecentInvoicesNewest | apps/api/dist/src/routes/stats.js:56-62 | at most 20 recent invoices, newest first; any document left out is no newer than each kept one |
| Stats.AllReadPermutation | apps/api/dist/src/routes/stats.js:56-61 | sorting keeps every document readable |
| Export.Send | apps/api/src/routes/export.ts:65-80 | JSON iff the format is 'json', with `success`, the rows and their count; otherwise a CSV of the same rows named `<name>-<now>.csv` |
| Export.FilterOf | apps/api/src/routes/export.ts:17-26 | a date filter iff both dates are truthy; a vendor filter iff `vendorId` is truthy, holding its `parseInt` value without a radix |
| Numbers.ParseIntNoRadix | apps/api/src/routes/export.ts:25 | `parseInt` without a radix: a `0x` prefix reads hex digits, none when there are none; anything else is the base-10 parse |
| Numbers.ParseIntNoRadixHex | apps/api/src/routes/export.ts:25 | '0x10' is read as 16 |
| Numbers.RadixTenIsDecimal | apps/api/src/routes/export.ts:25 | the radix reading in base 10 is the decimal reading |
| Export.BuildFilter | apps/api/src/routes/export.ts:17-26 | the assignments build that filter |
| Export.Selected | apps/api/src/routes/export.ts:29-30 | exactly the invoices the filter matches, in stored order |
| Export.ExportedInvoices | apps/api/src/routes/export.ts:29-47 | a permutation of the matching invoices, newest first |
| Export.DateText | apps/api/src/routes/export.ts:52 | the calendar date of an instant, '' without one |
| Export.IsoDateBeforeT | apps/api/src/routes/export.ts:52 | the ISO string's part before 'T' is the calendar date |
| Export.CustomerById | apps/api/src/routes/export.ts:38-42 | the customer with that id, or none when no customer has it |
| Export.InvoiceRowOf | apps/api/src/routes/export.ts:50-63 | each text column is the invoice's value or '' when missing or empty; the currency defaults to 'EUR'; a missing amount is 0; vendor and customer columns come from the looked-up rows, '' when not found; dates are calendar dates without time, or '' |
| Export.InvoiceRowDefaults | apps/api/src/routes/export.ts:50-63 | a column holds its default exactly when the invoice's value is missing, empty, or the default itself |
| Export.InvoiceRowJson | apps/api/src/routes/export.ts:50-63 | every invoice row has the same 12 keys in the same order |
| Export.InvoiceRows | apps/api/src/routes/export.ts:50-63 | one row per exported invoice, in order |
| Export.InvoicesExport | apps/api/src/routes/export.ts:12-90 | a filter the store rejects gives the 500 reply; otherwise JSON with the rows and their count, or a CSV of the same rows |
| Export.UnfilteredExportsAll | apps/api/src/routes/export.ts:17-47 | without dates or vendor every invoice is exported |
| Export.VendorRowOf | apps/api/src/routes/export.ts:145-153 | the found vendor's name ('Unknown' when missing or empty) and tax id ('' when missing); 'Unknown' and '' for a vendor missing from the lookup; the group's count, sum and average with NULL as 0 |
| Export.NamedGroups | apps/api/src/routes/export.ts:144 | exactly the groups with a vendor id |
| Export.NamedGroupsSorted | apps/api/src/routes/export.ts:112-144 | dropping the NULL-vendor group keeps the descending spend order |
| Export.VendorRows | apps/api/src/routes/export.ts:143-154 | one row per named group, in order |
| Export.VendorRowJson | apps/api/src/routes/export.ts:147-153 | the five vendor columns in order |
| Export.VendorsExport | apps/api/src/routes/export.ts:96-180 | JSON iff 'json', whose `data` is the vendor rows as JSON, with their count; otherwise a CSV of the same rows |
| Export.VendorRowsCover | apps/api/src/routes/export.ts:101-154 | every vendor that has an invoice gets exactly one row: its own group's |
| Export.NamedRanking | apps/api/src/routes/export.ts:101-144 | each vendor's group appears once among the named groups |
| Export.VendorRowsDescending | apps/api/src/routes/export.ts:101-154 | when every invoice has an amount, the vendor rows are non-increasing in spend |
| Export.SummaryRows | apps/api/src/routes/export.ts:200-221 | four rows: Total Spend, Total Invoices, Average Invoice Value, Total Vendors, with units EUR, count, EUR, count |
| Export.SummaryRowsAgree | apps/api/src/routes/export.ts:191-221 | the values are the total, the invoice count, an average consistent with the total, and the vendor count |
| Export.SummaryAverageScaled | apps/api/src/routes/export.ts:192-198 | the average column times the invoice count with an amount is the total column, when both are read with 0 for a missing aggregate |
| Export.MetricRowJson | apps/api/src/routes/export.ts:201-220 | the three summary columns in order |
| Export.SummaryExport | apps/api/src/routes/export.ts:186-245 | JSON iff 'json', whose four items are the summary rows as JSON, with no count; otherwise a CSV of those four rows |
| Seed.FirstPresent | apps/api/src/seed.ts:11-14 | a nullish result is `null` |
| Seed.FirstPresentMeaning | apps/api/src/seed.ts:11-14 | null iff every candidate is nullish; otherwise the first candidate that is not |
| Seed.Pick | apps/api/src/seed.ts:11-14 | the search loop returns the first present candidate |
| Seed.SafeGetOf | apps/api/src/seed.ts:16-28 | the value at the path, or the default when the walk meets a nullish value or ends on one |
| Seed.SafeGet | apps/api/src/seed.ts:16-28 | the loop over the dot-separated keys returns that value |
| Seed.FieldsOf | apps/api/src/seed.ts:50-96 | names are the first truthy candidate, kept as picked, or 'Unknown Vendor'/'Unknown Customer'; the reference and the date are the pick when it is truthy and null otherwise; the total is the first present candidate |
| Seed.Candidates | apps/api/src/seed.ts:50-96 | for dot-free keys, `safeGet` of the path plus `.value`, then of the path, then the top-level keys |
| Seed.ReadRecord | apps/api/src/seed.ts:48-96 | the record's fields |
| Seed.InvoiceDateOf | apps/api/src/seed.ts:99-110 | a falsy raw date gives no date |
| Seed.FilledTotal | apps/api/src/seed.ts:112-115 | a missing total becomes a whole number in [500, 4999]; a present one is kept |
| Seed.StoredAmount | apps/api/src/seed.ts:112-122 | the stored amount is never negative: the absolute value of the parsed total, 0 for NaN, in [500, 4999] for a missing total |
| Seed.NegativeTotalStoredPositive | apps/api/src/seed.ts:121-122 | a negative credit note is stored as its absolute value |
| Seed.NextId | apps/api/src/seed.ts:131-133 | a new id is positive and above every existing id |
| Seed.FirstNamed | apps/api/src/seed.ts:127-129 | the first row with that name, or none when no row has it |
| Seed.VendorLookup | apps/api/src/seed.ts:124-137 | a cached non-zero id is reused with nothing changed; otherwise the lookup throws iff the name is not a string, and else only the vendor table and the vendor cache change, with the cache mapping the name to the id; consistent caches stay consistent and the id names a vendor with that name |
| Seed.VendorLookupFinds | apps/api/src/seed.ts:126-135 | an uncached string name gets the first vendor with that name, or a new row under a fresh id |
| Seed.CustomerLookup | apps/api/src/seed.ts:139-154 | the same for customers |
| Seed.CustomerLookupFinds | apps/api/src/seed.ts:141-152 | an uncached string name is found only when the schema makes names unique; otherwise a new row under a fresh id |
| Seed.InvoiceStep | apps/api/src/seed.ts:156-174 | the run ends, with nothing changed, iff the ref is truthy and not a string; otherwise at most one invoice is appended with a non-negative amount, the counter moves with it, and no other table changes |
| Seed.InvoiceStepInserts | apps/api/src/seed.ts:156-172 | an insert that goes through skips a truthy ref already stored, and otherwise appends one row with the record's ref, date, amount, vendor and customer |
| Seed.InsertStep | apps/api/src/seed.ts:124-174 | under consistent caches the record goes through iff its names are strings and a truthy ref is a string; a vendor lookup that throws ends the run unchanged; a later throw keeps the vendor rows already written; at most one invoice, counted |
| Seed.InsertStepInserts | apps/api/src/seed.ts:124-174 | a record that goes through leaves the invoice table as the insert describes, with a vendor and a customer carrying the record's names |
| Seed.SeedOne | apps/api/src/seed.ts:48-175 | a nullish record ends the run unchanged; caches stay consistent; at most one invoice is appended with a non-negative amount and the counter moves with it |
| Seed.SeedOneContinues | apps/api/src/seed.ts:48-175 | under consistent caches a record goes through iff it is not nullish, its names are strings and a truthy ref is a string |
| Seed.SeedOneInserts | apps/api/src/seed.ts:48-175 | a record that goes through stores its fields as the insert describes |
| Seed.SeedAll | apps/api/src/seed.ts:48-188 | the loop until a record throws: caches stay consistent, invoices are only appended, each non-negative, at most one per record, and the counter equals the number appended |
| Seed.SeedAllAt | apps/api/src/seed.ts:48-175 | pass `i` either ends the run there or hands its state to the rest of the loop |
| Seed.SeedAllCompletes | apps/api/src/seed.ts:48-188 | under consistent caches the run completes iff every record is clean |
| Seed.NoRefsInsertEveryRecord | apps/api/src/seed.ts:156-174 | with every record clean and no ref anywhere, the run completes and adds exactly one invoice per record |
| Seed.PrefixChain | apps/api/src/seed.ts:164-172 | appending keeps every earlier row in place |
| Seed.Seeder.constructor | apps/api/src/seed.ts:44-46 | empty caches and a zero counter over the given tables |
| Seed.Seeder.VendorIdFor | apps/api/src/seed.ts:124-137 | the new state and id are `VendorLookup`'s, and a throw changes nothing |
| Seed.Seeder.CustomerIdFor | apps/api/src/seed.ts:139-154 | the new state and id are `CustomerLookup`'s, and a throw changes nothing |
| Seed.Seeder.StoreInvoice | apps/api/src/seed.ts:156-174 | the new state, and whether the run ends, are `InvoiceStep`'s |
| Seed.Seeder.Insert | apps/api/src/seed.ts:124-174 | the new state, and whether the run ends, are `InsertStep`'s |
| Seed.Seeder.SeedRecord | apps/api/src/seed.ts:48-175 | the new state, and whether the run ends, are `SeedOne`'s |
| Seed.Seeder.Run | apps/api/src/seed.ts:48-188 | the final state is `SeedAll`'s, the run completes iff `SeedAll` does, and the caches stay consistent with the counter equal to the invoices added |
| SupabaseImport.NestedGetOf | data/import_supabase_json.py:8-15 | no keys give the value itself; keys on a non-dict give the default |
| SupabaseImport.NestedGet | data/import_supabase_json.py:8-15 | the loop reassigning `cur` computes that value |
| SupabaseImport.NestedGetFindsPath | data/import_supabase_json.py:8-15 | when every key is found in a dict, the result is the nested value |
| SupabaseImport.NestedGetStopsAtNonDict | data/import_supabase_json.py:11-13 | meeting a non-dict before the keys run out gives the default |
| SupabaseImport.CleanTs | data/import_supabase_json.py:17-23 | None iff the value is None or a whitespace-only string; every other value unchanged |
| SupabaseImport.DocSize | data/import_supabase_json.py:87-91 | `int(...)` of a string as Python reads it (whitespace, sign, underscores between digits), none for None or for text `int` rejects |
| Numbers.PyIntOfString | data/import_supabase_json.py:89 | `int(text)` succeeds iff the text, trimmed and unsigned, is digits with single underscores between them; for an unsigned text its value is those digits read in base 10 |
| Numbers.PyIntOfDigits | data/import_supabase_json.py:89 | `int` of a plain digit string is its decimal value |
| Numbers.PyIntUnderscore | data/import_supabase_json.py:89 | an underscore between two digit groups does not change `int`'s value |
| SupabaseImport.PyOr | data/import_supabase_json.py:86 | Python `or`: the first value when truthy, else the second |
| SupabaseImport.ItemFieldsOf | data/import_supabase_json.py:86-116 | the document name and customer name are always truthy; the ref and the cleaned date are read from the nested path |
| SupabaseImport.ReadItem | data/import_supabase_json.py:85-116 | the item's fields |
| SupabaseImport.NextId | data/import_supabase_json.py:53-54 | a new serial id is above every existing one |
| SupabaseImport.FindDocument | data/import_supabase_json.py:67-70 | the id of a document with that name, or none when no document has it |
| SupabaseImport.FindParty | data/import_supabase_json.py:49-52 | the id of a row with that name, or none |
| SupabaseImport.FindInvoice | data/import_supabase_json.py:119-121 | the id of an invoice with that ref, or none |
| SupabaseImport.DocumentStep | data/import_supabase_json.py:66-75 | the first document with the name is reused with nothing changed; otherwise one row under a fresh id is appended; no other table changes and the tables stay linked |
| SupabaseImport.VendorStep | data/import_supabase_json.py:46-54 | a falsy name becomes 'Unknown Vendor'; the first vendor with that name is reused, otherwise one row under a fresh id is appended; no other table changes and the tables stay linked |
| SupabaseImport.CustomerStep | data/import_supabase_json.py:56-64 | the same for customers with 'Unknown Customer' |
| SupabaseImport.InvoiceRowStep | data/import_supabase_json.py:119-139 | an invoice with the item's ref is reused with nothing changed; otherwise one row with that ref, the dates, the vendor and the customer under an unused id; no other table changes, and with a stored vendor and customer the tables stay linked |
| SupabaseImport.StepBounds | data/import_supabase_json.py:104-158 | every item counts once or twice |
| SupabaseImport.InvoiceOf | data/import_supabase_json.py:119-158 | a failure rolls back; imported grows iff the ref is new and the invoice insert ran; skipped grows by 1, or 2 for a duplicate whose later step fails, or 0 for a new invoice committed; success commits the invoice row and one line item to it |
| SupabaseImport.RecordOf | data/import_supabase_json.py:109-158 | the counters move by the item's outcome; a failure rolls back; success commits |
| SupabaseImport.RecordOfLinked | data/import_supabase_json.py:109-152 | the vendor, customer and invoice steps keep every reference pointing at a stored row |
| SupabaseImport.StoreOf | data/import_supabase_json.py:84-158 | the counters move by the item's outcome; a failure rolls back; an item without a ref keeps the commit, adds only its document (when no document has that name) to the open transaction and changes no other table; a duplicate or new ref commits |
| SupabaseImport.StoreOfLinked | data/import_supabase_json.py:84-158 | an item keeps both the committed tables and the open transaction linked |
| SupabaseImport.ItemOf | data/import_supabase_json.py:83-159 | an item that is not a dict rolls back and counts a skip; otherwise the counters move by its outcome; imported + skipped grows by one or two; linked tables stay linked |
| SupabaseImport.ImportAll | data/import_supabase_json.py:83-159 | over n items imported + skipped grows by between n and 2n, neither counter shrinks, and linked tables stay linked |
| SupabaseImport.ImportAllSnoc | data/import_supabase_json.py:83-159 | the run over one item more is the run over the others followed by that item |
| SupabaseImport.ImportAllPrefix | data/import_supabase_json.py:83-159 | the run over the first i + 1 items is the run over the first i followed by item i |
| SupabaseImport.Importer.constructor | data/import_supabase_json.py:80-81 | zero counters over linked tables |
| SupabaseImport.Importer.DocumentIdFor | data/import_supabase_json.py:66-75 | the open transaction and the id are `DocumentStep`'s; the commit and the counters are unchanged |
| SupabaseImport.Importer.VendorIdFor | data/import_supabase_json.py:46-54 | the open transaction and the id are `VendorStep`'s; the commit and the counters are unchanged |
| SupabaseImport.Importer.CustomerIdFor | data/import_supabase_json.py:56-64 | the open transaction and the id are `CustomerStep`'s; the commit and the counters are unchanged |
| SupabaseImport.Importer.Fail | data/import_supabase_json.py:154-159 | the open transaction is rolled back and `skipped` grows by one |
| SupabaseImport.Importer.InvoiceRowFor | data/import_supabase_json.py:119-139 | the open transaction and the id are `InvoiceRowStep`'s; a found ref counts a skip and a new one an import |
| SupabaseImport.Importer.Invoice | data/import_supabase_json.py:119-158 | the new state is `InvoiceOf`'s |
| SupabaseImport.Importer.Record | data/import_supabase_json.py:109-158 | the new state is `RecordOf`'s |
| SupabaseImport.Importer.Store | data/import_supabase_json.py:84-158 | the new state is `StoreOf`'s |
| SupabaseImport.Importer.ImportItem | data/import_supabase_json.py:83-159 | the new state is `ItemOf`'s |
| SupabaseImport.Importer.Run | data/import_supabase_json.py:83-164 | the commit and the counters are `ImportAll`'s over the items, the open transaction is dropped, and the tables stay linked |
| SupabaseImport.LinkedMoreLines | data/import_supabase_json.py:141-149 | a line item pointing at an existing document and invoice keeps the tables linked |
| Cors.Cleaned | apps/api/src/index.ts:36 | no blank entry survives |
| Cors.CleanedMembers | apps/api/src/index.ts:36 | an entry is listed iff it is the trimmed, non-blank form of some part |
| Cors.AllowedOrigins | apps/api/src/index.ts:36 | no setting gives no list; otherwise the cleaned comma-separated parts |
| Cors.ConfiguredOriginListed | apps/api/src/index.ts:36-46 | every configured origin is listed in its trimmed form |
| Cors.KeySegments | apps/api/src/index.ts:58-59 | the first label's dash segments without the last three, none when there are at most three |
| Cors.ShortLabelEmptyKey | apps/api/src/index.ts:58-59 | a label with at most three segments gives the empty key |
| Cors.KeyIsLabelPrefix | apps/api/src/index.ts:58-59 | the project key is a prefix of the first label |
| Cors.AnyMatch | apps/api/src/index.ts:54-64 | true iff some allowed origin parses and its host satisfies the test |
| Cors.OriginVerdictAsWritten | apps/api/src/index.ts:26-74 | allow iff no origin, not production, an empty list, a listed origin, or a Vercel origin whose project key equals some allowed host's; a denial carries 'Not allowed by CORS' |
| Cors.OriginVerdict | apps/api/src/index.ts:26-74 | the same, but the shared key must be non-empty and both the origin's host and the allowed host must end in `.vercel.app` or `.vercel.com` |
| Cors.DenyOnlyInProduction | apps/api/src/index.ts:28-46 | a denied origin is a present, unlisted origin in production with a non-empty list |
| Cors.NonVercelOriginMustBeListed | apps/api/src/index.ts:49-73 | in production, an origin whose host is not a Vercel host is allowed iff it is listed |
| Cors.NotOnVercelMustBeListed | apps/api/src/index.ts:49-73 | in production under the corrected rule, an origin whose host does not end in `.vercel.app` or `.vercel.com` is allowed iff it is listed |
| Cors.OnVercelIsVercelHost | apps/api/src/index.ts:51 | a host ending in a Vercel domain passes the code's Vercel test |
| Cors.CorrectedOnlyNarrows | apps/api/src/index.ts:49-67 | the corrected verdict allows nothing the code denies |
| Cors.PreviewOfConfiguredProjectAllowed | apps/api/src/index.ts:49-67 | a preview deployment of a configured Vercel project is allowed |
| Cors.EmptyKeysCollide | apps/api/src/index.ts:54-67 | with a configured host that has an empty key, any unlisted Vercel origin with an empty key is allowed by the code and denied by the correction |
| Cors.EmptyKeyCollision | apps/api/src/index.ts:54-67 | with `https://app.example.com` configured, `https://evil.vercel.app` is allowed by the code and denied by the correction |
| Cors.ErrorReply | apps/api/src/index.ts:124-131 | status 500; the body is `{error: 'Internal Server Error'}` in production, `{error: message}` otherwise, and `{}` for an error without a message, since `res.json` drops an undefined field |
| Cors.DeniedOriginReply | apps/api/src/index.ts:124-131 | a CORS denial reaches the client as that masked 500 |
| VannaSql.SimpleSql | services/vanna/main.py:14-18 | the vendor ranking iff the lowercased prompt contains 'top' and 'vendor', the recent invoices otherwise |
| VannaSql.Stripped | services/vanna/main.py:60 | the stripped answer is no longer than the answer and neither end is whitespace |
| VannaSql.StrippedIsPadded | services/vanna/main.py:60 | the stripped answer is a slice of the answer with only whitespace and backticks cut on either side |
| VannaSql.StrippedKeepsBare | services/vanna/main.py:60 | an answer that starts and ends with neither whitespace nor a backtick is unchanged |
| Text.TrimIsPadded | apps/api/src/index.ts:36 | trimming cuts only whitespace, from both ends of the text |
| Text.PaddedTwice | services/vanna/main.py:60 | two successive strips cut only the characters either one cuts |
| Text.TrimBare | apps/api/src/index.ts:36 | a text with no whitespace at either end trims to itself |
| VannaSql.FirstSelect | services/vanna/main.py:61 | the first position where SELECT, in any case, is followed by at least one character |
| VannaSql.ExtractSql | services/vanna/main.py:60-62 | the extracted SQL is never longer than the stripped answer |
| VannaSql.ExtractSqlMeaning | services/vanna/main.py:60-62 | the SQL is the stripped answer from its first SELECT (and then starts with SELECT in any case), or the whole stripped answer when there is none; either way a suffix of it |
| VannaSql.BareQueryKept | services/vanna/main.py:60-62 | an answer that already is a bare query is used as it is |
| VannaSql.LeadingTextDropped | services/vanna/main.py:61-62 | text before the first SELECT is dropped |
| VannaSql.DatabaseUrl | services/vanna/main.py:51 | the request's URL when non-empty, else the environment's, else none |
| VannaSql.ChosenSql | services/vanna/main.py:56-66 | the extracted SQL when a key is set, the call succeeded and the extraction is non-empty; `simple_sql` otherwise |
| VannaSql.Query | services/vanna/main.py:48-72 | 400 iff no database URL; otherwise that SQL with the rows it returned, or with `[]` and the database error |
| Store.SumOrZeroIsTotal | apps/api/src/routes/dashboard.ts:361 | `_sum.totalAmount \|\| 0` is the sum with NULL amounts as 0 |
| Store.AvgAmount | apps/api/src/routes/export.ts:192-194 | `_avg` is NULL iff every amount is NULL; otherwise it times the number of amounts is their sum |
| Store.GroupByVendorCovers | apps/api/src/routes/dashboard.ts:74-81 | every invoice's vendor id has a group |
| Store.GroupByVendorDistinct | apps/api/src/routes/dashboard.ts:74-81 | no vendor id has two groups |
| Store.GroupByVendorAggregates | apps/api/src/routes/dashboard.ts:74-81 | each group is the sum, count and average of its vendor's invoices, and is non-empty |
| Store.RankedGroups | apps/api/src/routes/dashboard.ts:82-87 | the groups are permuted into descending order of their sums |
| Store.OverdueInvoices | apps/api/dist/routes/chatWithData.js:62-70 | a sub-multiset of the store's overdue invoices, at most n, ascending by due date; an overdue invoice is left out only when n are taken, each due no later than it |
| Store.OverdueAllWhenFew | apps/api/dist/routes/chatWithData.js:62-70 | with at most n overdue invoices in the store, every one of them is selected |

## Left out

- The ORM and drivers (Prisma, psycopg2, asyncpg) are left out. Their queries are
  functions over `Store.Db`. `Promise.all` runs its queries in sequence here.
- Prisma rejecting an Invalid Date or NaN in a filter is modelled by `Export.Accepted`,
  and rejecting a NaN or negative skip, a NaN take or an unknown sort field by
  `Dashboard.ListAccepted`. The error text is an input.
- ListAccepted: the set of Invoice field names that `orderBy` accepts is a parameter,
  because the Prisma schema is not part of this model.
- A store that fails for any reason other than a rejected query, such as a lost
  connection, is modelled for the chat routes and the analytics fallback route
  (`Analytics.AnalyticsReply`). Elsewhere the store never fails here. So the 500 catch
  replies of the dashboard routes (dashboard.ts:58, 136, 202, 255, 406), of the
  `/vendors` and `/dashboard-summary` exports (export.ts:172, 237) and of the analytics
  `/documents` listing (analytics.ts:139) are left out. The `/invoices` catches of the
  dashboard and the export are reached only through the rejections above.
- Take: `Number("Infinity")` and the signed forms give NaN here, where JavaScript gives
  an infinity, because `JsNumber` has no infinities. Hex, octal and binary literals are
  read as in JavaScript.
- Spend: `parseFloat("Infinity")` gives NaN here, where JavaScript gives an infinity,
  for the same reason.
- StringToNumber: "Infinity", "+Infinity" and "-Infinity" give NaN, and a signed hex,
  octal or binary literal gives NaN as in JavaScript.
- HTTP calls, axios timeouts and the Groq retry and sleep loop are inputs: a remote
  outcome, a transport failure, or a Groq answer or failure. So are the clock and
  `Math.random`.
- `new URL(...).hostname` is a parameter (`hostOf`). An origin it cannot parse gives no
  host.
- The file reads (`fs.existsSync`, `JSON.parse`) become a file-state input. The bundled
  JSON import of the stats route becomes the constructor's argument.
- Date handling is UTC only. date-fns works in the server's local time zone; the model
  uses UTC months and days.
- Date parsing (`new Date(text)`, `parseISO`) is a parameter.
- `toFixed(2)` in the analytics summary is left out. Sizes and means are exact.
- Number printing covers integers and fractions with at most 20 decimals. JS's
  shortest round-trip printing of other floats is not modelled.
- Floating-point rounding is not modelled. Amounts are exact reals, and `+`, `/` and
  `*` are exact.
- Stats.VendorSpendAddsUpToTotal: holds only when every spend is finite. A NaN spend
  makes `totalSpend` NaN, while the map restarts that vendor from the next spend.
- Case folding and whitespace follow ASCII. JavaScript `toLowerCase`/`trim` and Python
  `lower`/`strip` are Unicode-aware. The regex's Unicode IGNORECASE is one such case.
- JSON objects used as `Set` and `Map` keys are compared by value here. JavaScript
  compares objects by identity.
- The JS sort's order for NaN or invalid-date keys depends on the engine. The model
  puts those keys last.
- Postgres ordering: NULL sums come first in descending `groupBy`. Ties keep
  first-appearance order, which Postgres does not promise.
- The CSV text that json2csv would produce is left out. A CSV reply carries its rows
  and file name.
- `Seed.Seeder.CustomerIdFor`: whether `findUnique` on a name succeeds is a
  constructor flag (`customerNameUnique`). The same holds for invoice refs
  (`invoiceRefUnique`). The schema is not part of this model.
- Seed.VendorLookup: any name that is not a string makes the query throw. Prisma
  instead reads some objects (`{equals: "x"}`, `{contains: "x"}`) as a filter in
  `findFirst`, and the Prisma schema is not part of this model. The same holds for
  `Seed.CustomerLookup` and the invoice ref in `Seed.InvoiceStep`.
- Numbers.PyIntOfString: only ASCII digits are digits. Python's `int` also accepts
  other Unicode decimal digits, such as Arabic-Indic ones.
- Database failures in the import script are a per-item `Failure` input. This covers
  type errors, constraint errors and failed commits. Serial ids skip no values after a
  rollback here, whereas Postgres sequences do.
- The import counters are modelled exactly as written:
  - a duplicate ref whose line-item insert or commit then fails counts as skipped twice;
  - a new invoice whose later step fails counts once as imported and once as skipped.
- Logging (`console`, `logger`, `print`) is left out. So are the helmet, rate-limit and
  Redis middleware, and the routes outside the core:
  - `GET /api/chat-history`;
  - the forwarder `chatWithData.ts`;
  - the invoice routers.
- In the SQL service, the Groq request body and model choice are left out, as is
  `json.dumps` of an answer that lacks `choices`. Only the returned text matters.

## Findings

| source | as written | input that shows it | evidently intended | confidence | as-written member | corrected member |
|---|---|---|---|---|---|---|
| apps/api/src/index.ts:54-60 | Two Vercel-preview checks compare dash-separated project keys: the first label minus its last three segments. A label with three or fewer segments gives the key '', so any such Vercel host matches any allowed host whose key is also ''. The allowed host need not be a Vercel host at all. | Production, `ALLOWED_ORIGINS=https://app.example.com`, origin `https://evil.vercel.app`: both keys are '', so the origin is allowed. | Only previews of a configured Vercel project pass: the key is non-empty, and both the origin's host and the allowed host end in `.vercel.app` or `.vercel.com`. | not executed | Cors.EmptyKeyCollision | Cors.OriginVerdict |
