/** The analytics routes: the summary folded over the bundled document file, the filter of
    the document listing, and the analytics record with the file as its fallback. */
module Analytics {
  import opened Wrappers
  import opened Numbers
  import opened JsonValues
  import opened Text

  // ---- what one document contributes ----

  /** `doc.isValidatedByHuman === true`: only the boolean `true` counts. */
  predicate Validated(doc: Json) {
    Get(doc, "isValidatedByHuman") == Bool(true)
  }

  /** `parseInt(x, 10) || 0`: the text of `x` read as a base-10 integer, NaN read as 0. */
  function LongValue(x: Json): int {
    ParseInt(TemplateText(x)).GetOr(0)
  }

  /** What `doc.fileSize` adds to `totalSizeBytes`: a number as it is, a truthy `$numberLong`
      read as an integer, anything else nothing. */
  function SizeOf(doc: Json): real {
    var size := Get(doc, "fileSize");
    if !Truthy(size) then 0.0
    else if size.Num? then size.n
    else if Truthy(Get(size, "$numberLong")) then LongValue(Get(size, "$numberLong")) as real
    else 0.0
  }

  /** A number is added as it is; otherwise a truthy `$numberLong` is read as a base-10
      integer, 0 when it is none; a falsy `fileSize` adds nothing. */
  lemma SizeOfMeaning(doc: Json)
    ensures !Truthy(Get(doc, "fileSize")) ==> SizeOf(doc) == 0.0
    ensures Get(doc, "fileSize").Num? ==> SizeOf(doc) == Get(doc, "fileSize").n
    ensures var size := Get(doc, "fileSize"); var long := Get(size, "$numberLong");
      Truthy(size) && !size.Num? && Truthy(long) ==>
        SizeOf(doc) == (if ParseInt(TemplateText(long)).Some? then ParseInt(TemplateText(long)).value as real else 0.0)
    ensures var size := Get(doc, "fileSize");
      !size.Num? && !Truthy(Get(size, "$numberLong")) ==> SizeOf(doc) == 0.0
  {
  }

  /** A size stored as MongoDB's `{ "$numberLong": "<digits>" }` is read back as the number
      it encodes. */
  lemma SizeOfNumberLong(doc: Json, n: nat)
    requires Get(doc, "fileSize") == Obj([("$numberLong", Str(NatToString(n)))])
    ensures SizeOf(doc) == n as real
  {
    var size := Get(doc, "fileSize");
    GetAt(size, 0);
    assert NatToString(n) != "";
    ParseIntOfNatToString(n);
  }

  /** `doc.extractedData?.llmData?.invoice?.value?.invoiceId?.confidence`. */
  function ConfidenceField(doc: Json): Json {
    OptPath(doc, ["extractedData", "llmData", "invoice", "value", "invoiceId", "confidence"])
  }

  /** The score a document adds to `confidenceScores`: its confidence when that is truthy and
      `parseFloat` reads a number from it. */
  function ConfidenceOf(doc: Json): Option<real> {
    var field := ConfidenceField(doc);
    if Truthy(field) && ParseFloat(TemplateText(field)).Finite? then Some(ParseFloat(TemplateText(field)).value)
    else None
  }

  // ---- the fold ----

  /** What one document adds to the three accumulators. */
  datatype Entry = Entry(validated: bool, size: real, score: Option<real>)

  function EntryOf(doc: Json): Entry {
    Entry(Validated(doc), SizeOf(doc), ConfidenceOf(doc))
  }

  /** `validatedFiles`, `totalSizeBytes` and `confidenceScores`. */
  datatype Tally = Tally(validated: nat, sizeBytes: real, confidences: seq<real>)

  /** One step of the `forEach`. */
  function Add(t: Tally, e: Entry): Tally {
    Tally(t.validated + (if e.validated then 1 else 0), t.sizeBytes + e.size,
          t.confidences + if e.score.Some? then [e.score.value] else [])
  }

  /** The accumulators after the documents `docs`, in order, each read by `read` (the route
      reads with `EntryOf`). */
  function TallyOf(docs: seq<Json>, read: Json -> Entry): (t: Tally)
    ensures t.validated <= |docs| && |t.confidences| <= |docs|
  {
    if docs == [] then Tally(0, 0.0, []) else Add(TallyOf(docs[..|docs| - 1], read), read(docs[|docs| - 1]))
  }

  lemma TallyStep(docs: seq<Json>, read: Json -> Entry, i: nat)
    requires i < |docs|
    ensures TallyOf(docs[..i + 1], read) == Add(TallyOf(docs[..i], read), read(docs[i]))
  {
    assert docs[..i + 1][..i] == docs[..i];
  }

  /** The validated count is the number of documents read as validated. */
  lemma {:induction false} ValidatedMeaning(docs: seq<Json>, read: Json -> Entry)
    ensures TallyOf(docs, read).validated == |set k | 0 <= k < |docs| && read(docs[k]).validated|
  {
    if docs != [] {
      var p := docs[..|docs| - 1];
      ValidatedMeaning(p, read);
      var s := set k | 0 <= k < |p| && read(p[k]).validated;
      assert s == set k | 0 <= k < |p| && read(docs[k]).validated;
      if read(docs[|p|]).validated {
        assert (set k | 0 <= k < |docs| && read(docs[k]).validated) == s + {|p|};
      } else {
        assert (set k | 0 <= k < |docs| && read(docs[k]).validated) == s;
      }
    }
  }

  /** Every score is the score of some document, and every document's score is collected. */
  lemma {:induction false} ConfidencesMeaning(docs: seq<Json>, read: Json -> Entry)
    ensures forall c :: c in TallyOf(docs, read).confidences ==>
      exists k :: 0 <= k < |docs| && read(docs[k]).score == Some(c)
    ensures forall k :: 0 <= k < |docs| && read(docs[k]).score.Some? ==>
      read(docs[k]).score.value in TallyOf(docs, read).confidences
  {
    if docs != [] {
      var p := docs[..|docs| - 1];
      ConfidencesMeaning(p, read);
      assert forall k :: 0 <= k < |p| ==> p[k] == docs[k];
    }
  }

  /** Some document is `null` or `undefined`, and reading its `isValidatedByHuman` throws. */
  predicate HasNullish(docs: seq<Json>) {
    exists k :: 0 <= k < |docs| && Nullish(docs[k])
  }

  /** The `forEach` that updates `validatedFiles`, `totalSizeBytes` and `confidenceScores`;
      `None` when it throws on a `null` document. */
  method Fold(docs: seq<Json>, read: Json -> Entry) returns (r: Option<Tally>)
    ensures r.None? <==> HasNullish(docs)
    ensures r.Some? ==> r.value == TallyOf(docs, read)
  {
    var validated: nat, sizeBytes, scores := 0, 0.0, [];
    var i := 0;
    while i < |docs|
      invariant 0 <= i <= |docs|
      invariant forall k :: 0 <= k < i ==> !Nullish(docs[k])
      invariant Tally(validated, sizeBytes, scores) == TallyOf(docs[..i], read)
    {
      var doc := docs[i];
      if Nullish(doc) {
        return None;
      }
      TallyStep(docs, read, i);
      var e := read(doc);
      if e.validated {
        validated := validated + 1;
      }
      sizeBytes := sizeBytes + e.size;
      if e.score.Some? {
        scores := scores + [e.score.value];
      }
      i := i + 1;
    }
    assert docs[..|docs|] == docs;
    return Some(Tally(validated, sizeBytes, scores));
  }

  // ---- the summary route ----

  /** `reduce((sum, score) => sum + score, 0)`. */
  function RealSum(xs: seq<real>): real {
    if xs == [] then 0.0 else RealSum(xs[..|xs| - 1]) + xs[|xs| - 1]
  }

  /** A mean of values between `lo` and `hi` lies between them too. */
  lemma MeanBetween(xs: seq<real>, lo: real, hi: real)
    requires xs != [] && forall k :: 0 <= k < |xs| ==> lo <= xs[k] <= hi
    ensures lo <= Mean(RealSum(xs), |xs|) <= hi
  {
    SumBetween(xs, lo, hi);
    MeanTimesCount(RealSum(xs), |xs|);
  }

  lemma {:induction false} SumBetween(xs: seq<real>, lo: real, hi: real)
    requires forall k :: 0 <= k < |xs| ==> lo <= xs[k] <= hi
    ensures |xs| as real * lo <= RealSum(xs) <= |xs| as real * hi
  {
    if xs != [] {
      SumBetween(xs[..|xs| - 1], lo, hi);
    }
  }

  /** The file as the route finds it: absent, not JSON, or parsed. */
  datatype FileState = Missing | Unparseable | Parsed(content: Json)

  datatype SummaryReply =
    | NotFound
    | ParseError
    | InvalidFormat
    | Failed
    | Summary(totalFiles: nat, validatedFiles: nat, unvalidatedFiles: int, totalSizeKB: real, avgConfidence: real)

  function Status(reply: SummaryReply): (status: nat)
    ensures reply.Summary? <==> status == 200
  {
    match reply
    case NotFound => 404
    case Summary(_, _, _, _, _) => 200
    case _ => 500
  }

  /** The `error` text of a failed reply. */
  function ErrorText(reply: SummaryReply): string
    requires !reply.Summary?
  {
    match reply
    case NotFound => "Analytics data file not found"
    case ParseError => "Failed to parse analytics data"
    case InvalidFormat => "Invalid data format"
    case Failed => "Failed to fetch analytics data"
  }

  /** The summary of documents none of which is `null`. */
  function SummaryOf(docs: seq<Json>): SummaryReply {
    var t := TallyOf(docs, EntryOf);
    Summary(|docs|, t.validated, |docs| - t.validated, t.sizeBytes / 1024.0,
            Mean(RealSum(t.confidences), |t.confidences|))
  }

  /** `GET /summary`. The sizes and the mean are exact: `toFixed(2)` is left out. */
  method GetSummary(file: FileState) returns (reply: SummaryReply)
    ensures file.Missing? ==> reply == NotFound
    ensures file.Unparseable? ==> reply == ParseError
    ensures file.Parsed? && !file.content.Arr? ==> reply == InvalidFormat
    ensures file.Parsed? && file.content.Arr? && HasNullish(file.content.items) ==> reply == Failed
    ensures file.Parsed? && file.content.Arr? && !HasNullish(file.content.items) ==>
      reply == SummaryOf(file.content.items)
  {
    match file
    case Missing => return NotFound;
    case Unparseable => return ParseError;
    case Parsed(content) =>
      if !content.Arr? {
        return InvalidFormat;
      }
      var docs := content.items;
      var tally := Fold(docs, EntryOf);
      if tally.None? {
        return Failed;
      }
      var t := tally.value;
      var avg := Mean(RealSum(t.confidences), |t.confidences|);
      reply := Summary(|docs|, t.validated, |docs| - t.validated, t.sizeBytes / 1024.0, avg);
  }

  /** The counts split the files: validated and unvalidated are both at least 0 and add up to
      all of them, and the validated ones are those whose flag is the boolean `true`. */
  lemma SummaryCounts(docs: seq<Json>)
    ensures var r := SummaryOf(docs);
      0 <= r.unvalidatedFiles && r.validatedFiles + r.unvalidatedFiles == r.totalFiles == |docs| &&
      r.validatedFiles == |set k | 0 <= k < |docs| && Validated(docs[k])|
  {
    var read: Json -> Entry := EntryOf;
    ValidatedMeaning(docs, read);
    forall k | 0 <= k < |docs| ensures read(docs[k]).validated == Validated(docs[k]) {
    }
    assert (set k | 0 <= k < |docs| && read(docs[k]).validated) == set k | 0 <= k < |docs| && Validated(docs[k]);
  }

  /** With no score collected the mean confidence is 0. */
  lemma AvgConfidenceZero(docs: seq<Json>)
    requires forall k :: 0 <= k < |docs| ==> ConfidenceOf(docs[k]).None?
    ensures SummaryOf(docs).avgConfidence == 0.0
  {
    var read: Json -> Entry := EntryOf;
    forall k | 0 <= k < |docs| ensures read(docs[k]).score.None? {
    }
    ScoresBetween(docs, read, 0.0, 0.0);
  }

  /** The mean confidence lies between the smallest and the largest collected score. */
  lemma AvgConfidenceBetween(docs: seq<Json>, lo: real, hi: real)
    requires exists k :: 0 <= k < |docs| && ConfidenceOf(docs[k]).Some?
    requires forall k :: 0 <= k < |docs| && ConfidenceOf(docs[k]).Some? ==> lo <= ConfidenceOf(docs[k]).value <= hi
    ensures lo <= SummaryOf(docs).avgConfidence <= hi
  {
    var read: Json -> Entry := EntryOf;
    forall k | 0 <= k < |docs| && read(docs[k]).score.Some? ensures lo <= read(docs[k]).score.value <= hi {
    }
    ScoresBetween(docs, read, lo, hi);
    var j :| 0 <= j < |docs| && ConfidenceOf(docs[j]).Some?;
    assert read(docs[j]).score.Some?;
    MeanBetween(TallyOf(docs, read).confidences, lo, hi);
  }

  /** Scores between `lo` and `hi` give collected scores between them, and none when no
      document has one. */
  lemma {:induction false} ScoresBetween(docs: seq<Json>, read: Json -> Entry, lo: real, hi: real)
    requires forall k :: 0 <= k < |docs| && read(docs[k]).score.Some? ==> lo <= read(docs[k]).score.value <= hi
    ensures var cs := TallyOf(docs, read).confidences; forall k :: 0 <= k < |cs| ==> lo <= cs[k] <= hi
    ensures TallyOf(docs, read).confidences == [] <==> forall k :: 0 <= k < |docs| ==> read(docs[k]).score.None?
  {
    if docs != [] {
      var p := docs[..|docs| - 1];
      assert forall k :: 0 <= k < |p| ==> p[k] == docs[k];
      ScoresBetween(p, read, lo, hi);
    }
  }

  // ---- the document listing ----

  /** The `where` object: `isValidatedByHuman` and `templateName` when set. */
  datatype DocFilter = DocFilter(isValidatedByHuman: Option<bool>, templateName: Option<Json>)

  /** The filter built field by field from `status` and `template`. */
  method DocumentFilter(status: Json, template: Json) returns (f: DocFilter)
    ensures f.isValidatedByHuman == Some(true) <==> status == Str("validated")
    ensures f.isValidatedByHuman == Some(false) <==> status == Str("unvalidated")
    ensures f.templateName.Some? <==> Truthy(template)
    ensures f.templateName.Some? ==> f.templateName.value == template
  {
    assert Str("validated") != Str("unvalidated") by {
      assert "validated"[0] != "unvalidated"[0];
    }
    f := DocFilter(None, None);
    if status == Str("validated") {
      f := f.(isValidatedByHuman := Some(true));
    } else if status == Str("unvalidated") {
      f := f.(isValidatedByHuman := Some(false));
    }
    if Truthy(template) {
      f := f.(templateName := Some(template));
    }
  }

  /** `Number(limit)` where `limit` defaults to 50 when the parameter is absent. */
  function Take(limit: Json): (n: JsNumber)
    ensures limit.Undefined? ==> n == Finite(50.0)
    ensures limit.Str? ==> n == StringToNumber(limit.s)
  {
    match limit
    case Undefined => Finite(50.0)
    case Str(s) => StringToNumber(s)
    case _ => StringToNumber(TemplateText(limit))
  }

  // ---- the analytics record ----

  /** What `findFirst` on the analytics table gave: the first record, no record, or an
      error thrown by the store. */
  datatype StoreLookup = Record(record: Json) | NoRecord | StoreError

  /** `GET /`: the first analytics record when there is one, else the parsed file; a store
      that throws, or a file that is missing or is not JSON, makes it a 500. */
  function AnalyticsReply(lookup: StoreLookup, file: FileState): (r: Reply)
    ensures lookup.Record? ==> r == Reply(200, lookup.record)
    ensures lookup.NoRecord? && file.Parsed? ==> r == Reply(200, file.content)
    ensures lookup.NoRecord? && !file.Parsed? ==> r.status == 500
    ensures lookup.StoreError? ==> r.status == 500
    ensures r.status == 500 ==> r.body == Obj([("error", Str("Failed to load analytics data"))])
    ensures r.status == 200 || r.status == 500
  {
    match lookup
    case Record(record) => Reply(200, record)
    case StoreError => Reply(500, Obj([("error", Str("Failed to load analytics data"))]))
    case NoRecord =>
      if file.Parsed? then Reply(200, file.content)
      else Reply(500, Obj([("error", Str("Failed to load analytics data"))]))
  }

  /** A store error gives the same reply whatever the file holds: the file is not read. */
  lemma StoreErrorIgnoresFile(a: FileState, b: FileState)
    ensures AnalyticsReply(StoreError, a) == AnalyticsReply(StoreError, b)
  {
  }
}
