/** The analysis client of src/services/geminiService.ts.

    The browser FileReader, the GoogleGenAI SDK call and JSON.parse are not part
    of the model: the reader's outcome is a parameter, the model endpoint is an
    oracle `model: Request -> Reply`, and parsing is an oracle
    `parse: string -> Result<Json, Exception>` that may yield any JSON value.
    `as FinancialData` is a compile-time cast with no run-time check, so the
    value is returned as it was parsed. What is modelled is the
    order of the effectful steps (recorded as a list of `Effect`s), the
    data-URL split, the request that is built, the declared response schema,
    the empty-response error and the rethrow policy. */
module GeminiService {
  import opened Wrappers
  import opened Types
  import Text

  const ModelName: string := "gemini-2.5-flash"
  const ResponseMimeType: string := "application/json"
  const MissingKeyMessage: string := "API Key is missing. Please check " + "your environment configuration."
  const NoDataMessage: string := "No data returned from analysis."

  /** The instruction text sent after the document. */
  const Prompt: string :=
    "\n" +
    "    You are an expert legal assistant " +
    "for Ontario Family Law. \n" +
    "    Analyze the attached document " +
    "(likely an affidavit, financial " +
    "statement, or court order).\n" +
    "    \n" +
    "    Extract the following information:\n" +
    "    1. Applicant's annual income " +
    "(estimate if monthly is provided).\n" +
    "    2. Respondent's annual income.\n" +
    "    3. Monthly child support amount " +
    "found in the tables or order.\n" +
    "    4. Monthly spousal support amount.\n" +
    "    5. Detect if there is any mention " +
    "of ODSP (Ontario Disability Support " +
    "Program) or CPP-Disability.\n" +
    "    6. Provide a brief compliance note " +
    "summarizing the findings and any " +
    "missing critical data.\n" +
    "\n" +
    "    Return ONLY JSON matching the " +
    "schema.\n" +
    "  "

  // ---------------------------------------------------------------- data URLs

  /** What FileReader.readAsDataURL delivers: the data URL, or the reader's error. */
  datatype ReadOutcome = Loaded(dataUrl: string) | ReadFailed(err: Exception)

  /** The `data:[<mediatype>];base64,<data>` form of section 3 of RFC 2397,
      as a reader produces it for a file of the given media type. */
  function DataUrl(mediaType: string, payload: string): string {
    "data:" + mediaType + ";base64," + payload
  }

  /** `dataUrl.split(',')[1]`: the segment after the first comma (up to a second
      comma, if any), or `undefined` when there is no comma at all. */
  function PayloadData(dataUrl: string): (payload: Option<string>)
    ensures payload.None? <==> ',' !in dataUrl
    ensures payload.Some? ==> ',' !in payload.value
  {
    var parts := Text.Split(dataUrl, ',');
    if |parts| >= 2 then Some(parts[1]) else None
  }

  /** The prefix before the first comma is stripped, and the rest up to a
      second comma is kept. */
  lemma PayloadAfterFirstComma(prefix: string, rest: string)
    requires ',' !in prefix
    ensures PayloadData(prefix + [','] + rest) == Some(Text.Split(rest, ',')[0])
    ensures ',' !in rest ==> PayloadData(prefix + [','] + rest) == Some(rest)
  {
    Text.SplitAtFirst(prefix, rest, ',');
    if ',' !in rest {
      Text.SplitNoSeparator(rest, ',');
    }
  }

  /** A string without a comma carries no payload (`split(',')[1]` is undefined). */
  lemma NoCommaNoPayload(dataUrl: string)
    requires ',' !in dataUrl
    ensures PayloadData(dataUrl) == None
  {
    Text.SplitNoSeparator(dataUrl, ',');
  }

  /** Round trip: the payload of a base64 data URL (whose media type and payload
      contain no comma, as base64 text never does) is exactly the payload. */
  lemma PayloadOfDataUrl(mediaType: string, payload: string)
    requires ',' !in mediaType && ',' !in payload
    ensures PayloadData(DataUrl(mediaType, payload)) == Some(payload)
  {
    var prefix := "data:" + mediaType + ";base64";
    assert DataUrl(mediaType, payload) == prefix + [','] + payload;
    assert ',' !in "data:" && ',' !in ";base64";
    PayloadAfterFirstComma(prefix, payload);
  }

  // ------------------------------------------------------------------ request

  datatype InlineData = InlineData(data: Option<string>, mimeType: string)

  datatype Part = FilePart(inlineData: InlineData) | TextPart(text: string)

  datatype FieldType = NumberField | BooleanField | StringArrayField

  datatype Property = Property(name: string, fieldType: FieldType, description: string)

  datatype Schema = Schema(properties: seq<Property>, required: seq<string>)

  datatype Request = Request(model: string, parts: seq<Part>, responseMimeType: string, responseSchema: Schema)

  /** The declared response schema: seven properties, five of them required. */
  const ResponseSchema: Schema := Schema(
    [Property("applicantIncome", NumberField, "Annual income of the applicant in CAD"),
     Property("respondentIncome", NumberField, "Annual income of the respondent in CAD"),
     Property("childSupport", NumberField, "Monthly child support amount"),
     Property("spousalSupport", NumberField, "Monthly spousal support amount"),
     Property("hasODSP", BooleanField, "True if ODSP is mentioned/relevant"),
     Property("hasCPP", BooleanField, "True if CPP Disability is mentioned"),
     Property("complianceNotes", StringArrayField, "List of brief compliance observations")],
    ["applicantIncome", "respondentIncome", "hasODSP", "hasCPP", "complianceNotes"])

  /** `fileToGenerativePart`: the payload after the comma of the data URL and the
      file's declared type unchanged; a reader error rejects with that error. */
  function FileToGenerativePart(file: File, read: ReadOutcome): (r: Result<InlineData, Exception>)
    ensures r.Success? <==> read.Loaded?
    ensures r.Success? ==> r.value.mimeType == file.mediaType && r.value.data == PayloadData(read.dataUrl)
    ensures r.Failure? ==> r.error == read.err
  {
    match read
    case ReadFailed(e) => Failure(e)
    case Loaded(url) => Success(InlineData(PayloadData(url), file.mediaType))
  }

  /** The request of lines 50-77: the file part first, then the prompt text. */
  function BuildRequest(part: InlineData): (req: Request)
    ensures |req.parts| == 2 && req.parts[0].FilePart? && req.parts[1].TextPart?
    ensures req.parts[0].inlineData == part && req.parts[1].text == Prompt
    ensures req.model == ModelName && req.responseSchema == ResponseSchema
  {
    Request(ModelName, [FilePart(part), TextPart(Prompt)], ResponseMimeType, ResponseSchema)
  }

  // ----------------------------------------------------------------- analysis

  /** The endpoint's answer: a transport failure, or a response whose text may be absent. */
  datatype Reply = TransportFailed(err: Exception) | Replied(text: Option<string>)

  /** The observable steps of one call, in order. */
  datatype Effect = ClientCreated(apiKey: string) | FileRead(file: File) | ContentRequested(request: Request)

  /** The settled promise (whatever JSON value was parsed, typed `FinancialData`
      only by an unchecked cast) and the effects performed on the way. */
  datatype Attempt = Attempt(outcome: Result<Json, Exception>, effects: seq<Effect>)

  predicate KeyMissing(apiKey: Option<string>) {
    apiKey.None? || apiKey.value == ""
  }

  predicate HasText(reply: Reply) {
    reply.Replied? && reply.text.Some? && reply.text.value != ""
  }

  /** `analyzeDocument`: a missing key throws before anything else; otherwise a
      client is created, the file is read, one request is sent, and a response
      without text throws the "No data" error. Every error is propagated as it
      is (the catch block only logs and rethrows). */
  function AnalyzeDocument(
    apiKey: Option<string>, file: File, read: ReadOutcome,
    model: Request -> Reply, parse: string -> Result<Json, Exception>): (a: Attempt)
    ensures KeyMissing(apiKey) <==> a.effects == []
    ensures |a.effects| <= 3
    ensures |a.effects| == 3 <==> !KeyMissing(apiKey) && read.Loaded?
    ensures a.outcome.Success? ==> !KeyMissing(apiKey) && read.Loaded?
  {
    if KeyMissing(apiKey) then Attempt(Failure(Exception(MissingKeyMessage)), [])
    else
      var started := [ClientCreated(apiKey.value), FileRead(file)];
      match FileToGenerativePart(file, read)
      case Failure(e) => Attempt(Failure(e), started)
      case Success(part) =>
        var req := BuildRequest(part);
        var effects := started + [ContentRequested(req)];
        match model(req)
        case TransportFailed(e) => Attempt(Failure(e), effects)
        case Replied(text) =>
          if text.Some? && text.value != "" then Attempt(parse(text.value), effects)
          else Attempt(Failure(Exception(NoDataMessage)), effects)
  }

  /** Without a key the call fails fast: no client, no file read, no request. */
  lemma MissingKeyFailsFast(
    apiKey: Option<string>, file: File, read: ReadOutcome,
    model: Request -> Reply, parse: string -> Result<Json, Exception>)
    requires KeyMissing(apiKey)
    ensures AnalyzeDocument(apiKey, file, read, model, parse) ==
              Attempt(Failure(Exception(MissingKeyMessage)), [])
  {
  }

  /** The request sent when the key is present and the file was read. */
  function SentRequest(file: File, dataUrl: string): Request {
    BuildRequest(InlineData(PayloadData(dataUrl), file.mediaType))
  }

  /** With a key, the client is created before the file is read, and at most one
      request is sent: exactly one when the file could be read, carrying the
      file part first and the prompt second. */
  lemma {:induction false} EffectsInOrder(
    apiKey: Option<string>, file: File, read: ReadOutcome,
    model: Request -> Reply, parse: string -> Result<Json, Exception>)
    requires !KeyMissing(apiKey)
    ensures var a := AnalyzeDocument(apiKey, file, read, model, parse);
      && |a.effects| >= 2
      && a.effects[..2] == [ClientCreated(apiKey.value), FileRead(file)]
      && (read.ReadFailed? ==> |a.effects| == 2)
      && (read.Loaded? ==> a.effects[2..] == [ContentRequested(SentRequest(file, read.dataUrl))])
      && (read.Loaded? ==> SentRequest(file, read.dataUrl).parts[0].inlineData.mimeType == file.mediaType)
  {
    var a := AnalyzeDocument(apiKey, file, read, model, parse);
    var started := [ClientCreated(apiKey.value), FileRead(file)];
    if read.Loaded? {
      assert a.effects == started + [ContentRequested(SentRequest(file, read.dataUrl))];
      assert (started + [ContentRequested(SentRequest(file, read.dataUrl))])[2..] ==
        [ContentRequested(SentRequest(file, read.dataUrl))];
    } else {
      assert a.effects == started;
    }
  }

  /** A reply without text (absent or empty) raises the "No data" error. */
  lemma EmptyResponseRejected(
    apiKey: Option<string>, file: File, dataUrl: string, text: Option<string>,
    model: Request -> Reply, parse: string -> Result<Json, Exception>)
    requires !KeyMissing(apiKey)
    requires model(SentRequest(file, dataUrl)) == Replied(text)
    requires text.None? || text.value == ""
    ensures AnalyzeDocument(apiKey, file, Loaded(dataUrl), model, parse).outcome ==
              Failure(Exception(NoDataMessage))
  {
  }

  /** Nothing is swallowed: the call succeeds exactly when the key is present, the
      file is read, the endpoint answers with text and that text parses, and then
      it returns the parsed record; every failure carries the error of the step
      that failed, unchanged. */
  lemma NothingSwallowed(
    apiKey: Option<string>, file: File, read: ReadOutcome,
    model: Request -> Reply, parse: string -> Result<Json, Exception>)
    ensures var a := AnalyzeDocument(apiKey, file, read, model, parse);
      && (a.outcome.Success? <==>
            !KeyMissing(apiKey) && read.Loaded? && HasText(model(SentRequest(file, read.dataUrl)))
            && parse(model(SentRequest(file, read.dataUrl)).text.value).Success?)
      && (a.outcome.Success? ==> a.outcome == parse(model(SentRequest(file, read.dataUrl)).text.value))
      && (KeyMissing(apiKey) ==> a.outcome.error == Exception(MissingKeyMessage))
      && (!KeyMissing(apiKey) && read.ReadFailed? ==> a.outcome.error == read.err)
      && (!KeyMissing(apiKey) && read.Loaded? && model(SentRequest(file, read.dataUrl)).TransportFailed? ==>
            a.outcome.error == model(SentRequest(file, read.dataUrl)).err)
      && (!KeyMissing(apiKey) && read.Loaded? && HasText(model(SentRequest(file, read.dataUrl))) ==>
            a.outcome == parse(model(SentRequest(file, read.dataUrl)).text.value))
  {
  }

  // ----------------------------------------------------------- response shape

  /** A parsed JSON value, as far as the schema can tell types apart. */
  datatype Json =
    | JNumber(n: real)
    | JBool(b: bool)
    | JString(s: string)
    | JArray(items: seq<Json>)
    | JObject(fields: map<string, Json>)
    | JNull

  predicate HasType(v: Json, t: FieldType) {
    match t
    case NumberField => v.JNumber?
    case BooleanField => v.JBool?
    case StringArrayField => v.JArray? && forall i :: 0 <= i < |v.items| ==> v.items[i].JString?
  }

  /** A record satisfies a schema when every required field is present and every
      declared property that is present has its declared type. */
  predicate Conforms(schema: Schema, record: map<string, Json>) {
    && (forall f :: f in schema.required ==> f in record)
    && (forall p :: p in schema.properties && p.name in record ==> HasType(record[p.name], p.fieldType))
  }

  predicate Declares(schema: Schema, name: string) {
    exists p :: p in schema.properties && p.name == name
  }

  /** The property at index `i` of the response schema is declared. */
  lemma DeclaredAt(i: nat)
    requires i < |ResponseSchema.properties|
    ensures Declares(ResponseSchema, ResponseSchema.properties[i].name)
  {
    assert ResponseSchema.properties[i] in ResponseSchema.properties;
  }

  /** Every required field is a declared property. */
  lemma RequiredFieldsDeclared()
    ensures forall f :: f in ResponseSchema.required ==> Declares(ResponseSchema, f)
  {
    var required := ResponseSchema.required;
    forall k | 0 <= k < |required|
      ensures Declares(ResponseSchema, required[k])
    {
      var i := [0, 1, 4, 5, 6][k];
      assert ResponseSchema.properties[i].name == required[k];
      DeclaredAt(i);
    }
  }

  /** The required list holds exactly the five fields, each once. */
  lemma RequiredFieldsExactly()
    ensures multiset(ResponseSchema.required) ==
      multiset{"applicantIncome", "respondentIncome", "hasODSP", "hasCPP", "complianceNotes"}
  {
  }

  /** Child and spousal support are declared but optional. */
  lemma SupportFieldsOptional()
    ensures Declares(ResponseSchema, "childSupport") && "childSupport" !in ResponseSchema.required
    ensures Declares(ResponseSchema, "spousalSupport") && "spousalSupport" !in ResponseSchema.required
  {
    DeclaredAt(2);
    DeclaredAt(3);
  }

  /** A record missing a required field (hasODSP, say) does not satisfy the schema. */
  lemma MissingRequiredFieldRejected(record: map<string, Json>, field: string)
    requires field in ResponseSchema.required && field !in record
    ensures !Conforms(ResponseSchema, record)
  {
  }

  /** A record with the five required fields, correctly typed, satisfies the
      schema without the two optional ones. */
  lemma RequiredOnlyRecordConforms(applicant: real, respondent: real, odsp: bool, cpp: bool, notes: seq<string>)
    ensures Conforms(ResponseSchema, map[
      "applicantIncome" := JNumber(applicant), "respondentIncome" := JNumber(respondent),
      "hasODSP" := JBool(odsp), "hasCPP" := JBool(cpp),
      "complianceNotes" := JArray(seq(|notes|, i requires 0 <= i < |notes| => JString(notes[i])))])
  {
  }

  /** The reply is not checked against the schema: text that parses to an object
      the schema rejects is returned as a success all the same. */
  lemma NonConformingReplyReturned(
    apiKey: Option<string>, file: File, dataUrl: string, text: string,
    model: Request -> Reply, parse: string -> Result<Json, Exception>, record: map<string, Json>)
    requires !KeyMissing(apiKey)
    requires model(SentRequest(file, dataUrl)) == Replied(Some(text)) && text != ""
    requires parse(text) == Success(JObject(record))
    requires !Conforms(ResponseSchema, record)
    ensures AnalyzeDocument(apiKey, file, Loaded(dataUrl), model, parse).outcome == Success(JObject(record))
  {
  }

  /** The reply `{}` lacks all five required fields, yet the call resolves with it. */
  lemma EmptyObjectReturned(
    apiKey: Option<string>, file: File, dataUrl: string,
    model: Request -> Reply, parse: string -> Result<Json, Exception>)
    requires !KeyMissing(apiKey)
    requires model(SentRequest(file, dataUrl)) == Replied(Some("{}"))
    requires parse("{}") == Success(JObject(map[]))
    ensures !Conforms(ResponseSchema, map[])
    ensures AnalyzeDocument(apiKey, file, Loaded(dataUrl), model, parse).outcome == Success(JObject(map[]))
  {
    assert "applicantIncome" in ResponseSchema.required;
  }

  /** A reply that conforms but leaves out both support amounts is returned with
      them absent: the `real` fields of `FinancialData` are then `undefined`. */
  lemma SupportAmountsMayBeAbsent(
    apiKey: Option<string>, file: File, dataUrl: string, text: string,
    model: Request -> Reply, parse: string -> Result<Json, Exception>,
    applicant: real, respondent: real)
    requires !KeyMissing(apiKey)
    requires model(SentRequest(file, dataUrl)) == Replied(Some(text)) && text != ""
    requires parse(text) == Success(JObject(map[
      "applicantIncome" := JNumber(applicant), "respondentIncome" := JNumber(respondent),
      "hasODSP" := JBool(false), "hasCPP" := JBool(false), "complianceNotes" := JArray([])]))
    ensures var a := AnalyzeDocument(apiKey, file, Loaded(dataUrl), model, parse);
      && a.outcome.Success? && a.outcome.value.JObject?
      && Conforms(ResponseSchema, a.outcome.value.fields)
      && "childSupport" !in a.outcome.value.fields && "spousalSupport" !in a.outcome.value.fields
  {
    RequiredOnlyRecordConforms(applicant, respondent, false, false, []);
  }
}
