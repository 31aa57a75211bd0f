/** `analyzeMarket` after the model has answered (services/geminiService.ts):
    grounding citations become `sourceUrls`, the JSON span is located,
    cleaned and parsed, the parsed value is mapped, and every failure
    leaves through the one outer `catch`, which rethrows with the caught
    message (or a generic one when that message is empty).

    The completion call itself is an input: `Ok(response)` for what it
    returned, `Err(message)` for what it threw. `JSON.parse` is the
    parameter `parse`, `None` standing for a syntax error. */
module GeminiService {
  import opened Base
  import opened Seqs
  import opened JsValues
  import opened Types
  import opened ResponseText
  import opened AnalysisMapping

  /** A grounding citation as the client library reports it. */
  datatype WebSource = WebSource(title: Option<string>, uri: Option<string>)
  datatype GroundingChunk = GroundingChunk(web: Option<WebSource>)

  /** What the completion call returns: the reply text and, when the first
      candidate carries grounding metadata, its chunks. */
  datatype ModelResponse = ModelResponse(text: string, groundingChunks: Option<seq<GroundingChunk>>)

  datatype AnalyzeError =
    | NoStructuredData
    | MalformedJson
    | Shape(shape: ShapeError)
    | Transport(message: string)

  const NoStructuredDataMessage: string := "No structured data found in analysis."
  const MalformedJsonMessage: string := "Failed to parse market data structure."
  const UnexpectedMessage: string := "An unexpected error occurred while analyzing the market."

  /** The `message` of each error. The TypeError texts follow the V8
      engine's wording; only their being non-empty matters to the model. */
  function Message(e: AnalyzeError): string {
    match e
    case NoStructuredData => NoStructuredDataMessage
    case MalformedJson => MalformedJsonMessage
    case Shape(NullRead(k)) => "Cannot read properties of null (reading '" + k + "')"
    case Shape(NotAnArray(k)) => "(parsedData." + k + " || []).map is not a function"
    case Transport(m) => m
  }

  // ----------------------------------------------------------- citations

  predicate HasWeb(c: GroundingChunk) {
    c.web.Some?
  }

  /** `{ title: web.title || 'Source', uri: web.uri || '#' }`. */
  function LinkOf(w: WebSource): (r: SourceLink)
    ensures r.title != "" && r.uri != ""
    ensures w.title.Some? && w.title.value != "" ==> r.title == w.title.value
    ensures !(w.title.Some? && w.title.value != "") ==> r.title == "Source"
    ensures w.uri.Some? && w.uri.value != "" ==> r.uri == w.uri.value
    ensures !(w.uri.Some? && w.uri.value != "") ==> r.uri == "#"
  {
    SourceLink(
      if w.title.Some? && w.title.value != "" then w.title.value else "Source",
      if w.uri.Some? && w.uri.value != "" then w.uri.value else "#")
  }

  /** `chunks.map(chunk => chunk.web).filter(web => web !== undefined).map(LinkOf)`. */
  function SourceUrls(chunks: seq<GroundingChunk>): (r: seq<SourceLink>)
    ensures |r| <= |chunks|
    ensures |r| == |chunks| <==> forall i :: 0 <= i < |chunks| ==> HasWeb(chunks[i])
    ensures forall i :: 0 <= i < |r| ==> r[i].title != "" && r[i].uri != ""
  {
    var cited := Filter(HasWeb, chunks);
    seq(|cited|, i requires 0 <= i < |cited| => LinkOf(cited[i].web.value))
  }

  /** The citation list splits along its input: links of a concatenation are
      the links of each part, in order. */
  lemma {:induction false} SourceUrlsAppend(a: seq<GroundingChunk>, b: seq<GroundingChunk>)
    ensures SourceUrls(a + b) == SourceUrls(a) + SourceUrls(b)
  {
    FilterAppend(HasWeb, a, b);
    var fa, fb := Filter(HasWeb, a), Filter(HasWeb, b);
    assert Filter(HasWeb, a + b) == fa + fb;
    var l, la, lb := SourceUrls(a + b), SourceUrls(a), SourceUrls(b);
    assert |l| == |la| + |lb|;
    forall i | 0 <= i < |l|
      ensures l[i] == (la + lb)[i]
    {
      if i < |fa| {
        assert (fa + fb)[i] == fa[i];
      } else {
        assert (fa + fb)[i] == fb[i - |fa|];
      }
    }
  }

  /** A single chunk contributes one link when it has a web entry, none
      otherwise. With `SourceUrlsAppend` this pins the list down: exactly
      the cited chunks, in their order. */
  lemma {:induction false} SourceUrlsSingle(c: GroundingChunk)
    ensures SourceUrls([c]) == if HasWeb(c) then [LinkOf(c.web.value)] else []
  {
    FilterSingleton(HasWeb, c);
  }

  // --------------------------------------------------------- normalising

  /** The text handed to `JSON.parse`: the cleaned span, if there is one. */
  function JsonCandidate(text: string): (r: Option<string>)
    ensures r.None? <==> FindJsonSpan(text).None?
  {
    match FindJsonSpan(text)
    case None => None
    case Some(sp) => Some(CleanJsonString(text[sp.lo..sp.hi]))
  }

  /** Everything after the completion call returned. */
  function Normalize(resp: ModelResponse, parse: string -> Option<Json>): (r: Result<MarketAnalysis, AnalyzeError>)
    ensures r == Err(NoStructuredData) <==> FindJsonSpan(resp.text).None?
    ensures r == Err(MalformedJson) <==> JsonCandidate(resp.text).Some? && parse(JsonCandidate(resp.text).value).None?
    ensures r.Ok? ==> r.value.sourceUrls == SourceUrls(resp.groundingChunks.GetOr([]))
    ensures r.Ok? <==> && JsonCandidate(resp.text).Some?
                       && parse(JsonCandidate(resp.text).value).Some?
                       && MapAnalysis(parse(JsonCandidate(resp.text).value).value, SourceUrls(resp.groundingChunks.GetOr([]))).Ok?
    ensures r.Ok? ==> r.value == MapAnalysis(parse(JsonCandidate(resp.text).value).value, SourceUrls(resp.groundingChunks.GetOr([]))).value
    ensures r.Err? && r.error.Shape? ==>
              r.error.shape == MapAnalysis(parse(JsonCandidate(resp.text).value).value, SourceUrls(resp.groundingChunks.GetOr([]))).error
  {
    var sourceUrls := SourceUrls(resp.groundingChunks.GetOr([]));
    match JsonCandidate(resp.text)
    case None => Err(NoStructuredData)
    case Some(candidate) =>
      match parse(candidate)
      case None => Err(MalformedJson)
      case Some(parsed) =>
        match MapAnalysis(parsed, sourceUrls)
        case Ok(a) => Ok(a)
        case Err(e) => Err(Shape(e))
  }

  /** The outer `catch`: `new Error(error.message || <generic message>)`. */
  function Rethrow(message: string): (r: string)
    ensures r != ""
    ensures message != "" ==> r == message
  {
    if message == "" then UnexpectedMessage else message
  }

  /** `analyzeMarket`, from the completion call's outcome to the analysis or
      the message of the error it throws. */
  function AnalyzeMarket(call: Result<ModelResponse, string>, parse: string -> Option<Json>): (r: Result<MarketAnalysis, string>)
    ensures r.Err? ==> r.error != ""
    ensures call.Ok? ==> (r.Ok? <==> Normalize(call.value, parse).Ok?)
    ensures call.Err? ==> r == Err(Rethrow(call.error))
    ensures call.Ok? && r.Ok? ==> r.value == Normalize(call.value, parse).value
    ensures call.Ok? && r.Err? ==> r.error == Rethrow(Message(Normalize(call.value, parse).error))
  {
    match call
    case Err(m) => Err(Rethrow(Message(Transport(m))))
    case Ok(resp) => Normalize(resp, parse).MapErr(e => Rethrow(Message(e)))
  }

  /** A reply whose JSON span parses to the serialised form of a normal
      record, with matching citations, yields exactly that record. */
  lemma {:induction false} NormalizeRoundTrip(resp: ModelResponse, parse: string -> Option<Json>, a: MarketAnalysis)
    requires AnalysisNormal(a)
    requires a.sourceUrls == SourceUrls(resp.groundingChunks.GetOr([]))
    requires JsonCandidate(resp.text).Some? && parse(JsonCandidate(resp.text).value) == Some(AnalysisToJson(a))
    ensures Normalize(resp, parse) == Ok(a)
    ensures AnalyzeMarket(Ok(resp), parse) == Ok(a)
  {
    AnalysisRoundTrip(a);
  }

  /** A reply with no `{...}` span fails with the "no structured data"
      message. */
  lemma {:induction false} NoSpanMessage(resp: ModelResponse, parse: string -> Option<Json>)
    requires FindJsonSpan(resp.text).None?
    ensures AnalyzeMarket(Ok(resp), parse) == Err("No structured data found in analysis.")
  {
    assert Normalize(resp, parse) == Err(NoStructuredData);
  }

  /** A span that `JSON.parse` rejects fails with the "failed to parse"
      message. */
  lemma {:induction false} UnparsableSpanMessage(resp: ModelResponse, parse: string -> Option<Json>)
    requires JsonCandidate(resp.text).Some? && parse(JsonCandidate(resp.text).value).None?
    ensures AnalyzeMarket(Ok(resp), parse) == Err("Failed to parse market data structure.")
  {
    assert Normalize(resp, parse) == Err(MalformedJson);
  }

  /** The two parse failures reach the caller with different messages, and
      each message is produced by its own failure only: a reply yields the
      "no structured data" message exactly when it has no span. */
  lemma {:induction false} ParseFailuresAreDistinguishable(resp: ModelResponse, parse: string -> Option<Json>)
    ensures NoStructuredDataMessage != MalformedJsonMessage
    ensures Normalize(resp, parse) == Err(NoStructuredData) <==> JsonCandidate(resp.text).None?
    ensures Normalize(resp, parse) == Err(MalformedJson) ==> JsonCandidate(resp.text).Some?
  {
    assert NoStructuredDataMessage[0] != MalformedJsonMessage[0];
  }

  /** A reply whose JSON span parses to `{}` yields the all-defaults record,
      with the citations as found. */
  lemma {:induction false} EmptyJsonObjectGivesDefaults(resp: ModelResponse, parse: string -> Option<Json>)
    requires JsonCandidate(resp.text).Some? && parse(JsonCandidate(resp.text).value) == Some(JObj(map[]))
    ensures AnalyzeMarket(Ok(resp), parse)
         == Ok(MarketAnalysis(JStr("NEUTRAL"), JStr("Analysis complete."), [], [], [],
                              SourceUrls(resp.groundingChunks.GetOr([]))))
  {
    EmptyObjectDefaults(SourceUrls(resp.groundingChunks.GetOr([])));
  }
}
