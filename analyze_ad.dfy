/**
 * The analysis request handler (netlify/functions/analyze-ad.ts): a
 * per-request decision procedure that validates the request, fetches the
 * image, builds the prompt and asks the model. JSON parsing, the image
 * fetch and the model call are outside the model and are passed in as
 * oracles: functions from what the code sends to what comes back.
 */
module AnalyzeAd {
  import opened Wrappers
  import opened Text
  import Base64
  import GeminiHelpers

  // ----- Outcomes of the outside calls -----

  /** The five fields read from the parsed body; `None` is a field that is
      absent, `undefined` or `null`. */
  datatype BodyFields = BodyFields(
    imageUrl: Option<string>,
    industry: Option<string>,
    platform: Option<string>,
    targetAudience: Option<string>,
    goal: Option<string>)

  /** What parsing and destructuring the body text gives: the fields, or
      the message of the error thrown (a syntax error, or destructuring a
      body that is `null`). */
  datatype ParseOutcome = Parsed(fields: BodyFields) | ParseFailed(message: string)

  /** What `fetch(imageUrl)` and reading its body give: a thrown error, or
      a response with its `ok` flag, status text, `content-type` header
      (`None` when absent) and body bytes. */
  datatype FetchOutcome =
    | FetchThrew(message: string)
    | Fetched(ok: bool, statusText: string, contentType: Option<string>, bytes: seq<Base64.Byte>)

  /** One part of the multimodal model input. */
  datatype Part = TextPart(text: string) | InlineDataPart(mimeType: string, data: string)

  /** What `generateContent(parts)` and `response.text()` give. */
  datatype ModelOutcome = ModelText(text: string) | ModelFailed(message: string)

  /** The incoming request: its HTTP method and its body text (`None` for
      a missing body). */
  datatype Request = Request(httpMethod: string, body: Option<string>)

  // ----- The response -----

  /** The JSON body of a response, by shape; `Empty` is the empty string. */
  datatype ResponseBody =
    | Empty
    | ErrorBody(error: string)
    | MissingFieldsBody(error: string, required: seq<string>)
    | SuccessBody(success: bool, analysis: string, context: GeminiHelpers.AnalysisContext, analyzedAt: string)
    | FailureBody(error: string, message: string)

  datatype Response = Response(statusCode: int, headers: map<string, string>, body: ResponseBody)

  /** The CORS and content-type headers every response carries. */
  const Headers: map<string, string> := map[
    "Access-Control-Allow-Origin" := "*",
    "Access-Control-Allow-Headers" := "Content-Type, Authorization",
    "Access-Control-Allow-Methods" := "POST, OPTIONS",
    "Content-Type" := "application/json"
  ]

  const ModelName: string := "gemini-2.0-flash-exp"
  const DefaultMimeType: string := "image/jpeg"
  const FetchFailedMessage: string := "Failed to fetch image for analysis"
  const AnalysisFailedMessage: string := "Failed to analyze ad creative"

  /** What `JSON.parse("{}")` destructures to: every field undefined. */
  const NoFields: BodyFields := BodyFields(None, None, None, None, None)
  const RequiredFields: seq<string> := ["imageUrl", "industry", "platform", "targetAudience", "goal"]

  // ----- Validation -----

  /** The five required fields are all truthy. */
  predicate HasAllFields(f: BodyFields)
  {
    Truthy(f.imageUrl) && Truthy(f.industry) && Truthy(f.platform) && Truthy(f.targetAudience) && Truthy(f.goal)
  }

  /** `event.body || "{}"`: the text that is parsed. */
  function BodyText(req: Request): (t: string)
    ensures Truthy(req.body) ==> t == req.body.value
    ensures !Truthy(req.body) ==> t == "{}"
  {
    if Truthy(req.body) then req.body.value else "{}"
  }

  /** The analysis context built from validated fields. */
  function ContextOf(f: BodyFields): (ctx: GeminiHelpers.AnalysisContext)
    requires HasAllFields(f)
    ensures ctx.industry == f.industry.value && ctx.platform == f.platform.value
    ensures ctx.targetAudience == f.targetAudience.value && ctx.goal == f.goal.value
  {
    GeminiHelpers.AnalysisContext(f.industry.value, f.platform.value, f.targetAudience.value, f.goal.value)
  }

  // ----- The two outbound steps -----

  /** The image as sent inline to the model. */
  datatype InlineImage = InlineImage(data: string, mimeType: string)

  predicate FetchSucceeded(o: FetchOutcome)
  {
    o.Fetched? && o.ok
  }

  /** `response.headers.get("content-type") || "image/jpeg"`. */
  function MimeTypeOf(contentType: Option<string>): (m: string)
    ensures Truthy(contentType) ==> m == contentType.value
    ensures !Truthy(contentType) ==> m == DefaultMimeType
  {
    if Truthy(contentType) then contentType.value else DefaultMimeType
  }

  /** The image a successful fetch yields: its bytes in base64 and its
      MIME type. */
  function ImageOf(o: FetchOutcome): (img: InlineImage)
    requires FetchSucceeded(o)
    ensures Base64.Decode(img.data) == Some(o.bytes)
    ensures img.mimeType == MimeTypeOf(o.contentType)
  {
    Base64.RoundTrip(o.bytes, Base64.Encode(o.bytes));
    InlineImage(Base64.Encode(o.bytes), MimeTypeOf(o.contentType))
  }

  /** `fetchImageAsBase64`: every failure, a thrown fetch or a response
      that is not ok, comes out as one error with a fixed message; on
      success the data is the base64 text of the bytes, which decodes back
      to exactly them, and the MIME type is the content-type or the
      default. */
  method FetchImageAsBase64(imageUrl: string, fetch: string -> FetchOutcome) returns (r: Result<InlineImage, string>)
    ensures r.Success? <==> FetchSucceeded(fetch(imageUrl))
    ensures r.Failure? ==> r.error == FetchFailedMessage
    ensures r.Success? ==> r.value == ImageOf(fetch(imageUrl))
    ensures r.Success? ==> Base64.Decode(r.value.data) == Some(fetch(imageUrl).bytes)
  {
    var response := fetch(imageUrl);
    if response.FetchThrew? {
      return Failure(FetchFailedMessage);
    }
    if !response.ok {
      // the error naming the status text is thrown inside the try block
      // and replaced by the catch
      return Failure(FetchFailedMessage);
    }
    var base64 := Base64.Encode(response.bytes);
    Base64.RoundTrip(response.bytes, base64);
    var mimeType := MimeTypeOf(response.contentType);
    return Success(InlineImage(base64, mimeType));
  }

  /** The model input: the prompt text first, the inline image second. */
  function ModelParts(prompt: string, image: InlineImage): (parts: seq<Part>)
    ensures |parts| == 2
    ensures parts[0] == TextPart(prompt)
    ensures parts[1] == InlineDataPart(image.mimeType, image.data)
  {
    [TextPart(prompt), InlineDataPart(image.mimeType, image.data)]
  }

  /** The model call on a prompt and an image: its text, or one error
      with the fixed analysis-failure message. */
  method GenerateAnalysis(prompt: string, image: InlineImage, generate: (string, seq<Part>) -> ModelOutcome)
    returns (r: Result<string, string>)
    ensures r.Success? <==> generate(ModelName, ModelParts(prompt, image)).ModelText?
    ensures r.Success? ==> r.value == generate(ModelName, ModelParts(prompt, image)).text
    ensures r.Failure? ==> r.error == AnalysisFailedMessage
  {
    var parts := ModelParts(prompt, image);
    var result := generate(ModelName, parts);
    if result.ModelFailed? {
      return Failure(AnalysisFailedMessage);
    }
    return Success(result.text);
  }

  /** What the model answers for a context and a successful fetch. */
  function ModelAnswer(context: GeminiHelpers.AnalysisContext, o: FetchOutcome, generate: (string, seq<Part>) -> ModelOutcome): ModelOutcome
    requires FetchSucceeded(o)
  {
    generate(ModelName, ModelParts(GeminiHelpers.BuildAnalysisPrompt(context), ImageOf(o)))
  }

  /** `analyzeAdWithGemini`: fetch the image, build the prompt and call the
      model; any failure on the way comes out as one error whose message
      is "Failed to analyze ad creative", the fetch error's own message
      being replaced. */
  method AnalyzeAdWithGemini(
    imageUrl: string,
    context: GeminiHelpers.AnalysisContext,
    fetch: string -> FetchOutcome,
    generate: (string, seq<Part>) -> ModelOutcome)
    returns (r: Result<string, string>)
    ensures r.Failure? ==> r.error == AnalysisFailedMessage
    ensures r.Success? <==> FetchSucceeded(fetch(imageUrl)) && ModelAnswer(context, fetch(imageUrl), generate).ModelText?
    ensures r.Success? ==> r.value == ModelAnswer(context, fetch(imageUrl), generate).text
  {
    var image := FetchImageAsBase64(imageUrl, fetch);
    if image.Failure? {
      return Failure(AnalysisFailedMessage);
    }
    var prompt := GeminiHelpers.BuildAnalysisPrompt(context);
    r := GenerateAnalysis(prompt, image.value, generate);
  }

  // ----- The handler -----

  /** The handler. `apiKey` is the environment's GEMINI_API_KEY, `now` the
      timestamp the success body records, `parse` the JSON parse of the
      body text; the image fetch and the model are `fetch` and `generate`.
      The checks run in this order: preflight, method, body parse, fields,
      API key; then the analysis either succeeds or fails. */
  method Handler(
    req: Request,
    apiKey: Option<string>,
    now: string,
    parse: string -> ParseOutcome,
    fetch: string -> FetchOutcome,
    generate: (string, seq<Part>) -> ModelOutcome)
    returns (r: Response)
    ensures r.headers == Headers
    ensures r.statusCode in {200, 400, 405, 500}
    ensures r.statusCode == 200 <==> r.body == Empty || r.body.SuccessBody?
    ensures req.httpMethod == "OPTIONS" ==> r == Response(200, Headers, Empty)
    ensures req.httpMethod != "OPTIONS" && req.httpMethod != "POST" ==>
      r == Response(405, Headers, ErrorBody("Method not allowed"))
    ensures req.httpMethod == "POST" && parse(BodyText(req)).ParseFailed? ==>
      r == Response(500, Headers, FailureBody(AnalysisFailedMessage, parse(BodyText(req)).message))
    ensures req.httpMethod == "POST" && parse(BodyText(req)).Parsed? && !HasAllFields(parse(BodyText(req)).fields) ==>
      r == Response(400, Headers, MissingFieldsBody("Missing required fields", RequiredFields))
    ensures req.httpMethod == "POST" && !Truthy(req.body) && parse("{}") == Parsed(NoFields) ==>
      r == Response(400, Headers, MissingFieldsBody("Missing required fields", RequiredFields))
    ensures req.httpMethod == "POST" && parse(BodyText(req)).Parsed? && HasAllFields(parse(BodyText(req)).fields) ==>
      var f := parse(BodyText(req)).fields;
      var o := fetch(f.imageUrl.value);
      if !Truthy(apiKey) then
        r == Response(500, Headers, ErrorBody("Gemini API key not configured"))
      else if FetchSucceeded(o) && ModelAnswer(ContextOf(f), o, generate).ModelText? then
        r == Response(200, Headers, SuccessBody(true, ModelAnswer(ContextOf(f), o, generate).text, ContextOf(f), now))
      else
        r == Response(500, Headers, FailureBody(AnalysisFailedMessage, AnalysisFailedMessage))
  {
    if req.httpMethod == "OPTIONS" {
      return Response(200, Headers, Empty);
    }
    if req.httpMethod != "POST" {
      return Response(405, Headers, ErrorBody("Method not allowed"));
    }
    var parsed := parse(BodyText(req));
    if parsed.ParseFailed? {
      return Response(500, Headers, FailureBody(AnalysisFailedMessage, parsed.message));
    }
    var f := parsed.fields;
    if !HasAllFields(f) {
      return Response(400, Headers, MissingFieldsBody("Missing required fields", RequiredFields));
    }
    if !Truthy(apiKey) {
      return Response(500, Headers, ErrorBody("Gemini API key not configured"));
    }
    var context := ContextOf(f);
    var analysis := AnalyzeAdWithGemini(f.imageUrl.value, context, fetch, generate);
    if analysis.Failure? {
      return Response(500, Headers, FailureBody(AnalysisFailedMessage, analysis.error));
    }
    return Response(200, Headers, SuccessBody(true, analysis.value, context, now));
  }
}
