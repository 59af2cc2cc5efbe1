/**
 * The Netlify adapter around the upload route handler
 * (netlify/functions/uploadthing.ts). The route handler itself, the URL
 * parser, Node's lenient base64 decoder and the process environment are
 * parameters; what is modelled is the adapter: the preflight short-circuit,
 * the token check, the request it forwards (URL, query parameters, body),
 * the checks the Fetch `Request` constructor makes, the response it passes
 * back and the catch-all error path.
 */
module UploadthingRelay {
  import opened Wrappers
  import opened Text
  import Base64

  // ----- The Netlify event and the forwarded request -----

  /** A Netlify function event. Header names arrive lower-cased. The query
      parameters are `Object.entries` of the event's parameter object, in
      order; a value may be undefined. */
  datatype Event = Event(
    httpMethod: string,
    headers: map<string, string>,
    path: string,
    queryStringParameters: Option<seq<(string, Option<string>)>>,
    body: Option<string>,
    isBase64Encoded: bool)

  /** A parsed URL: the text it was parsed from and its search parameters,
      in the order they were appended. */
  datatype Url = Url(href: string, searchParams: seq<(string, string)>)

  /** The body given to `new Request`: none, the event's text, or the bytes
      of a Buffer. */
  datatype Body = NoBody | TextBody(text: string) | BinaryBody(bytes: seq<Base64.Byte>)

  datatype Request = Request(url: Url, httpMethod: string, headers: map<string, string>, body: Body)

  /** What a `catch` receives: an Error with its message, or any other value. */
  datatype Thrown = ErrorThrown(message: string) | OtherThrown

  /** The route handler's outcome: it throws, or it returns a response whose
      header entries are listed as `headers.entries()` yields them and whose
      `text()` either resolves or rejects. */
  datatype UpstreamOutcome =
    | Threw(error: Thrown)
    | Responded(status: int, headers: seq<(string, string)>, text: Result<string, Thrown>)

  /** The JSON bodies the adapter writes, and the upstream text it relays. */
  datatype ResponseBody =
    | EmptyBody
    | ConfigError(error: string)
    | Relayed(text: string)
    | InternalError(error: string, message: string)

  datatype Response = Response(statusCode: int, headers: map<string, string>, body: ResponseBody)

  /** Everything outside the adapter: the UPLOADTHING_TOKEN variable, whether
      `new URL` accepts a string and whether the URL it parses carries a
      username or password, `Buffer.from(s, "base64")` and the route
      handler. */
  datatype Env = Env(
    token: Option<string>,
    urlValid: string -> bool,
    urlHasCredentials: string -> bool,
    decodeBase64: string -> seq<Base64.Byte>,
    utHandler: Request -> UpstreamOutcome)

  const CorsHeaders: map<string, string> := map[
    "Access-Control-Allow-Origin" := "*",
    "Access-Control-Allow-Headers" := "Content-Type, Authorization, x-uploadthing-version, x-uploadthing-api-key, x-uploadthing-fe-package, x-uploadthing-be-adapter",
    "Access-Control-Allow-Methods" := "GET, POST, OPTIONS"
  ]

  const TokenMissingMessage: string := "Server configuration error: UPLOADTHING_TOKEN not set"
  const InternalErrorMessage: string := "Internal server error"
  const UnknownErrorMessage: string := "Unknown error"
  const InvalidUrlMessage: string := "Invalid URL"
  const GetHeadBodyMessage: string := "Request with GET/HEAD method cannot have body."
  const CredentialsMessage: string := "Request cannot be constructed from a URL that includes credentials: "

  /** `error instanceof Error ? error.message : "Unknown error"`. */
  function ErrorMessage(e: Thrown): string
  {
    match e
    case ErrorThrown(message) => message
    case OtherThrown => UnknownErrorMessage
  }

  // ----- The URL -----

  /** `event.headers.host || "localhost"`. */
  function Host(headers: map<string, string>): (h: string)
    ensures "host" in headers && headers["host"] != "" ==> h == headers["host"]
    ensures "host" !in headers || headers["host"] == "" ==> h == "localhost"
  {
    if "host" in headers && headers["host"] != "" then headers["host"] else "localhost"
  }

  /** The base URL: the https scheme, the host and the event's path. */
  function BaseUrl(event: Event): (u: string)
    ensures |u| == 8 + |Host(event.headers)| + |event.path|
    ensures u[..8] == "https://"
    ensures u[8..8 + |Host(event.headers)|] == Host(event.headers)
    ensures u[8 + |Host(event.headers)|..] == event.path
  {
    "https://" + Host(event.headers) + event.path
  }

  /** The query parameters that are appended, in order: those whose value
      is neither undefined nor empty. */
  function TruthyParams(entries: seq<(string, Option<string>)>): (r: seq<(string, string)>)
    ensures |r| <= |entries|
  {
    if |entries| == 0 then []
    else
      var rest := TruthyParams(entries[1..]);
      if Truthy(entries[0].1) then [(entries[0].0, entries[0].1.value)] + rest else rest
  }

  /** Filtering the entries piecewise filters them all. */
  lemma {:induction false} TruthyParamsAppend(a: seq<(string, Option<string>)>, b: seq<(string, Option<string>)>)
    ensures TruthyParams(a + b) == TruthyParams(a) + TruthyParams(b)
    decreases |a|
  {
    if |a| > 0 {
      assert (a + b)[1..] == a[1..] + b;
      TruthyParamsAppend(a[1..], b);
    } else {
      assert a + b == b;
    }
  }

  /** A pair is appended exactly when the entries hold it with a non-empty
      value. */
  lemma {:induction false} TruthyParamsMembers(entries: seq<(string, Option<string>)>, key: string, value: string)
    ensures (key, value) in TruthyParams(entries) <==> value != "" && (key, Some(value)) in entries
    decreases |entries|
  {
    if |entries| > 0 {
      TruthyParamsMembers(entries[1..], key, value);
      assert entries == [entries[0]] + entries[1..];
    }
  }

  /** When every value is present and non-empty, all entries are appended,
      in their order. */
  lemma {:induction false} AllTruthyAppended(entries: seq<(string, Option<string>)>)
    requires forall i :: 0 <= i < |entries| ==> Truthy(entries[i].1)
    ensures |TruthyParams(entries)| == |entries|
    ensures forall i :: 0 <= i < |entries| ==>
      entries[i].1.Some? && TruthyParams(entries)[i] == (entries[i].0, entries[i].1.value)
    decreases |entries|
  {
    if |entries| > 0 {
      AllTruthyAppended(entries[1..]);
      var r := TruthyParams(entries);
      assert r == [(entries[0].0, entries[0].1.value)] + TruthyParams(entries[1..]);
      forall i | 0 <= i < |entries| ensures r[i] == (entries[i].0, entries[i].1.value) {
        if i > 0 {
          assert r[i] == TruthyParams(entries[1..])[i - 1];
          assert entries[1..][i - 1] == entries[i];
        }
      }
    }
  }

  /** The parameters the forwarded URL carries. */
  function QueryOf(event: Event): seq<(string, string)>
  {
    if event.queryStringParameters.Some? then TruthyParams(event.queryStringParameters.value) else []
  }

  /** The `URL` object whose search parameters the adapter appends to. */
  class SearchUrl {
    const href: string
    var searchParams: seq<(string, string)>

    constructor (href: string)
      ensures this.href == href && searchParams == []
    {
      this.href := href;
      searchParams := [];
    }

    /** `url.searchParams.append(key, value)`. */
    method Append(key: string, value: string)
      modifies this
      ensures searchParams == old(searchParams) + [(key, value)]
    {
      searchParams := searchParams + [(key, value)];
    }

    function Snapshot(): Url
      reads this
    {
      Url(href, searchParams)
    }
  }

  /** The `forEach` over the query entries: each entry with a truthy value
      is appended, in order. */
  method AppendQueryParameters(url: SearchUrl, entries: seq<(string, Option<string>)>)
    modifies url
    ensures url.searchParams == old(url.searchParams) + TruthyParams(entries)
  {
    var i := 0;
    while i < |entries|
      invariant 0 <= i <= |entries|
      invariant url.searchParams == old(url.searchParams) + TruthyParams(entries[..i])
    {
      var (key, value) := entries[i];
      TruthyParamsAppend(entries[..i], [entries[i]]);
      assert entries[..i + 1] == entries[..i] + [entries[i]];
      if Truthy(value) {
        url.Append(key, value.value);
      }
      i := i + 1;
    }
    assert entries[..i] == entries;
  }

  // ----- The body -----

  /** The body the adapter forwards. */
  function ForwardBody(event: Event, decodeBase64: string -> seq<Base64.Byte>): Body
  {
    if !Truthy(event.body) then NoBody
    else if event.isBase64Encoded then BinaryBody(decodeBase64(event.body.value))
    else TextBody(event.body.value)
  }

  /** `let body` and its branches: nothing for an absent or empty event
      body, the decoded bytes when the event says it is base64, the text
      itself otherwise. */
  method ChooseBody(event: Event, decodeBase64: string -> seq<Base64.Byte>) returns (body: Body)
    ensures body.NoBody? <==> !Truthy(event.body)
    ensures Truthy(event.body) && event.isBase64Encoded ==> body == BinaryBody(decodeBase64(event.body.value))
    ensures Truthy(event.body) && !event.isBase64Encoded ==> body == TextBody(event.body.value)
    ensures body == ForwardBody(event, decodeBase64)
  {
    body := NoBody;
    if Truthy(event.body) {
      if event.isBase64Encoded {
        body := BinaryBody(decodeBase64(event.body.value));
      } else {
        body := TextBody(event.body.value);
      }
    }
  }

  // ----- The checks of `new Request` -----

  predicate IsTokenChar(c: char)
  {
    || 'a' <= c <= 'z' || 'A' <= c <= 'Z' || '0' <= c <= '9'
    || c in "!#$%&'*+-.^_`|~"
  }

  /** An HTTP method must be a token: one or more token characters. */
  predicate IsToken(s: string)
  {
    |s| > 0 && forall i :: 0 <= i < |s| ==> IsTokenChar(s[i])
  }

  const ForbiddenMethods: set<string> := {"CONNECT", "TRACE", "TRACK"}

  /** The method names the Fetch standard normalises to upper case. */
  const NormalizedMethods: set<string> := {"DELETE", "GET", "HEAD", "OPTIONS", "POST", "PUT"}

  /** The TypeError `new Request` throws for this URL, method and body, if
      any, in the order it checks them: a URL carrying credentials, a method
      that is not a token, a forbidden method, or a body on a GET or HEAD
      (method names compared without regard to case). */
  function RequestError(href: string, hasCredentials: bool, httpMethod: string, body: Body): (e: Option<Thrown>)
    ensures e.None? <==> (!hasCredentials && IsToken(httpMethod) && ToUpperAscii(httpMethod) !in ForbiddenMethods
      && (ToUpperAscii(httpMethod) in {"GET", "HEAD"} ==> body.NoBody?))
    ensures hasCredentials ==> e == Some(ErrorThrown(CredentialsMessage + href))
  {
    if hasCredentials then Some(ErrorThrown(CredentialsMessage + href))
    else if !IsToken(httpMethod) then Some(ErrorThrown("'" + httpMethod + "' is not a valid HTTP method."))
    else if ToUpperAscii(httpMethod) in ForbiddenMethods then Some(ErrorThrown("'" + httpMethod + "' HTTP method is unsupported."))
    else if ToUpperAscii(httpMethod) in {"GET", "HEAD"} && !body.NoBody? then Some(ErrorThrown(GetHeadBodyMessage))
    else None
  }

  /** The method the constructed request carries: one of the six standard
      names in any case is upper-cased, any other method is kept as spelled. */
  function NormalizeMethod(m: string): (r: string)
    ensures ToUpperAscii(m) in NormalizedMethods ==> r == ToUpperAscii(m)
    ensures ToUpperAscii(m) !in NormalizedMethods ==> r == m
  {
    if ToUpperAscii(m) in NormalizedMethods then ToUpperAscii(m) else m
  }

  lemma UpperOfUpper(m: string)
    ensures ToUpperAscii(ToUpperAscii(m)) == ToUpperAscii(m)
  {
  }

  /** Normalising keeps the method's name without regard to case, and a
      normalised method stays as it is. */
  lemma NormalizeMethodStable(m: string)
    ensures ToUpperAscii(NormalizeMethod(m)) == ToUpperAscii(m)
    ensures NormalizeMethod(NormalizeMethod(m)) == NormalizeMethod(m)
  {
    UpperOfUpper(m);
  }

  /** "post" and "Delete" are forwarded upper-cased; "patch", not being one
      of the six names, is forwarded as spelled. */
  lemma NormalizeMethodExamples()
    ensures NormalizeMethod("post") == "POST"
    ensures NormalizeMethod("Delete") == "DELETE"
    ensures NormalizeMethod("patch") == "patch"
  {
    assert ToUpperAscii("post") == "POST";
    assert ToUpperAscii("Delete") == "DELETE";
    assert ToUpperAscii("patch") == "PATCH";
  }

  // ----- The response -----

  /** `Object.fromEntries`: each entry sets its key, a later entry
      replacing an earlier one. */
  function FromEntries(es: seq<(string, string)>): (m: map<string, string>)
    ensures forall k :: k in m <==> exists i :: 0 <= i < |es| && es[i].0 == k
    decreases |es|
  {
    if |es| == 0 then map[]
    else
      var m := FromEntries(es[..|es| - 1]);
      assert forall i :: 0 <= i < |es| - 1 ==> es[..|es| - 1][i] == es[i];
      m[es[|es| - 1].0 := es[|es| - 1].1]
  }

  /** The value of a key is that of its last entry. */
  lemma {:induction false} LastEntryWins(es: seq<(string, string)>, i: nat)
    requires i < |es|
    requires forall j :: i < j < |es| ==> es[j].0 != es[i].0
    ensures es[i].0 in FromEntries(es) && FromEntries(es)[es[i].0] == es[i].1
    decreases |es|
  {
    if i < |es| - 1 {
      var init := es[..|es| - 1];
      assert forall j :: i < j < |init| ==> init[j] == es[j];
      LastEntryWins(init, i);
    }
  }

  /** `{ ...headers, ...responseHeaders }` as written: a name the upstream
      sets replaces the same name, spelled the same way. */
  function MergeHeadersAsWritten(cors: map<string, string>, upstream: map<string, string>): (r: map<string, string>)
    ensures r.Keys == cors.Keys + upstream.Keys
    ensures forall k :: k in upstream ==> r[k] == upstream[k]
    ensures forall k :: k in cors && k !in upstream ==> r[k] == cors[k]
  {
    cors + upstream
  }

  /** The merge with header names compared without regard to case, as HTTP
      compares them: a CORS header whose name the upstream sets, in any
      case, gives way to the upstream's. */
  function MergeHeaders(cors: map<string, string>, upstream: map<string, string>): (r: map<string, string>)
    ensures forall k :: k in r <==> k in upstream || (k in cors && ToLowerAscii(k) !in upstream)
    ensures forall k :: k in upstream ==> r[k] == upstream[k]
    ensures forall k :: k in cors && k !in upstream && ToLowerAscii(k) !in upstream ==> r[k] == cors[k]
  {
    (map k | k in cors && ToLowerAscii(k) !in upstream :: cors[k]) + upstream
  }

  /** A failed step: status 500 with the CORS headers and the message. */
  function InternalFailure(e: Thrown): Response
  {
    Response(500, CorsHeaders, InternalError(InternalErrorMessage, ErrorMessage(e)))
  }

  /** The response built from the route handler's outcome. */
  function RelayUpstream(outcome: UpstreamOutcome): Response
  {
    match outcome
    case Threw(e) => InternalFailure(e)
    case Responded(status, entries, text) =>
      match text
      case Failure(e) => InternalFailure(e)
      case Success(t) => Response(status, MergeHeaders(CorsHeaders, FromEntries(entries)), Relayed(t))
  }

  /** The request forwarded to the route handler, or what was thrown while
      building it. */
  function ForwardedRequest(event: Event, env: Env): Result<Request, Thrown>
  {
    if !env.urlValid(BaseUrl(event)) then Failure(ErrorThrown(InvalidUrlMessage))
    else
      var body := ForwardBody(event, env.decodeBase64);
      match RequestError(BaseUrl(event), env.urlHasCredentials(BaseUrl(event)), event.httpMethod, body)
      case Some(e) => Failure(e)
      case None => Success(Request(Url(BaseUrl(event), QueryOf(event)), NormalizeMethod(event.httpMethod), event.headers, body))
  }

  /** The adapter's response to an event. */
  function Relay(event: Event, env: Env): Response
  {
    if event.httpMethod == "OPTIONS" then Response(200, CorsHeaders, EmptyBody)
    else if !Truthy(env.token) then Response(500, CorsHeaders, ConfigError(TokenMissingMessage))
    else
      match ForwardedRequest(event, env)
      case Failure(e) => InternalFailure(e)
      case Success(request) => RelayUpstream(env.utHandler(request))
  }

  /** The handler: preflight, token check, then, inside the try block, the
      URL and its query parameters, the body, the request, the route
      handler's response read back, and the catch-all error response. */
  method Handler(event: Event, env: Env) returns (r: Response)
    ensures r == Relay(event, env)
  {
    if event.httpMethod == "OPTIONS" {
      return Response(200, CorsHeaders, EmptyBody);
    }
    if !Truthy(env.token) {
      return Response(500, CorsHeaders, ConfigError(TokenMissingMessage));
    }
    var baseUrl := BaseUrl(event);
    if !env.urlValid(baseUrl) {
      return InternalFailure(ErrorThrown(InvalidUrlMessage));
    }
    var url := new SearchUrl(baseUrl);
    if event.queryStringParameters.Some? {
      AppendQueryParameters(url, event.queryStringParameters.value);
    }
    assert url.searchParams == QueryOf(event);
    var body := ChooseBody(event, env.decodeBase64);
    var invalid := RequestError(baseUrl, env.urlHasCredentials(baseUrl), event.httpMethod, body);
    if invalid.Some? {
      return InternalFailure(invalid.value);
    }
    var request := Request(url.Snapshot(), NormalizeMethod(event.httpMethod), event.headers, body);
    assert ForwardedRequest(event, env) == Success(request);
    var response := env.utHandler(request);
    if response.Threw? {
      return InternalFailure(response.error);
    }
    if response.text.Failure? {
      return InternalFailure(response.text.error);
    }
    var responseBody := response.text.value;
    var responseHeaders := FromEntries(response.headers);
    return Response(response.status, MergeHeaders(CorsHeaders, responseHeaders), Relayed(responseBody));
  }

  // ----- Properties of the adapter -----

  /** A preflight gets 200, the CORS headers and an empty body, whatever
      the token and the rest of the environment. */
  lemma PreflightFirst(event: Event, env: Env)
    requires event.httpMethod == "OPTIONS"
    ensures Relay(event, env) == Response(200, CorsHeaders, EmptyBody)
  {
  }

  /** Without a token every other method gets the configuration error. */
  lemma TokenRequired(event: Event, env: Env)
    requires event.httpMethod != "OPTIONS" && !Truthy(env.token)
    ensures Relay(event, env) == Response(500, CorsHeaders, ConfigError(TokenMissingMessage))
  {
  }

  /** With a token, any request the Request constructor accepts is
      forwarded, there being no method restriction: the route handler gets
      the base URL with the truthy query parameters, the event's method as
      the constructor normalises it, the event's headers, and the chosen
      body. */
  lemma RequestForwarded(event: Event, env: Env)
    requires event.httpMethod != "OPTIONS" && Truthy(env.token)
    requires env.urlValid(BaseUrl(event))
    requires RequestError(BaseUrl(event), env.urlHasCredentials(BaseUrl(event)), event.httpMethod,
      ForwardBody(event, env.decodeBase64)).None?
    ensures Relay(event, env) == RelayUpstream(env.utHandler(Request(
      Url("https://" + Host(event.headers) + event.path, QueryOf(event)),
      NormalizeMethod(event.httpMethod), event.headers, ForwardBody(event, env.decodeBase64))))
  {
  }

  /** A GET or HEAD event with a body makes the Request constructor throw,
      which the catch turns into a 500. */
  lemma GetWithBodyFails(event: Event, env: Env)
    requires event.httpMethod in {"GET", "HEAD"} && Truthy(env.token) && env.urlValid(BaseUrl(event))
    requires !env.urlHasCredentials(BaseUrl(event)) && Truthy(event.body)
    ensures Relay(event, env) == Response(500, CorsHeaders, InternalError(InternalErrorMessage, GetHeadBodyMessage))
  {
    assert IsTokenChar('G') && IsTokenChar('E') && IsTokenChar('T');
    assert IsTokenChar('H') && IsTokenChar('A') && IsTokenChar('D');
    assert ToUpperAscii("GET") == "GET" && ToUpperAscii("HEAD") == "HEAD";
  }

  /** A URL with a username or password makes the Request constructor
      throw before any method or body check, which the catch turns into a
      500. */
  lemma CredentialsRejected(event: Event, env: Env)
    requires event.httpMethod != "OPTIONS" && Truthy(env.token) && env.urlValid(BaseUrl(event))
    requires env.urlHasCredentials(BaseUrl(event))
    ensures Relay(event, env) == Response(500, CorsHeaders,
      InternalError(InternalErrorMessage, CredentialsMessage + BaseUrl(event)))
  {
  }

  /** A response the route handler returns and whose text can be read is
      relayed with its status and text unchanged, and its headers (for
      each name, the value of its last entry) merged over the CORS headers. */
  lemma UpstreamPassedThrough(status: int, entries: seq<(string, string)>, text: string)
    ensures var r := RelayUpstream(Responded(status, entries, Success(text)));
      && r.statusCode == status
      && r.body == Relayed(text)
      && r.headers == MergeHeaders(CorsHeaders, FromEntries(entries))
  {
  }

  /** Whatever is thrown inside the try block, the adapter answers 500 with
      the CORS headers, "Internal server error" and the thrown message; and
      those are the only internal errors. */
  lemma ErrorPath(event: Event, env: Env)
    requires event.httpMethod != "OPTIONS" && Truthy(env.token)
    ensures var r := Relay(event, env);
      r.body.InternalError? <==>
        ForwardedRequest(event, env).Failure?
        || env.utHandler(ForwardedRequest(event, env).value).Threw?
        || env.utHandler(ForwardedRequest(event, env).value).text.Failure?
    ensures var r := Relay(event, env);
      r.body.InternalError? ==> r.statusCode == 500 && r.headers == CorsHeaders && r.body.error == InternalErrorMessage
  {
  }

  // ----- The header merge as written -----

  /** Header names from a Fetch `Headers` object are lower-case. */
  ghost predicate LowerCaseNames(upstream: map<string, string>)
  {
    forall k :: k in upstream ==> IsLowerCase(k)
  }

  /** As written, the upstream names, being lower-case, never equal the
      mixed-case CORS names: an upstream access-control-allow-origin does
      not replace the CORS one but sits beside it, so the response carries
      the header twice with different values. */
  lemma UpstreamCorsHeaderDuplicated(origin: string)
    requires origin != "*"
    ensures var upstream := map["access-control-allow-origin" := origin];
      var r := MergeHeadersAsWritten(CorsHeaders, upstream);
      && LowerCaseNames(upstream)
      && r["Access-Control-Allow-Origin"] == "*"
      && r["access-control-allow-origin"] == origin
      && ToLowerAscii("Access-Control-Allow-Origin") == "access-control-allow-origin"
  {
    assert IsLowerCase("access-control-allow-origin");
    OriginNameLowerCase();
  }

  lemma OriginNameLowerCase()
    ensures ToLowerAscii("Access-Control-Allow-Origin") == "access-control-allow-origin"
  {
  }

  lemma LowerOfLower(k: string)
    requires IsLowerCase(k)
    ensures ToLowerAscii(k) == k
  {
  }

  /** The corrected merge never holds two spellings of one header name,
      provided the CORS names differ from one another without regard to
      case and the upstream names are lower-case. */
  lemma MergeHeadersDistinctNames(cors: map<string, string>, upstream: map<string, string>)
    requires forall a, b :: a in cors && b in cors && ToLowerAscii(a) == ToLowerAscii(b) ==> a == b
    requires LowerCaseNames(upstream)
    ensures var r := MergeHeaders(cors, upstream);
      forall a, b :: a in r && b in r && ToLowerAscii(a) == ToLowerAscii(b) ==> a == b
  {
    var r := MergeHeaders(cors, upstream);
    forall a, b | a in r && b in r && ToLowerAscii(a) == ToLowerAscii(b) ensures a == b {
      if a in upstream {
        LowerOfLower(a);
      }
      if b in upstream {
        LowerOfLower(b);
      }
    }
  }

  /** The three CORS names differ without regard to case. */
  lemma CorsNamesDistinct()
    ensures forall a, b :: a in CorsHeaders && b in CorsHeaders && ToLowerAscii(a) == ToLowerAscii(b) ==> a == b
  {
    assert ToLowerAscii("Access-Control-Allow-Origin")[21] == 'o';
    assert ToLowerAscii("Access-Control-Allow-Headers")[21] == 'h';
    assert ToLowerAscii("Access-Control-Allow-Methods")[21] == 'm';
  }

  /** The relayed headers never hold two spellings of one name. */
  lemma RelayedHeadersDistinct(status: int, entries: seq<(string, string)>, text: string)
    requires LowerCaseNames(FromEntries(entries))
    ensures var r := RelayUpstream(Responded(status, entries, Success(text)));
      forall a, b :: a in r.headers && b in r.headers && ToLowerAscii(a) == ToLowerAscii(b) ==> a == b
  {
    CorsNamesDistinct();
    MergeHeadersDistinctNames(CorsHeaders, FromEntries(entries));
  }
}
