# Ad analysis service: prompt builder, analysis handler and upload relay

This project models the three pieces of the ad-creative analysis service that hold logic of their own. It proves properties of each in Dafny.

- **The platform checklist and the analysis prompt** (`server/gemini-helpers.ts`), module `GeminiHelpers`.
  - The checklist is a five-entry table keyed by the lower-cased platform name. A platform missing from the table gets a generic fallback that names the platform twice.
  - The prompt is a template literal. It is modelled as a concatenation of fixed chunks and interpolated values. Where each value lands, which section holds the checklist and the order of the ten section headings are proved for any template text, and so for the source's.
- **The analysis handler** (`netlify/functions/analyze-ad.ts`), module `AnalyzeAd`.
  - The handler runs these steps in order: preflight, method check, body parse, required-field check, API-key check, image fetch, prompt, model call. It ends in a success or a catch-all failure.
  - JSON parsing, the image fetch and the model call are oracle parameters. The image data is specified by the base64 encoder of section 4 of RFC 4648 (module `Base64`). That encoder is proved to be the exact inverse of a strict decoder.
- **The upload relay adapter** (`netlify/functions/uploadthing.ts`), module `UploadthingRelay`.
  - It covers the preflight, the token check, the URL and its truthy query parameters (a `while` loop over a `URL` object), the choice of body and the checks of the Fetch `Request` constructor.
  - It also covers the response passed back with its headers merged over the CORS headers, and the catch-all 500.
  - The route handler, the URL parser and Node's base64 decoder are oracle parameters.

Modules `Text` (ASCII case mapping, concatenation of pieces, offsets) and `Wrappers` (`Option`, `Result`) support the others.

## Model

| member | source | states |
|---|---|---|
| GeminiHelpers.Table | server/gemini-helpers.ts:16-67 | the checklist table has exactly the keys instagram, facebook, tiktok, linkedin and twitter |
| GeminiHelpers.ChecksFor | server/gemini-helpers.ts:69-76 | a platform that is a table key in any mix of letter cases gets that key's entry when the entry is non-empty; if every matching entry is empty or there is none, it gets the fallback |
| GeminiHelpers.GetPlatformSpecificChecks | server/gemini-helpers.ts:15-77 | the source's table looked up with `ChecksFor`; no contract of its own, its meaning is carried by `SourceLookup`, `LookupIgnoresCase`, `SameKeySameChecks`, `UnknownPlatformFallsBack` and `FallbackEchoesPlatform` |
| GeminiHelpers.SourceEntriesNonEmpty | server/gemini-helpers.ts:16-67 | every entry of the source's table is non-empty, so `||` falls back only for a platform missing from the table |
| GeminiHelpers.SourceLookup | server/gemini-helpers.ts:15-77 | on the source's table, each of the five keys in any case gives exactly that key's text, and any other platform gives the fallback with its own spelling |
| GeminiHelpers.LookupIgnoresCase | server/gemini-helpers.ts:69-70 | "Instagram", "INSTAGRAM" and "instagram" all give the instagram entry; "TikTok" and "LinkedIn" give theirs |
| GeminiHelpers.SameKeySameChecks | server/gemini-helpers.ts:69-70 | two spellings that lower-case to the same table key get the same checklist, that key's entry |
| GeminiHelpers.UnknownPlatformFallsBack | server/gemini-helpers.ts:69-75 | a platform that lower-cases to no key gets the fallback |
| GeminiHelpers.FallbackEchoesPlatform | server/gemini-helpers.ts:71-75 | the fallback is its three fixed chunks with the platform, as spelled by the caller, at the two interpolation offsets, and nothing else |
| GeminiHelpers.Fallback | server/gemini-helpers.ts:71-75 | the generic checklist; no contract of its own, `FallbackEchoesPlatform` states its text and where the platform occurs in it |
| GeminiHelpers.ChecksForAsWritten | server/gemini-helpers.ts:16-76 | JavaScript's property lookup on the object literal; it agrees with `ChecksFor` whenever the lower-cased platform is not an Object.prototype member name |
| GeminiHelpers.RecordGet | server/gemini-helpers.ts:70 | a property read on the object literal: an own key, an inherited Object.prototype member, or undefined; no contract of its own, `ChecksForAsWritten` and `InheritedMembersReachable` state what it makes the lookup return |
| GeminiHelpers.ConstructorPlatformSkipsFallback | server/gemini-helpers.ts:69-70 | the platform "Constructor" reaches the inherited Object constructor as written, where the corrected lookup gives the fallback |
| GeminiHelpers.InheritedMembersReachable | server/gemini-helpers.ts:69-70 | as written, an inherited member is returned exactly when the platform lower-cases to "constructor" or "__proto__" |
| GeminiHelpers.PromptPieces | server/gemini-helpers.ts:85-223 | the prompt has 13 pieces: the persona sentence first, the opening line second, sections 1 to 10 in order, and the closing instruction last |
| GeminiHelpers.Render | server/gemini-helpers.ts:84-224 | the template literal as the concatenation of its pieces, for any template text and checklist; no contract of its own, its meaning is carried by the prompt lemmas below (`SectionsInOrder` through `ChecklistInSection4`) |
| GeminiHelpers.BuildAnalysisPrompt | server/gemini-helpers.ts:82-224 | `Render` of the modelled template with `GetPlatformSpecificChecks(platform)` as the checklist; no contract of its own, and every prompt lemma below holds of it because they are stated for any template text and checklist |
| GeminiHelpers.Sections | server/gemini-helpers.ts:89-222 | ten sections, section `i + 1` at index `i` |
| GeminiHelpers.SectionPieces | server/gemini-helpers.ts:89-222 | the layout of each section: its heading, fixed chunks, and where industry, platform, targetAudience, goal and the checklist are interpolated; no contract of its own, its meaning is carried by `FieldsInHeadings`, `FieldsInSectionBodies`, `ChecklistInSection4` and `HeadingAt` |
| GeminiHelpers.SectionHeading | server/gemini-helpers.ts:89-216 | the heading of section `k` with its interpolated field and ")" for sections 4, 5 and 7; no contract of its own, its meaning is carried by `SectionOpensWithHeading`, `HeadingAt`, `SectionHeadingsInOrder` and `FieldsInHeadings` |
| GeminiHelpers.SectionsInOrder | server/gemini-helpers.ts:89-223 | each section occurs in the prompt at its start offset; each ends where the next begins, and section 10 ends where the closing instruction begins |
| GeminiHelpers.SectionOpensWithHeading | server/gemini-helpers.ts:89-216 | every section begins with its heading; for sections 4, 5 and 7 the heading includes the interpolated field and ")" |
| GeminiHelpers.HeadingAt | server/gemini-helpers.ts:89-216 | heading `k` occurs in the prompt at the start of section `k` |
| GeminiHelpers.SectionHeadingsInOrder | server/gemini-helpers.ts:89-216 | the headings of sections 1 to 10 appear in increasing order, each ending before the next starts, and the last before the closing instruction |
| GeminiHelpers.PromptStartsWithPersona | server/gemini-helpers.ts:85 | the prompt begins with the persona sentence |
| GeminiHelpers.PromptEndsWithClosing | server/gemini-helpers.ts:223 | the prompt ends with the formatting instruction |
| GeminiHelpers.PieceInBody | server/gemini-helpers.ts:89-222 | a piece of a section that comes after its heading occurs in the prompt inside that section's body |
| GeminiHelpers.FieldsInHeadings | server/gemini-helpers.ts:139-180 | platform, targetAudience and goal occur verbatim right after the fixed text of the headings of sections 4, 5 and 7 |
| GeminiHelpers.FieldsInSectionBodies | server/gemini-helpers.ts:98-211 | industry occurs verbatim in the bodies of sections 2 and 9, and platform in the bodies of sections 4 and 9 |
| GeminiHelpers.ChecklistInSection4 | server/gemini-helpers.ts:139-142 | the checklist occurs inside the body of section 4, after the heading that names the platform |
| Text.ToLowerAscii | server/gemini-helpers.ts:70 | `toLowerCase` on ASCII letters: the same length, each character mapped by itself, upper-case ASCII letters to lower case and every other character unchanged |
| Text.LowerIffCaseVariant | server/gemini-helpers.ts:70 | lower-casing a string gives a lower-case key exactly when the string spells that key in some mix of cases |
| Base64.CharToIndex | netlify/functions/analyze-ad.ts:25 | a character has a digit value exactly when it is in the alphabet of section 4 of RFC 4648 |
| Base64.Encode | netlify/functions/analyze-ad.ts:25 | the encoding is empty exactly when the bytes are |
| Base64.EncodedLength | netlify/functions/analyze-ad.ts:25 | n bytes encode to 4 * ceil(n / 3) characters |
| Base64.DecodeEncode | netlify/functions/analyze-ad.ts:25 | decoding the encoding gives the bytes back |
| Base64.EncodeDecode | netlify/functions/analyze-ad.ts:25 | every string the strict decoder accepts is the encoding of what it decodes to |
| Base64.RoundTrip | netlify/functions/analyze-ad.ts:25 | the strict decoder maps `s` to `b` exactly when `b` encodes to `s` |
| Base64.Rfc4648Vectors | netlify/functions/analyze-ad.ts:25 | the encoder gives the encodings of "", "f", "fo", "foo", "foob", "fooba" and "foobar" that section 10 of RFC 4648 lists |
| AnalyzeAd.BodyText | netlify/functions/analyze-ad.ts:118 | a body that is present and non-empty is parsed unchanged; a missing or empty body is parsed as "{}" |
| Text.Truthy | netlify/functions/analyze-ad.ts:118-122 | JavaScript truthiness of an optional string, present and non-empty; shared by both handlers, no contract of its own, `BodyText`, `Handler`, `Host`, `ChooseBody` and `TruthyParamsMembers` state its effect |
| AnalyzeAd.HasAllFields | netlify/functions/analyze-ad.ts:123 | the five required fields are all truthy; no contract of its own, `Handler` states that a POST whose parsed fields fail it gets the 400 |
| AnalyzeAd.ContextOf | netlify/functions/analyze-ad.ts:157-163 | the context holds the four validated fields unchanged |
| AnalyzeAd.MimeTypeOf | netlify/functions/analyze-ad.ts:28 | the content-type when it is truthy, otherwise "image/jpeg" |
| AnalyzeAd.ImageOf | netlify/functions/analyze-ad.ts:23-30 | the inline image of a successful fetch: its data decodes back to exactly the fetched bytes, and its MIME type follows `MimeTypeOf` |
| AnalyzeAd.FetchImageAsBase64 | netlify/functions/analyze-ad.ts:14-38 | succeeds exactly when the fetch does not throw and its response is ok; every failure carries "Failed to fetch image for analysis"; on success the data is the base64 text of the bytes, which decodes back to them, and the MIME type follows `MimeTypeOf` |
| AnalyzeAd.ModelParts | netlify/functions/analyze-ad.ts:58-68 | two parts: the prompt text first, the inline image second |
| AnalyzeAd.GenerateAnalysis | netlify/functions/analyze-ad.ts:73-83 | the model's text on success; on a model failure, "Failed to analyze ad creative" |
| AnalyzeAd.ModelAnswer | netlify/functions/analyze-ad.ts:49-75 | the model's outcome on the two parts for the modelled prompt and the fetched image; no contract of its own, `AnalyzeAdWithGemini` states how its outcome decides the result |
| AnalyzeAd.AnalyzeAdWithGemini | netlify/functions/analyze-ad.ts:43-84 | succeeds exactly when the fetch succeeds and the model, given the modelled prompt and that image, answers; the result is the model's text; any failure, the fetch's included, has the message "Failed to analyze ad creative" |
| AnalyzeAd.Handler | netlify/functions/analyze-ad.ts:89-191 | every response carries the four fixed headers; OPTIONS gives 200 with an empty body; any other non-POST gives 405; a parse failure gives 500 with its message; a falsy field gives 400 with the fixed required list, before the key is checked; a POST with a missing or empty body gives that 400 whenever `parse` maps "{}" to five undefined fields, as `JSON.parse` does; a missing key gives 500; otherwise 200 with success, the model's text, the context and the timestamp, or 500 "Failed to analyze ad creative"; the status is one of 200, 400, 405 and 500, and 200 only for the preflight and the success |
| UploadthingRelay.Host | netlify/functions/uploadthing.ts:52 | the host header when it is present and non-empty, otherwise "localhost" |
| UploadthingRelay.BaseUrl | netlify/functions/uploadthing.ts:52 | "https://", then the host, then the event's path |
| UploadthingRelay.TruthyParams | netlify/functions/uploadthing.ts:56-60 | the parameters the loop appends never outnumber the entries; `TruthyParamsAppend`, `TruthyParamsMembers` and `AllTruthyAppended` state which ones it keeps and in what order |
| UploadthingRelay.TruthyParamsAppend | netlify/functions/uploadthing.ts:56-60 | the parameters kept from two runs of entries are those kept from each, in order |
| UploadthingRelay.TruthyParamsMembers | netlify/functions/uploadthing.ts:56-60 | a pair is appended exactly when the entries hold it with a defined non-empty value |
| UploadthingRelay.AllTruthyAppended | netlify/functions/uploadthing.ts:56-60 | when every value is defined and non-empty, every entry is appended in entry order |
| UploadthingRelay.QueryOf | netlify/functions/uploadthing.ts:55-60 | the truthy parameters of the event, none when it has no query parameters; no contract of its own, `RequestForwarded` states that the forwarded URL carries them and `Handler` that its loop appends exactly them |
| UploadthingRelay.SearchUrl.constructor | netlify/functions/uploadthing.ts:53 | a new URL holds its text and no search parameters |
| UploadthingRelay.SearchUrl.Append | netlify/functions/uploadthing.ts:58 | appending adds the pair at the end of the search parameters |
| UploadthingRelay.AppendQueryParameters | netlify/functions/uploadthing.ts:56-60 | the loop leaves the URL's parameters extended by exactly the truthy entries, in order |
| UploadthingRelay.ForwardBody | netlify/functions/uploadthing.ts:63-70 | the body the request carries; no contract of its own, `ChooseBody` is proved equal to it and states its three cases |
| UploadthingRelay.ChooseBody | netlify/functions/uploadthing.ts:63-70 | no body for an absent or empty event body; the decoded bytes when it is base64-encoded; the text itself otherwise |
| UploadthingRelay.RequestError | netlify/functions/uploadthing.ts:72-76 | the Request constructor accepts exactly a URL without credentials and a token method that is not CONNECT, TRACE or TRACK, carrying no body if it is GET or HEAD; a URL with credentials is rejected first, with a message naming the URL |
| UploadthingRelay.NormalizeMethod | netlify/functions/uploadthing.ts:72-74 | the method the constructed request carries: DELETE, GET, HEAD, OPTIONS, POST and PUT in any case become upper case, and any other method keeps its spelling |
| UploadthingRelay.NormalizeMethodStable | netlify/functions/uploadthing.ts:72-74 | normalising never changes a method's name ignoring case, and normalising twice is normalising once |
| UploadthingRelay.NormalizeMethodExamples | netlify/functions/uploadthing.ts:72-74 | "post" is forwarded as "POST" and "Delete" as "DELETE", while "patch" stays "patch" |
| UploadthingRelay.FromEntries | netlify/functions/uploadthing.ts:90 | the keys are exactly the entry names |
| UploadthingRelay.LastEntryWins | netlify/functions/uploadthing.ts:90 | a name takes the value of its last entry |
| UploadthingRelay.MergeHeadersAsWritten | netlify/functions/uploadthing.ts:102 | the object spread: an upstream name replaces the identical CORS name, and other CORS names are kept |
| UploadthingRelay.MergeHeaders | netlify/functions/uploadthing.ts:102 | the merge the relay uses: every upstream header is kept with its value; a CORS header is kept exactly when the upstream does not set its name in lower case |
| UploadthingRelay.ForwardedRequest | netlify/functions/uploadthing.ts:52-76 | the forwarded request, or the error the URL parser or the Request constructor throws; no contract of its own, its meaning is carried by `RequestForwarded`, `CredentialsRejected`, `GetWithBodyFails` and `ErrorPath` |
| UploadthingRelay.RelayUpstream | netlify/functions/uploadthing.ts:81-115 | the response built from the route handler's outcome; no contract of its own, its meaning is carried by `UpstreamPassedThrough`, `ErrorPath` and `RelayedHeadersDistinct` |
| UploadthingRelay.Relay | netlify/functions/uploadthing.ts:16-117 | the adapter's response to an event; no contract of its own, its meaning is carried by `PreflightFirst`, `TokenRequired`, `RequestForwarded`, `GetWithBodyFails`, `UpstreamPassedThrough` and `ErrorPath`, and `Handler` is proved equal to it |
| UploadthingRelay.Handler | netlify/functions/uploadthing.ts:16-117 | the handler method, with its loop and local body, computes exactly `Relay` |
| UploadthingRelay.PreflightFirst | netlify/functions/uploadthing.ts:24-30 | OPTIONS gives 200, the CORS headers and an empty body, whatever the token |
| UploadthingRelay.TokenRequired | netlify/functions/uploadthing.ts:33-40 | without a token any other method gives 500 with the configuration error |
| UploadthingRelay.RequestForwarded | netlify/functions/uploadthing.ts:52-81 | with a token, any request the Request constructor accepts reaches the route handler, with no method restriction; the forwarded request has the base URL with the truthy parameters, the event's method as the constructor normalises it, the event's headers, and the chosen body |
| UploadthingRelay.GetWithBodyFails | netlify/functions/uploadthing.ts:63-76 | a GET or HEAD with a body, on a URL without credentials, gives 500 "Internal server error" with the constructor's message |
| UploadthingRelay.CredentialsRejected | netlify/functions/uploadthing.ts:52-76 | a base URL with a username or password gives 500 "Internal server error" with the constructor's credentials message, whatever the method and body |
| UploadthingRelay.UpstreamPassedThrough | netlify/functions/uploadthing.ts:89-104 | the upstream status and text are returned unchanged, with the headers merged over the CORS headers |
| UploadthingRelay.ErrorPath | netlify/functions/uploadthing.ts:105-115 | an internal-error response occurs exactly when building the request, the route handler or reading its text throws, and it is 500 with the CORS headers and "Internal server error" |
| UploadthingRelay.InternalFailure | netlify/functions/uploadthing.ts:105-115 | the catch block's 500 with the CORS headers, "Internal server error" and the error's message; no contract of its own, `ErrorPath` and `GetWithBodyFails` state when it is returned and what it carries |
| UploadthingRelay.ErrorMessage | netlify/functions/uploadthing.ts:112 | the message of a thrown Error, or "Unknown error" for anything else thrown; no contract of its own, `GetWithBodyFails` shows a Request constructor message carried into the 500 |
| UploadthingRelay.UpstreamCorsHeaderDuplicated | netlify/functions/uploadthing.ts:90-102 | as written, an upstream access-control-allow-origin sits beside the CORS one instead of replacing it |
| UploadthingRelay.CorsNamesDistinct | netlify/functions/uploadthing.ts:18-22 | the three CORS header names differ when case is ignored |
| UploadthingRelay.MergeHeadersDistinctNames | netlify/functions/uploadthing.ts:102 | the relay's merge never holds two spellings of one header name |
| UploadthingRelay.RelayedHeadersDistinct | netlify/functions/uploadthing.ts:90-102 | a relayed response never carries the same header name twice in different cases |

## Left out

- GeminiHelpers.BuildAnalysisPrompt: the modelled template is shorter than the source's.
  - These chunks are the source's text verbatim: the persona sentence, the opening line, the headings of sections 1 to 10, the bodies of sections 1 and 10, the two chunks of section 4 before the checklist, the three chunks of section 9 and the closing instruction.
  - The other body chunks are abbreviated. Section 2's chunks keep their topic lines and drop the indented sub-items (lines 96-97, 101-104, 107-110 and 113-116). The chunk of section 4 after the checklist drops lines 145-148. Sections 3 and 5 to 8 keep their topic lines only, and section 8 drops its "- Example:" lines.
  - Every prompt lemma is stated for any template text, so each holds for the source's full text too. Only the exact characters of the abbreviated chunks are not modelled.
- Text.ToLowerAscii: case mapping covers ASCII letters only; JavaScript's `toLowerCase` maps all of Unicode.
- Characters are Unicode scalar values. JavaScript strings count UTF-16 code units, so offsets past an emoji differ from JavaScript's string indices.
- Determinism holds by construction: every operation is a mathematical function of its inputs, the timestamp and oracle outcomes included. No lemma states it.
- JSON parsing and serialisation are left out.
  - `JSON.parse` is an oracle: the five fields, or the message of what it throws. The one fact about it the model uses, that "{}" parses to five undefined fields, is a hypothesis of the `Handler` clause for a missing body.
  - JSON field values other than strings (numbers, booleans, objects) are not modelled.
  - Response bodies are datatypes by shape, not their serialised text.
  - The `stack` field of the relay's error body is not modelled.
- Logging (`console.log`, `console.error`) is left out.
- `new Date().toISOString()` is the input `now`. The `GEMINI_API_KEY` and `UPLOADTHING_TOKEN` variables are optional inputs.
- `fetch`, `arrayBuffer` and the Gemini SDK's `getGenerativeModel`, `generateContent` and `text()` are oracles. A thrown fetch and a failed body read are one outcome.
- The `genAI` client built at module load is left out. It is built with the key or "", and the handler checks the key before the client is used.
- `new URL` is an oracle deciding which strings parse. The message it throws is "Invalid URL". A second oracle says whether the parsed URL carries a username or password; the message of the Request constructor's credentials error names the base URL, not `url.toString()`, whose serialisation is not modelled.
  - The URL is modelled as its text plus its appended search parameters; `url.toString()`, normalisation and percent-encoding are not modelled.
  - The model assumes the event path carries no query of its own.
- `Buffer.from(s, "base64")` is an oracle. Node's decoder is lenient, unlike the strict `Base64.Decode`.
- `new Headers(event.headers)` is left out. The forwarded request carries the event's header map unchanged; header-name validation and normalisation are not modelled.
- The order of `Object.entries` is taken as given. JavaScript lists integer-like keys first.
- The response headers are taken as `headers.entries()` lists them. Their sorting and combining by the Fetch `Headers` object happen upstream.
- `createRouteHandler` and the upload router are the oracle `utHandler`.

## Findings

| source | as written | input that shows it | evidently intended | confidence | as-written member | corrected member |
|---|---|---|---|---|---|---|
| server/gemini-helpers.ts:69-70 | `checks[platform.toLowerCase()] \|\| fallback` indexes a plain object literal, which also exposes Object.prototype's members | platform "Constructor" (or "__proto__") returns the Object constructor (or Object.prototype), which is truthy, so it is returned instead of the fallback checklist and is not a checklist string | a platform missing from the table gets the fallback | high, not executed | GeminiHelpers.ChecksForAsWritten, GeminiHelpers.ConstructorPlatformSkipsFallback | GeminiHelpers.ChecksFor |
| netlify/functions/uploadthing.ts:90-102 | `{ ...headers, ...responseHeaders }` merges by exact key, but `headers.entries()` yields lower-case names while the CORS names are mixed case | an upstream response with `access-control-allow-origin: https://app.example` leaves both "Access-Control-Allow-Origin: *" and the upstream value in the returned headers | the upstream value replaces the CORS header of the same name | medium, not executed | UploadthingRelay.MergeHeadersAsWritten, UploadthingRelay.UpstreamCorsHeaderDuplicated | UploadthingRelay.MergeHeaders, UploadthingRelay.RelayedHeadersDistinct |

`GetPlatformSpecificChecks` and `BuildAnalysisPrompt` use the corrected lookup, and the relay uses the corrected merge.
