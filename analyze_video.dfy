/**
 * The `analyze-video` edge function: it answers CORS pre-flight requests,
 * validates `{prompt, videoUrl}`, checks that the provider key is
 * configured, relays the request to the Gemini API and maps the provider's
 * reply to one client-facing response. Every effect is a parameter: the
 * parsed request body, the `GOOGLE_API_KEY` environment value and the
 * outcome of the provider call. `Handle` also reports which of those inputs
 * it consulted.
 */
module AnalyzeVideo {
  import opened Wrappers
  import opened Strings
  import opened JsValues
  import Url

  datatype Header = Header(name: string, value: string)

  const CorsHeaders: seq<Header> := [
    Header("Access-Control-Allow-Origin", "*"),
    Header("Access-Control-Allow-Headers", "authorization, x-client-info, apikey, content-type")
  ]

  /** The CORS headers followed by the JSON content type, as on every non-pre-flight response. */
  const JsonHeaders: seq<Header> := CorsHeaders + [Header("Content-Type", "application/json")]

  /**
   * A response body: none, `{"error": …}` or `{"result": …}`. A result that
   * is `undefined` (`None`) serialises as `{}`.
   */
  datatype Body = NoBody | ErrorBody(error: string) | ResultBody(result: Option<Json>)

  datatype Response = Response(status: int, headers: seq<Header>, body: Body)

  /** How the function ended, and which of its inputs it consulted on the way. */
  datatype Trace = Trace(bodyRead: bool, keyRead: bool, providerCalled: bool)

  datatype Handled = Handled(response: Response, trace: Trace)

  /** The request: its method and the result of `req.json()` (a failure carries the thrown message). */
  datatype Request = Request(httpMethod: string, body: Result<Json, string>)

  /**
   * A final status that `fetch` can hand back: the Fetch Standard allows any
   * status up to 999, and interim 1xx answers are not final.
   */
  type FetchStatus = s: int | 200 <= s <= 999 witness 200

  /**
   * The provider call: `fetch` either throws or yields a status together
   * with what `response.text()` and `response.json()` would give; the
   * function reads only one of the two, depending on the status.
   */
  datatype ProviderOutcome =
    | FetchFailed(message: string)
    | Responded(status: FetchStatus, text: Result<string, string>, json: Result<Json, string>)

  const MissingFieldsMessage := "Missing prompt or videoUrl"
  const YouTubeMessage := "YouTube URLs are not supported. Please provide a direct video file URL (e.g., https://example.com/video.mp4). You can upload your video to a file hosting service or use a direct MP4 link."
  const NotDirectMessage := "Please provide a direct video file URL ending with .mp4, .mov, .avi, or .webm (e.g., https://example.com/video.mp4)"
  const MissingKeyMessage := "Google API Key not configured"
  const OverloadedMessage := "The Gemini API is currently overloaded. Please try again in a few minutes."
  const InvalidRequestMessage := "Invalid request. Please check that your video URL is accessible and in a supported format."
  const NoValidResponseMessage := "No valid response from Gemini API"

  /** V8's TypeError for destructuring `{prompt, videoUrl}` out of `null`. */
  const DestructureNullMessage := "Cannot destructure property 'prompt' of '(intermediate value)' as it is null."
  /** V8's TypeError for calling `includes` on a value that has no such method. */
  const NoIncludesMessage := "url.includes is not a function"

  const VideoExtensions: seq<string> := [".mp4", ".mov", ".avi", ".webm"]

  predicate HasVideoExtension(lower: string) {
    EndsWith(lower, ".mp4") || EndsWith(lower, ".mov") || EndsWith(lower, ".avi") || EndsWith(lower, ".webm")
  }

  /** The URL parses and its lower-cased pathname ends in a recognised video extension. */
  predicate IsDirectVideoUrl(url: string)
    ensures IsDirectVideoUrl(url)
        <==> Url.ParsePathname(url).Some?
             && exists e :: e in VideoExtensions && EndsWith(ToLower(Url.ParsePathname(url).value), e)
  {
    match Url.ParsePathname(url)
    case None => false
    case Some(pathname) =>
      VideoExtensionIff(ToLower(pathname));
      HasVideoExtension(ToLower(pathname))
  }

  /**
   * `isDirectVideoUrl` on whatever the body held: `new URL` first converts
   * it to a string, and a conversion that throws is caught like a parse
   * failure.
   */
  predicate IsDirectVideoValue(videoUrl: Json)
    ensures videoUrl.JStr? ==> (IsDirectVideoValue(videoUrl) <==> IsDirectVideoUrl(videoUrl.s))
    ensures HasOwnToString(videoUrl) ==> !IsDirectVideoValue(videoUrl)
  {
    match ToJsString(videoUrl)
    case Failure(_) => false
    case Success(s) => IsDirectVideoUrl(s)
  }

  /** A case-sensitive substring test on the whole URL, host or not. */
  predicate IsYouTubeUrl(url: string)
    ensures IsYouTubeUrl(url) <==> exists i :: OccursAt(url, "youtube.com", i) || OccursAt(url, "youtu.be", i)
  {
    ContainsIff(url, "youtube.com");
    ContainsIff(url, "youtu.be");
    Contains(url, "youtube.com") || Contains(url, "youtu.be")
  }

  /** The environment value is set and non-empty. */
  predicate KeyConfigured(apiKey: Option<string>) {
    apiKey.Some? && apiKey.value != ""
  }

  predicate IsOk(status: int) {
    200 <= status <= 299
  }

  function JsonResponse(status: int, body: Body): Response {
    Response(status, JsonHeaders, body)
  }

  /** What the `catch` block returns for a thrown error with this message. */
  function ServerError(message: string): Response {
    JsonResponse(500, ErrorBody("Server error: " + message))
  }

  /**
   * `isYouTubeUrl(videoUrl)` on whatever the body held: a string is searched,
   * an array is searched for an element equal to either pattern, and any
   * other value has no `includes` method, so the call throws.
   */
  function YouTubeTest(videoUrl: Json): (r: Result<bool, string>)
    ensures videoUrl.JStr? ==> r == Success(IsYouTubeUrl(videoUrl.s))
    ensures videoUrl.JArr? ==> r == Success(JStr("youtube.com") in videoUrl.elems || JStr("youtu.be") in videoUrl.elems)
    ensures r.Failure? <==> !videoUrl.JStr? && !videoUrl.JArr?
    ensures r.Failure? ==> r.error == NoIncludesMessage
  {
    match videoUrl
    case JStr(s) => Success(IsYouTubeUrl(s))
    case JArr(xs) => Success(JStr("youtube.com") in xs || JStr("youtu.be") in xs)
    case _ => Failure(NoIncludesMessage)
  }

  /**
   * A status whose response must not have a body (Fetch Standard, "null body
   * status"). The `Response` constructor throws when it is given one together
   * with a body.
   */
  predicate NullBodyStatus(status: int) {
    status in {101, 103, 204, 205, 304}
  }

  /** Deno's TypeError for a `Response` built with a body and a null body status. */
  const NullBodyStatusMessage := "Response with null body status cannot have body"

  /**
   * The statuses Deno's `Response` constructor accepts: 200 to 599, and 101
   * for protocol upgrades. Any other makes it throw a RangeError.
   */
  predicate ConstructibleStatus(status: int) {
    200 <= status <= 599 || status == 101
  }

  /** Deno's RangeError for a `Response` built with a status outside 200 to 599. */
  function StatusRangeMessage(status: int): string {
    "The status provided (" + IntToString(status) + ") is outside the range [200, 599]."
  }

  /**
   * The response for a provider status outside 200 to 299, given the
   * provider's error text. The generic branch passes the status on to
   * `new Response`, which throws a RangeError for a status outside 200 to
   * 599 and, failing that, a TypeError for a null body status such as 304;
   * the `catch` block then answers 500.
   */
  function ProviderErrorResponse(status: int, errorText: string): (r: Response)
    requires !IsOk(status)
    ensures r.headers == JsonHeaders && r.body.ErrorBody?
    ensures ConstructibleStatus(status) && !NullBodyStatus(status) ==> r.status == status
    ensures ConstructibleStatus(status) && NullBodyStatus(status) ==> r == ServerError(NullBodyStatusMessage)
    ensures !ConstructibleStatus(status) ==> r == ServerError(StatusRangeMessage(status))
  {
    if status == 503 then JsonResponse(503, ErrorBody(OverloadedMessage))
    else if status == 400 then JsonResponse(400, ErrorBody(InvalidRequestMessage))
    else if !ConstructibleStatus(status) then ServerError(StatusRangeMessage(status))
    else if NullBodyStatus(status) then ServerError(NullBodyStatusMessage)
    else JsonResponse(status, ErrorBody("Gemini API error: " + IntToString(status) + " - " + errorText))
  }

  /**
   * The response for a provider reply with an ok status: `candidates[0].content.parts[0].text`,
   * or the "no valid response" error when `candidates`, `candidates[0]` or its
   * `content` is falsy. A failure is a TypeError thrown on the way; the
   * three truthiness tests rule one out until `parts[0]` is read.
   */
  function ExtractResult(data: Json): (r: Result<Response, string>)
    ensures r.Success? ==> r.value.headers == JsonHeaders
    ensures r.Success? ==> (r.value.status == 200 && r.value.body.ResultBody?) || r.value == JsonResponse(500, ErrorBody(NoValidResponseMessage))
    ensures data == JNull ==> r.Failure?
  {
    var candidates :- Get(Some(data), "candidates");
    if !Truthy(candidates) then Success(JsonResponse(500, ErrorBody(NoValidResponseMessage)))
    else
      var first := Property(candidates.value, "0");
      if !Truthy(first) then Success(JsonResponse(500, ErrorBody(NoValidResponseMessage)))
      else
        var content := Property(first.value, "content");
        if !Truthy(content) then Success(JsonResponse(500, ErrorBody(NoValidResponseMessage)))
        else
          var parts := Property(content.value, "parts");
          var part :- Get(parts, "0");
          var text :- Get(part, "text");
          Success(JsonResponse(200, ResultBody(text)))
  }

  /**
   * Everything from the `fetch` call on. An error thrown by `fetch`,
   * `response.text()`, `response.json()`, the extraction or `new Response`
   * becomes `Server error: <message>`.
   */
  function ProviderResponse(provider: ProviderOutcome): (r: Response)
    ensures r.headers == JsonHeaders
    ensures provider.FetchFailed? ==> r == ServerError(provider.message)
    ensures provider.Responded? && !IsOk(provider.status) && provider.text.Failure? ==> r == ServerError(provider.text.error)
    ensures provider.Responded? && !IsOk(provider.status) && provider.text.Success?
        && ConstructibleStatus(provider.status) && !NullBodyStatus(provider.status)
        ==> r.status == provider.status
    ensures provider.Responded? && !IsOk(provider.status) && provider.text.Success? && !ConstructibleStatus(provider.status)
        ==> r == ServerError(StatusRangeMessage(provider.status))
    ensures provider.Responded? && IsOk(provider.status) && provider.json.Failure? ==> r == ServerError(provider.json.error)
    ensures provider.Responded? && IsOk(provider.status) && provider.json.Success? && ExtractResult(provider.json.value).Failure?
        ==> r == ServerError(ExtractResult(provider.json.value).error)
    ensures r.status in {200, 500} || (provider.Responded? && !IsOk(provider.status) && r.status == provider.status)
    ensures (r.body.ErrorBody? <==> !IsOk(r.status)) && (r.body.ResultBody? <==> r.status == 200)
  {
    match provider
    case FetchFailed(message) => ServerError(message)
    case Responded(status, text, json) =>
      if !IsOk(status) then
        match text
        case Failure(message) => ServerError(message)
        case Success(errorText) => ProviderErrorResponse(status, errorText)
      else
        match json
        case Failure(message) => ServerError(message)
        case Success(data) =>
          match ExtractResult(data)
          case Failure(message) => ServerError(message)
          case Success(response) => response
  }

  /** The request handler passed to `serve`. */
  function Handle(req: Request, apiKey: Option<string>, provider: ProviderOutcome): (h: Handled)
    ensures req.httpMethod == "OPTIONS" ==> h == Handled(Response(200, CorsHeaders, NoBody), Trace(false, false, false))
    ensures req.httpMethod != "OPTIONS" ==> h.trace.bodyRead && h.response.headers == JsonHeaders
    ensures h.trace.providerCalled ==> h.trace.keyRead
  {
    if req.httpMethod == "OPTIONS" then Handled(Response(200, CorsHeaders, NoBody), Trace(false, false, false))
    else
      var inputOnly := Trace(true, false, false);
      match req.body
      case Failure(message) => Handled(ServerError(message), inputOnly)
      case Success(payload) =>
        if payload == JNull then Handled(ServerError(DestructureNullMessage), inputOnly)
        else
          var prompt := Property(payload, "prompt");
          var videoUrl := Property(payload, "videoUrl");
          if !Truthy(prompt) || !Truthy(videoUrl) then
            Handled(JsonResponse(400, ErrorBody(MissingFieldsMessage)), inputOnly)
          else
            match YouTubeTest(videoUrl.value)
            case Failure(message) => Handled(ServerError(message), inputOnly)
            case Success(true) => Handled(JsonResponse(400, ErrorBody(YouTubeMessage)), inputOnly)
            case Success(false) =>
              if !IsDirectVideoValue(videoUrl.value) then
                Handled(JsonResponse(400, ErrorBody(NotDirectMessage)), inputOnly)
              else if !KeyConfigured(apiKey) then
                Handled(JsonResponse(500, ErrorBody(MissingKeyMessage)), Trace(true, true, false))
              else
                Handled(ProviderResponse(provider), Trace(true, true, true))
  }

  /** The video URL passes both URL checks: no known hosting pattern, and a direct file link. */
  predicate AcceptedVideoUrl(videoUrl: Json) {
    match videoUrl
    case JStr(s) => !IsYouTubeUrl(s) && IsDirectVideoUrl(s)
    case JArr(xs) => JStr("youtube.com") !in xs && JStr("youtu.be") !in xs && IsDirectVideoValue(videoUrl)
    case _ => false
  }

  /** The body parses to a non-null value whose `prompt` and `videoUrl` pass the three input checks. */
  predicate PassesInputChecks(body: Result<Json, string>) {
    && body.Success?
    && body.value != JNull
    && Truthy(Property(body.value, "prompt"))
    && Truthy(Property(body.value, "videoUrl"))
    && AcceptedVideoUrl(Property(body.value, "videoUrl").value)
  }

  /**
   * The environment key is read exactly when every input check passes, and
   * the provider is called exactly when, in addition, the key is configured.
   */
  lemma ConsultationOrder(req: Request, apiKey: Option<string>, provider: ProviderOutcome)
    ensures Handle(req, apiKey, provider).trace.keyRead <==> req.httpMethod != "OPTIONS" && PassesInputChecks(req.body)
    ensures Handle(req, apiKey, provider).trace.providerCalled
        <==> req.httpMethod != "OPTIONS" && PassesInputChecks(req.body) && KeyConfigured(apiKey)
    ensures Handle(req, apiKey, provider).trace.providerCalled ==> Handle(req, apiKey, provider).response == ProviderResponse(provider)
  {
  }

  /** A missing key is reported only once the three input checks have passed. */
  lemma MissingKeyAfterInputChecks(req: Request, apiKey: Option<string>, provider: ProviderOutcome)
    requires req.httpMethod != "OPTIONS" && PassesInputChecks(req.body) && !KeyConfigured(apiKey)
    ensures Handle(req, apiKey, provider) == Handled(JsonResponse(500, ErrorBody(MissingKeyMessage)), Trace(true, true, false))
  {
  }

  /** What the handler did not consult cannot change its answer. */
  lemma UnconsultedInputsIrrelevant(req: Request, apiKey: Option<string>, provider: ProviderOutcome,
                                    otherBody: Result<Json, string>, otherKey: Option<string>, otherProvider: ProviderOutcome)
    ensures !Handle(req, apiKey, provider).trace.bodyRead
        ==> Handle(Request(req.httpMethod, otherBody), otherKey, otherProvider) == Handle(req, apiKey, provider)
    ensures !Handle(req, apiKey, provider).trace.keyRead
        ==> Handle(req, otherKey, otherProvider) == Handle(req, apiKey, provider)
    ensures !Handle(req, apiKey, provider).trace.providerCalled
        ==> Handle(req, apiKey, otherProvider) == Handle(req, apiKey, provider)
  {
  }

  /** An empty or absent field is the first check, before either URL test. */
  lemma MissingFieldsFirst(req: Request, apiKey: Option<string>, provider: ProviderOutcome)
    requires req.httpMethod != "OPTIONS" && req.body.Success? && req.body.value != JNull
    requires !Truthy(Property(req.body.value, "prompt")) || !Truthy(Property(req.body.value, "videoUrl"))
    ensures Handle(req, apiKey, provider) == Handled(JsonResponse(400, ErrorBody(MissingFieldsMessage)), Trace(true, false, false))
  {
  }

  /** A URL holding a hosting pattern is refused before its extension is looked at. */
  lemma YouTubeBeforeExtension(req: Request, apiKey: Option<string>, provider: ProviderOutcome, url: string)
    requires req.httpMethod != "OPTIONS" && req.body.Success? && req.body.value != JNull
    requires Truthy(Property(req.body.value, "prompt"))
    requires Property(req.body.value, "videoUrl") == Some(JStr(url)) && IsYouTubeUrl(url)
    ensures Handle(req, apiKey, provider) == Handled(JsonResponse(400, ErrorBody(YouTubeMessage)), Trace(true, false, false))
  {
  }

  /** A URL without a hosting pattern that is not a direct video link is refused before the key is read. */
  lemma NotDirectRefused(req: Request, apiKey: Option<string>, provider: ProviderOutcome, url: string)
    requires req.httpMethod != "OPTIONS" && req.body.Success? && req.body.value != JNull
    requires Truthy(Property(req.body.value, "prompt"))
    requires Property(req.body.value, "videoUrl") == Some(JStr(url)) && url != ""
    requires !IsYouTubeUrl(url) && !IsDirectVideoUrl(url)
    ensures Handle(req, apiKey, provider) == Handled(JsonResponse(400, ErrorBody(NotDirectMessage)), Trace(true, false, false))
  {
    assert YouTubeTest(JStr(url)) == Success(false);
    assert ToJsString(JStr(url)) == Success(url);
  }

  /** The hosting patterns match anywhere in the URL: in the path, the query or the host. */
  lemma YouTubeAnywhere(before: string, after: string)
    ensures IsYouTubeUrl(before + "youtube.com" + after)
    ensures IsYouTubeUrl(before + "youtu.be" + after)
  {
    ContainsInContext(before, "youtube.com", after, "youtube.com");
    ContainsInContext(before, "youtu.be", after, "youtu.be");
  }

  lemma VideoExtensionIff(lower: string)
    ensures HasVideoExtension(lower) <==> exists e :: e in VideoExtensions && EndsWith(lower, e)
  {
    if HasVideoExtension(lower) {
      if EndsWith(lower, ".mp4") {
        assert VideoExtensions[0] == ".mp4";
      } else if EndsWith(lower, ".mov") {
        assert VideoExtensions[1] == ".mov";
      } else if EndsWith(lower, ".avi") {
        assert VideoExtensions[2] == ".avi";
      } else {
        assert VideoExtensions[3] == ".webm";
      }
    }
  }

  /** A query string or a fragment does not change the outcome of the direct-link test. */
  lemma DirectVideoUrlIgnoresQuery(url: string, separator: char, rest: string)
    requires Url.EndsUntrimmed(url) && '?' !in url && '#' !in url
    requires separator == '?' || separator == '#'
    ensures IsDirectVideoUrl(url + [separator] + rest) == IsDirectVideoUrl(url)
  {
    QueryKeepsPathname(url, separator, rest, url + [separator] + rest);
  }

  /** The same fact about the longer URL named on its own, so that its parsing is unfolded only once. */
  lemma QueryKeepsPathname(url: string, separator: char, rest: string, longer: string)
    requires Url.EndsUntrimmed(url) && '?' !in url && '#' !in url
    requires separator == '?' || separator == '#'
    requires longer == url + [separator] + rest
    ensures IsDirectVideoUrl(longer) == IsDirectVideoUrl(url)
  {
    Url.QueryIrrelevant(url, separator, rest);
    SamePathnameSameTest(longer, url);
  }

  /** The direct-link test reads the URL only through its pathname. */
  lemma SamePathnameSameTest(a: string, b: string)
    requires Url.ParsePathname(a) == Url.ParsePathname(b)
    ensures IsDirectVideoUrl(a) == IsDirectVideoUrl(b)
  {
  }

  /** The status tells the client which body it gets: 2xx carries a result, everything else an error. */
  lemma ErrorBodyIffNotOk(req: Request, apiKey: Option<string>, provider: ProviderOutcome)
    requires req.httpMethod != "OPTIONS"
    ensures Handle(req, apiKey, provider).response.body.ErrorBody? <==> !IsOk(Handle(req, apiKey, provider).response.status)
    ensures Handle(req, apiKey, provider).response.body.ResultBody? <==> Handle(req, apiKey, provider).response.status == 200
  {
    ConsultationOrder(req, apiKey, provider);
    var h := Handle(req, apiKey, provider);
    if h.trace.providerCalled {
      assert h.response == ProviderResponse(provider);
    } else {
      assert h.response.body.ErrorBody? && h.response.status in {400, 500};
    }
  }

  /**
   * A provider status outside 200 to 299 becomes the client's status, with
   * one of three messages, except a status above 599 or a null body status,
   * for which the `Response` constructor throws and the handler answers 500.
   */
  lemma ProviderStatusMapping(req: Request, apiKey: Option<string>, status: FetchStatus, errorText: string, json: Result<Json, string>)
    requires req.httpMethod != "OPTIONS" && PassesInputChecks(req.body) && KeyConfigured(apiKey)
    requires !IsOk(status)
    ensures Handle(req, apiKey, Responded(status, Success(errorText), json)).response
        == if status > 599 then ServerError(StatusRangeMessage(status))
           else if NullBodyStatus(status) then ServerError(NullBodyStatusMessage)
           else JsonResponse(status, ErrorBody(
             if status == 503 then OverloadedMessage
             else if status == 400 then InvalidRequestMessage
             else "Gemini API error: " + IntToString(status) + " - " + errorText))
  {
    ConsultationOrder(req, apiKey, Responded(status, Success(errorText), json));
  }

  /** A provider 304 cannot be relayed with a body: the handler answers 500 instead. */
  lemma NotModifiedIsServerError(req: Request, apiKey: Option<string>, errorText: string, json: Result<Json, string>)
    requires req.httpMethod != "OPTIONS" && PassesInputChecks(req.body) && KeyConfigured(apiKey)
    ensures Handle(req, apiKey, Responded(304, Success(errorText), json)).response
        == JsonResponse(500, ErrorBody("Server error: " + NullBodyStatusMessage))
  {
    ConsultationOrder(req, apiKey, Responded(304, Success(errorText), json));
  }

  /** A provider status above 599 cannot be relayed either: the handler answers 500 with the RangeError. */
  lemma OutOfRangeStatusIsServerError(req: Request, apiKey: Option<string>, status: FetchStatus, errorText: string,
                                      json: Result<Json, string>)
    requires req.httpMethod != "OPTIONS" && PassesInputChecks(req.body) && KeyConfigured(apiKey)
    requires status > 599
    ensures Handle(req, apiKey, Responded(status, Success(errorText), json)).response
        == JsonResponse(500, ErrorBody("Server error: " + StatusRangeMessage(status)))
  {
    ConsultationOrder(req, apiKey, Responded(status, Success(errorText), json));
  }

  /**
   * An ok reply whose `candidates[0].content.parts[0]` is an object yields
   * 200 with that object's `text`, or `{}` when it has none, whatever other
   * members (`role`, `finishReason`, `usageMetadata`, further candidates or
   * parts) each level carries.
   */
  lemma CandidateTextExtracted(fields: map<string, Json>, cs: seq<Json>, candidate: map<string, Json>,
                               content: map<string, Json>, ps: seq<Json>, part: map<string, Json>)
    requires "candidates" in fields && fields["candidates"] == JArr(cs) && |cs| > 0 && cs[0] == JObj(candidate)
    requires "content" in candidate && candidate["content"] == JObj(content)
    requires "parts" in content && content["parts"] == JArr(ps) && |ps| > 0 && ps[0] == JObj(part)
    ensures ExtractResult(JObj(fields))
        == Success(JsonResponse(200, ResultBody(if "text" in part then Some(part["text"]) else None)))
  {
    ArrayElement(cs, 0);
    ArrayElement(ps, 0);
  }

  /** A valid request whose ok reply has a first candidate with a first part gets 200 with that part's `text`. */
  lemma SuccessCarriesCandidateText(req: Request, apiKey: Option<string>, status: FetchStatus, errorText: Result<string, string>,
                                    fields: map<string, Json>, cs: seq<Json>, candidate: map<string, Json>,
                                    content: map<string, Json>, ps: seq<Json>, part: map<string, Json>)
    requires req.httpMethod != "OPTIONS" && PassesInputChecks(req.body) && KeyConfigured(apiKey)
    requires IsOk(status)
    requires "candidates" in fields && fields["candidates"] == JArr(cs) && |cs| > 0 && cs[0] == JObj(candidate)
    requires "content" in candidate && candidate["content"] == JObj(content)
    requires "parts" in content && content["parts"] == JArr(ps) && |ps| > 0 && ps[0] == JObj(part)
    ensures Handle(req, apiKey, Responded(status, errorText, Success(JObj(fields)))).response
        == JsonResponse(200, ResultBody(if "text" in part then Some(part["text"]) else None))
  {
    CandidateTextExtracted(fields, cs, candidate, content, ps, part);
    ConsultationOrder(req, apiKey, Responded(status, errorText, Success(JObj(fields))));
  }

  /**
   * An ok reply that is not `null` gets "No valid response from Gemini API"
   * exactly when `data?.candidates?.[0]?.content` is falsy: the three tests
   * of the source stop at the first falsy step, and every falsy value has
   * neither an element `0` nor a `content`.
   */
  lemma NoValidResponseIff(data: Json)
    requires data != JNull
    ensures ExtractResult(data) == Success(JsonResponse(500, ErrorBody(NoValidResponseMessage)))
        <==> !Truthy(OptionalGet(OptionalGet(OptionalGet(Some(data), "candidates"), "0"), "content"))
  {
    var candidates := OptionalGet(Some(data), "candidates");
    if !Truthy(candidates) {
      FalsyHasNoMembers(candidates, "0");
    }
    var first := OptionalGet(candidates, "0");
    if !Truthy(first) {
      FalsyHasNoMembers(first, "content");
    }
  }

  /**
   * Common shapes of a reply without content: no `candidates` (or a falsy
   * one), an empty candidate list or a falsy first candidate, and a first
   * candidate object without a truthy `content`, as in a reply blocked for
   * safety that carries only `finishReason`.
   */
  lemma NoCandidateContent(fields: map<string, Json>, cs: seq<Json>)
    ensures !Truthy(Property(JObj(fields), "candidates"))
        ==> ExtractResult(JObj(fields)) == Success(JsonResponse(500, ErrorBody(NoValidResponseMessage)))
    ensures "candidates" in fields && fields["candidates"] == JArr(cs) && (|cs| == 0 || !Truthy(Some(cs[0])))
        ==> ExtractResult(JObj(fields)) == Success(JsonResponse(500, ErrorBody(NoValidResponseMessage)))
    ensures "candidates" in fields && fields["candidates"] == JArr(cs) && |cs| > 0 && cs[0].JObj? && !Truthy(Property(cs[0], "content"))
        ==> ExtractResult(JObj(fields)) == Success(JsonResponse(500, ErrorBody(NoValidResponseMessage)))
  {
    NatToStringRoundTrip(0);
    if |cs| > 0 {
      ArrayElement(cs, 0);
    }
  }

  /**
   * A first candidate whose content has no `parts` makes `parts[0]` throw,
   * and an empty `parts` list makes `parts[0].text` throw; either way the
   * `catch` block answers 500 with the TypeError's message.
   */
  lemma MissingPartsIsServerError(status: FetchStatus, text: Result<string, string>,
                                  fields: map<string, Json>, cs: seq<Json>, candidate: map<string, Json>, content: map<string, Json>)
    requires IsOk(status)
    requires "candidates" in fields && fields["candidates"] == JArr(cs) && |cs| > 0 && cs[0] == JObj(candidate)
    requires "content" in candidate && candidate["content"] == JObj(content)
    ensures "parts" !in content
        ==> (&& ExtractResult(JObj(fields)) == Failure("Cannot read properties of undefined (reading '0')")
             && ProviderResponse(Responded(status, text, Success(JObj(fields))))
                == ServerError("Cannot read properties of undefined (reading '0')"))
    ensures "parts" in content && content["parts"] == JArr([])
        ==> (&& ExtractResult(JObj(fields)) == Failure("Cannot read properties of undefined (reading 'text')")
             && ProviderResponse(Responded(status, text, Success(JObj(fields))))
                == ServerError("Cannot read properties of undefined (reading 'text')"))
  {
    ArrayElement(cs, 0);
    NatToStringRoundTrip(0);
    assert Get(None, "0").error == "Cannot read properties of undefined (reading '0')";
    assert Get(None, "text").error == "Cannot read properties of undefined (reading 'text')";
  }

  /** A thrown `req.json()` and the destructuring of a `null` body both end in the `catch` block's 500. */
  lemma ThrownErrorsAreServerErrors(req: Request, apiKey: Option<string>, provider: ProviderOutcome)
    requires req.httpMethod != "OPTIONS"
    ensures req.body.Failure? ==> Handle(req, apiKey, provider) == Handled(ServerError(req.body.error), Trace(true, false, false))
    ensures req.body == Success(JNull) ==> Handle(req, apiKey, provider) == Handled(ServerError(DestructureNullMessage), Trace(true, false, false))
  {
  }

  /**
   * Once the provider is called, an error thrown by `fetch`, by
   * `response.text()` on a failed reply, by `response.json()` on an ok one
   * or by reading the reply's fields becomes 500 `Server error: <message>`.
   */
  lemma ProviderErrorsAreServerErrors(req: Request, apiKey: Option<string>, status: FetchStatus,
                                      text: Result<string, string>, json: Result<Json, string>, message: string)
    requires req.httpMethod != "OPTIONS" && PassesInputChecks(req.body) && KeyConfigured(apiKey)
    ensures Handle(req, apiKey, FetchFailed(message)).response == ServerError(message)
    ensures !IsOk(status) ==> Handle(req, apiKey, Responded(status, Failure(message), json)).response == ServerError(message)
    ensures IsOk(status) ==> Handle(req, apiKey, Responded(status, text, Failure(message))).response == ServerError(message)
    ensures IsOk(status) && json.Success? && ExtractResult(json.value) == Failure(message)
        ==> Handle(req, apiKey, Responded(status, text, json)).response == ServerError(message)
  {
    ConsultationOrder(req, apiKey, FetchFailed(message));
    ConsultationOrder(req, apiKey, Responded(status, Failure(message), json));
    ConsultationOrder(req, apiKey, Responded(status, text, Failure(message)));
    ConsultationOrder(req, apiKey, Responded(status, text, json));
  }

  /**
   * For `scheme://host/path` with a special scheme, the direct-link test is
   * a case-insensitive test of the path's extension alone.
   */
  lemma SpecialUrlDirectIff(scheme: string, host: string, path: string)
    requires scheme in Url.SpecialSchemes && scheme != "file"
    requires |host| > 0 && '/' !in host && '\\' !in host && '?' !in host && '#' !in host
    requires |path| > 0 && path[0] == '/' && '\\' !in path && '?' !in path && '#' !in path
    requires Url.Unspaced(scheme + "://" + host + path)
    ensures IsDirectVideoUrl(scheme + "://" + host + path)
        <==> exists e :: e in VideoExtensions && EndsWith(ToLower(path), e)
  {
    Url.SpecialUrlPathname(scheme, host, path);
  }

  /**
   * A link whose host names a hosting site passes the direct-link test when
   * its path ends in `.mp4`, yet the hosting test catches it first.
   */
  lemma HostingLinkWithExtension(scheme: string, host: string, path: string, pattern: string)
    requires scheme in Url.SpecialSchemes && scheme != "file"
    requires |host| > 0 && '/' !in host && '\\' !in host && '?' !in host && '#' !in host
    requires |path| > 0 && path[0] == '/' && '\\' !in path && '?' !in path && '#' !in path
    requires Url.Unspaced(scheme + "://" + host + path)
    requires (pattern == "youtube.com" || pattern == "youtu.be") && Contains(host, pattern)
    requires EndsWith(ToLower(path), ".mp4")
    ensures IsYouTubeUrl(scheme + "://" + host + path)
    ensures IsDirectVideoUrl(scheme + "://" + host + path)
  {
    ContainsInContext(scheme + "://", host, path, pattern);
    Url.SpecialUrlPathname(scheme, host, path);
  }

  /** Without a scheme the URL does not parse, so it is never a direct link. */
  lemma NoSchemeNotDirect(url: string)
    requires ':' !in url
    ensures !IsDirectVideoUrl(url)
  {
    Url.NoColonNoScheme(url);
  }

  /** The hosting test is case-sensitive: a URL without a lower-case `y` never matches, however it spells the host. */
  lemma YouTubeMatchIsCaseSensitive(url: string)
    requires 'y' !in url
    ensures !IsYouTubeUrl(url)
  {
    ContainsIff(url, "youtube.com");
    ContainsIff(url, "youtu.be");
    forall i | 0 <= i < |url| ensures url[i] != 'y' {
    }
    forall i ensures !OccursAt(url, "youtube.com", i) {
      if 0 <= i && i + 11 <= |url| {
        assert url[i..i + 11][0] == url[i];
      }
    }
    forall i ensures !OccursAt(url, "youtu.be", i) {
      if 0 <= i && i + 8 <= |url| {
        assert url[i..i + 8][0] == url[i];
      }
    }
  }

  /**
   * An array `videoUrl` holding an object with its own `toString` passes the
   * hosting test, but `new URL` cannot convert it to a string, so the
   * handler refuses it as not a direct link before the key is read.
   */
  lemma UnconvertibleUrlRefused(req: Request, apiKey: Option<string>, provider: ProviderOutcome, xs: seq<Json>)
    requires req.httpMethod != "OPTIONS" && req.body.Success? && req.body.value != JNull
    requires Truthy(Property(req.body.value, "prompt"))
    requires Property(req.body.value, "videoUrl") == Some(JArr(xs))
    requires JStr("youtube.com") !in xs && JStr("youtu.be") !in xs
    requires exists i :: 0 <= i < |xs| && HasOwnToString(xs[i])
    ensures Handle(req, apiKey, provider) == Handled(JsonResponse(400, ErrorBody(NotDirectMessage)), Trace(true, false, false))
  {
    assert HasOwnToString(JArr(xs));
  }

  /** A truthy `videoUrl` that is neither a string nor an array has no `includes`, so the handler answers 500. */
  lemma NonStringUrlIsServerError(req: Request, apiKey: Option<string>, provider: ProviderOutcome)
    requires req.httpMethod != "OPTIONS" && req.body.Success? && req.body.value != JNull
    requires Truthy(Property(req.body.value, "prompt")) && Truthy(Property(req.body.value, "videoUrl"))
    requires !Property(req.body.value, "videoUrl").value.JStr? && !Property(req.body.value, "videoUrl").value.JArr?
    ensures Handle(req, apiKey, provider) == Handled(ServerError(NoIncludesMessage), Trace(true, false, false))
  {
  }
}
