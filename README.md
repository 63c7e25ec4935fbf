# clip-prompt-genius: the video-analysis relay, modelled in Dafny

The repository is a small web app. The user submits a video file URL and a prompt. The app hands both to a Supabase edge function, `analyze-video`. That function validates them, calls Google's Gemini `generateContent` endpoint, and maps the provider's reply to one JSON response. A client service, `analyzeVideoWithGemini`, then turns that response into the one value the page shows.

This project models both pieces as pure functions and proves what they promise.

- `AnalyzeVideo.Handle` is the request handler. Its inputs are the request method, the result of `req.json()`, the `GOOGLE_API_KEY` environment value and the outcome of the provider call. It returns the response (status, headers, body) and a `Trace` that records whether the body was read, the key was read and the provider was called. The `Trace` lets the lemmas state which checks run, in which order, and when no outbound call is made.
- `AnalyzeVideo.IsDirectVideoUrl` and `AnalyzeVideo.IsYouTubeUrl` are the two URL tests.
- `Url.ParsePathname` stands in for `new URL(url).pathname`. It follows the basic URL parser of the WHATWG URL Standard (section 4.4, "URL parsing") as far as the pathname needs:
  - leading and trailing C0 controls and spaces are trimmed, and tabs and newlines are removed;
  - the input is cut before its first `?` or `#`;
  - a scheme is required (`None` means the constructor throws);
  - special schemes treat `\` as `/` and skip slashes before a host that must not be empty;
  - `file:` and non-special URLs have their own path rules.
- `JsValues` holds the JavaScript rules the code relies on:
  - truthiness (`!x`);
  - property access that throws on `undefined`/`null` (`a.b`);
  - optional chaining (`a?.b`);
  - array and string indexing by canonical index keys;
  - `String(v)` and template literals.
- `GeminiService.AnalyzeVideoWithGemini` is the client mapping. Its input is the outcome of `supabase.functions.invoke`.

Behaviours of the code worth knowing:

- A pre-flight `OPTIONS` request gets the default status 200 with a null body, not 204.
- The hosting-site test is a case-sensitive substring test on the whole URL string, not a test of the host.
- Only a falsy `candidates`, `candidates[0]` or `candidates[0].content` gives "No valid response from Gemini API". A content without `parts`, or with an empty `parts` list, throws a TypeError, which becomes 500 `Server error: …`. A missing `text` gives 200 with an empty object `{}`.
- A provider status of 304 is not relayed. It is not ok and not a redirect that `fetch` follows, so it reaches the generic error branch. That branch passes it to `new Response` together with a body, and the Fetch Standard's `Response` constructor throws for a body with a null body status (101, 103, 204, 205, 304). The handler therefore answers 500 `Server error: Response with null body status cannot have body`, the message Deno's runtime gives.
- Trimming happens before the query is cut off, so only the very end of the input is trimmed. `a:.mp4 ` lists as a direct link, but `a:.mp4 ?t=1` does not: there the space stays in the pathname.
- `String()` of an object with its own `toString` member throws `TypeError: Cannot convert object to primitive value`, also for an object inside an array. A `videoUrl` such as `["a:", {"toString": 0}, ".mp4"]` therefore fails the direct-link test inside its `try`, so it gets the 400 extension message. On the client, a `data.error` of `{"toString": 0}` makes the template literal throw, so the result is `Error analyzing video: Cannot convert object to primitive value`. That wording is V8's, as in Chrome and Edge. The client runs in whichever browser loads the page, and Firefox and Safari word this TypeError differently.
- There are no error category codes. The client sees an HTTP status and an `error` message.
- On success the client returns `data.result` unchecked. The model therefore returns a JSON value, which is a string on every other path.

## Model

| member | source | states |
|---|---|---|
| `AnalyzeVideo.Handle` | supabase/functions/analyze-video/index.ts:24-197 | An OPTIONS request gets status 200, only the CORS headers, no body, and reads neither the body, the key nor the provider. Every other response carries the CORS headers plus the JSON content type. The provider is called only after the key was read. |
| `AnalyzeVideo.UnconsultedInputsIrrelevant` | supabase/functions/analyze-video/index.ts:26-83 | If the body, the key or the provider was not consulted, replacing it leaves the answer unchanged. For OPTIONS this means the answer does not depend on the body or the configuration. |
| `AnalyzeVideo.ConsultationOrder` | supabase/functions/analyze-video/index.ts:33-83 | The key is read exactly when all three input checks pass. The provider is called exactly when they pass and the key is set and non-empty. When it is called, the response is the provider mapping's. |
| `AnalyzeVideo.MissingKeyAfterInputChecks` | supabase/functions/analyze-video/index.ts:69-78 | When the input checks pass and the key is unset or empty, the answer is 500 "Google API Key not configured" and the provider is not called. |
| `AnalyzeVideo.MissingFieldsFirst` | supabase/functions/analyze-video/index.ts:31-41 | A falsy or absent `prompt` or `videoUrl` gives 400 "Missing prompt or videoUrl", whatever the URL is. Neither the key nor the provider is touched. |
| `AnalyzeVideo.YouTubeBeforeExtension` | supabase/functions/analyze-video/index.ts:43-54 | A string URL that passes the hosting test gives the 400 YouTube message before the extension is looked at. The key is not read and the provider is not called. |
| `AnalyzeVideo.NotDirectRefused` | supabase/functions/analyze-video/index.ts:56-67 | A string URL that fails the direct-link test but not the hosting test gives the 400 extension message, before the key is read. |
| `AnalyzeVideo.NonStringUrlIsServerError` | supabase/functions/analyze-video/index.ts:20-22 | A truthy `videoUrl` that is neither a string nor an array has no `includes`, so the handler throws and answers 500 `Server error: url.includes is not a function`. |
| `AnalyzeVideo.IsYouTubeUrl` | supabase/functions/analyze-video/index.ts:20-22 | The hosting test holds exactly when `youtube.com` or `youtu.be` occurs at some index of the URL. |
| `AnalyzeVideo.YouTubeTest` | supabase/functions/analyze-video/index.ts:20-22 | On a string this is the substring test. An array is searched for an element equal to either pattern. For any other value the call throws `url.includes is not a function`. |
| `AnalyzeVideo.YouTubeAnywhere` | supabase/functions/analyze-video/index.ts:20-22 | `youtube.com` or `youtu.be` anywhere in the URL (host, path or query) makes the hosting test true. |
| `AnalyzeVideo.YouTubeMatchIsCaseSensitive` | supabase/functions/analyze-video/index.ts:20-22 | A URL without a lower-case `y` never matches, so `YOUTUBE.COM` and `YouTu.be` are not caught by the hosting test. |
| `AnalyzeVideo.HostingLinkWithExtension` | supabase/functions/analyze-video/index.ts:44-57 | A link `scheme://host/path` whose host names a hosting site and whose lower-cased path ends in `.mp4` satisfies both the hosting test and the direct-link test, so the earlier hosting test is what refuses it. This needs a special scheme other than `file:`, a non-empty host without `/`, `\`, `?` or `#`, a path that starts with `/` and has no `\`, `?` or `#`, and no space or C0 control anywhere in the URL. (`http://youtube.com /a.mp4` is outside it: the URL parser rejects the space in the host, so the direct-link test is false.) |
| `AnalyzeVideo.VideoExtensionIff` | supabase/functions/analyze-video/index.ts:14 | The four `endsWith` tests on a lower-cased pathname hold together exactly when the pathname ends in some member of the extension list. |
| `AnalyzeVideo.IsDirectVideoUrl` | supabase/functions/analyze-video/index.ts:10-18 | `isDirectVideoUrl(u)` holds exactly when `u` parses and its lower-cased pathname ends in one of `.mp4`, `.mov`, `.avi`, `.webm`. A URL that does not parse gives false. |
| `AnalyzeVideo.SpecialUrlDirectIff` | supabase/functions/analyze-video/index.ts:12-14 | For `scheme://host/path` the test is a case-insensitive test of the path's extension. This needs a special scheme other than `file:`, a non-empty host without `/`, `\`, `?` or `#`, a path that starts with `/` and has no `\`, `?` or `#`, and no space or C0 control anywhere in the URL. |
| `AnalyzeVideo.DirectVideoUrlIgnoresQuery` | supabase/functions/analyze-video/index.ts:12-14 | Appending `?…` or `#…` to a URL that has neither does not change the outcome of the direct-link test, provided the URL does not end in a space or C0 control. (Such a character is trimmed at the end of the input but kept before a query.) |
| `AnalyzeVideo.IsDirectVideoValue` | supabase/functions/analyze-video/index.ts:10-18 | `isDirectVideoUrl` applied to the body's value: on a string it is the direct-link test. A value whose string conversion throws (an own `toString`, directly or inside an array) gives false, because the `try` catches the error. |
| `AnalyzeVideo.UnconvertibleUrlRefused` | supabase/functions/analyze-video/index.ts:56-67 | An array `videoUrl` without either hosting pattern but with an element that has its own `toString` gets the 400 extension message. The key is not read and the provider is not called. |
| `AnalyzeVideo.NoSchemeNotDirect` | supabase/functions/analyze-video/index.ts:11-17 | A URL without a colon has no scheme and fails to parse, so the test returns false, whatever its query or spacing (`example.com/a.mp4?t=1` included). |
| `AnalyzeVideo.ProviderErrorResponse` | supabase/functions/analyze-video/index.ts:131-163 | For a non-2xx provider status, the response carries the JSON headers and an error body. The generic branch hands the status to `new Response`, which throws in two cases, and the answer is then 500. A status outside 200-599 (other than 101) throws Deno's RangeError `The status provided (<status>) is outside the range [200, 599].`. A null body status throws `Response with null body status cannot have body`. Any other status is kept. |
| `AnalyzeVideo.ProviderStatusMapping` | supabase/functions/analyze-video/index.ts:131-163 | Once the provider is called, a non-2xx status maps as follows: 503 becomes 503 with the "overloaded" message; 400 becomes 400 with the "Invalid request" message; a status above 599 becomes 500 with the RangeError message; 304 becomes 500 with the null-body message; any other status is passed through with `Gemini API error: <status> - <body text>`. |
| `AnalyzeVideo.NotModifiedIsServerError` | supabase/functions/analyze-video/index.ts:156-162 | A provider 304 reaches the generic branch, whose `new Response` throws, so the client gets 500 `Server error: Response with null body status cannot have body`. |
| `AnalyzeVideo.OutOfRangeStatusIsServerError` | supabase/functions/analyze-video/index.ts:156-162 | A provider status from 600 to 999, which `fetch` can return, reaches the generic branch. Its `new Response` throws a RangeError, so the client gets 500 `Server error: The status provided (<status>) is outside the range [200, 599].`. |
| `AnalyzeVideo.ProviderResponse` | supabase/functions/analyze-video/index.ts:83-196 | The provider part always carries the JSON headers. A throwing `fetch`, a throwing `text()` on a failed reply, a throwing `json()` on an ok reply and a throwing field read each give `Server error: <message>`. A failed reply with its text keeps its status unless that status is above 599 (RangeError, 500) or a null body status. The status is 200, 500 or the provider's own non-2xx status. An error body comes exactly with a non-2xx status and a result body exactly with 200. |
| `AnalyzeVideo.ErrorBodyIffNotOk` | supabase/functions/analyze-video/index.ts:33-196 | For every non-OPTIONS request, the body is an error exactly when the status is not 2xx, and a result exactly when the status is 200. |
| `AnalyzeVideo.ExtractResult` | supabase/functions/analyze-video/index.ts:165-185 | On an ok reply the outcome is either 200 with a result body or 500 "No valid response from Gemini API", always with the JSON headers. A `null` reply throws. When each outcome occurs is stated by the four lemmas below. |
| `AnalyzeVideo.NoValidResponseIff` | supabase/functions/analyze-video/index.ts:168-176 | A non-null ok reply gets "No valid response from Gemini API" exactly when `data?.candidates?.[0]?.content` is falsy. |
| `AnalyzeVideo.CandidateTextExtracted` | supabase/functions/analyze-video/index.ts:165-185 | For any reply whose `candidates[0].content.parts[0]` is an object, the outcome is 200 with that object's `text`, or `{}` when it has none. Any other members at any level (`role`, `finishReason`, `usageMetadata`, more candidates or parts) make no difference. |
| `AnalyzeVideo.SuccessCarriesCandidateText` | supabase/functions/analyze-video/index.ts:33-185 | A valid request with a configured key whose ok reply has that shape gets 200 with `{"result": candidates[0].content.parts[0].text}`. |
| `AnalyzeVideo.NoCandidateContent` | supabase/functions/analyze-video/index.ts:168-176 | An ok reply gives 500 "No valid response from Gemini API" when it has a falsy or no `candidates`, an empty candidate list, a falsy first candidate, or a first candidate object without a truthy `content`. This holds whatever other fields the reply has, so it covers a reply blocked for safety. |
| `AnalyzeVideo.MissingPartsIsServerError` | supabase/functions/analyze-video/index.ts:178-196 | If the first candidate's content has no `parts`, reading `parts[0]` throws. If its `parts` list is empty, reading `parts[0].text` throws. Either way the provider part answers 500 `Server error: Cannot read properties of undefined (reading …)`. |
| `AnalyzeVideo.ThrownErrorsAreServerErrors` | supabase/functions/analyze-video/index.ts:30-31 | A throwing `req.json()` gives 500 `Server error: <message>`. So does destructuring a `null` body. In both cases neither the key nor the provider is touched. |
| `AnalyzeVideo.ProviderErrorsAreServerErrors` | supabase/functions/analyze-video/index.ts:83-196 | Once the provider is called, `Server error: <message>` is the answer for each of these: an error thrown by `fetch`, by `response.text()` on a failed reply, by `response.json()` on an ok reply, or by reading the reply's fields. |
| `Url.ParsePathname` | supabase/functions/analyze-video/index.ts:12-13 | The pathname, when there is one, never holds `?` or `#`: it excludes the query and the fragment. |
| `Url.QueryIrrelevant` | supabase/functions/analyze-video/index.ts:12-13 | Appending `?…` or `#…` to a URL that has neither leaves the parse result unchanged, provided the URL does not end in a space or C0 control. |
| `Url.SpecialUrlPathname` | supabase/functions/analyze-video/index.ts:12-13 | The pathname of `scheme://host/path` is the path, or `/` when the path is empty. This needs a special scheme other than `file:`, a non-empty host without `/`, `\`, `?` or `#`, a path that is empty or starts with `/` and has no `\`, `?` or `#`, and no space or C0 control anywhere in the URL. So `http://a/b.mp4 ` (trailing space) is outside this lemma, although its pathname is `/b.mp4` too. |
| `Url.NoColonNoScheme` | supabase/functions/analyze-video/index.ts:12 | An input without a colon has no scheme, so `new URL` throws on it. |
| `Url.Head` | supabase/functions/analyze-video/index.ts:12-13 | The part the parser reads for the pathname is the longest prefix without `?` or `#`. |
| `Strings.ToLower` | supabase/functions/analyze-video/index.ts:13 | Lower-casing keeps the length and maps each character through the ASCII lower-case mapping. |
| `Strings.ContainsIff` | supabase/functions/analyze-video/index.ts:21 | The left-to-right `includes` scan succeeds exactly when the pattern occurs at some index. |
| `Strings.ContainsInContext` | supabase/functions/analyze-video/index.ts:21 | An occurrence survives any text added before or after. |
| `Strings.EndsWithIff` | supabase/functions/analyze-video/index.ts:14 | `endsWith(e)` holds exactly when the string is something followed by `e`. |
| `JsValues.ToJsString` | supabase/functions/analyze-video/index.ts:12 | `String(v)` throws exactly when `v` is an object with its own `toString` or an array holding one at any depth, and the error message is `Cannot convert object to primitive value`. A string converts to itself. |
| `JsValues.Get` | supabase/functions/analyze-video/index.ts:168-178 | A property read fails exactly on `undefined` or `null`; on any other value it yields the property lookup's result. |
| `JsValues.OptionalGet` | src/services/geminiService.ts:23-28 | `?.` gives `undefined` on `undefined`/`null`, and otherwise agrees with a successful property read. |
| `JsValues.NatToStringRoundTrip` | supabase/functions/analyze-video/index.ts:168 | Writing an index in decimal and reading it back as an array index key gives the index, so `[0]` reads element 0. |
| `JsValues.ParseIndexCanonical` | supabase/functions/analyze-video/index.ts:168 | Every key that names an array index is the decimal form of that index. |
| `JsValues.FalsyHasNoMembers` | supabase/functions/analyze-video/index.ts:168 | A falsy value has no property except a string's `length`, so `v?.key` is `undefined` for every other key. |
| `JsValues.ArrayElement` | supabase/functions/analyze-video/index.ts:168-178 | Reading the key `String(i)` of an array gives its element at `i`. |
| `GeminiService.AnalyzeVideoWithGemini` | src/services/geminiService.ts:8-41 | Nothing escapes the call. The result is a string, except on the success path, where it is `data.result` as received. |
| `GeminiService.InvokeErrorFirst` | src/services/geminiService.ts:18-21 | An invocation error gives `Error analyzing video: Function call failed: <message>`, whatever `data` holds. |
| `GeminiService.DataErrorSecond` | src/services/geminiService.ts:23-26 | With no invocation error, a truthy `data.error` gives `Error: <String(data.error)>`. If that conversion throws (an own `toString`), the `catch` gives `Error analyzing video: Cannot convert object to primitive value`, with V8's wording of the TypeError. Changing `data.result` changes neither. |
| `GeminiService.MissingResultThird` | src/services/geminiService.ts:28-30 | With neither error, a falsy or absent `data.result` gives `Error analyzing video: No result received from the analysis`. |
| `GeminiService.ResultLast` | src/services/geminiService.ts:32-33 | Otherwise the call resolves to `data.result` itself, which is truthy. A string result is therefore non-empty. |
| `GeminiService.StringResultPassesThrough` | src/services/geminiService.ts:32-33 | The edge function's success reply `{"result": text}` with a non-empty `text` resolves to `text` unchanged. |
| `GeminiService.Caught` | src/services/geminiService.ts:35-41 | The `catch` block's result starts with `Error analyzing video: ` exactly when an `Error` was thrown, and what follows the prefix is that error's message. |
| `GeminiService.RejectionCaught` | src/services/geminiService.ts:35-41 | A rejected invocation with an `Error` gives `Error analyzing video: <message>`. Any other rejection gives the fixed "unknown error" message. |

## Left out

- The page (`src/pages/Index.tsx`) and the prompt catalogue (`src/components/UXPromptLibrary.tsx`): they are form state, toasts, rendering and a static list of strings.
- The provider request body (supabase/functions/analyze-video/index.ts:88-128): a constant JSON document whose generation settings are floating-point numbers. The provider's reply is an input, so what was sent does not enter the model.
- Effects are inputs rather than operations:
  - `req.json()` is a `Result` in `Request`.
  - `Deno.env.get` is an `Option` parameter.
  - `fetch`, `response.text()` and `response.json()` are a `ProviderOutcome`.
  - `supabase.functions.invoke` is an `InvokeOutcome`, with its error object reduced to its message.
- Logging and the `serve` runtime are left out because they have no effect on any response.
- The `statusText` of responses is dropped. A provider status is any final status `fetch` can return, from 200 to 999. Both ways `new Response` throws here are modelled: a RangeError for a status above 599, and a TypeError for a null body status with a body. The messages are Deno's.
- A thrown value without a `message` is left out: every error the handler can meet is an `Error`, so each thrown value is modelled as its message.
- Url.ParsePathname: does not validate hosts, ports or user information. Any URL with an authority that is non-empty but invalid therefore parses here and throws in the real parser. This holds for special URLs (`http://a b/x.mp4`) and for non-special ones (`foo://h:99999/a.mp4`, whose port is out of range).
- Url.ParsePathname: does not percent-encode or remove dot segments. Neither can change whether a pathname ends in one of the four extensions: those characters are never encoded, the last character of an extension is never part of a `%HH` triple, and a dot segment never ends in an extension.
- Url.ParsePathname: Windows drive letters in `file:` URLs and IDNA host processing are not modelled.
- Strings.ToLower: lower-cases only ASCII letters. The real pathname holds only ASCII characters after percent-encoding, so that is all `toLowerCase` meets there.
- JsValues.ToJsString: JSON numbers are integers written in plain decimal. Fractions are not modelled. Nor is JavaScript's number formatting: exponent form from 1e21 up (`1e+21`) and rounding to a double above 2^53.
- Characters are Unicode scalar values, whereas JavaScript indexes strings by UTF-16 code unit.
- JsValues.Property: a property lookup sees only own members and a string's `length`. None of the keys the code reads is inherited. The one inherited member that matters, `toString`, is used by `String()`: `JsValues.ToJsString` models the inherited one for plain objects and arrays, and an own `toString` member that makes the conversion throw.
- GeminiService.AnalyzeVideoWithGemini: the prompt and video URL arguments are not parameters, because they only travel inside the invocation, whose outcome is the input.
- GeminiService.DataErrorSecond: the TypeError message is fixed to V8's `Cannot convert object to primitive value`. Other browser engines word it differently, so on them the text after `Error analyzing video: ` differs.
