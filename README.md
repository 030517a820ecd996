# AI Room Cleaner backend — a Dafny model of its decision logic

The AI Room Cleaner backend is a FastAPI service. It takes a photo of a room and
asks a vision model which things are out of place. Around the network and image
library calls it holds small pieces of decision logic. This project models them
and proves properties about them:

- **Image pipeline** (`ImageProcessing`):
  - `resize_image_with_vips` with its fixed check order, band normalisation and two-stage downscaling;
  - its expiring, bounded result cache, keyed by the input's digest;
  - `configure_pyvips` and the import-time availability probe.
  The image library is a `Codec` value. Decoding yields an image shape (width,
  height, bands) or the text of the exception it raises. Compositing, colour
  conversion and resizing either raise, with their text, or succeed; on success
  the model fixes the resulting shape itself (3 bands, the same size, exact
  scaling). Sizes are exact rationals.
- **AI response parsing and providers** (`AiProviders`):
  - the line-by-line text parser, written as a loop proved against a specification function;
  - the JSON-shape classifier;
  - the provider factory and the providers' key checks;
  - the OpenAI provider's error mapping.
- **Analysis service** (`AiService`):
  - input validation;
  - strict base64 decoding (section 4 of RFC 4648, modelled in `Base64` together with an encoder and the round trip);
  - the size limit and the order of the steps;
  - the error pass-through and wrapping policy;
  - the service's health report.
- **HTTP rules**:
  - `Router`: the X-API-KEY check, the upload's file-name check, the health status, the secure-analysis error policy and the history routes.
  - `Middleware`: the Content-Length gate, answering 411 and 413 (sections 15.5.12 and 15.5.14 of RFC 9110), and the pass-through logging middleware.
- **State holders**:
  - `State`: the once-only application state and its singleton.
  - `History`: the in-memory history list. It is modelled with the list as an object of its own, because `get_history` hands that object out.

Shared modules:
- `Outcomes`: Option and Result.
- `Errors`: the exception classes as one datatype.
- `Config`: the settings record.
- `Json`: decoded JSON values, the dict `json.loads` builds from an object, and Python's `str()` of them.
- `Text`: the Python string operations the code uses, which are `strip`, `lstrip`, `rstrip`, `split`, `lower` and `int()`.

Where the repository's tests disagree with the code, the model follows the code:
- A text line of ten characters or fewer is dropped, so "- task 1" yields nothing. tests/test_ai_providers.py:80-91 expects such lines to be kept.
- "x.jpg" is rejected, because "image/jpg" is not an allowed type. tests/test_router.py:14-25 expects it to pass.
- The OpenAI provider reports every non-HTTP failure as "Failed to analyze image with OpenAI.". tests/test_ai_providers.py:162 expects a different message.

## Model

| member | source | states |
|---|---|---|
| ImageProcessing.TtlCache.LiveKeys | ai_room_cleaner/backend/utils/image_processing.py:23-24 | a key is reported present exactly when it is stored and younger than the time-to-live |
| ImageProcessing.TtlCache.Get | ai_room_cleaner/backend/utils/image_processing.py:51-53 | a lookup hits exactly when the key is live, and then returns the stored bytes |
| ImageProcessing.TtlCache.Set | ai_room_cleaner/backend/utils/image_processing.py:104 | a write stores the value under the key at the current time; every other surviving entry was live and is unchanged; the cache never exceeds its capacity; with room (or an existing key) nothing live is lost; a new key in a full cache evicts exactly one live entry and leaves the cache at capacity |
| ImageProcessing.LiveOf | ai_room_cleaner/backend/utils/image_processing.py:24 | expiry keeps exactly the entries younger than the time-to-live, unchanged, and never grows the map |
| ImageProcessing.ValidationError | ai_room_cleaner/backend/utils/image_processing.py:63-67 | a decoded image passes exactly when both sides are positive and it has 1, 3 or 4 bands |
| ImageProcessing.NormalizeBands | ai_room_cleaner/backend/utils/image_processing.py:71-79 | 4 and 1 bands become 3 and 3 bands are untouched; the size never changes, so the original size is the decoded size; only the 4- and 1-band conversions can fail |
| ImageProcessing.Resize | ai_room_cleaner/backend/utils/image_processing.py:91 | a successful resize scales both sides by the factor and keeps the bands; a factor of zero or less is refused |
| ImageProcessing.HighRiskScale | ai_room_cleaner/backend/utils/image_processing.py:83-91 | the high-risk step fires exactly when a side exceeds the threshold and then scales by threshold / larger side; a zero threshold fails with division by zero |
| ImageProcessing.HighRiskClamp | ai_room_cleaner/backend/utils/image_processing.py:83-91 | a successful high-risk step keeps the aspect ratio and brings the larger side to exactly the threshold |
| ImageProcessing.HighRiskKeepsPositive | ai_room_cleaner/backend/utils/image_processing.py:83-91 | the high-risk step keeps both sides positive and the bands unchanged |
| ImageProcessing.ScaleMax | ai_room_cleaner/backend/utils/image_processing.py:81 | scaling by a positive factor scales the larger side by it and keeps the aspect ratio |
| ImageProcessing.StandardClamp | ai_room_cleaner/backend/utils/image_processing.py:93-98 | the standard step leaves an image within the limit alone, and otherwise brings the larger side to exactly the limit, keeping aspect and bands |
| ImageProcessing.DownsampleBounds | ai_room_cleaner/backend/utils/image_processing.py:83-98 | after both steps the larger side is at most the threshold, at most the limit and at most its original value, and the bands are kept |
| ImageProcessing.DownsampleKeepsAspect | ai_room_cleaner/backend/utils/image_processing.py:83-98 | both steps together keep the aspect ratio |
| ImageProcessing.AspectTransitive | ai_room_cleaner/backend/utils/image_processing.py:91-98 | two ratio-keeping resizes in a row keep the ratio |
| ImageProcessing.WithinLimitsUnchanged | ai_room_cleaner/backend/utils/image_processing.py:84-98 | an image within the threshold and the limit is never resized |
| ImageProcessing.BothStepsFire | ai_room_cleaner/backend/utils/image_processing.py:83-98 | with threshold 2000 and limit 1024 a 4000×3000 image goes through both steps and ends at 1024×768 |
| ImageProcessing.InvalidImagesRejected | ai_room_cleaner/backend/utils/image_processing.py:63-67 | non-positive sides and unsupported band counts are rejected, and the caller sees "Image processing failed: " in front of the validation message |
| ImageProcessing.Process | ai_room_cleaner/backend/utils/image_processing.py:107-109 | every failure inside the processing block surfaces as ImageProcessingError starting with "Image processing failed: " |
| ImageProcessing.ResizeOutcomeOrder | ai_room_cleaner/backend/utils/image_processing.py:43-53 | empty input fails first whatever the library and the cache; a missing library fails next and never consults the cache; a cache hit returns exactly the stored bytes; a miss runs the pipeline; all failures are ImageProcessingError |
| ImageProcessing.ImageProcessor.constructor | ai_room_cleaner/backend/utils/image_processing.py:13-24 | the probe's outcome and the library are recorded, and the cache starts empty with capacity 100 and a time-to-live of 3600 |
| ImageProcessing.ImageProcessor.ConfigurePyvips | ai_room_cleaner/backend/utils/image_processing.py:26-37 | without the library it returns and changes nothing; otherwise it sets the library's cache size, or fails with "Failed to configure image processing: …" and changes nothing |
| ImageProcessing.ImageProcessor.ResizeImageWithVips | ai_room_cleaner/backend/utils/image_processing.py:39-109 | the loop-free imperative pipeline returns the outcome `ResizeOutcome` specifies for what the cache held; the library decodes only on a miss; a failure or a hit leaves the cache unchanged; a success stores the returned bytes under the input's digest and keeps every other live entry, except exactly one when the cache was full |
| AiProviders.LineTask | ai_room_cleaner/backend/services/ai_providers.py:86-91 | a line contributes only when the trimmed text is longer than ten characters; blank, '#', '{', fence and "tasks:" lines contribute nothing |
| AiProviders.CleanIsSlice | ai_room_cleaner/backend/services/ai_providers.py:89 | the trimmed line is one contiguous piece of the line |
| AiProviders.LineTaskIsPieceOfLine | ai_room_cleaner/backend/services/ai_providers.py:86-91 | every kept task is cut from a single input line and has no whitespace at either end |
| AiProviders.LineTasks | ai_room_cleaner/backend/services/ai_providers.py:85-91 | one filter outcome per line, in line order |
| AiProviders.ParseLines | ai_room_cleaner/backend/services/ai_providers.py:92-96 | at most ten tasks are returned |
| AiProviders.ParseText | ai_room_cleaner/backend/services/ai_providers.py:81-96 | the text parser never returns more than ten tasks |
| AiProviders.ParseTextResponse | ai_room_cleaner/backend/services/ai_providers.py:81-96 | the loop over the lines returns exactly what the specification function `ParseText` describes |
| AiProviders.KeptNext | ai_room_cleaner/backend/services/ai_providers.py:90-91 | each line that passes appends its task at the end |
| AiProviders.Origins | ai_room_cleaner/backend/services/ai_providers.py:85-91 | the source line of every task lies within the input |
| AiProviders.KeptFromOrigins | ai_room_cleaner/backend/services/ai_providers.py:90-91 | task k is the cleaned text of its source line, with reason "Parsed from text" |
| AiProviders.OriginsIncrease | ai_room_cleaner/backend/services/ai_providers.py:85-91 | tasks appear in the order of their source lines |
| AiProviders.OriginsComplete | ai_room_cleaner/backend/services/ai_providers.py:85-91 | every line that passes the filters yields a task |
| AiProviders.KeptEmpty | ai_room_cleaner/backend/services/ai_providers.py:92-94 | no task is kept exactly when no line passes the filters |
| AiProviders.ParseLinesLength | ai_room_cleaner/backend/services/ai_providers.py:96 | the result has one task per contributing line, cut at ten |
| AiProviders.ParseLinesFromOrigins | ai_room_cleaner/backend/services/ai_providers.py:85-96 | each returned task is the cleaned text of its source line, reason "Parsed from text" |
| AiProviders.ParseLinesComplete | ai_room_cleaner/backend/services/ai_providers.py:85-96 | every contributing line is among the source lines, so the first ten contributing lines are the ones returned |
| AiProviders.ParseLinesNone | ai_room_cleaner/backend/services/ai_providers.py:92-94 | text with no surviving line yields [] |
| AiProviders.ParseLinesSome | ai_room_cleaner/backend/services/ai_providers.py:90-96 | text with a surviving line yields at least one task |
| AiProviders.ShortBulletLineDropped | ai_room_cleaner/backend/services/ai_providers.py:89-90 | the indented bullet line "    - task 1" yields no task |
| Json.Lookup | ai_room_cleaner/backend/services/ai_providers.py:66-67 | a decoded dict yields a value for a key exactly when it has that key, and the value is one stored under it |
| Json.LookupLast | ai_room_cleaner/backend/services/ai_providers.py:64-67 | with a repeated key the value comes from its last occurrence, as `json.loads` keeps it: no later member carries the key |
| Json.Assign | ai_room_cleaner/backend/services/ai_providers.py:64 | `d[k] = v` on an insertion-ordered dict: the new member is present, every other member was already there, members with other keys stay, and no key is repeated afterwards |
| Json.DictOf | ai_room_cleaner/backend/services/ai_providers.py:64 | the dict `json.loads` builds holds only members of the decoded object and never repeats a key |
| Json.LookupDistinct | ai_room_cleaner/backend/services/ai_providers.py:66-67 | in a dict without repeated keys, `d[k]` returns the value stored with `k` |
| Json.AssignLookup | ai_room_cleaner/backend/services/ai_providers.py:64 | after `d[k] = v`, `d[k]` is `v` and every other key reads as before |
| Json.DictOfLookup | ai_room_cleaner/backend/services/ai_providers.py:64-67 | the built dict answers `d[key]` for every key as the last occurrence in the decoded object does, and lacks exactly the absent keys |
| Json.RepeatedKeyPrintsOnce | ai_room_cleaner/backend/services/ai_providers.py:72-73 | `str()` of the object `{"a": 1, "b": 2, "a": 3}` is "{'a': 3, 'b': 2}": a repeated key prints once, at its first place, with its last value |
| AiProviders.ParseAiResponse | ai_room_cleaner/backend/services/ai_providers.py:57-79 | a tasks object yields its list unchanged; an array yields one {"mess": str(item), "reason": "N/A"} per element, same length and order; undecodable text yields the text parser's result on the fenced content; any other decoded value is exactly AIError "AI response is not in the expected format." |
| AiProviders.NewOpenAIProvider | ai_room_cleaner/backend/services/ai_providers.py:101-107 | construction succeeds exactly when the library is installed and the AI key is set, and a missing key is ConfigError "OpenAI API key is not configured." |
| AiProviders.NewGoogleGeminiProvider | ai_room_cleaner/backend/services/ai_providers.py:154-161 | construction succeeds exactly when the libraries are installed and the AI key is set, and a missing key is ConfigError "Google API key is not configured." |
| AiProviders.GetAiProviderDispatch | ai_room_cleaner/backend/services/ai_providers.py:198-206 | a name that lower-cases to "openai" gives exactly what the OpenAI constructor gives, and "google" exactly what the Gemini constructor gives; a built provider's kind matches the name; any other name, and any missing AI key, is a ConfigError; letter case never matters |
| AiProviders.OpenAIAnalyzeImage | ai_room_cleaner/backend/services/ai_providers.py:109-139 | HTTP 401 and only it becomes InvalidAPIKeyError; other HTTP errors become AIProviderError; an empty reply, a reply in the wrong shape and every other exception become AIProviderError "Failed to analyze image with OpenAI."; a usable reply yields the parser's tasks |
| Base64.Sextet | ai_room_cleaner/backend/services/ai_service.py:83 | an alphabet character carries a six-bit value |
| Base64.CharOf | ai_room_cleaner/backend/services/ai_service.py:83 | each six-bit value has an alphabet character that decodes back to it |
| Base64.Decode | ai_room_cleaner/backend/services/ai_service.py:83 | the strict decoder (Python 3.11 and later) accepts exactly whole quanta of alphabet characters whose last quantum may end in one or two pads, yields three bytes per quantum less one per pad, and otherwise raises "Incorrect padding" or "Non-base64 digit found" |
| Base64.PadCons | ai_room_cleaner/backend/services/ai_service.py:83 | a full quantum in front does not change the padding |
| Base64.DecodeCons | ai_room_cleaner/backend/services/ai_service.py:83 | decoding distributes over a leading full quantum |
| Base64.EncodeTail | ai_room_cleaner/backend/services/ai_service.py:83 | the last one or two bytes encode to one quantum with two or one pads |
| Base64.Encode | ai_room_cleaner/backend/services/ai_service.py:83 | encoding yields whole quanta |
| Base64.FullRoundTrip | ai_room_cleaner/backend/services/ai_service.py:83 | three bytes survive encoding and decoding |
| Base64.TailRoundTrip | ai_room_cleaner/backend/services/ai_service.py:83 | a final one or two bytes survive encoding and decoding |
| Base64.EncodePadding | ai_room_cleaner/backend/services/ai_service.py:83 | the encoding carries (3 - n mod 3) mod 3 pads for n bytes |
| Base64.EncodeCanonical | ai_room_cleaner/backend/services/ai_service.py:83 | every encoding is accepted by the strict decoder |
| Base64.DecodeEncode | ai_room_cleaner/backend/services/ai_service.py:83 | decoding an encoding gives back exactly the bytes |
| Base64.PartialQuantumRejected | ai_room_cleaner/backend/services/ai_service.py:83-85 | input whose length is not a multiple of four is rejected with "Incorrect padding" |
| Base64.MisplacedPaddingRejected | ai_room_cleaner/backend/services/ai_service.py:83-85 | a pad character before the last two places is rejected |
| Base64.SurplusPaddingRejected | ai_room_cleaner/backend/services/ai_service.py:83-85 | pads after a whole quantum are refused ("QUJD=", "QUJD==", "QUJD===="), while "QUJD" decodes to "ABC" |
| AiService.NewAIService | ai_room_cleaner/backend/services/ai_service.py:30-36 | construction succeeds exactly when the named provider can be built and the image library configured, and then holds the settings and that provider |
| AiService.HealthCheck | ai_room_cleaner/backend/services/ai_service.py:38-46 | status is "ok" exactly when a provider is set, with the provider's name; otherwise status "error" with "AI provider not initialized." |
| AiService.ConstructedServiceHealthy | ai_room_cleaner/backend/services/ai_service.py:30-46 | a service that was constructed reports "ok" |
| AiService.DecodeAndValidate | ai_room_cleaner/backend/services/ai_service.py:80-94 | the upload is accepted exactly when it is strict base64 of a non-empty image within MAX_IMAGE_SIZE_MB·1024·1024 bytes, and then the decoded bytes are returned unchanged; every rejection is an AIError |
| AiService.EncodedImageAccepted | ai_room_cleaner/backend/services/ai_service.py:80-94 | the encoding of any non-empty image up to and including the limit is accepted and gives back its bytes |
| AiService.OversizedImageRejected | ai_room_cleaner/backend/services/ai_service.py:90-92 | an image above the limit is rejected with the size message naming its length and the limit |
| AiService.InvalidBase64Rejected | ai_room_cleaner/backend/services/ai_service.py:82-85 | non-strict base64 is rejected with "Invalid base64 image data: " and the decoder's reason |
| AiService.ProcessImage | ai_room_cleaner/backend/services/ai_service.py:96-102 | the resize's result passes through on success, and any failure becomes ImageProcessingError "Failed to process image: " plus the original message |
| AiService.Rewrap | ai_room_cleaner/backend/services/ai_service.py:68-78 | AIError, ImageProcessingError, ConfigError and AIProviderError propagate unchanged; anything else becomes AIError "An unexpected error occurred during analysis: …" |
| AiService.RewrapIdempotent | ai_room_cleaner/backend/services/ai_service.py:68-78 | wrapping an already wrapped error changes nothing |
| AiService.AnalyzeRoomForMess | ai_room_cleaner/backend/services/ai_service.py:48-78 | empty input is rejected with "Invalid or empty image data provided."; every failure that leaves the service is one of the four pass-through kinds |
| AiService.ValidationFirst | ai_room_cleaner/backend/services/ai_service.py:55-60 | an input that fails validation fails as an AIError, the same way whatever the resize and the provider would do |
| AiService.ResizeFailureSurfaces | ai_room_cleaner/backend/services/ai_service.py:60-61 | a resize failure reaches the caller as ImageProcessingError "Failed to process image: …", and the provider is not consulted |
| AiService.AnalysisSuccess | ai_room_cleaner/backend/services/ai_service.py:58-66 | on success a provider is set, validation and resizing succeeded, and the provider was given exactly the resized bytes and the sanitised prompt; its tasks are returned unchanged |
| AiService.EncodedUploadResized | ai_room_cleaner/backend/services/ai_service.py:58-78 | a valid upload reaches the resize step with exactly its decoded bytes, and the provider's outcome is returned or rewrapped |
| Router.GetApiKey | ai_room_cleaner/backend/api/router.py:44-53 | HTTP 500 when the server has no key; otherwise a key is accepted exactly when the header equals it, and a missing, empty or different header is HTTP 401 |
| Router.Extension | ai_room_cleaner/backend/api/router.py:113 | the extension contains no dot, is the lower-cased whole name when the name has no dot, and is never longer than the name |
| Router.CheckFilename | ai_room_cleaner/backend/api/router.py:110-118 | a missing or empty name is InvalidFileTypeError "File has no name."; otherwise a name passes exactly when "image/" plus its extension is an allowed type; every rejection is InvalidFileTypeError |
| Router.PrefixCancel | ai_room_cleaner/backend/api/router.py:114 | a common prefix cancels in string equality |
| Router.AllowedTypes | ai_room_cleaner/backend/api/constants.py:9 | "image/" plus an extension is allowed exactly for "jpeg", "png" and "gif" |
| Router.AcceptedExtensions | ai_room_cleaner/backend/api/router.py:113-118 | a named upload passes exactly when its extension is "jpeg", "png" or "gif" in any letter case |
| Router.JpgRejected | ai_room_cleaner/backend/api/router.py:113-118 | "x.jpg" is rejected |
| Router.DotlessNameIsExtension | ai_room_cleaner/backend/api/router.py:113 | a name without a dot is its own extension: "PNG" passes as "png" |
| Router.OverallStatus | ai_room_cleaner/backend/api/router.py:88-89 | the status is "degraded" exactly when the AI service's status is not "ok", and "healthy" otherwise |
| Router.HealthCheck | ai_room_cleaner/backend/api/router.py:74-91 | HTTP 500 exactly when there is no AI service; otherwise the report carries the derived status first and the service's own report under "dependencies" |
| Router.HealthStatus | ai_room_cleaner/backend/api/router.py:81-91 | the report's status is "healthy" when the service has a provider and "degraded" when it has none |
| Router.RouteError | ai_room_cleaner/backend/api/router.py:126-138 | AIProviderError, ConfigError, ImageProcessingError and InvalidFileTypeError are re-raised unchanged; anything else becomes AppException(500, "An unexpected error occurred.") |
| Router.AnalyzeRoomSecure | ai_room_cleaner/backend/api/router.py:94-138 | the key check, the service check and the file-name check fail in that order; the route succeeds exactly when all pass and the analysis succeeds, and then returns the analysis result |
| Router.AnalysisFailuresWrapped | ai_room_cleaner/backend/api/router.py:126-138 | a failed analysis reaches the client as a re-raised kind or the generic AppException 500, and an AIError always becomes the latter |
| Router.UploadAlwaysFails | ai_room_cleaner/backend/api/router.py:123 | as written, a request that passes every check ends in AppException 500 |
| Router.GetHistory | ai_room_cleaner/backend/api/router.py:141-148 | HTTP 500 without a history service; otherwise the service's own list object |
| Router.ClearHistory | ai_room_cleaner/backend/api/router.py:151-159 | the key check comes first, then HTTP 500 without a history service; on success the history is empty and the message is "History cleared successfully."; a failed check changes nothing |
| Middleware.HeaderGet | ai_room_cleaner/backend/middleware.py:28 | a header lookup finds nothing exactly when no header has the name, and otherwise returns the value of the first header with that name |
| Middleware.LoggingDispatch | ai_room_cleaner/backend/middleware.py:12-17 | the logging middleware returns the downstream response unchanged |
| Middleware.RequestSizeLimitMiddleware.constructor | ai_room_cleaner/backend/middleware.py:22-24 | the size limit is fixed at construction (a constant field, never assigned again) |
| Middleware.RequestSizeLimitMiddleware.Dispatch | ai_room_cleaner/backend/middleware.py:26-40 | non-POST requests pass; a POST without Content-Length gets 411 "Content-Length header required."; a non-integer Content-Length raises int()'s ValueError; a POST above the limit gets 413 "Payload too large."; otherwise the request passes |
| Middleware.ContentLengthBoundary | ai_room_cleaner/backend/middleware.py:35-40 | a POST announcing n bytes is rejected with 413 exactly when n exceeds the limit, so equality passes |
| Middleware.AppLimitBoundary | ai_room_cleaner/backend/main.py:136-138 | with the limit the application installs, a POST announcing exactly MAX_REQUEST_SIZE_MB·1024·1024 bytes passes and one byte more gets 413 |
| Middleware.OnlyPostIsGated | ai_room_cleaner/backend/middleware.py:27-40 | a non-POST request always passes, and 411 and 413 go only to POSTs |
| State.AfterInitialize | ai_room_cleaner/backend/core/state.py:24-37 | once settings are present nothing changes; otherwise exactly the three arguments are stored |
| State.InitializeOnce | ai_room_cleaner/backend/core/state.py:31-33 | after a call that stored settings, a further call changes nothing |
| State.GuardOnlyOnSettings | ai_room_cleaner/backend/core/state.py:31 | a first call with no settings stores its services yet leaves the state open, and the next call wins |
| State.AppState.constructor | ai_room_cleaner/backend/core/state.py:19-22 | a fresh state has all three fields empty |
| State.AppState.Initialize | ai_room_cleaner/backend/core/state.py:24-37 | the new fields are `AfterInitialize` of the old ones and the arguments |
| State.Application.constructor | ai_room_cleaner/backend/core/state.py:40 | the single shared state is created empty at import |
| State.Application.GetState | ai_room_cleaner/backend/core/state.py:43-45 | every call returns the same state object |
| State.Application.InitializeState | ai_room_cleaner/backend/core/state.py:48-53 | the shared state is initialised as `initialize` prescribes |
| History.HistoryService.constructor | ai_room_cleaner/backend/services/history_service.py:14-16 | a new service has an empty history list of its own |
| History.HistoryService.AddToHistory | ai_room_cleaner/backend/services/history_service.py:18-21 | the item is appended at the end; the length grows by one and earlier items are unchanged |
| History.HistoryService.GetHistory | ai_room_cleaner/backend/services/history_service.py:23-26 | the service's own list object is returned, with all items in insertion order, and nothing changes |
| History.HistoryService.ClearHistory | ai_room_cleaner/backend/services/history_service.py:28-32 | the list is emptied in place, and the count it logs (returned here) is the list's former length |
| History.HistoryLifecycle | ai_room_cleaner/backend/services/history_service.py:18-32 | items added after `get_history` are visible through the list it returned; a clear removes both, a second clear removes none, and an addition after a clear leaves exactly that item |
| Text.LStrip | ai_room_cleaner/backend/services/ai_providers.py:89 | `lstrip` never lengthens its input and leaves no stripped character in front |
| Text.LStripIsSuffix | ai_room_cleaner/backend/services/ai_providers.py:89 | `lstrip` returns a suffix of its input |
| Text.LStripDropsOnly | ai_room_cleaner/backend/services/ai_providers.py:89 | `lstrip` removes only characters of its set |
| Text.RStrip | ai_room_cleaner/backend/services/ai_providers.py:89 | `rstrip` never lengthens its input and leaves no stripped character at the end |
| Text.RStripIsPrefix | ai_room_cleaner/backend/services/ai_providers.py:89 | `rstrip` returns a prefix of its input |
| Text.RStripDropsOnly | ai_room_cleaner/backend/services/ai_providers.py:89 | `rstrip` removes only characters of its set |
| Text.StripChars | ai_room_cleaner/backend/services/ai_providers.py:86 | `strip` leaves no stripped character at either end and never lengthens its input |
| Text.StripCharsIsSlice | ai_room_cleaner/backend/services/ai_providers.py:86 | `strip` returns a contiguous piece of its input |
| Text.StripCharsEmpty | ai_room_cleaner/backend/services/ai_providers.py:86-87 | `strip` gives the empty string exactly when every character is stripped |
| Text.Strip | ai_room_cleaner/backend/services/ai_providers.py:86 | whitespace `strip()` leaves no whitespace at either end |
| Text.Split | ai_room_cleaner/backend/services/ai_providers.py:84 | `split` yields at least one piece, no piece contains the separator, and joining the pieces gives back the text |
| Text.SplitWithSep | ai_room_cleaner/backend/api/router.py:113 | text containing the separator splits into more than one piece |
| Text.SplitWithoutSep | ai_room_cleaner/backend/api/router.py:113 | text without the separator splits into itself alone |
| Text.JoinEndsWithLast | ai_room_cleaner/backend/api/router.py:113 | the joined text ends with its last piece, preceded by the separator when there are several |
| Text.LastPart | ai_room_cleaner/backend/api/router.py:113 | `split(sep)[-1]` is the suffix after the last separator, or the whole text when there is none |
| Text.Lower | ai_room_cleaner/backend/services/ai_providers.py:200 | `lower()` keeps the length and lowers each character |
| Text.LowerIdempotent | ai_room_cleaner/backend/services/ai_providers.py:200 | lowering twice is lowering once |
| Text.NatToString | ai_room_cleaner/backend/services/ai_service.py:92 | a number prints as a non-empty run of digits |
| Text.NatToStringValue | ai_room_cleaner/backend/services/ai_service.py:92 | the printed digits read back as the number |
| Text.ParseInt | ai_room_cleaner/backend/middleware.py:35 | `int()` accepts only text containing a digit |
| Text.ParseIntDigits | ai_room_cleaner/backend/middleware.py:35 | `int()` of a digit run is its decimal value |
| Text.ParseIntNegative | ai_room_cleaner/backend/middleware.py:35 | `int()` of a minus sign and a digit run is the negated value |
| Text.ParseIntRoundTrip | ai_room_cleaner/backend/middleware.py:35 | `int(str(n)) == n` for every integer n |

## Left out

- Pixel work of the image library: what decoding, compositing, colour conversion, resizing and JPEG encoding do to pixels. The model keeps only the resulting shape and the failure text. The wording of the library's failures is a parameter, except for a non-positive resize scale, whose message is the model's own constant.
- ImageProcessing.NormalizeBands: the shape after a successful conversion is fixed by the model (3 bands, same width and height), not taken from the library. ImageProcessing.Resize: likewise, a successful resize is assumed to scale both sides exactly and keep the bands.
- ImageProcessing.Resize: sizes are exact rationals, so the library's rounding of scaled sizes to whole pixels is not modelled.
- SHA-256 of the input is the `digest` parameter.
- ImageProcessing.TtlCache.Set: when the cache is full, exactly one live entry is evicted. Which one, by cachetools' order, is not modelled.
- The safeguard `if not pyvips` at ai_room_cleaner/backend/utils/image_processing.py:56-58. It cannot fire once the probe succeeded, so it is not modelled.
- `json.loads` and the fence-extracting regular expression at ai_room_cleaner/backend/services/ai_providers.py:60-64 are parameters (`loads`, `fence`).
- `bleach.clean` prompt sanitising (ai_room_cleaner/backend/services/ai_service.py:104-106) is the `sanitize` parameter.
- The provider's `analyze_image` is a parameter of `AiService.AnalyzeRoomForMess`. The OpenAI request itself is the `CompletionOutcome` given to `AiProviders.OpenAIAnalyzeImage`.
- Gemini's `analyze_image` and both providers' network health checks (ai_room_cleaner/backend/services/ai_providers.py:141-196). They depend on vendor SDK objects and the network.
- The OpenAI provider's `if not self.client` check at ai_room_cleaner/backend/services/ai_providers.py:110-111. A constructed provider always has a client.
- The resize step of the analysis service is a function parameter. It stands for `ImageProcessor.ResizeImageWithVips` with that method's state.
- Async execution, `asyncio.to_thread` and logging. Everything is modelled as sequential, and logger calls affect nothing.
- Python's `isinstance(image_base64, str)` check at ai_room_cleaner/backend/services/ai_service.py:55. The parameter is a string by its type.
- Base64.Decode: the exact wording of binascii's errors varies between Python versions. The model uses "Incorrect padding" for partial quanta and "Non-base64 digit found" otherwise.
- Base64.Decode: the accepted inputs are those of the strict decoder of Python 3.11 and later. Python 3.10 and earlier also accept pads after a whole quantum (for example "QUJD==" decodes to "ABC"); that older behaviour is not modelled.
- Text.Strip: whitespace is the ASCII whitespace set.
- Text.Lower: lowercasing is ASCII only.
- Text.ParseInt: underscores and non-ASCII digits, which Python's `int()` accepts, are not modelled.
- Json.Str and Json.Repr: Python's escaping of special characters inside printed strings is not modelled.
- Router.CheckFilename: the rejection message lists the allowed types in set-iteration order. That order is the `listing` parameter.
- The exception hierarchy. ai_room_cleaner/backend/core/exceptions.py is not part of this model: it defines only three classes, and the others are imported but never defined. Each class is treated as distinct, so no kind is caught as a subclass of another.
- `get_frontend_config` and `get_http_client` in the router, the rate limiter, and the application wiring in main.py, except the request-size limit (`Middleware.AppMaxRequestSize`, main.py:137).
- The camera service and the stubs under app/backend.

## Findings

| source | as written | input that shows it | evidently intended | confidence | as-written member | corrected member |
|---|---|---|---|---|---|---|
| ai_room_cleaner/backend/api/router.py:123 | `analyze_room_secure` calls `ai_service.analyze_image_from_upload`. AIService defines no such method, so the call raises AttributeError, which the route turns into AppException 500. | any request with a valid key, an initialised service and the file name "room.png" | the route hands the upload to the analysis service and returns its tasks | high (not executed) | Router.UploadAlwaysFails | Router.AnalyzeRoomSecure |
