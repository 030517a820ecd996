/** `AIService`: validation of the base64 upload, resizing, prompt sanitising and
    delegation to the provider, with the service's error pass-through policy.
    The resize step (`resize_image_with_vips`), `bleach.clean` and the provider's
    `analyze_image` are given as functions. */
module AiService {
  import opened Outcomes
  import opened Errors
  import opened Config
  import opened Json
  import Text
  import Base64
  import AiProviders

  const EmptyInput := "Invalid or empty image data provided."
  const InvalidBase64Prefix := "Invalid base64 image data: "
  const EmptyDecoded := "Decoded image data is empty."
  const ProcessFailedPrefix := "Failed to process image: "
  const UnexpectedPrefix := "An unexpected error occurred during analysis: "
  const ProviderNotInitialized := "AI provider not initialized."
  /** `str()` of the AttributeError raised by calling a method on `None`. */
  const NoProviderCall := "'NoneType' object has no attribute 'analyze_image'"

  /** The fields `__init__` sets: the settings and the provider `get_ai_provider` built. */
  datatype AIService = AIService(settings: Settings, provider: Option<AiProviders.Provider>)

  /** `AIService(settings)`: builds the provider named by the settings, then
      configures the image library (`configureOutcome` is what `configure_pyvips`
      returned); either failure propagates. */
  function NewAIService(settings: Settings, libs: AiProviders.Libraries, configureOutcome: Result<(), Error>)
    : (r: Result<AIService, Error>)
    ensures r.Ok? <==> AiProviders.GetAiProvider(settings.aiProvider, settings, libs).Ok? && configureOutcome.Ok?
    ensures r.Ok? ==> r.value.settings == settings &&
                      r.value.provider == Some(AiProviders.GetAiProvider(settings.aiProvider, settings, libs).value)
  {
    var provider :- AiProviders.GetAiProvider(settings.aiProvider, settings, libs);
    var _ :- configureOutcome;
    Ok(AIService(settings, Some(provider)))
  }

  /** `health_check`: "ok" and the provider's name when a provider is set. */
  function HealthCheck(service: AIService): (r: Json)
    ensures r.JObject? && Lookup(r.members, "status").Some?
    ensures Lookup(r.members, "status") == Some(JString("ok")) <==> service.provider.Some?
    ensures service.provider.Some? ==>
              Lookup(r.members, "provider") == Some(JString(service.settings.aiProvider))
    ensures service.provider.None? ==>
              Lookup(r.members, "error") == Some(JString(ProviderNotInitialized))
  {
    if service.provider.Some? then
      JObject([("status", JString("ok")), ("provider", JString(service.settings.aiProvider))])
    else
      JObject([("status", JString("error")), ("error", JString(ProviderNotInitialized))])
  }

  /** A service that was constructed always reports "ok". */
  lemma ConstructedServiceHealthy(settings: Settings, libs: AiProviders.Libraries, configureOutcome: Result<(), Error>)
    requires NewAIService(settings, libs, configureOutcome).Ok?
    ensures Lookup(HealthCheck(NewAIService(settings, libs, configureOutcome).value).members, "status")
            == Some(JString("ok"))
  {
  }

  /** `MAX_IMAGE_SIZE_MB * 1024 * 1024`. */
  function MaxImageBytes(settings: Settings): int {
    settings.maxImageSizeMb * 1024 * 1024
  }

  /** `_decode_and_validate_image`: strict base64 decoding, then the decoded bytes
      must be non-empty and no longer than the configured limit. */
  function DecodeAndValidate(settings: Settings, imageBase64: string): (r: Result<Bytes, Error>)
    ensures r.Err? ==> r.error.AIError?
    ensures r.Ok? <==> Base64.Canonical(imageBase64) &&
                       var b := Base64.DecodeCanonical(imageBase64); b != [] && |b| <= MaxImageBytes(settings)
    ensures r.Ok? ==> r.value == Base64.DecodeCanonical(imageBase64)
  {
    match Base64.Decode(imageBase64)
    case Err(cause) => Err(AIError(InvalidBase64Prefix + cause))
    case Ok(imageBytes) =>
      if imageBytes == [] then Err(AIError(EmptyDecoded))
      else if |imageBytes| > MaxImageBytes(settings) then
        Err(AIError("Image size (" + Text.IntToString(|imageBytes|) + " bytes) exceeds maximum of "
                    + Text.IntToString(settings.maxImageSizeMb) + "MB."))
      else Ok(imageBytes)
  }

  /** The encoding of any non-empty image within the limit is accepted, and the
      exact bytes come back. */
  lemma EncodedImageAccepted(settings: Settings, b: Bytes)
    requires 0 < |b| <= MaxImageBytes(settings)
    ensures DecodeAndValidate(settings, Base64.Encode(b)) == Ok(b)
  {
    Base64.DecodeEncode(b);
  }

  /** An image one byte over the limit is rejected with the size message. */
  lemma OversizedImageRejected(settings: Settings, b: Bytes)
    requires b != [] && |b| > MaxImageBytes(settings)
    ensures DecodeAndValidate(settings, Base64.Encode(b)) ==
            Err(AIError("Image size (" + Text.IntToString(|b|) + " bytes) exceeds maximum of "
                        + Text.IntToString(settings.maxImageSizeMb) + "MB."))
  {
    Base64.DecodeEncode(b);
  }

  /** Input that is not strict base64 is rejected with the decoder's reason. */
  lemma InvalidBase64Rejected(settings: Settings, imageBase64: string)
    requires !Base64.Canonical(imageBase64)
    ensures DecodeAndValidate(settings, imageBase64) ==
            Err(AIError(InvalidBase64Prefix + Base64.Decode(imageBase64).error))
  {
  }

  /** `_process_image`: any failure of the resize surfaces as ImageProcessingError
      "Failed to process image: …" carrying the original message. */
  function ProcessImage(imageBytes: Bytes, resize: Bytes -> Result<Bytes, Error>): (r: Result<Bytes, Error>)
    ensures r.Ok? <==> resize(imageBytes).Ok?
    ensures r.Ok? ==> r.value == resize(imageBytes).value
    ensures r.Err? ==> r.error.ImageProcessingError? &&
                       r.error.message == ProcessFailedPrefix + resize(imageBytes).error.Str()
  {
    match resize(imageBytes)
    case Ok(resized) => Ok(resized)
    case Err(e) => Err(ImageProcessingError(ProcessFailedPrefix + e.Str()))
  }

  /** The exception kinds `analyze_room_for_mess` re-raises unchanged. */
  predicate PassesThrough(e: Error) {
    e.AIError? || e.ImageProcessingError? || e.ConfigError? || e.AIProviderError?
  }

  /** The `except` clauses: the four service errors propagate, anything else is
      wrapped in AIError. */
  function Rewrap(e: Error): (r: Error)
    ensures PassesThrough(r)
    ensures PassesThrough(e) ==> r == e
    ensures !PassesThrough(e) ==> r == AIError(UnexpectedPrefix + e.Str())
  {
    if PassesThrough(e) then e else AIError(UnexpectedPrefix + e.Str())
  }

  /** Wrapping twice is wrapping once. */
  lemma RewrapIdempotent(e: Error)
    ensures Rewrap(Rewrap(e)) == Rewrap(e)
  {
  }

  /** The provider's call: `analyze` on the resized bytes and the sanitised prompt,
      or the AttributeError of a missing provider. */
  function CallProvider(service: AIService, resized: Bytes, prompt: string,
                        analyze: (AiProviders.Provider, Bytes, string) -> Result<seq<Json>, Error>)
    : Result<seq<Json>, Error>
  {
    match service.provider
    case Some(p) => analyze(p, resized, prompt)
    case None => Err(OtherException(NoProviderCall))
  }

  /** The body of the `try`: decode and validate, resize, sanitise the prompt, then
      ask the provider. */
  function AnalysisSteps(service: AIService, imageBase64: string, resize: Bytes -> Result<Bytes, Error>,
                         sanitize: string -> string,
                         analyze: (AiProviders.Provider, Bytes, string) -> Result<seq<Json>, Error>)
    : Result<seq<Json>, Error>
  {
    var imageBytes :- DecodeAndValidate(service.settings, imageBase64);
    var resized :- ProcessImage(imageBytes, resize);
    CallProvider(service, resized, sanitize(service.settings.aiPrompt), analyze)
  }

  /** `analyze_room_for_mess(image_base64)`. */
  function AnalyzeRoomForMess(service: AIService, imageBase64: string, resize: Bytes -> Result<Bytes, Error>,
                              sanitize: string -> string,
                              analyze: (AiProviders.Provider, Bytes, string) -> Result<seq<Json>, Error>)
    : (r: Result<seq<Json>, Error>)
    ensures r.Err? ==> PassesThrough(r.error)
    ensures imageBase64 == "" ==> r == Err(AIError(EmptyInput))
  {
    if imageBase64 == "" then Err(AIError(EmptyInput))
    else
      match AnalysisSteps(service, imageBase64, resize, sanitize, analyze)
      case Ok(tasks) => Ok(tasks)
      case Err(e) => Err(Rewrap(e))
  }

  /** A request that fails validation fails the same way whatever the resize and
      the provider would do: validation runs first. */
  lemma ValidationFirst(service: AIService, imageBase64: string,
                        resize1: Bytes -> Result<Bytes, Error>, resize2: Bytes -> Result<Bytes, Error>,
                        sanitize: string -> string,
                        analyze1: (AiProviders.Provider, Bytes, string) -> Result<seq<Json>, Error>,
                        analyze2: (AiProviders.Provider, Bytes, string) -> Result<seq<Json>, Error>)
    requires imageBase64 == "" || DecodeAndValidate(service.settings, imageBase64).Err?
    ensures AnalyzeRoomForMess(service, imageBase64, resize1, sanitize, analyze1) ==
            AnalyzeRoomForMess(service, imageBase64, resize2, sanitize, analyze2)
    ensures AnalyzeRoomForMess(service, imageBase64, resize1, sanitize, analyze1).Err? &&
            AnalyzeRoomForMess(service, imageBase64, resize1, sanitize, analyze1).error.AIError?
  {
  }

  /** A resize failure reaches the caller as the ImageProcessingError `_process_image`
      raised, and the provider is not consulted. */
  lemma ResizeFailureSurfaces(service: AIService, imageBase64: string, resize: Bytes -> Result<Bytes, Error>,
                              sanitize: string -> string,
                              analyze: (AiProviders.Provider, Bytes, string) -> Result<seq<Json>, Error>)
    requires imageBase64 != "" && DecodeAndValidate(service.settings, imageBase64).Ok?
    requires resize(DecodeAndValidate(service.settings, imageBase64).value).Err?
    ensures var e := resize(DecodeAndValidate(service.settings, imageBase64).value).error;
            AnalyzeRoomForMess(service, imageBase64, resize, sanitize, analyze) ==
            Err(ImageProcessingError(ProcessFailedPrefix + e.Str()))
  {
  }

  /** On success the provider was given exactly the resized bytes of the decoded
      upload and the sanitised prompt, and its tasks are returned unchanged. */
  lemma AnalysisSuccess(service: AIService, imageBase64: string, resize: Bytes -> Result<Bytes, Error>,
                        sanitize: string -> string,
                        analyze: (AiProviders.Provider, Bytes, string) -> Result<seq<Json>, Error>)
    requires AnalyzeRoomForMess(service, imageBase64, resize, sanitize, analyze).Ok?
    ensures service.provider.Some?
    ensures DecodeAndValidate(service.settings, imageBase64).Ok?
    ensures var imageBytes := DecodeAndValidate(service.settings, imageBase64).value;
            resize(imageBytes).Ok? &&
            analyze(service.provider.value, resize(imageBytes).value, sanitize(service.settings.aiPrompt)) ==
            AnalyzeRoomForMess(service, imageBase64, resize, sanitize, analyze)
  {
  }

  /** An upload that is the base64 of a non-empty image within the limit reaches
      the resize step with exactly its bytes. */
  lemma EncodedUploadResized(service: AIService, b: Bytes, resize: Bytes -> Result<Bytes, Error>,
                             sanitize: string -> string,
                             analyze: (AiProviders.Provider, Bytes, string) -> Result<seq<Json>, Error>)
    requires 0 < |b| <= MaxImageBytes(service.settings)
    ensures resize(b).Err? ==>
              AnalyzeRoomForMess(service, Base64.Encode(b), resize, sanitize, analyze) ==
              Err(ImageProcessingError(ProcessFailedPrefix + resize(b).error.Str()))
    ensures resize(b).Ok? && service.provider.Some? ==>
              var out := analyze(service.provider.value, resize(b).value, sanitize(service.settings.aiPrompt));
              AnalyzeRoomForMess(service, Base64.Encode(b), resize, sanitize, analyze) ==
              (if out.Ok? then out else Err(Rewrap(out.error)))
  {
    EncodedImageAccepted(service.settings, b);
    assert Base64.Encode(b) != "" by {
      assert |Base64.Decode(Base64.Encode(b)).value| > 0;
    }
  }
}
