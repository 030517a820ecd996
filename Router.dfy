/** The HTTP routes' decision rules: the X-API-KEY check, the upload's
    file-name check, the health status, the secure-analysis error policy and the
    history routes. A route's dependency (`Security(get_api_key)`) is resolved
    before its body runs. */
module Router {
  import opened Outcomes
  import opened Errors
  import opened Config
  import opened Json
  import Text
  import AiService
  import History
  import State

  const KeyNotConfigured := "API key not configured on server"
  const MissingOrInvalidKey := "Missing or invalid API key"
  const AiServiceNotInitialized := "AI service not initialized"
  const HistoryServiceNotInitialized := "History service not initialized"
  const FileHasNoName := "File has no name."
  const UnexpectedError := "An unexpected error occurred."
  const HistoryCleared := "History cleared successfully."

  /** `ALLOWED_MIME_TYPES`. */
  const AllowedMimeTypes: set<string> := {"image/jpeg", "image/png", "image/gif"}

  // ---------------------------------------------------------------------------
  // get_api_key

  /** `get_api_key`: HTTP 500 when the server has no key, HTTP 401 when the header
      is missing, empty or different, otherwise the key the client sent. */
  function GetApiKey(settings: Settings, header: Option<string>): (r: Result<string, Error>)
    ensures !IsSet(settings.apiKey) ==> r == Err(HTTPException(500, KeyNotConfigured))
    ensures IsSet(settings.apiKey) && r.Err? ==> r == Err(HTTPException(401, MissingOrInvalidKey))
    ensures r.Ok? <==> IsSet(settings.apiKey) && header == Some(settings.apiKey.value)
    ensures r.Ok? ==> r.value == settings.apiKey.value
  {
    if !IsSet(settings.apiKey) then Err(HTTPException(500, KeyNotConfigured))
    else if header.None? || header.value == "" || header.value != settings.apiKey.value then
      Err(HTTPException(401, MissingOrInvalidKey))
    else Ok(header.value)
  }

  // ---------------------------------------------------------------------------
  // The upload's file name

  /** `filename.split(".")[-1].lower()`. */
  function Extension(filename: string): (r: string)
    ensures '.' !in r
    ensures |r| <= |filename|
    ensures '.' !in filename ==> r == Text.Lower(filename)
  {
    Text.Lower(Text.LastPart(filename, '.'))
  }

  /** The file-name check of `analyze_room_secure`: a name is required, and the
      text after its last dot, lower-cased, must name an allowed image type. The
      message lists the allowed types in `listing`, the order in which the set
      happens to iterate. */
  function CheckFilename(filename: Option<string>, listing: string): (r: Result<string, Error>)
    ensures r.Err? ==> r.error.InvalidFileTypeError?
    ensures filename.None? || filename == Some("") ==> r == Err(InvalidFileTypeError(FileHasNoName))
    ensures r.Ok? <==> filename.Some? && filename.value != "" && "image/" + Extension(filename.value) in AllowedMimeTypes
    ensures r.Ok? ==> r.value == Extension(filename.value)
  {
    if filename.None? || filename.value == "" then Err(InvalidFileTypeError(FileHasNoName))
    else
      var ext := Extension(filename.value);
      if "image/" + ext !in AllowedMimeTypes then
        Err(InvalidFileTypeError("Invalid file type: " + filename.value + ". Allowed types are: " + listing))
      else Ok(ext)
  }

  /** A common prefix cancels. */
  lemma PrefixCancel(p: string, a: string, b: string)
    ensures p + a == p + b <==> a == b
  {
    if p + a == p + b {
      assert a == (p + a)[|p|..];
      assert b == (p + b)[|p|..];
    }
  }

  /** "image/" + ext is allowed exactly for "jpeg", "png" and "gif". */
  lemma AllowedTypes(ext: string)
    ensures "image/" + ext in AllowedMimeTypes <==> ext in {"jpeg", "png", "gif"}
  {
    assert "image/jpeg" == "image/" + "jpeg" && "image/png" == "image/" + "png" && "image/gif" == "image/" + "gif";
    PrefixCancel("image/", ext, "jpeg");
    PrefixCancel("image/", ext, "png");
    PrefixCancel("image/", ext, "gif");
  }

  /** Exactly the extensions "jpeg", "png" and "gif" pass, in any letter case. */
  lemma AcceptedExtensions(name: string, listing: string)
    requires name != ""
    ensures CheckFilename(Some(name), listing).Ok? <==> Extension(name) in {"jpeg", "png", "gif"}
  {
    AllowedTypes(Extension(name));
  }

  /** "x.jpg" is refused: "image/jpg" is not an allowed type. */
  lemma JpgRejected(listing: string)
    ensures CheckFilename(Some("x.jpg"), listing).Err?
  {
    var s := "x.jpg";
    var r := Text.LastPart(s, '.');
    assert s[1] == '.';
    assert |r| == 3;
    assert r == s[2..] == "jpg";
    assert Extension(s) == "jpg";
    AllowedTypes("jpg");
  }

  /** A name without a dot is its own extension: a file called "PNG" passes. */
  lemma DotlessNameIsExtension(listing: string)
    ensures CheckFilename(Some("PNG"), listing) == Ok("png")
  {
    assert Extension("PNG") == "png";
    AllowedTypes("png");
  }

  // ---------------------------------------------------------------------------
  // health_check

  /** "healthy" when the AI service reports "ok", "degraded" otherwise. */
  function OverallStatus(aiHealth: Json): (r: string)
    ensures r == "degraded" <==> !(aiHealth.JObject? && Lookup(aiHealth.members, "status") == Some(JString("ok")))
    ensures r == "healthy" || r == "degraded"
  {
    if aiHealth.JObject? && Lookup(aiHealth.members, "status") == Some(JString("ok")) then "healthy" else "degraded"
  }

  /** `health_check`: HTTP 500 without an AI service; otherwise the report, its
      status first, with the service's own health under "dependencies". */
  function HealthCheck(aiService: Option<AiService.AIService>, timestamp: string): (r: Result<Json, Error>)
    ensures aiService.None? <==> r == Err(HTTPException(500, AiServiceNotInitialized))
    ensures r.Ok? ==>
              && r.value.JObject? && |r.value.members| == 4
              && r.value.members[0] == ("status", JString(OverallStatus(AiService.HealthCheck(aiService.value))))
              && r.value.members[1].0 == "service" && r.value.members[2].0 == "timestamp"
              && r.value.members[3] == ("dependencies", JObject([("ai_service", AiService.HealthCheck(aiService.value))]))
  {
    match aiService
    case None => Err(HTTPException(500, AiServiceNotInitialized))
    case Some(service) =>
      var aiHealth := AiService.HealthCheck(service);
      Ok(JObject([("status", JString(OverallStatus(aiHealth))),
                  ("service", JString("AI Room Cleaner")),
                  ("timestamp", JString(timestamp)),
                  ("dependencies", JObject([("ai_service", aiHealth)]))]))
  }

  /** The report's "status" is "healthy" when the service has a provider and
      "degraded" when it has none. */
  lemma HealthStatus(service: AiService.AIService, timestamp: string)
    ensures HealthCheck(Some(service), timestamp).Ok?
    ensures Lookup(HealthCheck(Some(service), timestamp).value.members, "status") ==
            Some(JString(if service.provider.Some? then "healthy" else "degraded"))
  {
    var m := HealthCheck(Some(service), timestamp).value.members;
    assert Lookup(m[..1], "status") == Some(m[0].1);
    assert m[..3][..2] == m[..2] && m[..2][..1] == m[..1] && m[..4] == m;
    assert Lookup(m[..2], "status") == Lookup(m[..1], "status");
    assert Lookup(m[..3], "status") == Lookup(m[..2], "status");
    assert Lookup(m, "status") == Lookup(m[..3], "status");
  }

  // ---------------------------------------------------------------------------
  // analyze_room_secure

  /** The exception kinds the route re-raises unchanged. */
  predicate Reraised(e: Error) {
    e.AIProviderError? || e.ConfigError? || e.ImageProcessingError? || e.InvalidFileTypeError?
  }

  /** The route's `except` clauses: four kinds propagate, anything else becomes
      AppException(500, "An unexpected error occurred."). */
  function RouteError(e: Error): (r: Error)
    ensures Reraised(e) ==> r == e
    ensures !Reraised(e) ==> r == AppException(500, UnexpectedError)
    ensures Reraised(r) || r == AppException(500, UnexpectedError)
  {
    if Reraised(e) then e else AppException(500, UnexpectedError)
  }

  /** `str()` of the AttributeError raised by `ai_service.analyze_image_from_upload`:
      AIService defines no such method. */
  const MissingUploadMethod := OtherException("'AIService' object has no attribute 'analyze_image_from_upload'")

  /** `analyze_room_secure`: the key check, then the service check, then the
      file-name check, then the analysis, whose outcome is `upload`. */
  function AnalyzeRoomSecure(settings: Settings, header: Option<string>, aiService: Option<AiService.AIService>,
                             filename: Option<string>, listing: string, upload: Result<Json, Error>)
    : (r: Result<Json, Error>)
    ensures GetApiKey(settings, header).Err? ==> r == Err(GetApiKey(settings, header).error)
    ensures GetApiKey(settings, header).Ok? && aiService.None? ==>
              r == Err(HTTPException(500, AiServiceNotInitialized))
    ensures GetApiKey(settings, header).Ok? && aiService.Some? && CheckFilename(filename, listing).Err? ==>
              r == Err(CheckFilename(filename, listing).error)
    ensures r.Ok? <==> GetApiKey(settings, header).Ok? && aiService.Some? &&
                       CheckFilename(filename, listing).Ok? && upload.Ok?
    ensures r.Ok? ==> r == upload
  {
    var _ :- GetApiKey(settings, header);
    if aiService.None? then Err(HTTPException(500, AiServiceNotInitialized))
    else
      var _ :- CheckFilename(filename, listing);
      match upload
      case Ok(result) => Ok(result)
      case Err(e) => Err(RouteError(e))
  }

  /** An analysis that fails only ever reaches the client as one of the four
      re-raised kinds or as the generic AppException 500; an AIError is not
      among the re-raised kinds. */
  lemma AnalysisFailuresWrapped(settings: Settings, header: Option<string>, service: AiService.AIService,
                                filename: Option<string>, listing: string, e: Error)
    requires GetApiKey(settings, header).Ok? && CheckFilename(filename, listing).Ok?
    ensures var r := AnalyzeRoomSecure(settings, header, Some(service), filename, listing, Err(e));
      r.Err? && (Reraised(r.error) || r.error == AppException(500, UnexpectedError)) &&
      (e.AIError? ==> r.error == AppException(500, UnexpectedError))
  {
  }

  /** As written, a request that passes every check still ends in
      AppException 500: the service has no `analyze_image_from_upload`. */
  lemma UploadAlwaysFails(settings: Settings, header: Option<string>, service: AiService.AIService,
                          filename: Option<string>, listing: string)
    requires GetApiKey(settings, header).Ok? && CheckFilename(filename, listing).Ok?
    ensures AnalyzeRoomSecure(settings, header, Some(service), filename, listing, Err(MissingUploadMethod))
            == Err(AppException(500, UnexpectedError))
  {
  }

  // ---------------------------------------------------------------------------
  // The history routes

  /** `GET /history`: HTTP 500 without a history service, otherwise the service's
      list object itself. */
  method GetHistory(state: State.AppState) returns (r: Result<History.HistoryList, Error>)
    ensures state.historyService.None? ==> r == Err(HTTPException(500, HistoryServiceNotInitialized))
    ensures state.historyService.Some? ==> r == Ok(state.historyService.value.history)
  {
    if state.historyService.None? {
      return Err(HTTPException(500, HistoryServiceNotInitialized));
    }
    var list := state.historyService.value.GetHistory();
    r := Ok(list);
  }

  /** `DELETE /history`: the key check, then HTTP 500 without a history service,
      otherwise the history is emptied. Nothing changes when a check fails. */
  method ClearHistory(settings: Settings, header: Option<string>, state: State.AppState)
    returns (r: Result<Json, Error>)
    modifies if state.historyService.Some? then {state.historyService.value.history} else {}
    ensures GetApiKey(settings, header).Err? ==> r == Err(GetApiKey(settings, header).error)
    ensures GetApiKey(settings, header).Ok? && state.historyService.None? ==>
              r == Err(HTTPException(500, HistoryServiceNotInitialized))
    ensures r.Ok? <==> GetApiKey(settings, header).Ok? && state.historyService.Some?
    ensures r.Ok? ==> r.value == JObject([("message", JString(HistoryCleared))]) &&
                      state.historyService.value.history.items == []
    ensures r.Err? && state.historyService.Some? ==> unchanged(state.historyService.value.history)
  {
    var key := GetApiKey(settings, header);
    if key.Err? {
      return Err(key.error);
    }
    if state.historyService.None? {
      return Err(HTTPException(500, HistoryServiceNotInitialized));
    }
    var _ := state.historyService.value.ClearHistory();
    r := Ok(JObject([("message", JString(HistoryCleared))]));
  }
}
