/** The two HTTP middlewares: request logging, which passes the downstream
    response through, and the request-size gate on POST bodies. The size gate
    answers 411 Length Required and 413 Content Too Large (sections 15.5.12 and
    15.5.14 of RFC 9110). */
module Middleware {
  import opened Outcomes
  import opened Errors
  import opened Config
  import opened Json
  import Text

  /** A request as the middleware sees it: its HTTP method (`verb`) and its headers, names in
      lower case as ASGI delivers them, in arrival order. */
  datatype Request = Request(verb: string, headers: seq<(string, string)>)

  datatype Response = Response(status: int, body: Json)

  const LengthRequired := "Content-Length header required."
  const PayloadTooLarge := "Payload too large."

  /** `headers.get(name)`: the value of the first header with that name. */
  function HeaderGet(headers: seq<(string, string)>, name: string): (r: Option<string>)
    ensures r.None? <==> forall i :: 0 <= i < |headers| ==> headers[i].0 != name
    ensures r.Some? ==> exists i :: 0 <= i < |headers| && headers[i] == (name, r.value) &&
                                    forall j :: 0 <= j < i ==> headers[j].0 != name
  {
    if headers == [] then None
    else if headers[0].0 == name then Some(headers[0].1)
    else
      var r := HeaderGet(headers[1..], name);
      assert forall i :: 1 <= i < |headers| ==> headers[1..][i - 1] == headers[i];
      assert r.Some? ==> exists i :: 1 <= i < |headers| && headers[i] == (name, r.value) &&
                                     forall j :: 0 <= j < i ==> headers[j].0 != name by {
        if r.Some? {
          var k :| 0 <= k < |headers[1..]| && headers[1..][k] == (name, r.value) &&
                   forall j :: 0 <= j < k ==> headers[1..][j].0 != name;
          assert forall j :: 0 <= j < k + 1 ==> headers[j].0 != name by {
            forall j | 0 <= j < k + 1 ensures headers[j].0 != name {
              if j > 0 { assert headers[1..][j - 1] == headers[j]; }
            }
          }
        }
      }
      r
  }

  /** The JSON error body `{"detail": ...}` with its status. */
  function DetailResponse(status: int, detail: string): Response {
    Response(status, JObject([("detail", JString(detail))]))
  }

  /** `str()` of the ValueError `int()` raises on text that is not an integer. */
  function InvalidLiteral(text: string): string {
    "invalid literal for int() with base 10: '" + text + "'"
  }

  /** `LoggingMiddleware.dispatch`: the downstream response, unchanged. */
  function LoggingDispatch(request: Request, callNext: Request -> Response): (r: Response)
    ensures r == callNext(request)
  {
    callNext(request)
  }

  /** `MAX_REQUEST_SIZE_MB * 1024 * 1024`, the limit the application installs. */
  function AppMaxRequestSize(settings: Settings): int {
    settings.maxRequestSizeMb * 1024 * 1024
  }

  class RequestSizeLimitMiddleware {
    /** Set at construction and only read afterwards. */
    const maxSize: int

    constructor (maxSize: int)
      ensures this.maxSize == maxSize
    {
      this.maxSize := maxSize;
    }

    /** `dispatch`: a POST needs a Content-Length no larger than `maxSize`; every
        other request passes. A Content-Length that is not an integer makes `int()`
        raise, which the application reports as a server error. */
    function Dispatch(request: Request, callNext: Request -> Response): (r: Result<Response, Error>)
      ensures request.verb != "POST" ==> r == Ok(callNext(request))
      ensures request.verb == "POST" && HeaderGet(request.headers, "content-length").None? ==>
                r == Ok(DetailResponse(411, LengthRequired))
      ensures request.verb == "POST" && HeaderGet(request.headers, "content-length").Some? ==>
                var text := HeaderGet(request.headers, "content-length").value;
                match Text.ParseInt(text)
                case None => r == Err(OtherException(InvalidLiteral(text)))
                case Some(n) => r == Ok(if n > maxSize then DetailResponse(413, PayloadTooLarge) else callNext(request))
    {
      if request.verb == "POST" then
        match HeaderGet(request.headers, "content-length")
        case None => Ok(DetailResponse(411, LengthRequired))
        case Some(contentLength) =>
          match Text.ParseInt(contentLength)
          case None => Err(OtherException(InvalidLiteral(contentLength)))
          case Some(n) =>
            if n > maxSize then Ok(DetailResponse(413, PayloadTooLarge)) else Ok(callNext(request))
      else Ok(callNext(request))
    }
  }

  /** A POST announcing `n` bytes in decimal is rejected with 413 exactly when
      `n` exceeds the limit, and passed on otherwise: equality passes. */
  lemma ContentLengthBoundary(m: RequestSizeLimitMiddleware, n: int, other: seq<(string, string)>,
                              callNext: Request -> Response)
    ensures var request := Request("POST", [("content-length", Text.IntToString(n))] + other);
      && (n > m.maxSize ==> m.Dispatch(request, callNext) == Ok(DetailResponse(413, PayloadTooLarge)))
      && (n <= m.maxSize ==> m.Dispatch(request, callNext) == Ok(callNext(request)))
  {
    var headers := [("content-length", Text.IntToString(n))] + other;
    assert HeaderGet(headers, "content-length") == Some(Text.IntToString(n));
    Text.ParseIntRoundTrip(n);
  }

  /** With the limit the application installs, a POST announcing exactly
      MAX_REQUEST_SIZE_MB mebibytes passes and one byte more gets 413. */
  lemma AppLimitBoundary(m: RequestSizeLimitMiddleware, settings: Settings, other: seq<(string, string)>,
                         callNext: Request -> Response)
    requires m.maxSize == AppMaxRequestSize(settings)
    ensures var limit := settings.maxRequestSizeMb * 1024 * 1024;
            var atLimit := Request("POST", [("content-length", Text.IntToString(limit))] + other);
            m.Dispatch(atLimit, callNext) == Ok(callNext(atLimit))
    ensures var over := settings.maxRequestSizeMb * 1024 * 1024 + 1;
            var request := Request("POST", [("content-length", Text.IntToString(over))] + other);
            m.Dispatch(request, callNext) == Ok(DetailResponse(413, PayloadTooLarge))
  {
    ContentLengthBoundary(m, settings.maxRequestSizeMb * 1024 * 1024, other, callNext);
    ContentLengthBoundary(m, settings.maxRequestSizeMb * 1024 * 1024 + 1, other, callNext);
  }

  /** A non-POST request passes whatever its headers, and the 411 and 413
      answers go only to POSTs. */
  lemma OnlyPostIsGated(m: RequestSizeLimitMiddleware, request: Request, callNext: Request -> Response)
    ensures request.verb != "POST" ==> m.Dispatch(request, callNext) == Ok(callNext(request))
    ensures m.Dispatch(request, callNext).Ok? && m.Dispatch(request, callNext).value != callNext(request) ==>
              request.verb == "POST" && m.Dispatch(request, callNext).value.status in {411, 413}
  {
  }
}
