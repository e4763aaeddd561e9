/** The Sentinel Signal API client (src/sentinel_signal_mcp/client.py):
    every call loads the settings, sends one request with a bearer header,
    and turns the response into a payload or a `SentinelAPIError`. The
    transport is the parameter `send`, which answers a request with an
    exchange; `float()` is the parameter `parseFloat` of the settings. */
module Client {
  import opened Wrappers
  import opened PyStrings
  import opened JsonValues
  import opened Http
  import opened Config

  /** The errors a call raises: the `RuntimeError` of `load_settings`, and
      the two kinds of `SentinelAPIError` (the request could not be made, or
      the API answered with an error status and this detail). */
  datatype ClientError =
    | SettingsInvalid(cause: ConfigError)
    | TransportFailed
    | ApiError(status: int, detail: Object)

  const BearerPrefix: string := "Bearer "
  const JsonMediaType: string := "application/json"

  /** The API key carried by an `Authorization` value, if it is a bearer
      credential. */
  function BearerKey(authorization: string): Option<string>
  {
    if |BearerPrefix| <= |authorization| && authorization[..|BearerPrefix|] == BearerPrefix
    then Some(authorization[|BearerPrefix|..])
    else None
  }

  /** `_headers`: exactly three headers; the bearer credential carries the
      configured key, JSON is accepted, and the user agent is the
      configured one. */
  function Headers(settings: Settings): (h: map<string, string>)
    ensures h.Keys == {"Authorization", "Accept", "User-Agent"}
    ensures BearerKey(h["Authorization"]) == Some(settings.apiKey)
    ensures h["Accept"] == JsonMediaType
    ensures h["User-Agent"] == settings.userAgent
  {
    var authorization := BearerPrefix + settings.apiKey;
    assert authorization[..|BearerPrefix|] == BearerPrefix;
    assert authorization[|BearerPrefix|..] == settings.apiKey;
    map["Authorization" := authorization, "Accept" := JsonMediaType, "User-Agent" := settings.userAgent]
  }

  /** The lowered `content-type` header (missing reads as empty) contains
      `application/json`. */
  predicate IsJsonContentType(contentType: Option<string>)
  {
    Contains(Lower(if contentType.Some? then contentType.value else ""), JsonMediaType)
  }

  lemma LowerAppend(x: string, y: string)
    ensures Lower(x + y) == Lower(x) + Lower(y)
  {
  }

  /** Any content type with `application/json` inside it, in any letter
      case, selects JSON parsing. */
  lemma JsonContentTypeDetected(before: string, mediaType: string, after: string)
    requires Lower(mediaType) == JsonMediaType
    ensures IsJsonContentType(Some(before + mediaType + after))
  {
    LowerAppend(before + mediaType, after);
    LowerAppend(before, mediaType);
    ContainsInfix(Lower(before), JsonMediaType, Lower(after));
  }

  /** The payload `_parse_response` reads from a response: the decoded JSON
      when the content type is JSON and the body decodes, and otherwise the
      `{"raw_text": text}` wrapper, so a decoding failure never escapes. */
  function ResponsePayload(response: Response): (payload: Json)
    ensures !IsJsonContentType(response.contentType) ==> payload == RawText(response.text)
    ensures response.decoded.None? ==> payload == RawText(response.text)
    ensures IsJsonContentType(response.contentType) && response.decoded.Some? ==> payload == response.decoded.value
  {
    if IsJsonContentType(response.contentType) && response.decoded.Some? then response.decoded.value
    else RawText(response.text)
  }

  /** The detail an error reports: the payload itself when it is an object,
      otherwise the payload wrapped as `{"detail": payload}`. */
  function ErrorDetail(payload: Json): (detail: Object)
    ensures payload.JObj? ==> JObj(detail) == payload
    ensures !payload.JObj? ==> detail.Keys == {"detail"} && detail["detail"] == payload
  {
    if payload.JObj? then payload.fields else map["detail" := payload]
  }

  /** `_parse_response`: an error status always raises, with the detail of
      the payload; any other status returns the payload unchanged. */
  function ParseResponse(response: Response): (r: Result<Json, ClientError>)
    ensures r.Success? <==> !IsError(response.status)
    ensures r.Success? ==> r.value == ResponsePayload(response)
    ensures r.Failure? ==> r.error == ApiError(response.status, ErrorDetail(ResponsePayload(response)))
  {
    var payload := ResponsePayload(response);
    if IsError(response.status) then Failure(ApiError(response.status, ErrorDetail(payload)))
    else Success(payload)
  }

  /** What an operation asks `_request` for. */
  datatype Call = Call(verb: string, path: string, params: Option<Object>, body: Option<Object>)

  /** The request the `httpx` client sends for a call. */
  datatype HttpRequest = HttpRequest(
    verb: string,
    url: string,
    params: Option<Object>,
    body: Option<Object>,
    headers: map<string, string>,
    timeout: Float)

  function BuildRequest(settings: Settings, call: Call): (req: HttpRequest)
    ensures req.url == settings.apiBaseUrl + call.path
    ensures req.verb == call.verb && req.params == call.params && req.body == call.body
    ensures req.headers == Headers(settings)
    ensures req.timeout == settings.timeoutSeconds
  {
    HttpRequest(call.verb, settings.apiBaseUrl + call.path, call.params, call.body, Headers(settings), settings.timeoutSeconds)
  }

  /** `_request`: invalid settings raise before anything is sent; a
      transport failure raises and never yields a payload; a success is the
      payload of a non-error response to exactly the request built from the
      settings. */
  function Request(env: Environment, parseFloat: string -> Option<Float>, send: HttpRequest -> Exchange, call: Call)
    : (r: Result<Json, ClientError>)
    ensures LoadSettings(env, parseFloat).Failure? ==>
      r == Failure(SettingsInvalid(LoadSettings(env, parseFloat).error))
    ensures LoadSettings(env, parseFloat).Success? ==>
      var exchange := send(BuildRequest(LoadSettings(env, parseFloat).value, call));
      && (exchange.TransportFailure? ==> r == Failure(TransportFailed))
      && (exchange.Received? ==> r == ParseResponse(exchange.response))
    ensures r.Success? ==>
      && LoadSettings(env, parseFloat).Success?
      && var exchange := send(BuildRequest(LoadSettings(env, parseFloat).value, call));
      && exchange.Received?
      && !IsError(exchange.response.status)
      && r.value == ResponsePayload(exchange.response)
  {
    match LoadSettings(env, parseFloat)
    case Failure(e) => Failure(SettingsInvalid(e))
    case Success(settings) =>
      match send(BuildRequest(settings, call))
      case TransportFailure => Failure(TransportFailed)
      case Received(response) => ParseResponse(response)
  }

  /** The body of `score_workflow`: the workflow and payload, and the options
      exactly when they are given. */
  function ScoreBody(workflow: string, payload: Object, options: Option<Object>): (body: Object)
    ensures body.Keys == {"workflow", "payload"} + (if options.Some? then {"options"} else {})
    ensures body["workflow"] == JStr(workflow) && body["payload"] == JObj(payload)
    ensures options.Some? ==> body["options"] == JObj(options.value)
  {
    var body := map["workflow" := JStr(workflow), "payload" := JObj(payload)];
    if options.Some? then body["options" := JObj(options.value)] else body
  }

  /** The query of `get_usage`: `{"month": month}` exactly when a non-empty
      month is given, and no query otherwise. */
  function UsageParams(month: Option<string>): (params: Option<Object>)
    ensures params.Some? <==> month.Some? && month.value != ""
    ensures params.Some? ==> params.value.Keys == {"month"} && params.value["month"] == JStr(month.value)
  {
    if month.Some? && month.value != "" then Some(map["month" := JStr(month.value)]) else None
  }

  function ScoreWorkflow(
    env: Environment, parseFloat: string -> Option<Float>, send: HttpRequest -> Exchange,
    workflow: string, payload: Object, options: Option<Object>): Result<Json, ClientError>
  {
    Request(env, parseFloat, send, Call("POST", "/v1/score", None, Some(ScoreBody(workflow, payload, options))))
  }

  function GetLimits(env: Environment, parseFloat: string -> Option<Float>, send: HttpRequest -> Exchange)
    : Result<Json, ClientError>
  {
    Request(env, parseFloat, send, Call("GET", "/v1/limits", None, None))
  }

  function GetUsage(env: Environment, parseFloat: string -> Option<Float>, send: HttpRequest -> Exchange, month: Option<string>)
    : Result<Json, ClientError>
  {
    Request(env, parseFloat, send, Call("GET", "/v1/usage", UsageParams(month), None))
  }

  function SubmitFeedback(env: Environment, parseFloat: string -> Option<Float>, send: HttpRequest -> Exchange, feedback: Object)
    : Result<Json, ClientError>
  {
    Request(env, parseFloat, send, Call("POST", "/v1/feedback", None, Some(feedback)))
  }
}
