/** One request to the SAI template-execution endpoint (`_make_request`):
    the choice of exactly one credential header, and the classification of
    what came back into a response text, an in-band sentinel, or nothing. */
module Request {
  import opened Wrappers
  import opened Text
  import opened Json
  import opened Messages

  /** The process-wide credentials `SAI_KEY` and `SAI_COOKIE`. The empty
      string stands for a variable that is unset or empty (both are false in
      Python's tests of them). */
  datatype Config = Config(key: string, cookie: string)

  predicate HasKey(cfg: Config) { cfg.key != "" }
  predicate HasCookie(cfg: Config) { cfg.cookie != "" }

  /** The credential attached to one request. */
  datatype Auth = ApiKey(key: string) | Cookie(cookie: string)

  /** The JSON body `{inputs: {system, user}, chatMessages?}`; the
      chatMessages entry is absent when there are no chat messages. */
  datatype Payload = Payload(system: Value, user: Value, chatMessages: Option<seq<UpstreamMessage>>)

  /** An outbound POST as the endpoint sees it. */
  datatype HttpRequest = HttpRequest(headers: map<string, string>, payload: Payload)

  /** What one POST produced. For a response: its status, its body, the
      value of `resp` as a condition at lines 475 and 484 (a property of the
      HTTP library's response object), and the `prompttokens`,
      `completiontokens` and `model` headers, each already parsed (`None`
      when missing or, for the counts, not an integer). */
  datatype Reply =
    | Response(status: int, body: string, truthy: bool,
               promptTokens: Option<int>, completionTokens: Option<int>, model: Option<string>)
    | Timeout
    | ConnectionFailure

  /** The usage figures read from a successful response. */
  datatype UsageHeaders = UsageHeaders(promptTokens: int, completionTokens: int, model: string)

  const PROMPT_TOO_LONG: string := "PROMPT_TOO_LONG"
  const HTTP_500_ERROR: string := "HTTP_500_ERROR"
  const USAGE_LIMIT_MESSAGE: string := "Test template usage limit exceeded"

  const BASE_HEADERS: map<string, string> := map[
    "Content-Type" := "application/json",
    "Accept" := "application/json, text/plain, */*",
    "Accept-Encoding" := "gzip, deflate"
  ]

  /** The credential lines 409-415 choose: the key when asked for and set,
      otherwise the cookie when set, otherwise none. */
  function SelectAuth(cfg: Config, useApiKey: bool): Option<Auth> {
    if useApiKey && HasKey(cfg) then Some(ApiKey(cfg.key))
    else if HasCookie(cfg) then Some(Cookie(cfg.cookie))
    else None
  }

  /** Exactly one of the two credential headers is present. */
  predicate HasExactlyOneAuthHeader(headers: map<string, string>) {
    ("X-Api-Key" in headers) != ("Cookie" in headers)
  }

  /** The headers sent with credential `auth`: the three fixed ones and the
      single header that carries the credential. */
  function HeadersFor(auth: Auth): (h: map<string, string>)
    ensures HasExactlyOneAuthHeader(h)
    ensures auth.ApiKey? ==> "X-Api-Key" in h && h["X-Api-Key"] == auth.key
    ensures auth.Cookie? ==> "Cookie" in h && h["Cookie"] == auth.cookie
    ensures forall name :: name in BASE_HEADERS ==> name in h && h[name] == BASE_HEADERS[name]
    ensures |h.Keys| == |BASE_HEADERS.Keys| + 1
  {
    match auth
    case ApiKey(key) => BASE_HEADERS["X-Api-Key" := key]
    case Cookie(cookie) => BASE_HEADERS["Cookie" := cookie]
  }

  /** The headers dict of lines 402-415, built step by step; `None` when no
      credential is usable and no request is made. */
  method BuildHeaders(cfg: Config, useApiKey: bool) returns (headers: Option<map<string, string>>)
    ensures headers.Some? <==> (useApiKey && HasKey(cfg)) || HasCookie(cfg)
    ensures headers.Some? ==> HasExactlyOneAuthHeader(headers.value)
    ensures headers.Some? ==> ("X-Api-Key" in headers.value <==> useApiKey && HasKey(cfg))
    ensures headers.Some? ==> headers.value == HeadersFor(SelectAuth(cfg, useApiKey).value)
  {
    var h := map[];
    h := h["Content-Type" := "application/json"];
    h := h["Accept" := "application/json, text/plain, */*"];
    h := h["Accept-Encoding" := "gzip, deflate"];
    if useApiKey && HasKey(cfg) {
      h := h["X-Api-Key" := cfg.key];
    } else if HasCookie(cfg) {
      h := h["Cookie" := cfg.cookie];
    } else {
      return None;
    }
    headers := Some(h);
  }

  /** `resp.raise_for_status()` raises for a 4xx or 5xx status. */
  predicate RaisesForStatus(status: int) {
    400 <= status < 600
  }

  /** A 500 body that reports a prompt too long for the model. */
  predicate ReportsTooLong(body: string) {
    Contains(Lower(body), "prompt is too long") || Contains(Lower(body), "openaicompatible")
  }

  /** The value `_make_request` returns for what its POST produced
      (lines 440-531). */
  function Classify(reply: Reply): (r: (Option<string>, Option<UsageHeaders>))
    ensures r.1.Some? <==> reply.Response? && !RaisesForStatus(reply.status)
    ensures r.1.Some? ==> r.0 == Some(reply.body) && r.1.value == UsageHeaders(
      reply.promptTokens.GetOr(0), reply.completionTokens.GetOr(0), reply.model.GetOr("unknown"))
    ensures r.1.None? && r.0 == Some(PROMPT_TOO_LONG) <==>
      reply.Response? && reply.status == 500 && reply.truthy && ReportsTooLong(reply.body)
    ensures r.1.None? && r.0 == Some(HTTP_500_ERROR) <==>
      reply.Response? && reply.status == 500 && reply.truthy && !ReportsTooLong(reply.body)
    ensures r.0.None? <==>
      !reply.Response? || (RaisesForStatus(reply.status) && !(reply.status == 500 && reply.truthy))
  {
    match reply
    case Timeout => (None, None)
    case ConnectionFailure => (None, None)
    case Response(status, body, truthy, promptTokens, completionTokens, model) =>
      if !RaisesForStatus(status) then
        (Some(body), Some(UsageHeaders(promptTokens.GetOr(0), completionTokens.GetOr(0), model.GetOr("unknown"))))
      else if truthy && status == 429 && Contains(body, USAGE_LIMIT_MESSAGE) then
        (None, None)
      else if truthy && status == 500 then
        if ReportsTooLong(body) then (Some(PROMPT_TOO_LONG), None) else (Some(HTTP_500_ERROR), None)
      else
        (None, None)
  }

  /** `_make_request`: builds the headers, sends at most one POST to
      `server`, and classifies the reply. `sent` is the request sent, if any. */
  method MakeRequest(cfg: Config, payload: Payload, useApiKey: bool, server: HttpRequest -> Reply)
    returns (response: Option<string>, responseHeaders: Option<UsageHeaders>, sent: Option<HttpRequest>)
    ensures sent.Some? <==> (useApiKey && HasKey(cfg)) || HasCookie(cfg)
    ensures sent.Some? ==> sent.value == HttpRequest(HeadersFor(SelectAuth(cfg, useApiKey).value), payload)
    ensures sent.Some? ==> HasExactlyOneAuthHeader(sent.value.headers)
    ensures sent.None? ==> response.None? && responseHeaders.None?
    ensures sent.Some? ==> (response, responseHeaders) == Classify(server(sent.value))
  {
    var headers := BuildHeaders(cfg, useApiKey);
    if headers.None? {
      return None, None, None;
    }
    var request := HttpRequest(headers.value, payload);
    sent := Some(request);
    var reply := server(request);
    match reply {
      case Timeout =>
        response, responseHeaders := None, None;
      case ConnectionFailure =>
        response, responseHeaders := None, None;
      case Response(status, body, truthy, promptTokens, completionTokens, model) =>
        if !RaisesForStatus(status) {
          var promptCount := promptTokens.GetOr(0);
          var completionCount := completionTokens.GetOr(0);
          response := Some(body);
          responseHeaders := Some(UsageHeaders(promptCount, completionCount, model.GetOr("unknown")));
        } else if truthy && status == 429 && Contains(body, USAGE_LIMIT_MESSAGE) {
          response, responseHeaders := None, None;
        } else if truthy && status == 500 {
          var text := Lower(body);
          if Contains(text, "prompt is too long") || Contains(text, "openaicompatible") {
            response, responseHeaders := Some(PROMPT_TOO_LONG), None;
          } else {
            response, responseHeaders := Some(HTTP_500_ERROR), None;
          }
        } else {
          response, responseHeaders := None, None;
        }
    }
  }
}
