/** `_call_sai`: the attempt policy over the two credentials, and the mapping
    of the last attempt's outcome to (text, finish reason, usage). */
module Call {
  import opened Wrappers
  import opened Text
  import opened Json
  import opened Messages
  import opened Request

  datatype FinishReason = Stop | Length | Error

  /** The usage figures returned with a completion. */
  datatype Usage = Usage(promptTokens: int, completionTokens: int, totalTokens: int, model: string)

  const DEFAULT_USAGE: Usage := Usage(0, 0, 0, "unknown")

  /** The diagnostic returned when the history is too long for the model;
      it names the number of chat messages sent. */
  function TooLongText(historyLength: nat): string {
    "⚠️ **Contexto demasiado largo**\n\n"
    + "El historial de conversación excede el límite del modelo (" + DecimalString(historyLength) + " mensajes).\n"
    + "**Acciones sugeridas:**\n"
    + "1. Reduzca el número de mensajes en el historial\n"
    + "2. Inicie una nueva conversación\n"
    + "3. Resuma el contexto anterior en un mensaje más corto"
  }

  const SERVER_ERROR_TEXT: string :=
    "❌ **Error interno del servidor SAI (HTTP 500)**\n\n"
    + "El servidor SAI encontró un error inesperado al procesar la solicitud.\n"
    + "**Posibles causas:**\n"
    + "1. Error interno del modelo o servicio\n"
    + "2. Configuración incorrecta del template\n"
    + "3. Problema temporal del servidor\n\n"
    + "Por favor, intente nuevamente. Si el problema persiste, contacte al administrador."

  const NO_RESPONSE_TEXT: string :=
    "❌ **Error de conexión con SAI**\n\n"
    + "No se pudo obtener respuesta del servidor SAI.\n"
    + "**Posibles causas:**\n"
    + "1. Problemas de red o conectividad\n"
    + "2. Credenciales de autenticación inválidas\n"
    + "3. Servicio SAI temporalmente no disponible\n\n"
    + "Por favor, intente nuevamente en unos momentos."

  /** The payload of lines 270-272. */
  function BuildPayload(system: Value, user: Value, chatMessages: seq<UpstreamMessage>): (p: Payload)
    ensures p.chatMessages.None? <==> chatMessages == []
    ensures p.chatMessages.Some? ==> p.chatMessages.value == chatMessages
    ensures p.system == system && p.user == user
  {
    Payload(system, user, if chatMessages == [] then None else Some(chatMessages))
  }

  /** The requests `_call_sai` sends, in order (lines 290-310): the key first
      when it is set, then the cookie only if the key attempt returned no
      response; the cookie alone when no key is set. */
  function Attempts(cfg: Config, payload: Payload, server: HttpRequest -> Reply): (r: seq<HttpRequest>)
    ensures |r| <= 2
    ensures forall i :: 0 <= i < |r| ==> r[i].payload == payload && HasExactlyOneAuthHeader(r[i].headers)
    ensures HasKey(cfg) ==> |r| >= 1 && r[0].headers == HeadersFor(ApiKey(cfg.key))
    ensures |r| == 2 <==> HasKey(cfg) && HasCookie(cfg) && Classify(server(r[0])).0.None?
    ensures |r| == 2 ==> r[1].headers == HeadersFor(Cookie(cfg.cookie))
    ensures !HasKey(cfg) ==> |r| <= 1 && (|r| == 1 <==> HasCookie(cfg))
    ensures !HasKey(cfg) && |r| == 1 ==> r[0].headers == HeadersFor(Cookie(cfg.cookie))
    ensures r == [] <==> !HasKey(cfg) && !HasCookie(cfg)
  {
    var keyRequest := HttpRequest(HeadersFor(ApiKey(cfg.key)), payload);
    var cookieRequest := HttpRequest(HeadersFor(Cookie(cfg.cookie)), payload);
    if HasKey(cfg) then
      if Classify(server(keyRequest)).0.None? && HasCookie(cfg) then [keyRequest, cookieRequest]
      else [keyRequest]
    else if HasCookie(cfg) then [cookieRequest]
    else []
  }

  /** The `(response, response_headers)` pair `_call_sai` ends up with: that
      of the last request sent, or nothing when no request could be sent. */
  function FinalResponse(cfg: Config, payload: Payload, server: HttpRequest -> Reply): (Option<string>, Option<UsageHeaders>) {
    var sent := Attempts(cfg, payload, server);
    if sent == [] then (None, None) else Classify(server(sent[|sent| - 1]))
  }

  /** Lines 312-394: the sentinels and the absence of a response become
      diagnostics with zero usage; any other text is returned as it is. */
  function Translate(response: Option<string>, headers: Option<UsageHeaders>, historyLength: nat)
    : (r: (string, FinishReason, Usage))
    ensures r.2.totalTokens == r.2.promptTokens + r.2.completionTokens
    ensures r.1 == Stop <==> response.Some? && response.value != PROMPT_TOO_LONG && response.value != HTTP_500_ERROR
    ensures r.1 == Stop ==> r.0 == response.value
    ensures r.1 == Length <==> response == Some(PROMPT_TOO_LONG)
    ensures r.1 == Length ==> r.0 == TooLongText(historyLength)
    ensures response == Some(HTTP_500_ERROR) ==> r.0 == SERVER_ERROR_TEXT
    ensures response.None? ==> r.0 == NO_RESPONSE_TEXT
    ensures r.1 != Stop ==> r.2 == DEFAULT_USAGE
    ensures r.1 == Stop && headers.Some? ==>
      && r.2.promptTokens == headers.value.promptTokens
      && r.2.completionTokens == headers.value.completionTokens
      && r.2.model == headers.value.model
    ensures r.1 == Stop && headers.None? ==> r.2 == DEFAULT_USAGE
  {
    match response
    case Some(text) =>
      if text == PROMPT_TOO_LONG then (TooLongText(historyLength), Length, DEFAULT_USAGE)
      else if text == HTTP_500_ERROR then (SERVER_ERROR_TEXT, Error, DEFAULT_USAGE)
      else
        var usage := match headers
          case Some(h) => Usage(h.promptTokens, h.completionTokens, h.promptTokens + h.completionTokens, h.model)
          case None => DEFAULT_USAGE;
        (text, Stop, usage)
    case None => (NO_RESPONSE_TEXT, Error, DEFAULT_USAGE)
  }

  /** Lines 287-310 of `_call_sai`: the key attempt, the cookie retry that
      reassigns `response` and `response_headers`, or the cookie alone.
      `sent` lists the requests sent. */
  method SendWithFallback(cfg: Config, data: Payload, server: HttpRequest -> Reply)
    returns (response: Option<string>, responseHeaders: Option<UsageHeaders>, sent: seq<HttpRequest>)
    ensures sent == Attempts(cfg, data, server)
    ensures (response, responseHeaders) == FinalResponse(cfg, data, server)
  {
    var request: Option<HttpRequest>;
    sent := [];
    if HasKey(cfg) {
      response, responseHeaders, request := MakeRequest(cfg, data, true, server);
      sent := sent + [request.value];
      if response.None? && HasCookie(cfg) {
        response, responseHeaders, request := MakeRequest(cfg, data, false, server);
        sent := sent + [request.value];
      }
    } else {
      response, responseHeaders, request := MakeRequest(cfg, data, false, server);
      if request.Some? {
        sent := sent + [request.value];
      }
    }
  }

  /** Lines 312-394 of `_call_sai`: the usage record starts zero-filled and
      is filled in field by field from the headers of a real response. */
  method MapOutcome(response: Option<string>, responseHeaders: Option<UsageHeaders>, historyLength: nat)
    returns (text: string, finishReason: FinishReason, usage: Usage)
    ensures (text, finishReason, usage) == Translate(response, responseHeaders, historyLength)
  {
    usage := DEFAULT_USAGE;
    if response == Some(PROMPT_TOO_LONG) {
      text, finishReason := TooLongText(historyLength), Length;
    } else if response == Some(HTTP_500_ERROR) {
      text, finishReason := SERVER_ERROR_TEXT, Error;
    } else if response.None? {
      text, finishReason := NO_RESPONSE_TEXT, Error;
    } else {
      if responseHeaders.Some? {
        usage := usage.(promptTokens := responseHeaders.value.promptTokens);
        usage := usage.(completionTokens := responseHeaders.value.completionTokens);
        usage := usage.(totalTokens := usage.promptTokens + usage.completionTokens);
        usage := usage.(model := responseHeaders.value.model);
      }
      text, finishReason := response.value, Stop;
    }
  }

  /** `_call_sai`: builds the payload, makes the attempts, then maps the
      final outcome. `sent` lists the requests sent. */
  method CallSai(cfg: Config, system: Value, user: Value, chatMessages: seq<UpstreamMessage>, server: HttpRequest -> Reply)
    returns (text: string, finishReason: FinishReason, usage: Usage, sent: seq<HttpRequest>)
    ensures sent == Attempts(cfg, BuildPayload(system, user, chatMessages), server)
    ensures (text, finishReason, usage)
         == Translate(FinalResponse(cfg, BuildPayload(system, user, chatMessages), server).0,
                      FinalResponse(cfg, BuildPayload(system, user, chatMessages), server).1,
                      |chatMessages|)
  {
    var data := Payload(system, user, None);
    if chatMessages != [] {
      data := data.(chatMessages := Some(chatMessages));
    }
    assert data == BuildPayload(system, user, chatMessages);
    var response, responseHeaders;
    response, responseHeaders, sent := SendWithFallback(cfg, data, server);
    text, finishReason, usage := MapOutcome(response, responseHeaders, |chatMessages|);
  }

  /** Any key attempt that yields no response is retried with the cookie when
      one is set: a 401 as much as the 429 usage-limit case (line 296). */
  lemma UnauthorizedKeyAttemptIsRetried(cfg: Config, payload: Payload, server: HttpRequest -> Reply)
    requires HasKey(cfg) && HasCookie(cfg)
    requires server(HttpRequest(HeadersFor(ApiKey(cfg.key)), payload)).Response?
    requires server(HttpRequest(HeadersFor(ApiKey(cfg.key)), payload)).status == 401
    ensures |Attempts(cfg, payload, server)| == 2
    ensures Attempts(cfg, payload, server)[1] == HttpRequest(HeadersFor(Cookie(cfg.cookie)), payload)
    ensures FinalResponse(cfg, payload, server) == Classify(server(HttpRequest(HeadersFor(Cookie(cfg.cookie)), payload)))
  {
  }

  /** The usage-limit 429 on the key followed by a 200 on the cookie: two
      requests, and the cookie attempt's body is returned with "stop". */
  lemma UsageLimitFallbackSucceeds(cfg: Config, payload: Payload, server: HttpRequest -> Reply, body: string)
    requires HasKey(cfg) && HasCookie(cfg)
    requires server(HttpRequest(HeadersFor(ApiKey(cfg.key)), payload))
          == Response(429, USAGE_LIMIT_MESSAGE, true, None, None, None)
    requires server(HttpRequest(HeadersFor(Cookie(cfg.cookie)), payload))
          == Response(200, body, true, Some(3), Some(2), None)
    requires body != PROMPT_TOO_LONG && body != HTTP_500_ERROR
    ensures |Attempts(cfg, payload, server)| == 2
    ensures var (response, headers) := FinalResponse(cfg, payload, server);
      Translate(response, headers, 0) == (body, Stop, Usage(3, 2, 5, "unknown"))
  {
  }

  /** A 500 whose body says, in any letter case, that the prompt is too long
      ends with "length" and the too-long diagnostic, and no cookie retry
      follows it. */
  lemma PromptTooLongEndsWithLength(cfg: Config, payload: Payload, server: HttpRequest -> Reply,
                                                       body: string, historyLength: nat)
    requires HasKey(cfg)
    requires server(HttpRequest(HeadersFor(ApiKey(cfg.key)), payload)) == Response(500, body, true, None, None, None)
    requires Contains(Lower(body), "prompt is too long")
    ensures |Attempts(cfg, payload, server)| == 1
    ensures var (response, headers) := FinalResponse(cfg, payload, server);
      Translate(response, headers, historyLength) == (TooLongText(historyLength), Length, DEFAULT_USAGE)
  {
  }

  /** The sentinels are plain strings: a successful response whose body is
      exactly "PROMPT_TOO_LONG" is reported as a too-long prompt. */
  lemma SentinelBodyReadsAsTooLong(cfg: Config, payload: Payload, server: HttpRequest -> Reply, historyLength: nat)
    requires HasKey(cfg)
    requires server(HttpRequest(HeadersFor(ApiKey(cfg.key)), payload))
          == Response(200, PROMPT_TOO_LONG, true, Some(7), Some(9), Some("m"))
    ensures var (response, headers) := FinalResponse(cfg, payload, server);
      headers.Some? && Translate(response, headers, historyLength).1 == Length
  {
  }
}
