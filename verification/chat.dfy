/**
 * The `/api/chat` handler: check the configuration, validate the message,
 * build the request to the conversational service and map its outcome to
 * the response. The network call itself is replaced by its outcome.
 */
module ChatRelay {
  import opened Wrappers
  import opened Json
  import Http

  /** The relay's configuration: the service URL (`""` when unset) and the optional API key. */
  datatype Config = Config(url: string, apiKey: Option<string>)

  /**
   * The outcome of the POST to the service: a 2xx reply with its body, an
   * error response whose status and body may be missing, or a transport
   * failure that has neither.
   */
  datatype UpstreamOutcome =
    | Replied(reply: Value)
    | HttpError(status: Option<int>, errorBody: Option<Value>)
    | TransportError

  /** The POST the relay sends: target URL, headers and JSON body. */
  datatype Outbound = Outbound(url: string, headers: map<string, string>, body: Value)

  /** What one chat request leads to: the response, and the outbound request if one is made. */
  datatype Exchange = Exchange(response: Http.Response, request: Option<Outbound>)

  const NotConfigured := "FLOWISE_API_URL is not configured."
  const MessageRequired := "Message is required."
  const ServiceUnreachable := "Unable to reach chatbot service."

  /** `req.body || {}`: a missing or falsy body reads as an empty object, so every property of it is `undefined`. */
  function RequestObject(body: Option<Value>): (r: Value)
    ensures forall k :: Prop(r, k) == if Present(body) then Prop(body.value, k) else None
  {
    if Present(body) then body.value else Obj(map[])
  }

  /** The request headers: always the JSON content type, and a bearer token when a non-empty key is set. */
  function Headers(apiKey: Option<string>): (h: map<string, string>)
    ensures "Content-Type" in h && h["Content-Type"] == "application/json"
    ensures "Authorization" in h <==> apiKey.Some? && apiKey.value != ""
    ensures "Authorization" in h ==> h["Authorization"] == "Bearer " + apiKey.value
    ensures h.Keys <= {"Content-Type", "Authorization"}
  {
    var base := map["Content-Type" := "application/json"];
    if apiKey.Some? && apiKey.value != "" then base["Authorization" := "Bearer " + apiKey.value]
    else base
  }

  /**
   * `{question: message, overrideConfig: {sessionId: sessionId || undefined}}`
   * as it is serialised: a property whose value is `undefined` is not sent.
   */
  function OutboundBody(message: Value, sessionId: Option<Value>): (r: Value)
    ensures r.Obj? && r.fields.Keys == {"question", "overrideConfig"}
    ensures r.fields["question"] == message
    ensures var config := r.fields["overrideConfig"];
      && config.Obj?
      && config.fields.Keys == (if Present(sessionId) then {"sessionId"} else {})
      && (Present(sessionId) ==> config.fields["sessionId"] == sessionId.value)
  {
    Obj(map[
      "question" := message,
      "overrideConfig" := Obj(if Present(sessionId) then map["sessionId" := sessionId.value] else map[])])
  }

  /**
   * The two guards, in order, then the outbound request; `Err` carries the
   * early response. The URL check comes first, so an unset URL is reported
   * whatever the body holds.
   */
  function Prepare(cfg: Config, body: Option<Value>): (r: Result<Outbound, Http.Response>)
    ensures r.Err? <==> cfg.url == "" || !Present(Prop(RequestObject(body), "message"))
    ensures cfg.url == "" ==> r == Err(Http.ErrorResponse(500, NotConfigured))
    ensures cfg.url != "" && r.Err? ==> r.error == Http.ErrorResponse(400, MessageRequired)
    ensures r.Ok? ==>
      && r.value.url == cfg.url
      && r.value.headers == Headers(cfg.apiKey)
      && r.value.body == OutboundBody(Prop(RequestObject(body), "message").value,
                                      Prop(RequestObject(body), "sessionId"))
  {
    if cfg.url == "" then Err(Http.ErrorResponse(500, NotConfigured))
    else
      var fields := RequestObject(body);
      var message := Prop(fields, "message");
      if !Present(message) then Err(Http.ErrorResponse(400, MessageRequired))
      else Ok(Outbound(cfg.url, Headers(cfg.apiKey), OutboundBody(message.value, Prop(fields, "sessionId"))))
  }

  /** The response for an outcome of the POST. */
  function RelayOutcome(outcome: UpstreamOutcome): (r: Http.Response)
    ensures r.status != 0
    ensures outcome.Replied? ==> r == Http.Response(200, Http.JsonBody(outcome.reply))
    ensures outcome.HttpError? ==>
      r.status == (if outcome.status.Some? && outcome.status.value != 0 then outcome.status.value else 500)
    ensures outcome.HttpError? ==>
      r.body == Http.JsonBody(if Present(outcome.errorBody) then outcome.errorBody.value else ErrorObject(ServiceUnreachable))
    ensures outcome.TransportError? ==> r == Http.ErrorResponse(500, ServiceUnreachable)
  {
    match outcome
    case Replied(data) => Http.Response(200, Http.JsonBody(data))
    case HttpError(status, data) =>
      var code := if status.Some? && status.value != 0 then status.value else 500;
      var payload := if Present(data) then data.value else ErrorObject(ServiceUnreachable);
      Http.Response(code, Http.JsonBody(payload))
    case TransportError => Http.ErrorResponse(500, ServiceUnreachable)
  }

  /** The whole handler: an outbound request is made exactly when both guards pass. */
  function HandleChat(cfg: Config, body: Option<Value>, outcome: UpstreamOutcome): (x: Exchange)
    ensures x.request.Some? <==>
      cfg.url != "" && Present(Prop(RequestObject(body), "message"))
    ensures x.request.Some? ==> x.response == RelayOutcome(outcome) && x.request.value.url == cfg.url
    ensures x.request.None? ==> x.response.status == 500 || x.response.status == 400
  {
    match Prepare(cfg, body)
    case Err(early) => Exchange(early, None)
    case Ok(request) => Exchange(RelayOutcome(outcome), Some(request))
  }

  // ---------------------------------------------------------------------
  // Properties of the handler

  /** An unset URL is reported before the message is looked at, and nothing is sent. */
  lemma NotConfiguredFirst(cfg: Config, body: Option<Value>, outcome: UpstreamOutcome)
    requires cfg.url == ""
    ensures HandleChat(cfg, body, outcome) == Exchange(Http.ErrorResponse(500, NotConfigured), None)
  {
  }

  /** A missing body, or a missing or falsy message, is a 400 and nothing is sent. */
  lemma MessageIsRequired(cfg: Config, body: Option<Value>, outcome: UpstreamOutcome)
    requires cfg.url != ""
    requires !Present(Prop(RequestObject(body), "message"))
    ensures HandleChat(cfg, body, outcome) == Exchange(Http.ErrorResponse(400, MessageRequired), None)
  {
  }

  /**
   * When both guards pass, the request goes to the configured URL with the
   * message as `question`, the session id only when it is truthy, and the
   * headers built from the key; the response is the relayed outcome.
   */
  lemma ForwardedRequest(cfg: Config, body: Option<Value>, outcome: UpstreamOutcome)
    requires cfg.url != ""
    requires Present(Prop(RequestObject(body), "message"))
    ensures var x, fields := HandleChat(cfg, body, outcome), RequestObject(body);
      && x.request.Some?
      && x.request.value.url == cfg.url
      && x.request.value.headers == Headers(cfg.apiKey)
      && x.request.value.body.Obj?
      && x.request.value.body.fields.Keys == {"question", "overrideConfig"}
      && Prop(x.request.value.body, "question") == Prop(fields, "message")
      && Prop(x.request.value.body, "overrideConfig").Some?
      && Prop(x.request.value.body, "overrideConfig").value.Obj?
      && Prop(x.request.value.body, "overrideConfig").value.fields.Keys
         == (if Present(Prop(fields, "sessionId")) then {"sessionId"} else {})
      && Prop(Prop(x.request.value.body, "overrideConfig").value, "sessionId")
         == (if Present(Prop(fields, "sessionId")) then Prop(fields, "sessionId") else None)
      && x.response == RelayOutcome(outcome)
  {
  }

  /** An error response with a status and a truthy body is relayed unchanged. */
  lemma ErrorRelayedVerbatim(status: int, data: Value)
    requires status != 0 && Truthy(data)
    ensures RelayOutcome(HttpError(Some(status), Some(data))) == Http.Response(status, Http.JsonBody(data))
  {
  }

  // ---------------------------------------------------------------------
  // Concrete cases

  /** The message is not trimmed: a message of one space is forwarded. */
  lemma WhitespaceMessageForwarded(cfg: Config, outcome: UpstreamOutcome)
    requires cfg.url != ""
    ensures HandleChat(cfg, Some(Obj(map["message" := Str(" ")])), outcome).request.Some?
  {
  }

  /** A message of `0` or `false` is falsy, so it is rejected like a missing one. */
  lemma FalsyMessageRejected(cfg: Config, outcome: UpstreamOutcome)
    requires cfg.url != ""
    ensures HandleChat(cfg, Some(Obj(map["message" := Num(0)])), outcome).response
         == Http.ErrorResponse(400, MessageRequired)
    ensures HandleChat(cfg, Some(Obj(map["message" := Bool(false)])), outcome).response
         == Http.ErrorResponse(400, MessageRequired)
  {
  }

  /** `{}` as the body gives 400 with the fixed message. */
  lemma EmptyObjectRejected(cfg: Config, outcome: UpstreamOutcome)
    requires cfg.url != ""
    ensures HandleChat(cfg, Some(Obj(map[])), outcome).response == Http.ErrorResponse(400, MessageRequired)
  {
  }

  /** An echoing service sees `{question: "hi", overrideConfig: {sessionId: "s1"}}` and its reply comes back with 200. */
  lemma EchoRoundTrip(cfg: Config)
    requires cfg.url != ""
    ensures var x := HandleChat(
              cfg,
              Some(Obj(map["message" := Str("hi"), "sessionId" := Str("s1")])),
              Replied(Obj(map["text" := Str("echo: hi")])));
      && x.request.Some?
      && x.request.value.body
         == Obj(map["question" := Str("hi"), "overrideConfig" := Obj(map["sessionId" := Str("s1")])])
      && x.response == Http.Response(200, Http.JsonBody(Obj(map["text" := Str("echo: hi")])))
  {
  }

  /** An empty session id is not sent: `overrideConfig` is empty. */
  lemma EmptySessionOmitted(cfg: Config, outcome: UpstreamOutcome)
    requires cfg.url != ""
    ensures var x := HandleChat(cfg, Some(Obj(map["message" := Str("hi"), "sessionId" := Str("")])), outcome);
      x.request.Some? && Prop(x.request.value.body, "overrideConfig") == Some(Obj(map[]))
  {
  }

  /** A 429 with body `{error: "rate limited"}` is relayed as the same 429 and body. */
  lemma RateLimitRelayed(cfg: Config)
    requires cfg.url != ""
    ensures HandleChat(
              cfg,
              Some(Obj(map["message" := Str("hi")])),
              HttpError(Some(429), Some(ErrorObject("rate limited")))).response
         == Http.Response(429, Http.JsonBody(ErrorObject("rate limited")))
  {
  }

  /** An error response without a status or with status 0, and without a body, becomes 500 with the generic message. */
  lemma BareErrorIsGeneric(status: Option<int>, data: Option<Value>)
    requires status.None? || status == Some(0)
    requires !Present(data)
    ensures RelayOutcome(HttpError(status, data)) == Http.ErrorResponse(500, ServiceUnreachable)
  {
  }
}
