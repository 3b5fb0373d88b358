/** The chat-completions route of the NVIDIA NIM proxy: one POST handler that
    checks its configuration, validates `messages`, applies defaults, makes one
    non-streaming call to the NVIDIA endpoint and either passes the answer
    through or turns the failure into an error envelope.

    The handler is modelled as a total function of the configured key, the
    parsed request body and the upstream call. The awaited `axios.post` is the
    parameter `call`: the outcome of sending a given request. The final
    `res.status(...).json(...)` write is the returned `Handled` value. */
module Proxy {
  import opened Wrappers
  import opened Json

  const BaseUrl: string := "https://integrate.api.nvidia.com/v1"
  const CompletionsPath: string := "/chat/completions"
  const DefaultModel: string := "deepseek-ai/deepseek-r1"
  const DefaultTemperature: real := 0.6
  const DefaultMaxTokens: real := 2048.0
  const TimeoutMs: nat := 120000

  const ConfigurationMessage: string := "NVIDIA_API_KEY no configurada en variables de entorno"
  const InvalidRequestMessage: string := "Se requiere un array de messages"

  /** The body fields the handler reads; every other field is ignored. */
  const ReadFields: set<string> := {"messages", "model", "temperature", "max_tokens"}

  /** The one request sent upstream: target URL, headers, JSON body and the
      timeout in milliseconds. */
  datatype Outbound = Outbound(url: string, headers: map<string, string>, body: map<string, Value>, timeoutMs: nat)

  /** The `response` of a failed call: the upstream answered with a status
      axios rejects, and the data it sent (possibly `undefined`). */
  datatype ErrorResponse = ErrorResponse(status: int, data: Value)

  /** What the `catch` clause binds: an error with an optional upstream
      `response` and its own `message` text. */
  datatype Thrown = Thrown(response: Option<ErrorResponse>, message: string)

  /** The outcome of the awaited upstream call: an answer axios accepted, with
      its status and parsed data, or a thrown error (non-2xx status, timeout,
      network failure). */
  datatype Upstream = Answered(status: int, data: Value) | Threw(error: Thrown)

  /** What one POST does: the request it sent upstream, if any, and the status
      and body it writes back. */
  datatype Handled = Handled(sent: Option<Outbound>, status: int, body: Value)

  /** `!NVIDIA_API_KEY` is false: the variable is set and not empty. */
  predicate Configured(key: Option<string>) {
    key.Some? && key.value != ""
  }

  /** The `{ error: { message, type } }` envelope of the two early returns. */
  function ErrorEnvelope(message: string, kind: string): Value {
    Obj(map["error" := Obj(map["message" := Str(message), "type" := Str(kind)])])
  }

  /** The field `name` of the `error` object of an envelope, or `undefined`
      when the body is not shaped like one. */
  function ErrorField(body: Value, name: string): Value {
    if body.Obj? && "error" in body.members && body.members["error"].Obj?
       && name in body.members["error"].members
    then body.members["error"].members[name]
    else Undefined
  }

  /** The `type` field of an error envelope. */
  function ErrorType(body: Value): Value {
    ErrorField(body, "type")
  }

  /** The `message` field of an error envelope. */
  function ErrorMessage(body: Value): Value {
    ErrorField(body, "message")
  }

  /** The TypeError the engine raises when the handler destructures a nullish
      `req.body`. Its wording is the JavaScript engine's, not the program's. */
  function DestructureError(body: Value): (e: Thrown)
    requires Nullish(body)
    ensures e.response.None?
  {
    Thrown(None, "Cannot destructure property 'messages' of 'req.body' as it is "
                 + (if body.Undefined? then "undefined" else "null") + ".")
  }

  /** The validation `!messages || !Array.isArray(messages)` negated; the
      truthiness test is redundant, since every array is truthy. */
  predicate ValidMessages(messages: Value)
    ensures ValidMessages(messages) <==> messages.Arr?
  {
    Truthy(messages) && messages.Arr?
  }

  /** The request built for a body that passed validation. */
  function OutboundFor(key: string, body: Value): Outbound
    requires !Nullish(body)
  {
    Outbound(
      BaseUrl + CompletionsPath,
      map["Authorization" := "Bearer " + key, "Content-Type" := "application/json"],
      map[
        "model" := WithDefault(Prop(body, "model"), Str(DefaultModel)),
        "messages" := Prop(body, "messages"),
        "temperature" := WithDefault(Prop(body, "temperature"), Num(DefaultTemperature)),
        "max_tokens" := WithDefault(Prop(body, "max_tokens"), Num(DefaultMaxTokens)),
        "stream" := Bool(false)
      ],
      TimeoutMs)
  }

  /** `error.response?.data?.error?.message`. */
  function UpstreamMessage(e: Thrown): Value {
    match e.response
    case None => Undefined
    case Some(r) => OptProp(OptProp(r.data, "error"), "message")
  }

  /** `error.response?.data`. */
  function UpstreamData(e: Thrown): Value {
    match e.response
    case None => Undefined
    case Some(r) => r.data
  }

  /** The `catch` clause: the upstream status when present and non-zero,
      otherwise 500; the upstream's structured message when truthy, otherwise
      the error's own text; the fixed type tag; and the upstream data as
      `details`. */
  function Caught(sent: Option<Outbound>, e: Thrown): (h: Handled)
    ensures h.sent == sent
    ensures h.status != 0
    ensures e.response.Some? && e.response.value.status != 0 ==> h.status == e.response.value.status
    ensures e.response.None? || e.response.value.status == 0 ==> h.status == 500
    ensures ErrorType(h.body) == Str("nvidia_api_error")
    ensures Truthy(UpstreamMessage(e)) ==> ErrorMessage(h.body) == UpstreamMessage(e)
    ensures !Truthy(UpstreamMessage(e)) ==> ErrorMessage(h.body) == Str(e.message)
    ensures h.body.Obj? && "error" in h.body.members && h.body.members["error"].Obj?
    ensures "details" in h.body.members["error"].members && ErrorField(h.body, "details") == UpstreamData(e)
    // the envelope holds nothing else
    ensures h.body.members.Keys == {"error"} && h.body.members["error"].members.Keys == {"message", "type", "details"}
  {
    var status := match e.response
      case Some(r) => if r.status != 0 then r.status else 500
      case None => 500;
    Handled(sent, status, Obj(map["error" := Obj(map[
      "message" := Or(UpstreamMessage(e), Str(e.message)),
      "type" := Str("nvidia_api_error"),
      "details" := UpstreamData(e)
    ])]))
  }

  /** The POST handler of the chat-completions route, from the configuration
      check to the response write. */
  function Handle(key: Option<string>, body: Value, call: Outbound -> Upstream): (h: Handled)
    // the configuration check comes first and decides alone
    ensures !Configured(key) ==> h == Handled(None, 500, ErrorEnvelope(ConfigurationMessage, "configuration_error"))
    // a nullish body makes the destructuring throw into the handler's own catch
    ensures Configured(key) && Nullish(body) ==> h == Caught(None, DestructureError(body))
    // a configured key and a non-array `messages` give 400 without any upstream request
    ensures Configured(key) && !Nullish(body) && !Prop(body, "messages").Arr?
            ==> h == Handled(None, 400, ErrorEnvelope(InvalidRequestMessage, "invalid_request_error"))
    // exactly the valid requests go upstream, once
    ensures h.sent.Some? <==> Configured(key) && !Nullish(body) && Prop(body, "messages").Arr?
    // the request sent: fixed target, Bearer credential, the five fields, stream forced off
    ensures h.sent.Some? ==>
              && h.sent.value.url == "https://integrate.api.nvidia.com/v1/chat/completions"
              && h.sent.value.headers.Keys == {"Authorization", "Content-Type"}
              && h.sent.value.headers["Authorization"] == "Bearer " + key.value
              && h.sent.value.headers["Content-Type"] == "application/json"
              && h.sent.value.timeoutMs == 120000
              && h.sent.value.body.Keys == ReadFields + {"stream"}
              && h.sent.value.body["stream"] == Bool(false)
              && h.sent.value.body["messages"] == Prop(body, "messages")
    // defaults replace exactly the undefined fields; any supplied value, null included, is forwarded
    ensures h.sent.Some? ==>
              && (Prop(body, "model").Undefined? ==> h.sent.value.body["model"] == Str(DefaultModel))
              && (!Prop(body, "model").Undefined? ==> h.sent.value.body["model"] == Prop(body, "model"))
              && (Prop(body, "temperature").Undefined? ==> h.sent.value.body["temperature"] == Num(DefaultTemperature))
              && (!Prop(body, "temperature").Undefined? ==> h.sent.value.body["temperature"] == Prop(body, "temperature"))
              && (Prop(body, "max_tokens").Undefined? ==> h.sent.value.body["max_tokens"] == Num(DefaultMaxTokens))
              && (!Prop(body, "max_tokens").Undefined? ==> h.sent.value.body["max_tokens"] == Prop(body, "max_tokens"))
    // an accepted answer is passed through with the default status 200, whatever status upstream used
    ensures h.sent.Some? && call(h.sent.value).Answered? ==> h.status == 200 && h.body == call(h.sent.value).data
    // a failed call becomes the catch clause's envelope
    ensures h.sent.Some? && call(h.sent.value).Threw? ==> h == Caught(h.sent, call(h.sent.value).error)
    // no branch writes the falsy status 0
    ensures h.status != 0
  {
    if !Configured(key) then
      Handled(None, 500, ErrorEnvelope(ConfigurationMessage, "configuration_error"))
    else if Nullish(body) then
      Caught(None, DestructureError(body))
    else if !ValidMessages(Prop(body, "messages")) then
      Handled(None, 400, ErrorEnvelope(InvalidRequestMessage, "invalid_request_error"))
    else
      var request := OutboundFor(key.value, body);
      match call(request)
      case Answered(_, data) => Handled(Some(request), 200, data)
      case Threw(e) => Caught(Some(request), e)
  }

  /** Without a key every POST gets the same 500 configuration error, whatever
      its body and whatever the upstream would do. */
  lemma NoKeyIgnoresRequest(key: Option<string>, body1: Value, call1: Outbound -> Upstream,
                            body2: Value, call2: Outbound -> Upstream)
    requires !Configured(key)
    ensures Handle(key, body1, call1) == Handle(key, body2, call2)
    ensures Handle(key, body1, call1).sent.None?
    ensures Handle(key, body1, call1).status == 500
    ensures ErrorType(Handle(key, body1, call1).body) == Str("configuration_error")
  {
  }

  /** Fields other than `messages`, `model`, `temperature` and `max_tokens`
      change nothing: neither the request sent nor the response. */
  lemma UnreadFieldIgnored(key: Option<string>, m: map<string, Value>, name: string, v: Value,
                           call: Outbound -> Upstream)
    requires name !in ReadFields
    ensures Handle(key, Obj(m[name := v]), call) == Handle(key, Obj(m), call)
    ensures Handle(key, Obj(m - {name}), call) == Handle(key, Obj(m), call)
  {
  }

  /** The caller's `stream` flag, set to anything or left out, has no effect on
      the request sent or on the kind of response. */
  lemma StreamFlagIgnored(key: Option<string>, m: map<string, Value>, flag: Value, call: Outbound -> Upstream)
    ensures Handle(key, Obj(m["stream" := flag]), call) == Handle(key, Obj(m - {"stream"}), call)
    ensures Handle(key, Obj(m["stream" := flag]), call).sent.Some? ==>
              Handle(key, Obj(m["stream" := flag]), call).sent.value.body["stream"] == Bool(false)
  {
  }

  /** Upstream failure with status S and structured message "X": the client
      gets status S and message "X". */
  lemma UpstreamErrorMirrored(key: Option<string>, body: Value, call: Outbound -> Upstream,
                              status: int, text: string, data: map<string, Value>, detail: map<string, Value>)
    requires Configured(key) && !Nullish(body) && Prop(body, "messages").Arr?
    requires status != 0 && text != ""
    requires "error" in data && data["error"] == Obj(detail) && "message" in detail && detail["message"] == Str(text)
    requires call(OutboundFor(key.value, body)).Threw?
    requires call(OutboundFor(key.value, body)).error.response == Some(ErrorResponse(status, Obj(data)))
    ensures Handle(key, body, call).status == status
    ensures ErrorMessage(Handle(key, body, call).body) == Str(text)
    ensures ErrorType(Handle(key, body, call).body) == Str("nvidia_api_error")
  {
  }

  /** On the wire, an accepted upstream answer reaches the client exactly as
      upstream sent it. */
  lemma PassThroughOnWire(key: Option<string>, body: Value, call: Outbound -> Upstream)
    requires Configured(key) && !Nullish(body) && Prop(body, "messages").Arr?
    requires call(OutboundFor(key.value, body)).Answered?
    requires IsJson(call(OutboundFor(key.value, body)).data)
    ensures Serialized(Handle(key, body, call).body) == call(OutboundFor(key.value, body)).data
    ensures Handle(key, body, call).status == 200
  {
    SerializedOfJson(call(OutboundFor(key.value, body)).data);
  }

  /** On the wire, an error envelope is JSON; it carries `details` exactly when
      the failed call brought data back, and then that data unchanged. */
  lemma ErrorDetailsOnWire(sent: Option<Outbound>, e: Thrown)
    requires IsJson(UpstreamData(e)) || UpstreamData(e).Undefined?
    ensures IsJson(Serialized(Caught(sent, e).body))
    ensures Serialized(Caught(sent, e).body).members["error"].Obj?
    ensures "details" in Serialized(Caught(sent, e).body).members["error"].members <==> e.response.Some? && !e.response.value.data.Undefined?
    ensures e.response.Some? && !e.response.value.data.Undefined? ==>
              Serialized(Caught(sent, e).body).members["error"].members["details"] == e.response.value.data
  {
    var body := Caught(sent, e).body;
    SerializedIsJson(body);
    var inner := body.members["error"];
    SerializedMember(body.members, "error");
    SerializedMember(inner.members, "details");
    if !UpstreamData(e).Undefined? {
      SerializedOfJson(UpstreamData(e));
    }
  }
}
