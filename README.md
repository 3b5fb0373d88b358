# NVIDIA NIM proxy: the chat-completions handler, modelled in Dafny

The proxy is a small Express server. It accepts OpenAI-style chat-completion
POSTs and forwards each one to NVIDIA's hosted inference API at
`https://integrate.api.nvidia.com/v1/chat/completions`. This project models its
one piece of logic: the POST handler in `index.js`. The model is a single pure
function:

`Proxy.Handle(key, body, call) -> Handled(sent, status, body)`

- `key` is the `NVIDIA_API_KEY` environment variable, which may be unset.
- `body` is the parsed JSON request body, a JavaScript value.
- `call` is the awaited `axios.post`. It gives the outcome of sending a given
  request: an accepted answer with its data, or a thrown error with an optional
  upstream `response` (status and data) and the error's own message.
- `sent` is the one request the handler sent upstream, if it sent one.
  `status` and `body` are what the final `res.status(...).json(...)` writes.

The handler works in this order:

1. The configuration check. A missing or empty key gives 500 with
   `configuration_error`.
2. Destructuring the body, with defaults for `model`, `temperature` and
   `max_tokens`.
3. Validating `messages`. Anything other than an array gives 400 with
   `invalid_request_error`.
4. One outbound request with `stream: false` and a Bearer credential
   (section 2.1 of RFC 6750).
5. Success passes the upstream data through with status 200. Failure gives an
   envelope `{error: {message, type: "nvidia_api_error", details}}`.

JavaScript semantics are written out in module `Json`:

- truthiness (`undefined`, `null`, `false`, `0` and `""` are falsy);
- property reads and optional chaining;
- the `||` fallback;
- destructuring defaults, which replace only `undefined`;
- what `JSON.stringify` (inside `res.json`) keeps of a value. Members whose
  value is `undefined` are dropped, so `details` is absent on the wire when no
  upstream data came back.

Modules: `Wrappers` (an `Option` type), `Json` (JavaScript values), `Proxy`
(the handler).

Notes on the handler:

- Upstream data is sent back as is; nothing is added to or taken from it.
- The caller's `stream` field is never read.
- Defaults apply only to `undefined` fields. A `null` model, temperature or
  token limit is forwarded as `null`.
- The error type for upstream failures is always `nvidia_api_error`.
- The elements of `messages` are not checked. Any array passes.

## Model

| member | source | states |
|---|---|---|
| `Proxy.Handle` | index.js:24-75 | Without a key, the handler returns 500 `configuration_error` and sends nothing, whatever the body. With a key: a nullish body throws into the handler's own catch; a `messages` that is not an array gives 400 `invalid_request_error` and sends nothing. A request goes upstream exactly when the key is set and `messages` is an array. That request targets `https://integrate.api.nvidia.com/v1/chat/completions` with exactly the headers `Authorization: Bearer <key>` and `Content-Type: application/json`, and a 120000 ms timeout. Its body has exactly `model`, `messages`, `temperature`, `max_tokens` and `stream`. `stream` is `false`, `messages` is unchanged, and each default is applied exactly when the field is `undefined`. A supplied value, `null` included, is forwarded. An accepted answer is passed through with status 200, whatever status upstream used. A failure becomes the catch envelope. The status is never 0. |
| `Proxy.Caught` | index.js:65-74 | The status is the upstream status when a response came back with a non-zero status, and 500 otherwise. The message is the upstream `error.message` when it is truthy, and the thrown error's own text otherwise. The type is always `nvidia_api_error`. The `details` member is always present and holds the upstream data, which may be `undefined`. The envelope holds only `error`, and `error` holds exactly `message`, `type` and `details`. |
| `Proxy.ValidMessages` | index.js:37 | The test `!messages \|\| !Array.isArray(messages)` passes exactly the arrays. Its truthiness half is redundant. |
| `Proxy.DestructureError` | index.js:35 | Destructuring a nullish body throws an error that carries no upstream response. The catch clause therefore answers 500. |
| `Proxy.NoKeyIgnoresRequest` | index.js:26-33 | Without a key, any two requests get the same answer: 500, type `configuration_error`, no upstream request. This holds whatever the bodies are and whatever upstream would do. |
| `Proxy.UnreadFieldIgnored` | index.js:35-54 | Setting or removing any field other than `messages`, `model`, `temperature` and `max_tokens` changes neither the request sent nor the response. |
| `Proxy.StreamFlagIgnored` | index.js:35-54 | The caller's `stream` field, set to anything or left out, does not change the outcome, and the request sent always has `stream: false`. |
| `Proxy.UpstreamErrorMirrored` | index.js:67-69 | Suppose upstream fails with non-zero status S and structured error message "X". Then the client gets status S, message "X" and type `nvidia_api_error`. |
| `Proxy.PassThroughOnWire` | index.js:64 | When upstream answers with JSON data, the client receives exactly that data, with status 200. |
| `Proxy.ErrorDetailsOnWire` | index.js:67-73 | The failure envelope reaches the client as JSON. It has `details` exactly when the failed call brought data back, and then `details` is that data unchanged. |
| `Json.OptProp` | index.js:69 | Optional chaining `v?.name` gives `undefined` on a nullish value, on a non-object, and on an object that lacks the member. On an object that has the member, it gives the member's value. |
| `Json.DefaultVersusOr` | index.js:35 | A destructuring default and the `\|\|` fallback agree on `undefined` and on truthy values. On `null`, `0`, `""` and `false`, the default keeps the value and `\|\|` replaces it. |
| `Json.SerializedIsJson` | index.js:64 | Whatever the handler passes to `res.json`, unless it is `undefined`, reaches the client as JSON data with no `undefined` in it. |
| `Json.SerializedOfJson` | index.js:64 | JSON data passes through `res.json`'s serialisation unchanged. |
| `Json.SerializedMember` | index.js:71 | An object member survives serialisation exactly when it is present and not `undefined`. It then carries its serialised value. |

## Left out

- CORS middleware and the OPTIONS short-circuit (index.js:7-16) are header plumbing.
- `express.json()` parsing, route registration for the four paths, and `app.listen` with port selection are transport and startup. The body arrives already parsed.
- The network call itself, axios's acceptance of 2xx statuses and its construction of error objects are foreign I/O. They are the `call` parameter. The 120 s timeout is only recorded in the request.
- Reading `process.env`. The key is a plain optional parameter.
- `console.error` logging (index.js:66).
- The static `/v1/models` catalogue and the liveness string at `/` (index.js:77-87) are constant responses.
- Numbers are reals, not IEEE doubles. `temperature` is only forwarded, never computed on. The model has no NaN and no infinities. `JSON.parse` reads an overflowing literal such as `1e400` as `Infinity`, and serialisation then writes it as `null`. So the program forwards `"temperature": 1e400` as `null`, while the model forwards the number unchanged.
- Property reads cover own data members only. Inherited members such as `length` are not modelled. None of the names the handler reads is inherited.
- `Proxy.DestructureError`: its message is the JavaScript engine's TypeError wording, assumed here. The program does not fix it. A nullish body can only occur when the body parser leaves `req.body` unset.
- Status values are forwarded as given. What Node or Express does with an out-of-range status code is not modelled.
