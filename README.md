# Request-translation gateway: a Dafny model

This project models the router of an inference gateway (`router/app.py`).
The gateway sits in front of a text-generation backend that may implement
only a plain completions endpoint. It exposes an OpenAI-style surface:
`/healthz`, `/v1/models`, `/generate`, `/v1/completions` and
`/v1/chat/completions`. It forwards each request to the backend under
PREFILL_URL and maps the backend's answer back to the caller.

The model keeps the gateway's decision logic and proves what it promises:

- the response mapping `_json_or_raise` passes the backend's status through
  unchanged and turns a body that is not JSON into an error whose detail is
  the raw text;
- the completions payload is an eight-key dict literal read with
  `dict.get(key, default)`, from which every None entry is then dropped;
- `/generate` rejects a falsy prompt with 400 and makes no call;
- the chat route makes one direct call and falls back to `/completions`
  only when that call answers 404; the fallback prompt is the messages'
  contents joined by newlines.

Modules, one per concern of the source file:

- `Wrappers` (json.dfy): the stock `Option` type.
- `JsonValue` (json.dfy): parsed JSON values, Python truthiness, dict
  subscripting (`Lookup`) and `dict.get` (`Get`). A request body is a JSON
  object: an association list that, as a Python dict, holds each key once.
- `Payload` (payload.dfy): the dict literal (`Candidate`), the None filter
  (`DropNulls`) and the payload they build (`CompletionPayload`).
- `Prompt` (prompt.dfy): the chat flattening (`MessageContent`, `Contents`,
  `JoinLines`), with `SplitLines` as the join's inverse.
- `Gateway` (gateway.dfy): configuration, outbound calls, the response
  mapping and one function per route.
- `RouteProperties` (properties.dfy): lemmas about the routes, and two
  worked request/response examples.

The backend is a parameter of type `Call -> BackendResp`. It answers each
outbound call with a status code and either a parsed JSON value or raw
text. Each handler returns an `Exchange`: its `Outcome` plus the outbound
calls it made, in order. That lets the contracts state call counts.
PREFILL_URL and MODEL_ID form a `Config` parameter, and `DefaultConfig`
holds the values used when the environment sets neither. A JSON float is a
decimal token `JFloat(mantissa, exponent)`, so the default temperature 0.7
is `JFloat(7, -1)`, and no float arithmetic is done.

Points where the code behaves differently from what a reader might expect, which the model keeps:

- An explicit null for `max_tokens` or `temperature` removes that key from
  the payload. It is not replaced by 128 or 0.7. On the chat fallback an
  explicit null `model` is removed too, rather than replaced by MODEL_ID.
  See `GenerateControls`, `ChatControls` and `ChatModelAndPrompt`.
- On the chat route, the 400 for missing or empty `messages` arrives only
  after the direct call has already come back 404, so one outbound call has
  been made, not zero; with any other status the body is never examined.
  See `ChatEmptyMessages`.
- `/healthz` answers with the key `prefill_url`, not `backend_url`.
- Any falsy `messages` value (`0`, `false`, `""`, `{}`) counts as missing,
  because the code reads `body.get("messages") or []`.

## Model

| member | source | states |
|---|---|---|
| `JsonValue.Truthy` | router/app.py:57 | `if not prompt`, and `or []` and `if not msgs` at lines 90-91: falsy exactly for None, False, 0, a float with zero mantissa, "", [] and {}; the routes use it through `Generate`, `MessagesOf` and `V1Chat` |
| `JsonValue.Lookup` | router/app.py:56-68 | subscripting a body: a value exactly when the key is among the body's keys, and then an entry of the body |
| `JsonValue.Get` | router/app.py:56-68 | `dict.get`: the default exactly when the key is absent; a present key, even one holding null, yields its stored value |
| `Payload.Candidate` | router/app.py:60-69 | the literal has exactly the eight keys model, prompt, max_tokens, temperature, top_p, top_k, repetition_penalty, stop, in that order |
| `Payload.DropNulls` | router/app.py:70 | the filtered dict holds no null; everything it holds came from the literal; every non-null entry of the literal survives, falsy values included |
| `Payload.DropNullsSubsequence` | router/app.py:70 | the filter keeps the entries, and their keys, in the literal's order |
| `Payload.DropNullsCharacterized` | router/app.py:70 | for a dict, the filter's result is the only order-preserving selection that holds no null and keeps every non-null entry |
| `Payload.DropNullsLookup` | router/app.py:70 | subscripting the filtered dict: a key that held null is gone, any other key keeps its value |
| `Payload.CompletionPayload` | router/app.py:60-70 | the payload either builder sends (lines 60-70 and 95-105): at most eight entries, none null, each taken from the literal, and every non-null entry of the literal kept; key by key in `PayloadLookupAt`, `PayloadLookupOther` and `CompletionPayloadShape` |
| `Payload.PayloadLookupAt` | router/app.py:60-70 | the payload gives each of the eight keys its literal value, or omits the key when that value is null |
| `Payload.PayloadLookupOther` | router/app.py:60-70 | no key outside the eight is ever forwarded, whatever the body holds |
| `Payload.PayloadModelAndPrompt` | router/app.py:60-62 | `model` and `prompt` are forwarded as the builder's caller chose them, unless null |
| `Payload.PayloadDefaulted` | router/app.py:63-64 | `max_tokens` and `temperature` take 128 and 0.7 when absent from the body, and are dropped when null |
| `Payload.PayloadOptional` | router/app.py:65-68 | top_p, top_k, repetition_penalty and stop are forwarded exactly when the body holds a non-null value under them, and with that value |
| `Payload.CompletionPayloadShape` | router/app.py:60-70 | the payload holds no null value, is a dict, and its keys are among the eight in the literal's order |
| `Prompt.MessagesOf` | router/app.py:90 | `body.get("messages") or []` is truthy exactly when the body's messages value is, and is then that value |
| `Prompt.MessageContent` | router/app.py:94 | a message's content is "" when it has no `content` key, and its string otherwise |
| `Prompt.Contents` | router/app.py:94 | one content per message, where entry i is message i's content, so the order is kept |
| `Prompt.JoinLines` | router/app.py:94 | `"\n".join`: "" for no strings; otherwise it starts with the first string and its length is the strings' total plus one newline between each neighbouring pair; a result without a newline came from at most one string; inverted by `SplitLines` in `SplitJoin` and `JoinSplit` |
| `Prompt.SplitLines` | router/app.py:94 | not code of the gateway: a reference model of `str.split("\n")`, the inverse of the join at line 94; at least one piece, and no piece holds a newline |
| `Prompt.FlattenMessages` | router/app.py:94 | the fallback prompt: "" for no messages, otherwise it starts with the first message's content and holds a newline once there are two messages; its lines are stated in `FlattenLines` and `FlattenSingle` |
| `Prompt.SplitJoin` | router/app.py:94 | splitting the joined contents at newlines gives back the list of contents, when it is non-empty and no content holds a newline |
| `Prompt.JoinSplit` | router/app.py:94 | joining the pieces of any split gives back the string, so the join loses nothing |
| `Prompt.FlattenSingle` | router/app.py:94 | a single message's prompt is its content unchanged |
| `Prompt.FlattenLines` | router/app.py:94 | line i of the prompt is message i's content, when no content holds a newline |
| `Gateway.JsonOrRaise` | router/app.py:26-32 | the status is the backend's; success exactly when the body parsed, and then carries the parsed value; otherwise the detail is the raw text |
| `Gateway.JsonOrRaiseLossless` | router/app.py:26-32 | the backend response can be recovered from the outcome, so the mapping rewrites and loses nothing |
| `Gateway.OpenAICompletions` | router/app.py:34-36 | exactly one POST, to /completions, with the payload unchanged; the outcome is the mapping of its response |
| `Gateway.ProxyGet` | router/app.py:38-40 | exactly one GET of the path; the outcome is the mapping of its response |
| `Gateway.Healthz` | router/app.py:21-23 | no outbound call; 200 with exactly the record {ok: true, prefill_url, model}, the last two from the configuration |
| `Gateway.V1Models` | router/app.py:43-46 | exactly one GET of /models, mapped |
| `Gateway.GeneratePayload` | router/app.py:60-70 | the /generate payload: `model` is always MODEL_ID and no value is null; the remaining keys in `GenerateModelAndPrompt`, `GenerateControls` and `GeneratePayloadShape` |
| `Gateway.Generate` | router/app.py:49-71 | no call exactly when the prompt is falsy, and then 400 "Missing 'prompt'."; otherwise exactly one POST of the payload to /completions, mapped |
| `Gateway.V1Completions` | router/app.py:74-76 | exactly one POST to /completions with the body forwarded unchanged, mapped |
| `Gateway.ChatPayload` | router/app.py:94-105 | the fallback payload: `prompt` is always the flattened messages and no value is null; `model` and the controls in `ChatModelAndPrompt` and `ChatControls` |
| `Gateway.V1Chat` | router/app.py:78-106 | first call is the direct chat call with the original body; non-404: that call's response mapped and nothing else; 404 with falsy messages: 400 "Missing 'messages'." after that one call; 404 otherwise: a second and last call, to /completions with the fallback payload, mapped |
| `Gateway.Handle` | router/app.py:21-106 | the route table: at most two outbound calls, and /healthz is the one route that succeeds without a call; every route in `CallsAndOutcome` and `StatusPassThrough` |
| `RouteProperties.ControlRule` | router/app.py:63-70 | reading a control with `dict.get` and then dropping nulls means: absent gives the default, null gives nothing, any other value is kept |
| `RouteProperties.GenerateModelAndPrompt` | router/app.py:60-62 | /generate sends `model` = MODEL_ID whatever the body says, and `prompt` = the caller's prompt |
| `RouteProperties.GenerateControls` | router/app.py:63-70 | /generate sends max_tokens 128 and temperature 0.7 when absent, drops them when null, and forwards every other value of the six controls unchanged |
| `RouteProperties.GeneratePayloadShape` | router/app.py:60-70 | the /generate payload holds no null, is a dict, and its keys are among the eight in order |
| `RouteProperties.GenerateRejectsMissingPrompt` | router/app.py:55-58 | an absent, null or empty prompt gives 400 "Missing 'prompt'." and no outbound call |
| `RouteProperties.ChatModelAndPrompt` | router/app.py:94-97 | the fallback prompt is the contents joined by newlines; `model` is the body's when the key is present, so it is dropped when null, and MODEL_ID otherwise |
| `RouteProperties.ChatControls` | router/app.py:98-105 | the fallback applies the same default and null rule to the six controls |
| `RouteProperties.ChatPromptLines` | router/app.py:94-96 | with newline-free contents, the prompt's lines are the contents in order, and a single message is sent as its content |
| `RouteProperties.CallsAndOutcome` | router/app.py:34-106 | every route makes at most two calls, to the three backend paths only; only chat makes two, direct chat then /completions; the outcome is the gateway's 400 or the mapping of the last call's response |
| `RouteProperties.StatusPassThrough` | router/app.py:26-32 | on every route that called the backend, unless it is the chat route rejecting falsy messages after a 404, the status is the last backend response's, and a non-JSON body comes back as that status with the raw text as detail |
| `RouteProperties.ChatEmptyMessages` | router/app.py:85-92 | for every body whose `messages` is [], a 404 gives 400 after exactly the direct call; any other status is passed through |
| `RouteProperties.ExampleChatPrompt` | router/app.py:94-105 | messages "hi" and "there" give the prompt "hi\nthere" |
| `RouteProperties.ChatFallbackExample` | router/app.py:85-106 | for that body with a 404 direct answer, the calls are the direct call and then /completions with the "hi\nthere" prompt |
| `RouteProperties.ModelsUrlDefault` | router/app.py:43-46 | with the default PREFILL_URL, the models call reaches http://prefill:8010/v1/models |

## Left out

- The `lifespan` context manager and the shared httpx client (router/app.py:10-17): connection lifecycle only, no decision logic.
- FastAPI routing, request parsing and the rendering of an `HTTPException` to `{"detail": ...}`: these are represented by the `Request` and `Outcome` datatypes.
- JSON parsing of the backend's answer (`resp.json()`): an oracle that yields a parsed value or raw text.
- Reading PREFILL_URL and MODEL_ID from the environment (router/app.py:7-8): they are a `Config` parameter.
- The 120-second timeout, transport failures, async execution and concurrent requests.
- JsonValue.Truthy: a float is a decimal token, so one whose value underflows to 0.0 (such as `1e-400`) counts as truthy here but falsy in Python; NaN and Infinity literals are not represented, and no float arithmetic is done.
- Bodies that are not JSON objects: FastAPI answers 422 on `/v1/completions` and on the chat route, and `body.get` raises on `/generate`.
- A chat message that is not a dict, or whose `content` is present but not a string or is null, when the fallback runs; the same goes for a truthy `messages` that is not a list. Python raises there, so `Gateway.ChatPre` asks for readable messages whenever the direct call answers 404.
- Duplicate keys in a raw JSON text: by the time Python's parser has produced the body, it is a dict that holds each key once.
