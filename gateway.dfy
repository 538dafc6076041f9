/**
 The gateway's routes (router/app.py). Every handler is a function of the
 configuration, the request body and the backend, where the backend is an
 oracle that answers each outbound call with a status code and either a
 parsed JSON body or raw text. A handler returns its outcome together with
 the outbound calls it made, in order.
 */
module Gateway {
  import opened Wrappers
  import opened JsonValue
  import opened Payload
  import opened Prompt

  /** PREFILL_URL and MODEL_ID, read once at start. */
  datatype Config = Config(prefillUrl: string, modelId: string)

  /** The values used when the environment sets neither variable. */
  const DefaultConfig: Config := Config("http://prefill:8010/v1", "Qwen/Qwen2.5-1.5B-Instruct")

  const CompletionsPath: string := "/completions"
  const ChatPath: string := "/chat/completions"
  const ModelsPath: string := "/models"

  /** The status by which the backend says it has no chat endpoint. */
  const NotFound: int := 404
  const BadRequest: int := 400
  const MissingPrompt: string := "Missing 'prompt'."
  const MissingMessages: string := "Missing 'messages'."

  /** An outbound request, addressed by its path below PREFILL_URL. */
  datatype Call = HttpGet(path: string) | HttpPost(path: string, payload: Json)

  function Url(cfg: Config, call: Call): string {
    cfg.prefillUrl + call.path
  }

  /** What `resp.json()` makes of the backend's body. */
  datatype RespBody = Parsed(value: Json) | Raw(text: string)

  datatype BackendResp = BackendResp(status: int, body: RespBody)

  /** The backend, as seen by the gateway. */
  type Backend = Call -> BackendResp

  /** A JSONResponse, or an HTTPException with its status and detail. */
  datatype Outcome = Ok(status: int, value: Json) | HttpErr(status: int, detail: string)

  /** A handler's outcome and the outbound calls it made, in order. */
  datatype Exchange = Exchange(outcome: Outcome, calls: seq<Call>)

  /** `_json_or_raise`: the parsed body with the backend's own status, or an
      error carrying that same status and the raw text. */
  function JsonOrRaise(resp: BackendResp): (o: Outcome)
    ensures o.status == resp.status
    ensures o.Ok? <==> resp.body.Parsed?
    ensures o.Ok? ==> o.value == resp.body.value
    ensures o.HttpErr? ==> o.detail == resp.body.text
  {
    match resp.body
    case Parsed(v) => Ok(resp.status, v)
    case Raw(t) => HttpErr(resp.status, t)
  }

  /** The backend response an outcome of JsonOrRaise came from. */
  function Recover(o: Outcome): BackendResp {
    match o
    case Ok(status, v) => BackendResp(status, Parsed(v))
    case HttpErr(status, t) => BackendResp(status, Raw(t))
  }

  /** The mapping neither rewrites nor loses anything. */
  lemma JsonOrRaiseLossless(resp: BackendResp)
    ensures Recover(JsonOrRaise(resp)) == resp
  {
  }

  /** `_openai_completions`: one POST of the payload to /completions. */
  function OpenAICompletions(payload: Json, backend: Backend): (x: Exchange)
    ensures |x.calls| == 1
    ensures x.calls[0].HttpPost? && x.calls[0].path == CompletionsPath
    ensures x.calls[0].payload == payload
    ensures x.outcome == JsonOrRaise(backend(x.calls[0]))
  {
    var call := HttpPost(CompletionsPath, payload);
    Exchange(JsonOrRaise(backend(call)), [call])
  }

  /** `_proxy_get`: one GET of the path. */
  function ProxyGet(path: string, backend: Backend): (x: Exchange)
    ensures x.calls == [HttpGet(path)]
    ensures x.outcome == JsonOrRaise(backend(HttpGet(path)))
  {
    Exchange(JsonOrRaise(backend(HttpGet(path))), [HttpGet(path)])
  }

  /** GET /healthz: a constant record, no backend call. */
  function Healthz(cfg: Config): (x: Exchange)
    ensures x.calls == []
    ensures x.outcome.Ok? && x.outcome.status == 200 && x.outcome.value.JObj?
    ensures Lookup(x.outcome.value.fields, "ok") == Some(JBool(true))
    ensures Lookup(x.outcome.value.fields, "prefill_url") == Some(JStr(cfg.prefillUrl))
    ensures Lookup(x.outcome.value.fields, "model") == Some(JStr(cfg.modelId))
    ensures x.outcome.value
      == JObj([("ok", JBool(true)), ("prefill_url", JStr(cfg.prefillUrl)), ("model", JStr(cfg.modelId))])
  {
    var fields := [("ok", JBool(true)), ("prefill_url", JStr(cfg.prefillUrl)), ("model", JStr(cfg.modelId))];
    LookupMember(fields, "model", JStr(cfg.modelId));
    Exchange(Ok(200, JObj(fields)), [])
  }

  /** GET /v1/models. */
  function V1Models(backend: Backend): (x: Exchange)
    ensures x.calls == [HttpGet(ModelsPath)]
    ensures x.outcome == JsonOrRaise(backend(HttpGet(ModelsPath)))
  {
    ProxyGet(ModelsPath, backend)
  }

  /** The payload of POST /generate: MODEL_ID, the caller's prompt and the
      six generation controls. */
  function GeneratePayload(cfg: Config, body: Fields): (p: Fields)
    ensures Lookup(p, "model") == Some(JStr(cfg.modelId))
    ensures forall i :: 0 <= i < |p| ==> p[i].1 != JNull
  {
    PayloadModelAndPrompt(JStr(cfg.modelId), Get(body, "prompt", JNull), body);
    CompletionPayload(JStr(cfg.modelId), Get(body, "prompt", JNull), body)
  }

  /** POST /generate. */
  function Generate(cfg: Config, body: Fields, backend: Backend): (x: Exchange)
    ensures x.calls == [] <==> !Truthy(Get(body, "prompt", JNull))
    ensures x.calls == [] ==> x.outcome == HttpErr(BadRequest, MissingPrompt)
    ensures x.calls != [] ==>
      && x.calls == [HttpPost(CompletionsPath, JObj(GeneratePayload(cfg, body)))]
      && x.outcome == JsonOrRaise(backend(x.calls[0]))
  {
    var prompt := Get(body, "prompt", JNull);
    if !Truthy(prompt) then Exchange(HttpErr(BadRequest, MissingPrompt), [])
    else OpenAICompletions(JObj(GeneratePayload(cfg, body)), backend)
  }

  /** POST /v1/completions: the body is forwarded unchanged. */
  function V1Completions(body: Fields, backend: Backend): (x: Exchange)
    ensures x.calls == [HttpPost(CompletionsPath, JObj(body))]
    ensures x.outcome == JsonOrRaise(backend(HttpPost(CompletionsPath, JObj(body))))
  {
    OpenAICompletions(JObj(body), backend)
  }

  /** The direct chat call, with the original body. */
  function DirectChat(body: Fields): Call {
    HttpPost(ChatPath, JObj(body))
  }

  /** What the chat route needs of its caller: once the backend has answered
      404, the messages must be readable by the join. */
  predicate ChatPre(body: Fields, backend: Backend) {
    backend(DirectChat(body)).status == NotFound ==> MessagesWellFormed(body)
  }

  /** The payload of the chat fallback: the body's model (MODEL_ID when the
      key is absent), the flattened messages and the six controls. */
  function ChatPayload(cfg: Config, body: Fields): (p: Fields)
    requires MessagesWellFormed(body) && Truthy(MessagesOf(body))
    ensures Lookup(p, "prompt") == Some(JStr(FlattenMessages(MessagesOf(body).items)))
    ensures forall i :: 0 <= i < |p| ==> p[i].1 != JNull
  {
    PayloadModelAndPrompt(Get(body, "model", JStr(cfg.modelId)), JStr(FlattenMessages(MessagesOf(body).items)), body);
    CompletionPayload(Get(body, "model", JStr(cfg.modelId)), JStr(FlattenMessages(MessagesOf(body).items)), body)
  }

  /** POST /v1/chat/completions. */
  function V1Chat(cfg: Config, body: Fields, backend: Backend): (x: Exchange)
    requires ChatPre(body, backend)
    ensures 1 <= |x.calls| <= 2 && x.calls[0] == DirectChat(body)
    ensures backend(DirectChat(body)).status != NotFound ==>
      x == Exchange(JsonOrRaise(backend(DirectChat(body))), [DirectChat(body)])
    ensures backend(DirectChat(body)).status == NotFound && !Truthy(MessagesOf(body)) ==>
      x == Exchange(HttpErr(BadRequest, MissingMessages), [DirectChat(body)])
    ensures backend(DirectChat(body)).status == NotFound && Truthy(MessagesOf(body)) ==>
      && x.calls == [DirectChat(body), HttpPost(CompletionsPath, JObj(ChatPayload(cfg, body)))]
      && x.outcome == JsonOrRaise(backend(x.calls[1]))
  {
    var direct := DirectChat(body);
    var r := backend(direct);
    if r.status != NotFound then Exchange(JsonOrRaise(r), [direct])
    else if !Truthy(MessagesOf(body)) then Exchange(HttpErr(BadRequest, MissingMessages), [direct])
    else
      var fallback := OpenAICompletions(JObj(ChatPayload(cfg, body)), backend);
      Exchange(fallback.outcome, [direct] + fallback.calls)
  }

  /** The inbound routes. */
  datatype Request =
    | HealthzReq
    | ModelsReq
    | GenerateReq(body: Fields)
    | CompletionsReq(body: Fields)
    | ChatReq(body: Fields)

  predicate HandlePre(req: Request, backend: Backend) {
    req.ChatReq? ==> ChatPre(req.body, backend)
  }

  /** The route table. Healthz is the one route that answers successfully
      without asking the backend. */
  function Handle(cfg: Config, req: Request, backend: Backend): (x: Exchange)
    requires HandlePre(req, backend)
    ensures |x.calls| <= 2
    ensures req.HealthzReq? <==> x.calls == [] && x.outcome.Ok?
  {
    match req
    case HealthzReq => Healthz(cfg)
    case ModelsReq => V1Models(backend)
    case GenerateReq(body) => Generate(cfg, body, backend)
    case CompletionsReq(body) => V1Completions(body, backend)
    case ChatReq(body) => V1Chat(cfg, body, backend)
  }
}
