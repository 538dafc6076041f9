/**
 What the routes promise, stated over the handlers of module Gateway:
 the payload rules of /generate and of the chat fallback, the call counts
 and the status pass-through of every route, and two worked
 request/response examples.
 */
module RouteProperties {
  import opened Wrappers
  import opened JsonValue
  import opened Payload
  import opened Prompt
  import opened Gateway

  /** The rule for one generation control: a key absent from the body
      takes its default, a key holding null is not sent, and any other
      value is sent unchanged, falsy ones included. */
  function ExpectedControl(body: Fields, key: string, default: Option<Json>): Option<Json> {
    match Lookup(body, key)
    case None => default
    case Some(v) => if v == JNull then None else Some(v)
  }

  lemma ControlRule(body: Fields, key: string, default: Json)
    ensures NonNull(Get(body, key, default)) == ExpectedControl(body, key, NonNull(default))
  {
  }

  /** /generate: `model` is MODEL_ID whatever the body says and `prompt` is
      the caller's prompt. */
  lemma GenerateModelAndPrompt(cfg: Config, body: Fields)
    requires Truthy(Get(body, "prompt", JNull))
    ensures Lookup(GeneratePayload(cfg, body), "model") == Some(JStr(cfg.modelId))
    ensures Lookup(GeneratePayload(cfg, body), "prompt") == Some(Get(body, "prompt", JNull))
  {
    PayloadModelAndPrompt(JStr(cfg.modelId), Get(body, "prompt", JNull), body);
  }

  /** /generate: `max_tokens` is 128 and `temperature` 0.7 when absent, and
      every control follows ExpectedControl, so an explicit null removes
      the key. */
  lemma GenerateControls(cfg: Config, body: Fields)
    ensures Lookup(GeneratePayload(cfg, body), "max_tokens") == ExpectedControl(body, "max_tokens", Some(JInt(128)))
    ensures Lookup(GeneratePayload(cfg, body), "temperature") == ExpectedControl(body, "temperature", Some(JFloat(7, -1)))
    ensures forall k :: k in OptionalKeys ==> Lookup(GeneratePayload(cfg, body), k) == ExpectedControl(body, k, None)
  {
    var model, prompt := JStr(cfg.modelId), Get(body, "prompt", JNull);
    PayloadDefaulted(model, prompt, body);
    ControlRule(body, "max_tokens", DefaultMaxTokens);
    ControlRule(body, "temperature", DefaultTemperature);
    forall k | k in OptionalKeys ensures Lookup(GeneratePayload(cfg, body), k) == ExpectedControl(body, k, None) {
      PayloadOptional(model, prompt, body, k);
      ControlRule(body, k, JNull);
    }
  }

  /** The payload of every completions call is a dict with no null value,
      its keys among the eight of the literal and in the literal's order. */
  lemma GeneratePayloadShape(cfg: Config, body: Fields)
    ensures var p := GeneratePayload(cfg, body);
      && (forall i :: 0 <= i < |p| ==> p[i].1 != JNull)
      && IsSubsequence(Keys(p), PayloadKeys)
      && DistinctKeys(p)
  {
    CompletionPayloadShape(JStr(cfg.modelId), Get(body, "prompt", JNull), body);
  }

  /** /generate answers 400 without calling the backend when the prompt is
      absent, null or empty. */
  lemma GenerateRejectsMissingPrompt(cfg: Config, body: Fields, backend: Backend)
    requires "prompt" !in Keys(body) || Lookup(body, "prompt") == Some(JNull) || Lookup(body, "prompt") == Some(JStr(""))
    ensures Generate(cfg, body, backend) == Exchange(HttpErr(BadRequest, MissingPrompt), [])
  {
  }

  /** Chat fallback: the prompt is the messages' contents joined by
      newlines in order, and `model` is the body's when the key is present
      (so it is gone when that value is null) and MODEL_ID otherwise. */
  lemma ChatModelAndPrompt(cfg: Config, body: Fields)
    requires MessagesWellFormed(body) && Truthy(MessagesOf(body))
    ensures Lookup(ChatPayload(cfg, body), "prompt") == Some(JStr(JoinLines(Contents(MessagesOf(body).items))))
    ensures Lookup(ChatPayload(cfg, body), "model") == ExpectedControl(body, "model", Some(JStr(cfg.modelId)))
  {
    var model := Get(body, "model", JStr(cfg.modelId));
    PayloadModelAndPrompt(model, JStr(FlattenMessages(MessagesOf(body).items)), body);
    ControlRule(body, "model", JStr(cfg.modelId));
  }

  /** Chat fallback: the controls follow the same rule as on /generate. */
  lemma ChatControls(cfg: Config, body: Fields)
    requires MessagesWellFormed(body) && Truthy(MessagesOf(body))
    ensures Lookup(ChatPayload(cfg, body), "max_tokens") == ExpectedControl(body, "max_tokens", Some(JInt(128)))
    ensures Lookup(ChatPayload(cfg, body), "temperature") == ExpectedControl(body, "temperature", Some(JFloat(7, -1)))
    ensures forall k :: k in OptionalKeys ==> Lookup(ChatPayload(cfg, body), k) == ExpectedControl(body, k, None)
  {
    var model := Get(body, "model", JStr(cfg.modelId));
    var prompt := JStr(FlattenMessages(MessagesOf(body).items));
    PayloadDefaulted(model, prompt, body);
    ControlRule(body, "max_tokens", DefaultMaxTokens);
    ControlRule(body, "temperature", DefaultTemperature);
    forall k | k in OptionalKeys ensures Lookup(ChatPayload(cfg, body), k) == ExpectedControl(body, k, None) {
      PayloadOptional(model, prompt, body, k);
      ControlRule(body, k, JNull);
    }
  }

  /** When no content holds a newline, line i of the fallback prompt is the
      content of message i, and a single message is sent as it is. */
  lemma ChatPromptLines(cfg: Config, body: Fields)
    requires MessagesWellFormed(body) && Truthy(MessagesOf(body))
    requires forall i :: 0 <= i < |MessagesOf(body).items| ==> '\n' !in MessageContent(MessagesOf(body).items[i])
    ensures Lookup(ChatPayload(cfg, body), "prompt") == Some(JStr(JoinLines(Contents(MessagesOf(body).items))))
    ensures SplitLines(JoinLines(Contents(MessagesOf(body).items))) == Contents(MessagesOf(body).items)
    ensures |MessagesOf(body).items| == 1 ==>
      Lookup(ChatPayload(cfg, body), "prompt") == Some(JStr(MessageContent(MessagesOf(body).items[0])))
  {
    var ms := MessagesOf(body).items;
    ChatModelAndPrompt(cfg, body);
    FlattenLines(ms);
    if |ms| == 1 {
      FlattenSingle(ms[0]);
      assert ms == [ms[0]];
    }
  }

  /** Every route makes at most two outbound calls, only to the three
      backend paths; only chat makes two, the direct call and then
      /completions; and the outcome is either the gateway's own 400 or the
      mapping of the last call's response. */
  lemma CallsAndOutcome(cfg: Config, req: Request, backend: Backend)
    requires HandlePre(req, backend)
    ensures var x := Handle(cfg, req, backend);
      && |x.calls| <= 2
      && (|x.calls| == 2 ==> req.ChatReq? && x.calls[0].path == ChatPath && x.calls[1].path == CompletionsPath)
      && (forall i :: 0 <= i < |x.calls| ==>
            x.calls[i].path == ModelsPath || x.calls[i].path == CompletionsPath || x.calls[i].path == ChatPath)
      && (x.calls == [] ==> req.HealthzReq? || x.outcome == HttpErr(BadRequest, MissingPrompt))
      && (x.calls != [] ==>
            x.outcome == JsonOrRaise(backend(x.calls[|x.calls| - 1])) || x.outcome == HttpErr(BadRequest, MissingMessages))
  {
  }

  /** Unless the gateway itself rejects the request, a backend status is
      never rewritten, and a body that is not JSON comes back as an error
      with that status and the raw text as detail. */
  lemma StatusPassThrough(cfg: Config, req: Request, backend: Backend)
    requires HandlePre(req, backend)
    ensures var x := Handle(cfg, req, backend);
      && x.calls != []
      && !(req.ChatReq? && backend(DirectChat(req.body)).status == NotFound && !Truthy(MessagesOf(req.body)))
      ==>
        var last := backend(x.calls[|x.calls| - 1]);
        && x.outcome.status == last.status
        && (last.body.Raw? ==> x.outcome == HttpErr(last.status, last.body.text))
        && (last.body.Parsed? ==> x.outcome == Ok(last.status, last.body.value))
  {
    CallsAndOutcome(cfg, req, backend);
  }

  /** /v1/chat/completions answers 400 for an empty message list only after
      the direct call came back 404; any other status is passed through. */
  lemma ChatEmptyMessages(cfg: Config, body: Fields, backend: Backend)
    requires Lookup(body, "messages") == Some(JArr([]))
    ensures ChatPre(body, backend)
    ensures backend(DirectChat(body)).status == NotFound ==>
      V1Chat(cfg, body, backend) == Exchange(HttpErr(BadRequest, MissingMessages), [DirectChat(body)])
    ensures backend(DirectChat(body)).status != NotFound ==>
      V1Chat(cfg, body, backend) == Exchange(JsonOrRaise(backend(DirectChat(body))), [DirectChat(body)])
  {
    assert Get(body, "messages", JNull) == JArr([]);
    assert !Truthy(MessagesOf(body));
  }

  function UserMessage(content: string): Json {
    JObj([("role", JStr("user")), ("content", JStr(content))])
  }

  function ExampleChatBody(): Fields {
    [("messages", JArr([UserMessage("hi"), UserMessage("there")]))]
  }

  lemma ExampleChatContents()
    ensures MessagesWellFormed(ExampleChatBody()) && Truthy(MessagesOf(ExampleChatBody()))
    ensures Contents(MessagesOf(ExampleChatBody()).items) == ["hi", "there"]
  {
    var ms := MessagesOf(ExampleChatBody()).items;
    assert ms == [UserMessage("hi"), UserMessage("there")];
    assert Lookup(UserMessage("hi").fields, "content") == Some(JStr("hi"));
    assert Lookup(UserMessage("there").fields, "content") == Some(JStr("there"));
  }

  lemma ExampleChatPrompt(cfg: Config)
    ensures MessagesWellFormed(ExampleChatBody()) && Truthy(MessagesOf(ExampleChatBody()))
    ensures Lookup(ChatPayload(cfg, ExampleChatBody()), "prompt") == Some(JStr("hi\nthere"))
  {
    var body := ExampleChatBody();
    ExampleChatContents();
    var cs := Contents(MessagesOf(body).items);
    assert cs == ["hi", "there"];
    JoinLinesCons("hi", ["there"]);
    assert ["hi"] + ["there"] == cs;
    assert JoinLines(cs) == "hi\nthere";
    ChatModelAndPrompt(cfg, body);
    assert Lookup(ChatPayload(cfg, body), "prompt") == Some(JStr("hi\nthere"));
  }

  /** Two user messages "hi" and "there" are sent as the prompt "hi\nthere". */
  lemma ChatFallbackExample(cfg: Config, backend: Backend)
    requires backend(DirectChat(ExampleChatBody())).status == NotFound
    ensures ChatPre(ExampleChatBody(), backend)
    ensures V1Chat(cfg, ExampleChatBody(), backend).calls ==
            [DirectChat(ExampleChatBody()), HttpPost(CompletionsPath, JObj(ChatPayload(cfg, ExampleChatBody())))]
    ensures Lookup(ChatPayload(cfg, ExampleChatBody()), "prompt") == Some(JStr("hi\nthere"))
  {
    ExampleChatPrompt(cfg);
  }

  /** PREFILL_URL already ends in /v1, so the models call reaches /v1/models. */
  lemma ModelsUrlDefault()
    ensures Url(DefaultConfig, HttpGet(ModelsPath)) == "http://prefill:8010/v1/models"
  {
  }
}
