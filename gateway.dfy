/**
 * The two routes that carry the gateway's logic: `POST /v1/chat/completions`
 * (intake and checks, client selection, conversation creation, translation
 * and dispatch, streaming or not) and `GET /v1/models`.
 *
 * Everything a handler sees from outside is collected in a `World`: the
 * id generator, the clocks, the upstream's answers to each call and the
 * text forms Python gives to values and exceptions.
 */
module Gateway {
  import opened Wrappers
  import opened Text
  import opened PyJson
  import opened Upstream
  import opened Pool
  import opened Translator
  import opened Responses

  datatype World = World(
    ids: nat -> string,                // the request's successive `uuid4()` values
    nowSeconds: int,                   // `int(time.time())`
    nowMillis: int,                    // `int(time.time() * 1000)`
    newChatAnswers: nat -> Outcome,    // the attempts of the new-conversation request
    newChatBody: Json,                 // its decoded answer
    completionAnswers: nat -> Outcome, // the attempts of the non-streaming completion
    completionBody: Json,              // its decoded answer
    stream: StreamAnswer,              // how the streaming completion goes
    show: Json -> string,              // `str(value)` of a value that is not a string
    quote: StreamError -> string       // `json.dumps(str(error))`
  )

  /** What a route answers. */
  datatype Reply =
    | Failure(fault: Fault)
    | JsonReply(body: Json, headers: map<string, string>)
    | EventStream(events: seq<string>, headers: map<string, string>)

  /** A checked completion request. */
  datatype Intake = Intake(model: Json, messages: Json, stream: Json, thinkingMode: Json, resolution: Resolution)

  /**
   * Decoding, the thinking resolution and the request checks, in the
   * handler's order: an undecodable body is a 400, a body without `.get`
   * or a model that cannot be lower-cased a 500, then a falsy model or
   * falsy messages a 400.
   */
  function TakeIn(decoded: Option<Json>): (r: Result<Intake, Fault>)
    ensures decoded.None? ==> r == Err(BadRequest(MalformedBody))
    ensures decoded.Some? && !decoded.value.Obj? ==> r == Err(ServerError)
    ensures r.Ok? ==> decoded.Some? && decoded.value.Obj?
    ensures decoded.Some? && decoded.value.Obj? ==>
      var body := decoded.value.fields;
      var model := Get(body, "model", Null);
      (r.Ok? <==> ResolveThinking(model, Get(body, "thinking_mode", Obj(map[]))).Some?
                  && CheckRequest(model, Get(body, "messages", Arr([]))).None?)
    ensures decoded.Some? && decoded.value.Obj? ==>
      var body := decoded.value.fields;
      (ResolveThinking(Get(body, "model", Null), Get(body, "thinking_mode", Obj(map[]))).None? ==> r == Err(ServerError))
    ensures decoded.Some? && decoded.value.Obj? ==>
      var body := decoded.value.fields;
      var check := CheckRequest(Get(body, "model", Null), Get(body, "messages", Arr([])));
      (ResolveThinking(Get(body, "model", Null), Get(body, "thinking_mode", Obj(map[]))).Some? && check.Some? ==> r == Err(check.value))
    ensures r.Ok? ==> r.value.model == Get(decoded.value.fields, "model", Null)
    ensures r.Ok? ==> r.value.messages == Get(decoded.value.fields, "messages", Arr([]))
    ensures r.Ok? ==> r.value.stream == Get(decoded.value.fields, "stream", Bool(false))
    ensures r.Ok? ==> Truthy(r.value.model) && Truthy(r.value.messages)
    ensures r.Ok? ==> Some(r.value.resolution) == ResolveThinking(r.value.model, Get(decoded.value.fields, "thinking_mode", Obj(map[])))
  {
    if decoded.None? then Err(BadRequest(MalformedBody))
    else if !decoded.value.Obj? then Err(ServerError)
    else
      var body := decoded.value.fields;
      var model := Get(body, "model", Null);
      var messages := Get(body, "messages", Arr([]));
      var stream := Get(body, "stream", Bool(false));
      var thinkingMode := Get(body, "thinking_mode", Obj(map[]));
      match ResolveThinking(model, thinkingMode)
      case None => Err(ServerError)
      case Some(resolution) =>
        match CheckRequest(model, messages)
        case Some(fault) => Err(fault)
        case None => Ok(Intake(model, messages, stream, thinkingMode, resolution))
  }

  /** The upstream envelope for a checked request and the id of its new conversation. */
  function Prepare(req: Intake, chatId: Json, w: World): (r: Result<Envelope, Fault>)
    ensures r.Err? ==> r.error == ServerError
    ensures r.Ok? ==> r.value.model == req.resolution.baseModel && r.value.chatId == chatId
    ensures r.Ok? ==> r.value.stream == req.stream && r.value.timestamp == w.nowSeconds
    ensures r.Ok? ==> Dicts(req.messages).Some? && |r.value.messages| == |Dicts(req.messages).value|
    ensures r.Ok? ==> forall k :: 0 <= k < |r.value.messages| ==>
      var m := r.value.messages[k];
      var msg := Dicts(req.messages).value[k];
      m.model == req.resolution.baseModel && m.timestamp == w.nowSeconds
      && m.fid == w.ids(1 + 2 * k) && m.childId == w.ids(2 + 2 * k)
      && m.role == Get(msg, "role", Str("user")) && m.content == Get(msg, "content", Str(""))
  {
    match Dicts(req.messages)
    case None => Err(ServerError)
    case Some(msgs) =>
      var base := req.resolution.baseModel;
      match TranslateAll(msgs, Bool(req.resolution.thinking.enabled), w.ids, w.nowSeconds, base)
      case None => Err(ServerError)
      case Some(t) =>
        match FinalMessages(t)
        case None => Err(ServerError)
        case Some(ms) => Ok(Envelope(req.stream, chatId, base, ms, w.nowSeconds))
  }

  /** Python's `str(value)`. */
  function PyStr(j: Json, show: Json -> string): string
  {
    if j.Str? then j.s else show(j)
  }

  function CompletionsUrl(baseUrl: string, chatId: Json, show: Json -> string): string
  {
    baseUrl + "/chat/completions?chat_id=" + PyStr(chatId, show)
  }

  function StreamHeaders(requestId: string): map<string, string>
  {
    map[
      "Cache-Control" := "no-cache",
      "Connection" := "keep-alive",
      "X-Accel-Buffering" := "no",
      "Content-Type" := "text/event-stream; charset=utf-8",
      "X-Request-Id" := requestId,
      "X-Actual-Status-Code" := "200"
    ]
  }

  function JsonHeaders(requestId: string): map<string, string>
  {
    map["X-Request-Id" := requestId, "X-Actual-Status-Code" := "200"]
  }

  /** The events sent to the caller for a streaming request. */
  function EventsFor(answer: StreamAnswer, quote: StreamError -> string): seq<string>
  {
    var (events, failure) := StreamOutcome(answer);
    StreamBody(events, if failure.Some? then Some(quote(failure.value)) else None)
  }

  /** The translation steps of `chat_completions`, once the conversation exists. */
  method BuildEnvelope(req: Intake, chatId: Json, w: World) returns (r: Result<Envelope, Fault>)
    ensures r == Prepare(req, chatId, w)
  {
    var msgs := Dicts(req.messages);
    if msgs.None? {
      return Err(ServerError);
    }
    var base := req.resolution.baseModel;
    var translated := TranslateMessages(msgs.value, Bool(req.resolution.thinking.enabled), w.ids, w.nowSeconds, base);
    if translated.None? {
      return Err(ServerError);
    }
    var messages := translated.value.messages;
    if Truthy(translated.value.flag) {
      var forced := ForceThinking(messages);
      if forced.None? {
        return Err(ServerError);
      }
      messages := forced.value;
    }
    return Ok(Envelope(req.stream, chatId, base, messages, w.nowSeconds));
  }

  /** The calls of `create_new_chat`, then those of the dispatch: `n` of the first, the rest of the second. */
  ghost predicate TwoPhases(calls: seq<Call>, n: nat, first: Call, second: Call)
  {
    1 <= n <= 4 && n < |calls| && |calls| - n <= 4
    && (forall i :: 0 <= i < n ==> calls[i] == first)
    && (forall i :: n <= i < |calls| ==> calls[i] == second)
  }

  /**
   * What `chat_completions` promises once it holds a client with base URL
   * `baseUrl` and headers `headers`. The conversation is created with a
   * retried POST to `/chats/new` whose payload `created` names the base
   * model. The envelope is dispatched exactly when that conversation exists
   * and the translation succeeds, to the completions URL carrying the new
   * chat id: one POST for a stream, a retried one otherwise. Every failure
   * is a 500.
   */
  ghost predicate Conversation(baseUrl: string, headers: map<string, string>, req: Intake, w: World,
                               reply: Reply, sent: Option<Envelope>, calls: seq<Call>, created: NewChat)
  {
    var chat := NewChatOutcome(Retry(w.newChatAnswers, 3), w.newChatBody);
    var open := Call("POST", baseUrl + "/chats/new", headers);
    && created == NewChatBody(req.resolution.baseModel, DefaultTitle, w.nowMillis)
    && (reply.Failure? ==> reply.fault == ServerError)
    && (chat.Err? ==> reply == Failure(ServerError) && sent.None?)
    && (sent.Some? <==> chat.Ok? && Prepare(req, chat.value, w).Ok?)
    && (sent.Some? ==> Prepare(req, chat.value, w) == Ok(sent.value))
    && (!reply.Failure? ==> sent.Some?)
    && (sent.None? ==> reply.Failure? && 1 <= |calls| <= 4 && forall i :: 0 <= i < |calls| ==> calls[i] == open)
    && (sent.Some? ==> exists n :: TwoPhases(calls, n, open, Call("POST", CompletionsUrl(baseUrl, chat.value, w.show), headers)))
    && (sent.Some? ==> |calls| > 1 && calls[|calls| - 1] == Call("POST", CompletionsUrl(baseUrl, chat.value, w.show), headers))
    && (forall i :: 0 <= i < |calls| ==> calls[i].headers == headers)
    && (reply.EventStream? ==> Truthy(sent.value.stream) && reply.headers == StreamHeaders(w.ids(0)))
    && (reply.EventStream? ==> reply.events == EventsFor(w.stream, w.quote))
    && (reply.JsonReply? ==> !Truthy(sent.value.stream) && Retry(w.completionAnswers, 3).result.Response?)
    && (reply.JsonReply? ==> reply.body == w.completionBody && reply.headers == JsonHeaders(w.ids(0)))
    && (sent.Some? && Truthy(sent.value.stream) ==> reply.EventStream? && calls[|calls| - 2] == open)
    && (sent.Some? && !Truthy(sent.value.stream) ==> (reply.JsonReply? <==> Retry(w.completionAnswers, 3).result.Response?))
  }

  /**
   * The dispatch of `chat_completions` to `url`: a single streaming POST
   * whose events are forwarded, or a retried POST whose decoded answer is
   * returned, any failure of it being a 500.
   */
  method Dispatch(client: QwenClient, url: string, stream: Json, w: World)
    returns (reply: Reply, calls: seq<Call>)
    ensures 1 <= |calls| <= 4 && forall i :: 0 <= i < |calls| ==> calls[i] == Call("POST", url, client.headers)
    ensures Truthy(stream) ==> |calls| == 1 && reply == EventStream(EventsFor(w.stream, w.quote), StreamHeaders(w.ids(0)))
    ensures !Truthy(stream) && Retry(w.completionAnswers, 3).result.Response? ==>
      reply == JsonReply(w.completionBody, JsonHeaders(w.ids(0)))
    ensures !Truthy(stream) && !Retry(w.completionAnswers, 3).result.Response? ==> reply == Failure(ServerError)
  {
    if Truthy(stream) {
      var events, failure, call := client.StreamChatCompletions(url, w.stream);
      calls := [call];
      var out := GenerateStream(events, if failure.Some? then Some(w.quote(failure.value)) else None);
      reply := EventStream(out, StreamHeaders(w.ids(0)));
    } else {
      var answer;
      answer, calls := client.ChatCompletions(url, w.completionAnswers, w.completionBody);
      if answer.Err? {
        reply := Failure(ServerError);
      } else {
        reply := JsonReply(answer.value, JsonHeaders(w.ids(0)));
      }
    }
  }

  /**
   * What `chat_completions` does with the client it was handed: create the
   * conversation, translate, dispatch. `sent` is the envelope dispatched
   * upstream, `calls` every upstream call made, in order, and `created` the
   * payload of the new-conversation request.
   */
  method Converse(client: QwenClient, req: Intake, w: World)
    returns (reply: Reply, sent: Option<Envelope>, calls: seq<Call>, created: NewChat)
    ensures Conversation(client.baseUrl, client.headers, req, w, reply, sent, calls, created)
  {
    sent := None;
    var chat, chatCalls;
    chat, created, chatCalls := client.CreateNewChat(req.resolution.baseModel, DefaultTitle, w.nowMillis, w.newChatAnswers, w.newChatBody);
    calls := chatCalls;
    if chat.Err? {
      return Failure(ServerError), sent, calls, created;
    }
    var chatId := chat.value;
    var envelope := BuildEnvelope(req, chatId, w);
    if envelope.Err? {
      return Failure(envelope.error), sent, calls, created;
    }
    sent := Some(envelope.value);
    var url := CompletionsUrl(client.baseUrl, chatId, w.show);
    var dispatch;
    reply, dispatch := Dispatch(client, url, req.stream, w);
    calls := calls + dispatch;
    assert TwoPhases(calls, |chatCalls|, Call("POST", client.baseUrl + "/chats/new", client.headers), Call("POST", url, client.headers));
  }

  /**
   * `chat_completions`: the intake checks, a client from the pool (a 503
   * when there is none), then the conversation with the upstream, held to
   * `Conversation` for the client the pool hands out.
   */
  method ChatCompletions(pool: ClientPool, decoded: Option<Json>, w: World)
    returns (reply: Reply, sent: Option<Envelope>, calls: seq<Call>, created: Option<NewChat>)
    requires pool.Valid()
    modifies pool
    ensures pool.Valid() && pool.ring == old(pool.ring)
    ensures TakeIn(decoded).Err? ==>
      reply == Failure(TakeIn(decoded).error) && calls == [] && sent.None? && created.None? && unchanged(pool)
    ensures TakeIn(decoded).Ok? && (old(pool.clients) == [] || old(pool.ring) == []) ==>
      reply == Failure(Unavailable) && calls == [] && sent.None? && created.None? && unchanged(pool)
    ensures TakeIn(decoded).Ok? && old(pool.clients) != [] && old(pool.ring) != [] ==>
      pool.cursor == Advance(old(pool.cursor), |pool.ring|)
    ensures TakeIn(decoded).Ok? && old(pool.clients) != [] && old(pool.ring) != [] ==>
      created.Some? &&
      Conversation(pool.baseUrl, Headers(TokenOf(old(pool.NextGroup())), pool.source), TakeIn(decoded).value, w,
                   reply, sent, calls, created.value)
    ensures pool.clients == old(pool.clients) || exists c :: pool.clients == old(pool.clients) + [c]
    ensures old(pool.Covered()) ==> pool.clients == old(pool.clients)
  {
    calls := [];
    sent := None;
    created := None;
    var intake := TakeIn(decoded);
    if intake.Err? {
      return Failure(intake.error), sent, calls, created;
    }
    var picked := pool.GetNextClient();
    if picked.Err? {
      return Failure(Unavailable), sent, calls, created;
    }
    var payload;
    reply, sent, calls, payload := Converse(picked.value, intake.value, w);
    created := Some(payload);
  }

  /**
   * The answer of `list_models` once a client's request has run: any
   * failure, including a malformed catalogue, is a 500.
   */
  function ModelsReply(t: Trace, answer: Json): (r: Reply)
    ensures r.Failure? ==> r.fault == ServerError
    ensures !t.result.Response? ==> r.Failure?
    ensures t.result.Response? && ListingOf(answer).Reshaped? ==> r == JsonReply(ListingJson(ListingOf(answer).entries), map[])
    ensures t.result.Response? && ListingOf(answer).AsIs? ==> r == JsonReply(answer, map[])
  {
    if !t.result.Response? then Failure(ServerError)
    else
      match ListingOf(answer)
      case Fails => Failure(ServerError)
      case AsIs(j) => JsonReply(j, map[])
      case Reshaped(es) => JsonReply(ListingJson(es), map[])
  }

  /**
   * `list_models`. The pool's 503 is caught by the handler's catch-all and
   * answered as a 500 like every other failure.
   */
  method ListModels(pool: ClientPool, answers: nat -> Outcome, answer: Json)
    returns (reply: Reply, calls: seq<Call>)
    requires pool.Valid()
    modifies pool
    ensures pool.Valid() && pool.ring == old(pool.ring)
    ensures old(pool.clients) == [] || old(pool.ring) == [] ==> reply == Failure(ServerError) && calls == [] && unchanged(pool)
    ensures old(pool.clients) != [] && old(pool.ring) != [] ==> reply == ModelsReply(Retry(answers, 3), answer)
    ensures old(pool.clients) != [] && old(pool.ring) != [] ==> pool.cursor == Advance(old(pool.cursor), |pool.ring|)
    ensures old(pool.clients) != [] && old(pool.ring) != [] ==>
      forall i :: 0 <= i < |calls| ==> calls[i].headers == Headers(TokenOf(old(pool.NextGroup())), pool.source)
    ensures pool.clients == old(pool.clients) || exists c :: pool.clients == old(pool.clients) + [c]
    ensures old(pool.Covered()) ==> pool.clients == old(pool.clients)
    ensures reply.Failure? ==> reply.fault == ServerError
    ensures |calls| <= 4
  {
    calls := [];
    var picked := pool.GetNextClient();
    if picked.Err? {
      return Failure(ServerError), calls;
    }
    reply, calls := ServeModels(picked.value, answers, answer);
  }

  /** What `list_models` does with the client it was handed: the catalogue request and its reshaping. */
  method ServeModels(client: QwenClient, answers: nat -> Outcome, answer: Json) returns (reply: Reply, calls: seq<Call>)
    ensures reply == ModelsReply(Retry(answers, 3), answer)
    ensures 1 <= |calls| <= 4
    ensures forall i :: 0 <= i < |calls| ==> calls[i].headers == client.headers
  {
    var listed;
    listed, calls := client.ListModels(answers, answer);
    if listed.Err? {
      return Failure(ServerError), calls;
    }
    var listing := ReshapeModels(listed.value);
    match listing
    case Fails => reply := Failure(ServerError);
    case AsIs(j) => reply := JsonReply(j, map[]);
    case Reshaped(es) => reply := JsonReply(ListingJson(es), map[]);
  }

  /**
   * A body without a model and without an explicit thinking mode is a 500,
   * not the 400 for a missing model: the model name is lower-cased before
   * the check.
   */
  lemma MissingModelIsServerError(messages: Json)
    ensures TakeIn(Some(Obj(map["messages" := messages]))) == Err(ServerError)
  {
    var body := map["messages" := messages];
    assert "model" !in body && "thinking_mode" !in body;
  }

  /** With an explicit thinking mode the missing model reaches the check and is a 400. */
  lemma MissingModelWithExplicitThinking(messages: Json)
    ensures var body := map["messages" := messages, "thinking_mode" := Obj(map["enabled" := Bool(true)])];
      TakeIn(Some(Obj(body))) == Err(BadRequest(MissingModel))
  {
    var body := map["messages" := messages, "thinking_mode" := Obj(map["enabled" := Bool(true)])];
    assert "model" !in body;
    assert ExplicitThinking(body["thinking_mode"]);
  }

  /** An empty message list is a 400 for missing messages whatever the model. */
  lemma EmptyMessagesRejected(model: string)
    requires model != []
    ensures TakeIn(Some(Obj(map["model" := Str(model), "messages" := Arr([])]))) == Err(BadRequest(MissingMessages))
  {
    var body := map["model" := Str(model), "messages" := Arr([])];
    assert "thinking_mode" !in body;
    assert Get(body, "model", Null) == Str(model);
  }

  /**
   * Every thinking variant the catalogue advertises is accepted: its name
   * turns thinking on and addresses the upstream with the model's own name.
   */
  lemma AdvertisedVariantsResolve(k: nat, messages: Json)
    requires k < |ThinkingCapable| && Truthy(messages)
    ensures var r := TakeIn(Some(Obj(map["model" := Str(ThinkingCapable[k] + Suffix), "messages" := messages])));
      r.Ok? && r.value.resolution.thinking.enabled && r.value.resolution.baseModel == Str(ThinkingCapable[k])
  {
    var name := ThinkingCapable[k];
    var body := map["model" := Str(name + Suffix), "messages" := messages];
    assert "thinking_mode" !in body;
    assert NoDashT(name);
    SuffixedNameResolves(name, Obj(map[]));
  }

  /**
   * When the request turns thinking on and no message's feature config
   * holds `thinking_enabled`, translation succeeds and every message sent
   * upstream has thinking switched on.
   */
  lemma ThinkingReachesEveryMessage(req: Intake, chatId: Json, w: World)
    requires req.resolution.thinking.enabled && Dicts(req.messages).Some?
    requires forall k :: 0 <= k < |Dicts(req.messages).value| ==> KeepsFlag(Dicts(req.messages).value[k])
    ensures Prepare(req, chatId, w).Ok?
    ensures var ms := Prepare(req, chatId, w).value.messages;
      forall k :: 0 <= k < |ms| ==>
        ms[k].featureConfig.Obj? && "thinking_enabled" in ms[k].featureConfig.fields
        && ms[k].featureConfig.fields["thinking_enabled"] == Bool(true)
  {
    var msgs := Dicts(req.messages).value;
    var base := req.resolution.baseModel;
    FlagUntouched(msgs, Bool(true), w.ids, w.nowSeconds, base);
  }

  /**
   * The upstream body of a translated request: the constant envelope fields,
   * the base model, one upstream message per request message in order, each
   * addressed to the base model and stamped with the request's timestamp.
   */
  lemma EnvelopeShape(req: Intake, chatId: Json, w: World)
    requires Prepare(req, chatId, w).Ok?
    ensures var j := EnvelopeJson(Prepare(req, chatId, w).value);
      j.Obj? && j.fields["incremental_output"] == Bool(true) && j.fields["chat_mode"] == Str("normal")
      && j.fields["parent_id"] == Null && j.fields["model"] == req.resolution.baseModel
      && j.fields["chat_id"] == chatId && j.fields["stream"] == req.stream
      && j.fields["timestamp"] == Int(w.nowSeconds)
    ensures var items := EnvelopeJson(Prepare(req, chatId, w).value).fields["messages"];
      var msgs := Dicts(req.messages).value;
      items.Arr? && |items.items| == |msgs|
      && forall k :: 0 <= k < |msgs| ==>
        items.items[k].Obj? && items.items[k].fields["models"] == Arr([req.resolution.baseModel])
        && items.items[k].fields["timestamp"] == Int(w.nowSeconds)
        && items.items[k].fields["role"] == Get(msgs[k], "role", Str("user"))
        && items.items[k].fields["content"] == Get(msgs[k], "content", Str(""))
  {
    var e := Prepare(req, chatId, w).value;
    var msgs := Dicts(req.messages).value;
    EnvelopeFields(e);
    var items := EnvelopeJson(e).fields["messages"].items;
    assert |items| == |e.messages| == |msgs|;
    forall k | 0 <= k < |msgs|
      ensures items[k].Obj? && items[k].fields["models"] == Arr([req.resolution.baseModel])
        && items[k].fields["timestamp"] == Int(w.nowSeconds)
        && items[k].fields["role"] == Get(msgs[k], "role", Str("user"))
        && items[k].fields["content"] == Get(msgs[k], "content", Str(""))
    {
      assert items[k] == MessageJson(e.messages[k]);
      MessageFields(e.messages[k]);
    }
  }

  lemma EnvelopeFields(e: Envelope)
    ensures var j := EnvelopeJson(e);
      j.Obj? && j.fields["incremental_output"] == Bool(true) && j.fields["chat_mode"] == Str("normal")
      && j.fields["parent_id"] == Null && j.fields["model"] == e.model
      && j.fields["chat_id"] == e.chatId && j.fields["stream"] == e.stream
      && j.fields["timestamp"] == Int(e.timestamp)
      && j.fields["messages"].Arr? && |j.fields["messages"].items| == |e.messages|
      && forall k :: 0 <= k < |e.messages| ==> j.fields["messages"].items[k] == MessageJson(e.messages[k])
  {
  }

  lemma MessageFields(m: Message)
    ensures var j := MessageJson(m);
      j.Obj? && j.fields["models"] == Arr([m.model]) && j.fields["timestamp"] == Int(m.timestamp)
      && j.fields["role"] == m.role && j.fields["content"] == m.content
  {
  }
}
