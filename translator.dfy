/**
 * The request translator of `chat_completions`: how the thinking mode and
 * the upstream model name are derived from an OpenAI-shaped request, the
 * request checks, the per-message translation into the upstream message
 * shape, the final thinking override and the upstream envelope.
 *
 * Identifiers come from an id generator `ids`, where `ids(n)` is the n-th
 * `uuid4()` of the request: number 0 is the request id, and message k
 * takes numbers 1 + 2k (its `fid`) and 2 + 2k (its child id).
 */
module Translator {
  import opened Wrappers
  import opened Text
  import opened PyJson

  /** How the handler fails: an HTTP error with status 400, 500 or 503. */
  datatype Fault =
    | BadRequest(detail: string)  // the request lacks something it needs
    | ServerError                 // any other exception raised while handling the request
    | Unavailable                 // no client could be handed out

  function FaultStatus(f: Fault): (code: int)
    ensures code in {400, 500, 503}
    ensures code == 400 <==> f.BadRequest?
    ensures code == 503 <==> f.Unavailable?
  {
    match f
    case BadRequest(_) => 400
    case ServerError => 500
    case Unavailable => 503
  }

  const MissingModel: string := "\U{7F3A}\U{5C11}model\U{53C2}\U{6570}"
  const MissingMessages: string := "\U{7F3A}\U{5C11}messages\U{53C2}\U{6570}"
  const MalformedBody: string := "\U{8BF7}\U{6C42}\U{6570}\U{636E}\U{683C}\U{5F0F}\U{9519}\U{8BEF}"

  const Suffix: string := "-thinking"

  /** The thinking settings of a request. */
  datatype Thinking = Thinking(enabled: bool, depth: Json, showReasoning: Json)

  /** The resolved thinking mode and the model name the upstream is addressed with. */
  datatype Resolution = Resolution(baseModel: Json, thinking: Thinking)

  /** `isinstance(thinking_mode, dict) and thinking_mode.get("enabled")`. */
  predicate ExplicitThinking(thinkingMode: Json)
  {
    thinkingMode.Obj? && Truthy(Get(thinkingMode.fields, "enabled", Null))
  }

  /**
   * The thinking mode and the base model. An explicit `thinking_mode` with
   * a truthy `enabled` wins and leaves the model name alone; otherwise a
   * `-thinking` anywhere in the lower-cased model name turns thinking on
   * and every exact (case-sensitive) `-thinking` is removed from the name.
   * A model that is not a string fails (`None.lower()` raises) unless the
   * explicit form applies.
   */
  function ResolveThinking(model: Json, thinkingMode: Json): (r: Option<Resolution>)
    ensures r.None? <==> !ExplicitThinking(thinkingMode) && !model.Str?
    ensures r.Some? && ExplicitThinking(thinkingMode) ==> r.value.thinking.enabled && r.value.baseModel == model
    ensures r.Some? && !ExplicitThinking(thinkingMode) ==>
      (r.value.thinking.enabled <==> Contains(Lower(model.s), Suffix))
    ensures r.Some? && !r.value.thinking.enabled ==> r.value.baseModel == model
    ensures r.Some? ==> r.value.baseModel.Str? == model.Str?
    ensures r.Some? && model.Str? ==> |r.value.baseModel.s| <= |model.s|
    ensures r.Some? && !ExplicitThinking(thinkingMode) && r.value.thinking.enabled ==>
      r.value.baseModel == Str(Replace(model.s, Suffix, ""))
    ensures r.Some? && !ExplicitThinking(thinkingMode) && Contains(model.s, Suffix) ==>
      r.value.thinking.enabled && |r.value.baseModel.s| < |model.s|
    ensures r.Some? && !(r.value.thinking.enabled && thinkingMode.Obj?) ==>
      r.value.thinking.depth == Str("normal") && r.value.thinking.showReasoning == Bool(false)
    ensures r.Some? && r.value.thinking.enabled && thinkingMode.Obj? ==>
      r.value.thinking.depth == Get(thinkingMode.fields, "depth", Str("normal"))
      && r.value.thinking.showReasoning == Get(thinkingMode.fields, "show_reasoning", Bool(false))
  {
    var name := if model.Str? then model.s else "";
    LowerKeepsContains(name, Suffix);
    RemoveShortens(name, Suffix);
    if !ExplicitThinking(thinkingMode) && !model.Str? then None
    else
      var enabled := ExplicitThinking(thinkingMode) || Contains(Lower(name), Suffix);
      var base := if ExplicitThinking(thinkingMode) || !enabled then model else Str(Replace(name, Suffix, ""));
      var thinking :=
        if enabled && thinkingMode.Obj? then
          Thinking(true, Get(thinkingMode.fields, "depth", Str("normal")), Get(thinkingMode.fields, "show_reasoning", Bool(false)))
        else Thinking(enabled, Str("normal"), Bool(false));
      Some(Resolution(base, thinking))
  }

  /** No `-` of `name` is directly followed by a `t`. */
  predicate NoDashT(name: string)
  {
    forall i :: 0 <= i < |name| - 1 ==> !(name[i] == '-' && name[i + 1] == 't')
  }

  /**
   * The advertised name `name + "-thinking"` of a model whose name has no
   * `-t` resolves to thinking mode on the model `name` itself.
   */
  lemma SuffixedNameResolves(name: string, thinkingMode: Json)
    requires NoDashT(name) && !ExplicitThinking(thinkingMode)
    ensures var r := ResolveThinking(Str(name + Suffix), thinkingMode);
      r.Some? && r.value.thinking.enabled && r.value.baseModel == Str(name)
  {
    var full := name + Suffix;
    forall i | 0 <= i < |name|
      ensures !StartsWith(full[i..], Suffix)
    {
      assert full[i] == name[i];
      if i + 1 < |name| {
        assert full[i + 1] == name[i + 1];
      } else {
        assert full[i + 1] == Suffix[0];
      }
      assert full[i..][0] == full[i] && full[i..][1] == full[i + 1];
      StartsWithHead(full[i..], Suffix);
    }
    RemoveTrailing(name, Suffix);
    var low := Lower(full);
    assert low[|name|..][..|Suffix|] == Suffix;
    ContainsAt(low, Suffix);
  }

  /** A text that starts with a pattern shares its first two characters. */
  lemma StartsWithHead(s: string, pattern: string)
    requires |pattern| >= 2 && |s| >= 2
    ensures StartsWith(s, pattern) ==> s[0] == pattern[0] && s[1] == pattern[1]
  {
    if StartsWith(s, pattern) {
      assert s[..|pattern|][0] == s[0] && s[..|pattern|][1] == s[1];
    }
  }

  /**
   * As written, the suffix test ignores case but the removal does not: an
   * upper-case suffix turns thinking on and still reaches the upstream.
   */
  lemma UpperCaseSuffixKept()
    ensures var r := ResolveThinking(Str("m-THINKING"), Null);
      r.Some? && r.value.thinking.enabled && r.value.baseModel == Str("m-THINKING")
  {
    var s := "m-THINKING";
    assert Lower(s)[1..][..|Suffix|] == Suffix;
    ContainsAt(Lower(s), Suffix);
    forall i | 0 <= i <= |s|
      ensures !StartsWith(s[i..], Suffix)
    {
      if i == 0 {
        assert s[..|Suffix|][1] != Suffix[1];
      } else if i == 1 {
        assert s[1..][..|Suffix|][1] != Suffix[1];
      }
    }
    ContainsAt(s, Suffix);
    ReplaceAbsent(s, Suffix, "");
  }

  /**
   * As written, the removal is not confined to the end of the name: every
   * `-thinking` inside the name goes.
   */
  lemma InnerSuffixRemoved()
    ensures var r := ResolveThinking(Str("a-thinking-b"), Null);
      r.Some? && r.value.thinking.enabled && r.value.baseModel == Str("a-b")
  {
    var s := "a-thinking-b";
    assert Contains(Lower(s), Suffix) by {
      assert Lower(s) == s;
      assert s[1..][..|Suffix|] == Suffix;
      ContainsAt(s, Suffix);
    }
    assert Replace(s, Suffix, "") == "a-b" by {
      assert s[..|Suffix|][0] != Suffix[0];
      assert s[1..][..|Suffix|] == Suffix;
      assert s[1..][|Suffix|..] == "-b";
      assert Replace("-b", Suffix, "") == "-b";
      assert Replace(s[1..], Suffix, "") == "-b";
    }
  }

  /**
   * The request checks, after the thinking resolution: a falsy model and
   * then falsy messages are rejected with 400.
   */
  function CheckRequest(model: Json, messages: Json): (r: Option<Fault>)
    ensures r.None? <==> Truthy(model) && Truthy(messages)
    ensures r.Some? ==> FaultStatus(r.value) == 400
    ensures !Truthy(model) ==> r == Some(BadRequest(MissingModel))
  {
    if !Truthy(model) then Some(BadRequest(MissingModel))
    else if !Truthy(messages) then Some(BadRequest(MissingMessages))
    else None
  }

  /** One translated message; the constant fields are added by `MessageJson`. */
  datatype Message = Message(fid: string, childId: string, role: Json, content: Json, timestamp: int, model: Json, featureConfig: Json)

  /** The `feature_config` kept for one message and the thinking flag after it. */
  datatype Step = Step(kept: Json, flag: Json)

  /**
   * The feature-config handling of one message: a falsy config is replaced
   * by one carrying the current flag; a config holding `thinking_enabled`
   * sets the flag to that value; `in` or indexing on a value that does not
   * support them fails.
   */
  function FeatureStep(flag: Json, msg: Dict): (r: Option<Step>)
    ensures var fc := Get(msg, "feature_config", Obj(map[]));
      !Truthy(fc) ==> r == Some(Step(Obj(map["thinking_enabled" := flag, "output_schema" := Str("phase")]), flag))
    ensures var fc := Get(msg, "feature_config", Obj(map[]));
      Truthy(fc) && r.Some? ==> r.value.kept == fc
    ensures var fc := Get(msg, "feature_config", Obj(map[]));
      fc.Obj? ==> r.Some? && r.value.flag == Get(fc.fields, "thinking_enabled", flag)
    ensures var fc := Get(msg, "feature_config", Obj(map[]));
      r.None? <==> Truthy(fc) && (In("thinking_enabled", fc).None? || (In("thinking_enabled", fc) == Some(true) && !fc.Obj?))
  {
    var fc := Get(msg, "feature_config", Obj(map[]));
    if !Truthy(fc) then
      Some(Step(Obj(map["thinking_enabled" := flag, "output_schema" := Str("phase")]), flag))
    else
      match In("thinking_enabled", fc)
      case None => None
      case Some(present) =>
        if !present then Some(Step(fc, flag))
        else if fc.Obj? then Some(Step(fc, fc.fields["thinking_enabled"]))
        else None
  }

  /** The translated messages of a request and the thinking flag after the last one. */
  datatype Translation = Translation(messages: seq<Message>, flag: Json)

  /**
   * The translation of `msgs`, with the thinking flag starting at `flag0`;
   * `None` when a message's feature config makes the handler fail.
   */
  function TranslateAll(msgs: seq<Dict>, flag0: Json, ids: nat -> string, now: int, base: Json): (r: Option<Translation>)
    ensures r.Some? ==> |r.value.messages| == |msgs|
    ensures r.Some? ==> forall k :: 0 <= k < |msgs| ==>
      var m := r.value.messages[k];
      m.fid == ids(1 + 2 * k) && m.childId == ids(2 + 2 * k) && m.model == base && m.timestamp == now
      && m.role == Get(msgs[k], "role", Str("user")) && m.content == Get(msgs[k], "content", Str(""))
    decreases |msgs|
  {
    if msgs == [] then Some(Translation([], flag0))
    else
      var k := |msgs| - 1;
      match TranslateAll(msgs[..k], flag0, ids, now, base)
      case None => None
      case Some(prefix) =>
        match FeatureStep(prefix.flag, msgs[k])
        case None => None
        case Some(step) =>
          Some(Translation(prefix.messages + [MessageAt(msgs[k], k, ids, now, base, step.kept)], step.flag))
  }

  /** Message number `k` of the request, with the feature config it keeps. */
  function MessageAt(msg: Dict, k: nat, ids: nat -> string, now: int, base: Json, kept: Json): Message
  {
    Message(ids(1 + 2 * k), ids(2 + 2 * k), Get(msg, "role", Str("user")), Get(msg, "content", Str("")), now, base, kept)
  }

  /** The translation of one more message extends the translation of the ones before it. */
  lemma TranslateNext(msgs: seq<Dict>, k: nat, flag0: Json, ids: nat -> string, now: int, base: Json, t: Translation, step: Step)
    requires k < |msgs|
    requires TranslateAll(msgs[..k], flag0, ids, now, base) == Some(t)
    requires FeatureStep(t.flag, msgs[k]) == Some(step)
    ensures TranslateAll(msgs[..k + 1], flag0, ids, now, base)
            == Some(Translation(t.messages + [MessageAt(msgs[k], k, ids, now, base, step.kept)], step.flag))
  {
    assert msgs[..k + 1][..k] == msgs[..k];
  }

  /** A message whose feature config fails makes the whole translation fail. */
  lemma TranslateStops(msgs: seq<Dict>, k: nat, flag0: Json, ids: nat -> string, now: int, base: Json, t: Translation)
    requires k < |msgs|
    requires TranslateAll(msgs[..k], flag0, ids, now, base) == Some(t)
    requires FeatureStep(t.flag, msgs[k]).None?
    ensures TranslateAll(msgs, flag0, ids, now, base).None?
  {
    assert msgs[..k + 1][..k] == msgs[..k];
    TranslateFailsOn(msgs, k + 1, flag0, ids, now, base);
  }

  /** Once a prefix fails, every longer prefix fails. */
  lemma {:induction false} TranslateFailsOn(msgs: seq<Dict>, n: nat, flag0: Json, ids: nat -> string, now: int, base: Json)
    requires n <= |msgs|
    requires TranslateAll(msgs[..n], flag0, ids, now, base).None?
    ensures TranslateAll(msgs, flag0, ids, now, base).None?
    decreases |msgs| - n
  {
    if n < |msgs| {
      assert msgs[..n + 1][..n] == msgs[..n];
      TranslateFailsOn(msgs, n + 1, flag0, ids, now, base);
    } else {
      assert msgs[..n] == msgs;
    }
  }

  /** Distinct ids from the generator give distinct message and child ids throughout. */
  lemma IdsDistinct(msgs: seq<Dict>, flag0: Json, ids: nat -> string, now: int, base: Json)
    requires forall a: nat, b: nat :: a != b ==> ids(a) != ids(b)
    requires TranslateAll(msgs, flag0, ids, now, base).Some?
    ensures var ms := TranslateAll(msgs, flag0, ids, now, base).value.messages;
      forall j, k :: 0 <= j < |ms| && 0 <= k < |ms| ==>
        ms[j].fid != ms[k].childId && (j != k ==> ms[j].fid != ms[k].fid && ms[j].childId != ms[k].childId)
  {
    var ms := TranslateAll(msgs, flag0, ids, now, base).value.messages;
    forall j, k | 0 <= j < |ms| && 0 <= k < |ms|
      ensures ms[j].fid != ms[k].childId && (j != k ==> ms[j].fid != ms[k].fid && ms[j].childId != ms[k].childId)
    {
      assert 1 + 2 * j != 2 + 2 * k;
    }
  }

  /** A message whose feature config is falsy, or a dictionary without `thinking_enabled`. */
  predicate KeepsFlag(msg: Dict)
  {
    var fc := Get(msg, "feature_config", Obj(map[]));
    !Truthy(fc) || (fc.Obj? && "thinking_enabled" !in fc.fields)
  }

  /** Such a message passes the flag on unchanged and keeps a dictionary as its feature config. */
  lemma KeepsFlagStep(flag: Json, msg: Dict)
    requires KeepsFlag(msg)
    ensures FeatureStep(flag, msg).Some?
    ensures FeatureStep(flag, msg).value.flag == flag && FeatureStep(flag, msg).value.kept.Obj?
  {
  }

  /**
   * When no message's feature config holds `thinking_enabled`, the flag
   * after the loop is the one it started with, and every message keeps a
   * dictionary as its feature config.
   */
  lemma {:induction false} FlagUntouched(msgs: seq<Dict>, flag0: Json, ids: nat -> string, now: int, base: Json)
    requires forall k :: 0 <= k < |msgs| ==> KeepsFlag(msgs[k])
    ensures TranslateAll(msgs, flag0, ids, now, base).Some?
    ensures TranslateAll(msgs, flag0, ids, now, base).value.flag == flag0
    ensures forall k :: 0 <= k < |msgs| ==> TranslateAll(msgs, flag0, ids, now, base).value.messages[k].featureConfig.Obj?
    decreases |msgs|
  {
    if msgs != [] {
      var k := |msgs| - 1;
      var init := msgs[..k];
      forall j | 0 <= j < |init|
        ensures KeepsFlag(init[j])
      {
        assert init[j] == msgs[j];
      }
      FlagUntouched(init, flag0, ids, now, base);
      var prefix := TranslateAll(init, flag0, ids, now, base).value;
      KeepsFlagStep(prefix.flag, msgs[k]);
      var step := FeatureStep(prefix.flag, msgs[k]).value;
      var out := prefix.messages + [MessageAt(msgs[k], k, ids, now, base, step.kept)];
      assert TranslateAll(msgs, flag0, ids, now, base) == Some(Translation(out, flag0));
      forall j | 0 <= j < |msgs|
        ensures out[j].featureConfig.Obj?
      {
        if j < k {
          assert out[j] == prefix.messages[j];
        }
      }
    }
  }

  /** The body of the message loop: the feature config of one message. */
  method FeatureConfig(flag: Json, msg: Dict) returns (r: Option<Step>)
    ensures r == FeatureStep(flag, msg)
  {
    var fc := Get(msg, "feature_config", Obj(map[]));
    var next := flag;
    if !Truthy(fc) {
      fc := Obj(map["thinking_enabled" := flag, "output_schema" := Str("phase")]);
    } else {
      var present := In("thinking_enabled", fc);
      if present.None? {
        return None;
      }
      if present.value {
        if !fc.Obj? {
          return None;
        }
        next := fc.fields["thinking_enabled"];
      }
    }
    return Some(Step(fc, next));
  }

  /** The loop over the request messages of `chat_completions`. */
  method TranslateMessages(msgs: seq<Dict>, flag0: Json, ids: nat -> string, now: int, base: Json)
    returns (r: Option<Translation>)
    ensures r == TranslateAll(msgs, flag0, ids, now, base)
  {
    var out: seq<Message> := [];
    var flag := flag0;
    var k := 0;
    while k < |msgs|
      invariant 0 <= k <= |msgs|
      invariant TranslateAll(msgs[..k], flag0, ids, now, base) == Some(Translation(out, flag))
    {
      var step := FeatureConfig(flag, msgs[k]);
      if step.None? {
        TranslateStops(msgs, k, flag0, ids, now, base, Translation(out, flag));
        return None;
      }
      TranslateNext(msgs, k, flag0, ids, now, base, Translation(out, flag), step.value);
      out := out + [MessageAt(msgs[k], k, ids, now, base, step.value.kept)];
      flag := step.value.flag;
      k := k + 1;
    }
    assert msgs[..|msgs|] == msgs;
    return Some(Translation(out, flag));
  }

  /** The final pass for one message: `feature_config["thinking_enabled"] = True`. */
  function ForceFeature(fc: Json): (r: Option<Json>)
    ensures r.Some? <==> fc.Obj?
    ensures r.Some? ==> r.value.Obj? && r.value.fields.Keys == fc.fields.Keys + {"thinking_enabled"}
    ensures r.Some? ==> r.value.fields["thinking_enabled"] == Bool(true)
    ensures r.Some? ==> forall key :: key in fc.fields && key != "thinking_enabled" ==> r.value.fields[key] == fc.fields[key]
  {
    if fc.Obj? then Some(Obj(fc.fields["thinking_enabled" := Bool(true)])) else None
  }

  /** The final pass over all messages; `None` when one config does not take item assignment. */
  function ForceAll(ms: seq<Message>): (r: Option<seq<Message>>)
    ensures r.Some? <==> forall k :: 0 <= k < |ms| ==> ms[k].featureConfig.Obj?
    ensures r.Some? ==> |r.value| == |ms|
    ensures r.Some? ==> forall k :: 0 <= k < |ms| ==>
      r.value[k] == ms[k].(featureConfig := ForceFeature(ms[k].featureConfig).value)
    decreases |ms|
  {
    if ms == [] then Some([])
    else
      var k := |ms| - 1;
      match ForceAll(ms[..k])
      case None => None
      case Some(prefix) =>
        match ForceFeature(ms[k].featureConfig)
        case None => None
        case Some(fc) => Some(prefix + [ms[k].(featureConfig := fc)])
  }

  /** The final pass of `chat_completions`, run when the resulting flag is truthy. */
  method ForceThinking(ms: seq<Message>) returns (r: Option<seq<Message>>)
    ensures r == ForceAll(ms)
  {
    var out: seq<Message> := [];
    var k := 0;
    while k < |ms|
      invariant 0 <= k <= |ms|
      invariant ForceAll(ms[..k]) == Some(out)
    {
      assert ms[..k + 1][..k] == ms[..k];
      var fc := ms[k].featureConfig;
      if !fc.Obj? {
        return None;
      }
      out := out + [ms[k].(featureConfig := Obj(fc.fields["thinking_enabled" := Bool(true)]))];
      k := k + 1;
    }
    assert ms[..|ms|] == ms;
    return Some(out);
  }

  /**
   * The messages sent upstream: the translation, and the final pass when
   * the flag left by the loop is truthy.
   */
  function FinalMessages(t: Translation): (r: Option<seq<Message>>)
    ensures !Truthy(t.flag) ==> r == Some(t.messages)
    ensures Truthy(t.flag) ==> r == ForceAll(t.messages)
  {
    if Truthy(t.flag) then ForceAll(t.messages) else Some(t.messages)
  }

  /**
   * As written, a message's own `thinking_enabled: false` switches the final
   * override off, so a request with thinking on can send it switched off.
   */
  lemma MessageSwitchesThinkingOff(ids: nat -> string, now: int, base: Json)
    ensures var msg: Dict := map["feature_config" := Obj(map["thinking_enabled" := Bool(false)])];
      var t := TranslateAll([msg], Bool(true), ids, now, base);
      t.Some? && FinalMessages(t.value) == Some(t.value.messages)
      && t.value.messages[0].featureConfig == Obj(map["thinking_enabled" := Bool(false)])
  {
    var fc := Obj(map["thinking_enabled" := Bool(false)]);
    var msg: Dict := map["feature_config" := fc];
    assert Get(msg, "feature_config", Obj(map[])) == fc;
    assert "thinking_enabled" in fc.fields && fc.fields["thinking_enabled"] == Bool(false);
    assert Truthy(fc) && In("thinking_enabled", fc) == Some(true);
    assert FeatureStep(Bool(true), msg) == Some(Step(fc, Bool(false)));
    assert [msg][..0] == [] && [msg][0] == msg && [msg][..1] == [msg];
    var none: seq<Message> := [];
    var m := MessageAt(msg, 0, ids, now, base, fc);
    TranslateNext([msg], 0, Bool(true), ids, now, base, Translation(none, Bool(true)), Step(fc, Bool(false)));
    assert none + [m] == [m];
    assert TranslateAll([msg], Bool(true), ids, now, base) == Some(Translation([m], Bool(false)));
    assert !Truthy(Bool(false));
  }

  /** The upstream envelope of a completion request. */
  datatype Envelope = Envelope(stream: Json, chatId: Json, model: Json, messages: seq<Message>, timestamp: int)

  /** A message with the constant fields of the upstream message shape. */
  function MessageJson(m: Message): Json
  {
    Obj(map[
      "fid" := Str(m.fid),
      "parentId" := Null,
      "childrenIds" := Arr([Str(m.childId)]),
      "role" := m.role,
      "content" := m.content,
      "user_action" := Str("chat"),
      "files" := Arr([]),
      "timestamp" := Int(m.timestamp),
      "models" := Arr([m.model]),
      "chat_type" := Str("t2t"),
      "feature_config" := m.featureConfig,
      "extra" := Obj(map["meta" := Obj(map["subChatType" := Str("t2t")])]),
      "sub_chat_type" := Str("t2t"),
      "parent_id" := Null
    ])
  }

  /** The envelope with its constant fields. */
  function EnvelopeJson(e: Envelope): Json
  {
    Obj(map[
      "stream" := e.stream,
      "incremental_output" := Bool(true),
      "chat_id" := e.chatId,
      "chat_mode" := Str("normal"),
      "model" := e.model,
      "parent_id" := Null,
      "messages" := Arr(seq(|e.messages|, k requires 0 <= k < |e.messages| => MessageJson(e.messages[k]))),
      "timestamp" := Int(e.timestamp)
    ])
  }
}
