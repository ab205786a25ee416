/**
 * What the gateway sends back: the server-sent event stream of a
 * streaming completion (`generate_stream`) and the OpenAI-shaped model
 * catalogue built from the upstream model list (`list_models`).
 */
module Responses {
  import opened Wrappers
  import opened PyJson
  import opened Text
  import opened Upstream

  /** The terminal event, always sent last. */
  const Done: string := "data: [DONE]\n\n"

  /** The synthetic event for an error; `quoted` is the message already JSON-encoded. */
  function ErrorEvent(quoted: string): string
  {
    "data: {\"error\": " + quoted + "}\n\n"
  }

  /**
   * The events of a streaming response: the upstream events in order, one
   * error event when the upstream stream failed, and the terminal event.
   */
  function StreamBody(events: seq<string>, failure: Option<string>): (out: seq<string>)
    ensures |out| == |events| + (if failure.Some? then 2 else 1)
    ensures out[..|events|] == events
    ensures out[|out| - 1] == Done
    ensures failure.Some? ==> out[|out| - 2] == ErrorEvent(failure.value)
  {
    events + (if failure.Some? then [ErrorEvent(failure.value)] else []) + [Done]
  }

  /** When no upstream event is itself the terminal one, the terminal event is sent exactly once. */
  lemma DoneOnce(events: seq<string>, failure: Option<string>)
    requires Done !in events
    ensures var out := StreamBody(events, failure);
      forall k :: 0 <= k < |out| ==> (out[k] == Done <==> k == |out| - 1)
  {
    var out := StreamBody(events, failure);
    forall k | 0 <= k < |out|
      ensures out[k] == Done <==> k == |out| - 1
    {
      if k < |events| {
        assert out[k] == events[k];
      } else if failure.Some? && k == |events| {
        assert out[k] == ErrorEvent(failure.value);
        assert out[k][..7] == "data: {";
        assert Done[..7] == "data: [";
      }
    }
  }

  /** `generate_stream`: forwards every event, then the error event if any, then the terminal event. */
  method GenerateStream(events: seq<string>, failure: Option<string>) returns (out: seq<string>)
    ensures out == StreamBody(events, failure)
  {
    out := [];
    var k := 0;
    while k < |events|
      invariant 0 <= k <= |events|
      invariant out == events[..k]
    {
      out := out + [events[k]];
      k := k + 1;
    }
    assert events[..|events|] == events;
    if failure.Some? {
      out := out + [ErrorEvent(failure.value)];
    }
    out := out + [Done];
  }

  /** An upstream answering the lines "a" and "b" and then closing normally. */
  lemma StreamTwoLines()
    ensures var (events, failure) := StreamOutcome(Opened(200, ["a", "b"], None));
      failure == None && StreamBody(events, None) == ["a\n\n", "b\n\n", Done]
  {
    var lines := ["a", "b"];
    assert lines[..1] == ["a"] && ["a"][..0] == [];
    assert "a"[0] == 'a' && "b"[0] == 'b';
    assert !IsBlank("a") && !IsBlank("b");
    assert "a" + "\n\n" == "a\n\n";
    assert Framed(["a"]) == ["a\n\n"];
    assert "b" + "\n\n" == "b\n\n";
    assert Framed(lines) == ["a\n\n", "b\n\n"];
  }

  /** An upstream stream cut after the line "a": the event, the error event, the terminal event. */
  lemma StreamCutAfterOneLine(message: string, quoted: string)
    ensures var (events, failure) := StreamOutcome(Opened(200, ["a"], Some(message)));
      failure == Some(Broken(message))
      && StreamBody(events, Some(quoted)) == ["a\n\n", ErrorEvent(quoted), Done]
  {
    assert ["a"][..0] == [];
    assert "a"[0] == 'a';
    assert !IsBlank("a");
    assert "a" + "\n\n" == "a\n\n";
    assert Framed(["a"]) == ["a\n\n"];
  }

  const Created: int := 1677610602

  /** The models for which a `-thinking` variant is advertised. */
  const ThinkingCapable: seq<string> := ["qwen3-coder-plus", "qwen3-coder-30b-a3b-instruct", "qwen3-235b-a22b"]

  /** `model_id in supported_models_for_thinking`. */
  predicate Capable(id: Json)
  {
    id.Str? && id.s in ThinkingCapable
  }

  /** One entry of the OpenAI-shaped catalogue. */
  function ModelEntry(id: Json): Json
  {
    Obj(map[
      "id" := id,
      "object" := Str("model"),
      "created" := Int(Created),
      "owned_by" := Str("qwen"),
      "permission" := Arr([])
    ])
  }

  function IdOf(model: Dict): Json
  {
    Get(model, "id", Str(""))
  }

  /** The entries for one upstream model: its own, then its thinking variant if it has one. */
  function EntriesFor(model: Dict): (es: seq<Json>)
    ensures 1 <= |es| <= 2 && es[0] == ModelEntry(IdOf(model))
    ensures |es| == 2 <==> Capable(IdOf(model))
    ensures |es| == 2 ==> es[1] == ModelEntry(Str(IdOf(model).s + "-thinking"))
  {
    var id := IdOf(model);
    [ModelEntry(id)] + (if Capable(id) then [ModelEntry(Str(id.s + "-thinking"))] else [])
  }

  /** The number of upstream models with a thinking variant. */
  function CapableCount(models: seq<Dict>): nat
  {
    if models == [] then 0
    else CapableCount(models[..|models| - 1]) + (if Capable(IdOf(models[|models| - 1])) then 1 else 0)
  }

  /** The catalogue: the entries of every upstream model, in upstream order. */
  function Catalogue(models: seq<Dict>): (es: seq<Json>)
    ensures |es| == |models| + CapableCount(models)
    decreases |models|
  {
    if models == [] then []
    else Catalogue(models[..|models| - 1]) + EntriesFor(models[|models| - 1])
  }

  /** `e` is the entry of `model` or its thinking variant. */
  predicate IsEntryOf(e: Json, model: Dict)
  {
    e == ModelEntry(IdOf(model)) || (Capable(IdOf(model)) && e == ModelEntry(Str(IdOf(model).s + "-thinking")))
  }

  /** `model` is listed at position `p`, followed by its thinking variant when it has one. */
  predicate ListedAt(es: seq<Json>, p: int, model: Dict)
  {
    0 <= p < |es| && es[p] == ModelEntry(IdOf(model))
    && (Capable(IdOf(model)) ==> p + 1 < |es| && es[p + 1] == ModelEntry(Str(IdOf(model).s + "-thinking")))
  }

  /** Every entry of the catalogue is an upstream model's own entry or the thinking variant of a capable one. */
  lemma {:induction false} CatalogueEntries(models: seq<Dict>)
    ensures forall e :: e in Catalogue(models) ==> exists k :: 0 <= k < |models| && IsEntryOf(e, models[k])
    decreases |models|
  {
    if models != [] {
      var init := models[..|models| - 1];
      CatalogueEntries(init);
      forall e | e in Catalogue(models)
        ensures exists k :: 0 <= k < |models| && IsEntryOf(e, models[k])
      {
        if e in Catalogue(init) {
          var k :| 0 <= k < |init| && IsEntryOf(e, init[k]);
          assert init[k] == models[k];
        } else {
          assert e in EntriesFor(models[|models| - 1]);
        }
      }
    }
  }

  /** Every upstream model has its own entry in the catalogue, followed by its thinking variant when capable. */
  lemma {:induction false} CatalogueComplete(models: seq<Dict>, k: nat)
    requires k < |models|
    ensures exists p :: ListedAt(Catalogue(models), p, models[k])
    decreases |models|
  {
    var init := models[..|models| - 1];
    var es := Catalogue(models);
    assert es == Catalogue(init) + EntriesFor(models[|models| - 1]);
    if k == |models| - 1 {
      var p := |Catalogue(init)|;
      assert es[p] == EntriesFor(models[k])[0];
      if Capable(IdOf(models[k])) {
        assert es[p + 1] == EntriesFor(models[k])[1];
      }
      assert ListedAt(es, p, models[k]);
    } else {
      CatalogueComplete(init, k);
      assert init[k] == models[k];
      var p :| ListedAt(Catalogue(init), p, init[k]);
      assert es[p] == Catalogue(init)[p];
      if Capable(IdOf(models[k])) {
        assert es[p + 1] == Catalogue(init)[p + 1];
      }
      assert ListedAt(es, p, models[k]);
    }
  }

  /** How `list_models` answers for a decoded upstream model list. */
  datatype Listing =
    | Reshaped(entries: seq<Json>)  // `{"object": "list", "data": entries}`
    | AsIs(answer: Json)            // the upstream answer, passed through
    | Fails                         // an exception while reshaping: HTTP 500

  /**
   * The shape test `"data" in d and "data" in d["data"]`, then the
   * reshaping of `d["data"]["data"]`, with Python's `in`, indexing and
   * iteration failing on values that do not support them.
   */
  function ListingOf(answer: Json): (r: Listing)
    ensures r.Reshaped? <==> (answer.Obj? && "data" in answer.fields && answer.fields["data"].Obj?
      && "data" in answer.fields["data"].fields && Dicts(answer.fields["data"].fields["data"]).Some?)
    ensures r.Reshaped? ==> r.entries == Catalogue(Dicts(answer.fields["data"].fields["data"]).value)
    ensures answer.Obj? && "data" !in answer.fields ==> r == AsIs(answer)
    ensures answer.Obj? && "data" in answer.fields && answer.fields["data"].Obj? && "data" !in answer.fields["data"].fields ==> r == AsIs(answer)
    ensures r.AsIs? ==> r.answer == answer
  {
    match In("data", answer)
    case None => Fails
    case Some(outer) =>
      if !outer then AsIs(answer)
      else if !answer.Obj? then Fails
      else
        var inner := answer.fields["data"];
        match In("data", inner)
        case None => Fails
        case Some(found) =>
          if !found then AsIs(answer)
          else if !inner.Obj? then Fails
          else
            match Dicts(inner.fields["data"])
            case None => Fails
            case Some(models) => Reshaped(Catalogue(models))
  }

  /** The JSON body of a reshaped catalogue. */
  function ListingJson(entries: seq<Json>): Json
  {
    Obj(map["object" := Str("list"), "data" := Arr(entries)])
  }

  /** The loop of `list_models` over the upstream models. */
  method BuildCatalogue(models: seq<Dict>) returns (entries: seq<Json>)
    ensures entries == Catalogue(models)
  {
    entries := [];
    var k := 0;
    while k < |models|
      invariant 0 <= k <= |models|
      invariant entries == Catalogue(models[..k])
    {
      assert models[..k + 1][..k] == models[..k];
      var id := IdOf(models[k]);
      entries := entries + [ModelEntry(id)];
      if Capable(id) {
        entries := entries + [ModelEntry(Str(id.s + "-thinking"))];
      }
      k := k + 1;
    }
    assert models[..|models|] == models;
  }

  /** The shape test and reshaping of `list_models`, on a decoded upstream answer. */
  method ReshapeModels(answer: Json) returns (r: Listing)
    ensures r == ListingOf(answer)
  {
    var outer := In("data", answer);
    if outer.None? {
      return Fails;
    }
    if !outer.value {
      return AsIs(answer);
    }
    if !answer.Obj? {
      return Fails;
    }
    var inner := answer.fields["data"];
    var found := In("data", inner);
    if found.None? {
      return Fails;
    }
    if !found.value {
      return AsIs(answer);
    }
    if !inner.Obj? {
      return Fails;
    }
    var models := Dicts(inner.fields["data"]);
    if models.None? {
      return Fails;
    }
    var entries := BuildCatalogue(models.value);
    return Reshaped(entries);
  }
}
