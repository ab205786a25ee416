/**
 * `Config` of app/config.py: the token groups and the other settings, the
 * parsing of the `QWEN_TOKENS` environment value, the YAML overrides and
 * the validation that runs at start-up.
 */
module Settings {
  import opened Wrappers
  import opened Text
  import opened PyJson

  /** The YAML keys that override the attribute of the same name. */
  const YamlKeys: seq<string> :=
    ["qwen_api_base_url", "port", "qwen_bx_v", "qwen_source", "qwen_timezone", "log_level", "log_file"]

  /** The attribute values `Config.__init__` assigns, by attribute name. */
  function Defaults(): map<string, Json>
  {
    map[
      "qwen_api_base_url" := Str("https://chat.qwen.ai/api/v2"),
      "port" := Int(8220),
      "qwen_bx_v" := Str("2.5.31"),
      "qwen_source" := Str("web"),
      "qwen_timezone" := Str("Asia/Shanghai"),
      "log_level" := Str("DEBUG"),
      "log_file" := Str("logs/qwen_api.log"),
      "config_file" := Str("config.yaml")
    ]
  }

  /** The group one comma-separated piece of `QWEN_TOKENS` becomes. */
  function PieceGroup(piece: string): TokenGroup
  {
    map["token" := Str(Strip(Split(Strip(piece), '|')[0]))]
  }

  /**
   * The groups of a `QWEN_TOKENS` value in the comma/pipe form: one per
   * comma-separated piece, so one more than there are commas, each holding
   * only the stripped text before the piece's first `|`.
   */
  function PipeGroups(env: string): (groups: seq<TokenGroup>)
    ensures |groups| == Count(env, ',') + 1
  {
    var pieces := Split(env, ',');
    seq(|pieces|, k requires 0 <= k < |pieces| => PieceGroup(pieces[k]))
  }

  /** Every parsed group holds just a `token` string, free of `|` and `,`. */
  lemma PipeTokensClean(env: string)
    ensures forall k :: 0 <= k < |PipeGroups(env)| ==>
      var g := PipeGroups(env)[k];
      g.Keys == {"token"} && g["token"].Str? && '|' !in g["token"].s && ',' !in g["token"].s
  {
    var pieces := Split(env, ',');
    forall k | 0 <= k < |pieces|
      ensures '|' !in PieceGroup(pieces[k])["token"].s && ',' !in PieceGroup(pieces[k])["token"].s
    {
      var head := Split(Strip(pieces[k]), '|')[0];
      StripKeepsAbsent(head, '|');
      StripKeepsAbsent(pieces[k], ',');
      assert ',' !in head;
      StripKeepsAbsent(head, ',');
    }
  }

  /** Splitting text that ends in the separator gives an empty last piece. */
  lemma {:induction false} SplitTrailing(s: string, sep: char)
    ensures Split(s + [sep], sep) == Split(s, sep) + [""]
    decreases |s|
  {
    if s == [] {
      assert Split([sep], sep) == [""] + Split([], sep);
    } else {
      assert (s + [sep])[1..] == s[1..] + [sep];
      SplitTrailing(s[1..], sep);
    }
  }

  /** The group has a `token` key whose value is truthy. */
  predicate HasToken(group: TokenGroup)
  {
    "token" in group && Truthy(group["token"])
  }

  /** A trailing comma in `QWEN_TOKENS` yields a last group with an empty token. */
  lemma TrailingCommaGroup(env: string)
    ensures var groups := PipeGroups(env + ",");
      groups != [] && !HasToken(groups[|groups| - 1])
  {
    SplitTrailing(env, ',');
    var pieces := Split(env + ",", ',');
    assert pieces[|pieces| - 1] == "";
    assert Split(Strip(""), '|')[0] == "";
  }

  /** The list given in the YAML document under `qwen_token_groups`, when it is a list of mappings. */
  function YamlGroups(j: Json): Option<seq<TokenGroup>>
  {
    if j.Arr? && forall k :: 0 <= k < |j.items| ==> j.items[k].Obj?
    then Some(seq(|j.items|, k requires 0 <= k < |j.items| => j.items[k].fields))
    else None
  }

  /** The attribute `Config.token_groups` holds after the environment is read. */
  function EnvGroups(current: seq<TokenGroup>, tokensEnv: Option<string>, decoded: Option<seq<TokenGroup>>): seq<TokenGroup>
  {
    if current != [] then current
    else if tokensEnv.None? || tokensEnv.value == "" then current
    else if StartsWith(Strip(tokensEnv.value), "[") then
      (if decoded.Some? then decoded.value else current)
    else PipeGroups(tokensEnv.value)
  }

  /** The body of the parsing loop: the group of one comma-separated piece. */
  method ParsePiece(piece: string) returns (group: TokenGroup)
    ensures group == PieceGroup(piece)
  {
    var parts := Split(Strip(piece), '|');
    // `len(parts) >= 1` always holds: a split has at least one piece.
    group := map["token" := Str(Strip(parts[0]))];
  }

  /** The loop of `_load_token_groups_from_env` that builds one group per comma-separated piece. */
  method ParsePipeGroups(env: string) returns (groups: seq<TokenGroup>)
    ensures groups == PipeGroups(env)
  {
    var pieces := Split(env, ',');
    groups := [];
    var k := 0;
    while k < |pieces|
      invariant 0 <= k <= |pieces|
      invariant |groups| == k
      invariant forall j :: 0 <= j < k ==> groups[j] == PieceGroup(pieces[j])
    {
      var group := ParsePiece(pieces[k]);
      groups := groups + [group];
      k := k + 1;
    }
    assert |groups| == |PipeGroups(env)|;
  }

  /** The attributes after `setattr` for each key of `keys`, in order, that the document holds. */
  function Overrides(attrs: map<string, Json>, d: Dict, keys: seq<string>): map<string, Json>
  {
    if keys == [] then attrs
    else
      var before := Overrides(attrs, d, keys[..|keys| - 1]);
      var key := keys[|keys| - 1];
      if key in d then before[key := d[key]] else before
  }

  /**
   * Exactly the listed keys the document holds are overridden, each with the
   * document's value; every other attribute keeps its value.
   */
  lemma {:induction false} OverridesSpec(attrs: map<string, Json>, d: Dict, keys: seq<string>)
    ensures Overrides(attrs, d, keys).Keys == attrs.Keys + (set k | k in d && k in keys)
    ensures forall k :: k in d && k in keys ==> Overrides(attrs, d, keys)[k] == d[k]
    ensures forall k :: k in attrs && !(k in d && k in keys) ==> Overrides(attrs, d, keys)[k] == attrs[k]
    decreases |keys|
  {
    if keys != [] {
      var init := keys[..|keys| - 1];
      var key := keys[|keys| - 1];
      OverridesSpec(attrs, d, init);
      assert keys == init + [key];
      assert forall k :: k in keys <==> k in init || k == key;
      assert (set k | k in d && k in keys) == (set k | k in d && k in init) + (if key in d then {key} else {});
    }
  }

  class Config {
    var tokenGroups: seq<TokenGroup>
    /** Every other attribute, by its Python name; `setattr` replaces an entry. */
    var attrs: map<string, Json>

    constructor ()
      ensures tokenGroups == [] && attrs == Defaults()
    {
      tokenGroups := [];
      attrs := Defaults();
    }

    /**
     * `_load_token_groups_from_env`. `tokensEnv` is `os.getenv("QWEN_TOKENS")`;
     * `decoded` is what `json.loads` returns for it, or `None` when decoding
     * raises, which is logged and leaves the groups as they were.
     */
    method LoadTokenGroupsFromEnv(tokensEnv: Option<string>, decoded: Option<seq<TokenGroup>>)
      modifies this
      ensures attrs == old(attrs)
      ensures tokenGroups == EnvGroups(old(tokenGroups), tokensEnv, decoded)
    {
      if tokenGroups != [] {
        return;
      }
      if tokensEnv.Some? && tokensEnv.value != "" {
        var env := tokensEnv.value;
        if StartsWith(Strip(env), "[") {
          if decoded.Some? {
            tokenGroups := decoded.value;
          }
        } else {
          var groups := ParsePipeGroups(env);
          tokenGroups := groups;
        }
      }
    }

    /**
     * The override part of `_load_yaml_config`; `doc` is the loaded document,
     * or `None` when the file does not exist. The token groups are replaced
     * only by a present, non-empty list; each mapped key present in the
     * document replaces that attribute; nothing else changes.
     */
    method ApplyYaml(doc: Option<Dict>)
      requires doc.Some? && "qwen_token_groups" in doc.value && Truthy(doc.value["qwen_token_groups"])
               ==> YamlGroups(doc.value["qwen_token_groups"]).Some?
      modifies this
      ensures doc.None? ==> tokenGroups == old(tokenGroups) && attrs == old(attrs)
      ensures doc.Some? ==>
        tokenGroups == (if "qwen_token_groups" in doc.value && Truthy(doc.value["qwen_token_groups"])
                        then YamlGroups(doc.value["qwen_token_groups"]).value else old(tokenGroups))
      ensures doc.Some? ==> attrs.Keys == old(attrs).Keys + (set k | k in doc.value && k in YamlKeys)
      ensures doc.Some? ==> forall k :: k in doc.value && k in YamlKeys ==> attrs[k] == doc.value[k]
      ensures doc.Some? ==> forall k :: k in old(attrs) && !(k in doc.value && k in YamlKeys) ==> attrs[k] == old(attrs)[k]
    {
      if doc.None? {
        return;
      }
      var d := doc.value;
      if "qwen_token_groups" in d && Truthy(d["qwen_token_groups"]) {
        tokenGroups := YamlGroups(d["qwen_token_groups"]).value;
      }
      Override(d);
      OverridesSpec(old(attrs), d, YamlKeys);
    }

    /** The `setattr` loop of `_load_yaml_config` over the mapped keys. */
    method Override(d: Dict)
      modifies this
      ensures tokenGroups == old(tokenGroups)
      ensures attrs == Overrides(old(attrs), d, YamlKeys)
    {
      var k := 0;
      while k < |YamlKeys|
        invariant 0 <= k <= |YamlKeys|
        invariant tokenGroups == old(tokenGroups)
        invariant attrs == Overrides(old(attrs), d, YamlKeys[..k])
      {
        assert YamlKeys[..k + 1][..k] == YamlKeys[..k];
        var key := YamlKeys[k];
        if key in d {
          attrs := attrs[key := d[key]];
        }
        k := k + 1;
      }
      assert YamlKeys[..|YamlKeys|] == YamlKeys;
    }

    /**
     * `_validate_config`: an empty list passes (with a warning); otherwise it
     * fails, naming the 1-based position of the first group whose `token`
     * is missing or falsy.
     */
    method ValidateConfig() returns (r: Result<(), nat>)
      ensures r.Ok? <==> forall i :: 0 <= i < |tokenGroups| ==> HasToken(tokenGroups[i])
      ensures r.Err? ==> 1 <= r.error <= |tokenGroups| && !HasToken(tokenGroups[r.error - 1])
      ensures r.Err? ==> forall i :: 0 <= i < r.error - 1 ==> HasToken(tokenGroups[i])
    {
      if tokenGroups == [] {
        return Ok(());
      }
      var i := 0;
      while i < |tokenGroups|
        invariant 0 <= i <= |tokenGroups|
        invariant forall j :: 0 <= j < i ==> HasToken(tokenGroups[j])
      {
        var group := tokenGroups[i];
        if "token" !in group || !Truthy(group["token"]) {
          return Err(i + 1);
        }
        i := i + 1;
      }
      return Ok(());
    }

    /** `load_config` without the scalar environment overrides: environment tokens, YAML, validation. */
    method LoadConfig(tokensEnv: Option<string>, decoded: Option<seq<TokenGroup>>, doc: Option<Dict>)
      returns (r: Result<(), nat>)
      requires doc.Some? && "qwen_token_groups" in doc.value && Truthy(doc.value["qwen_token_groups"])
               ==> YamlGroups(doc.value["qwen_token_groups"]).Some?
      modifies this
      ensures r.Ok? <==> forall i :: 0 <= i < |tokenGroups| ==> HasToken(tokenGroups[i])
      ensures r.Err? ==> 1 <= r.error <= |tokenGroups| && !HasToken(tokenGroups[r.error - 1])
      ensures r.Err? ==> forall i :: 0 <= i < r.error - 1 ==> HasToken(tokenGroups[i])
      ensures doc.None? ==> tokenGroups == EnvGroups(old(tokenGroups), tokensEnv, decoded) && attrs == old(attrs)
      ensures doc.Some? ==>
        tokenGroups == (if "qwen_token_groups" in doc.value && Truthy(doc.value["qwen_token_groups"])
                        then YamlGroups(doc.value["qwen_token_groups"]).value
                        else EnvGroups(old(tokenGroups), tokensEnv, decoded))
      ensures doc.Some? ==> attrs.Keys == old(attrs).Keys + (set k | k in doc.value && k in YamlKeys)
      ensures doc.Some? ==> forall k :: k in doc.value && k in YamlKeys ==> attrs[k] == doc.value[k]
      ensures doc.Some? ==> forall k :: k in old(attrs) && !(k in doc.value && k in YamlKeys) ==> attrs[k] == old(attrs)[k]
    {
      LoadTokenGroupsFromEnv(tokensEnv, decoded);
      ApplyYaml(doc);
      r := ValidateConfig();
    }
  }
}
