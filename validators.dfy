/** `ConfigValidator` of app/validators.py. */
module Validators {
  import opened Text
  import opened PyJson

  /** The fields every token group must carry, in the order they are checked. */
  const RequiredFields: seq<string> := ["token", "bx_ua", "bx_umidtoken"]

  /** The field is present, is a `str`, and is not blank after `strip()`. */
  predicate FieldValid(group: TokenGroup, field: string)
  {
    field in group && group[field].Str? && !IsBlank(group[field].s)
  }

  /** What `validate_token_group` accepts. */
  predicate GroupValid(group: TokenGroup)
  {
    forall k :: 0 <= k < |RequiredFields| ==> FieldValid(group, RequiredFields[k])
  }

  /**
   * `validate_token_group`: checks the required fields in order and returns
   * false at the first that is missing, not a string, or blank. The JWT shape
   * of the token is only reported, so it has no bearing on the answer.
   */
  method ValidateTokenGroup(group: TokenGroup) returns (ok: bool)
    ensures ok <==> GroupValid(group)
  {
    var k := 0;
    while k < |RequiredFields|
      invariant 0 <= k <= |RequiredFields|
      invariant forall j :: 0 <= j < k ==> FieldValid(group, RequiredFields[j])
    {
      var field := RequiredFields[k];
      if field !in group {
        return false;
      }
      if !group[field].Str? || IsBlank(group[field].s) {
        return false;
      }
      k := k + 1;
    }
    return true;
  }

  /**
   * `validate_token_groups`: false for an empty list, otherwise true exactly
   * when at least one group passes `validate_token_group`.
   */
  method ValidateTokenGroups(groups: seq<TokenGroup>) returns (ok: bool)
    ensures ok <==> groups != [] && exists i :: 0 <= i < |groups| && GroupValid(groups[i])
  {
    if groups == [] {
      return false;
    }
    var validCount := 0;
    var i := 0;
    while i < |groups|
      invariant 0 <= i <= |groups|
      invariant validCount <= i
      invariant validCount > 0 <==> exists j :: 0 <= j < i && GroupValid(groups[j])
    {
      var groupOk := ValidateTokenGroup(groups[i]);
      ghost var before := exists j :: 0 <= j < i && GroupValid(groups[j]);
      assert (exists j :: 0 <= j < i + 1 && GroupValid(groups[j])) <==> before || GroupValid(groups[i]);
      if groupOk {
        validCount := validCount + 1;
      }
      i := i + 1;
    }
    return validCount != 0;
  }

  /**
   * `validate_port`: an `int` (a `bool` counts as one) in 1..65535; ports
   * below 1024 are accepted with a warning.
   */
  function ValidatePort(port: Json): (ok: bool)
    ensures ok <==> AsInt(port).Some? && 1 <= AsInt(port).value <= 65535
    ensures ok && port.Int? && port.i < 1024 ==> 1 <= port.i
  {
    match port
    case Int(n) => 1 <= n && n <= 65535
    case Bool(b) => b
    case _ => false
  }

  /** The scheme part of the URL pattern, which is matched ignoring case. */
  predicate HasHttpScheme(s: string)
  {
    StartsWith(Lower(s), "http://") || StartsWith(Lower(s), "https://")
  }

  /**
   * The checks of `validate_url` that precede the host, port and path part
   * of its pattern: a non-blank `str` whose first characters are an
   * `http://` or `https://` scheme in any letter case. The pattern is matched
   * against the unstripped string, so leading whitespace is rejected.
   */
  function UrlPrecheck(url: Json): (ok: bool)
    ensures ok ==> url.Str? && !IsBlank(url.s)
    ensures ok ==> url.s != [] && (url.s[0] == 'h' || url.s[0] == 'H') && !IsSpace(url.s[0])
    ensures url.Str? && (StartsWith(url.s, "http://") || StartsWith(url.s, "https://")) ==> ok
  {
    match url
    case Str(s) =>
      if IsBlank(s) then false
      else
        var ok := HasHttpScheme(s);
        assert ok ==> Lower(s)[0] == 'h';
        LowerKeepsPrefix(s, "http://");
        LowerKeepsPrefix(s, "https://");
        ok
    case _ => false
  }

  /** Lower-casing keeps a prefix that has no capitals. */
  lemma LowerKeepsPrefix(s: string, prefix: string)
    requires forall i :: 0 <= i < |prefix| ==> !('A' <= prefix[i] <= 'Z')
    ensures StartsWith(s, prefix) ==> StartsWith(Lower(s), prefix)
  {
    if StartsWith(s, prefix) {
      assert forall i :: 0 <= i < |prefix| ==> Lower(s)[i] == prefix[i];
    }
  }

  const Levels: seq<string> := ["DEBUG", "INFO", "WARNING", "ERROR", "CRITICAL"]

  /** `s` spells `level` with each letter in upper or lower case. */
  predicate SpellsIgnoringCase(s: string, level: string)
  {
    |s| == |level| && forall i :: 0 <= i < |s| ==> s[i] == level[i] || s[i] == LowerChar(level[i])
  }

  /** `validate_log_level`: the upper-cased value is one of the five level names. */
  function ValidateLogLevel(level: string): (ok: bool)
    ensures ok <==> exists k :: 0 <= k < |Levels| && SpellsIgnoringCase(level, Levels[k])
  {
    forall k | 0 <= k < |Levels| ensures Upper(level) == Levels[k] <==> SpellsIgnoringCase(level, Levels[k]) {
      UpperMatchesLevel(level, Levels[k]);
    }
    Upper(level) in Levels
  }

  /** All characters of `s` are ASCII capitals. */
  predicate Capitals(s: string)
  {
    forall i :: 0 <= i < |s| ==> 'A' <= s[i] <= 'Z'
  }

  lemma UpperMatchesLevel(s: string, level: string)
    requires Capitals(level)
    ensures Upper(s) == level <==> SpellsIgnoringCase(s, level)
  {
    if Upper(s) == level {
      forall i | 0 <= i < |s| ensures s[i] == level[i] || s[i] == LowerChar(level[i]) {
        assert UpperChar(s[i]) == level[i];
      }
    }
    if SpellsIgnoringCase(s, level) {
      assert forall i :: 0 <= i < |s| ==> Upper(s)[i] == level[i];
    }
  }
}
