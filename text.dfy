/**
 * The operations of Python's `str` that the gateway relies on: `strip()`,
 * `split(sep)`, `lower()`, `upper()`, `startswith`, the `in` substring test
 * and `replace(pattern, replacement)`.
 */
module Text {

  /** Python's `str.isspace()` for a single character. */
  predicate IsSpace(c: char)
  {
    || ('\t' <= c <= '\r')                // \t \n \x0b \x0c \r
    || ('\U{1C}' <= c <= '\U{1F}')        // the four information separators
    || c == ' ' || c == '\U{85}' || c == '\U{A0}' || c == '\U{1680}'
    || ('\U{2000}' <= c <= '\U{200A}')
    || c == '\U{2028}' || c == '\U{2029}' || c == '\U{202F}' || c == '\U{205F}'
    || c == '\U{3000}'
  }

  /** Every character of `s` is whitespace. */
  predicate AllSpace(s: string)
  {
    forall i :: 0 <= i < |s| ==> IsSpace(s[i])
  }

  /** `s.lstrip()`: a suffix of `s`, empty exactly when `s` is all whitespace. */
  function TrimStart(s: string): (r: string)
    ensures |r| <= |s|
    ensures r == [] <==> AllSpace(s)
    ensures r != [] ==> !IsSpace(r[0])
  {
    if s != [] && IsSpace(s[0]) then TrimStart(s[1..]) else s
  }

  /** `s.rstrip()`: a prefix of `s`, empty exactly when `s` is all whitespace. */
  function TrimEnd(s: string): (r: string)
    ensures |r| <= |s|
    ensures r == [] <==> AllSpace(s)
    ensures r != [] ==> !IsSpace(r[|r| - 1])
  {
    if s != [] && IsSpace(s[|s| - 1]) then TrimEnd(s[..|s| - 1]) else s
  }

  /** `s.strip()`: empty exactly when every character of `s` is whitespace. */
  function Strip(s: string): (r: string)
    ensures r == [] <==> AllSpace(s)
    ensures r != [] ==> !IsSpace(r[0]) && !IsSpace(r[|r| - 1])
  {
    var t := TrimStart(s);
    assert t != [] ==> !AllSpace(t) by {
      if t != [] { assert !IsSpace(t[0]); }
    }
    var r := TrimEnd(t);
    TrimEndIsPrefix(t);
    assert r != [] ==> r[0] == t[0];
    r
  }

  lemma {:induction false} TrimStartIsSuffix(s: string)
    ensures TrimStart(s) == s[|s| - |TrimStart(s)|..]
    decreases |s|
  {
    if s != [] && IsSpace(s[0]) {
      TrimStartIsSuffix(s[1..]);
    }
  }

  lemma {:induction false} TrimEndIsPrefix(s: string)
    ensures TrimEnd(s) == s[..|TrimEnd(s)|]
    decreases |s|
  {
    if s != [] && IsSpace(s[|s| - 1]) {
      TrimEndIsPrefix(s[..|s| - 1]);
    }
  }

  /** `strip()` only removes characters. */
  lemma StripKeepsAbsent(s: string, c: char)
    requires c !in s
    ensures c !in Strip(s)
  {
    var t := TrimStart(s);
    TrimStartIsSuffix(s);
    assert forall i :: 0 <= i < |t| ==> t[i] == s[|s| - |t| + i];
    var r := TrimEnd(t);
    TrimEndIsPrefix(t);
    assert forall i :: 0 <= i < |r| ==> r[i] == t[i];
  }

  /** Python's `not s.strip()`, by the first postcondition of `Strip`. */
  predicate IsBlank(s: string)
  {
    AllSpace(s)
  }

  function LowerChar(c: char): char
  {
    if 'A' <= c <= 'Z' then (c as int + 32) as char else c
  }

  function UpperChar(c: char): char
  {
    if 'a' <= c <= 'z' then (c as int - 32) as char else c
  }

  /** `s.lower()` on the ASCII letters. */
  function Lower(s: string): (r: string)
    ensures |r| == |s|
    ensures forall i :: 0 <= i < |s| ==> r[i] == LowerChar(s[i])
  {
    seq(|s|, i requires 0 <= i < |s| => LowerChar(s[i]))
  }

  /** `s.upper()` on the ASCII letters. */
  function Upper(s: string): (r: string)
    ensures |r| == |s|
    ensures forall i :: 0 <= i < |s| ==> r[i] == UpperChar(s[i])
  {
    seq(|s|, i requires 0 <= i < |s| => UpperChar(s[i]))
  }

  /** `s.startswith(prefix)`. */
  predicate StartsWith(s: string, prefix: string)
  {
    |prefix| <= |s| && s[..|prefix|] == prefix
  }

  /** Python's `pattern in s`. */
  predicate Contains(s: string, pattern: string)
    decreases |s|
  {
    StartsWith(s, pattern) || (s != [] && Contains(s[1..], pattern))
  }

  /** `pattern in s` holds exactly when `pattern` starts at some position of `s`. */
  lemma {:induction false} ContainsAt(s: string, pattern: string)
    ensures Contains(s, pattern) <==> exists i :: 0 <= i <= |s| && StartsWith(s[i..], pattern)
    decreases |s|
  {
    if s != [] {
      ContainsAt(s[1..], pattern);
      if Contains(s[1..], pattern) {
        var i :| 0 <= i <= |s[1..]| && StartsWith(s[1..][i..], pattern);
        assert s[1..][i..] == s[i + 1..];
      }
      if !StartsWith(s, pattern) && exists i :: 0 <= i <= |s| && StartsWith(s[i..], pattern) {
        var i :| 0 <= i <= |s| && StartsWith(s[i..], pattern);
        assert s[0..] == s;
        assert i != 0;
        assert s[1..][i - 1..] == s[i..];
      }
    } else {
      assert s[0..] == s;
    }
  }

  /** An occurrence of a pattern without capitals survives lower-casing. */
  lemma LowerKeepsContains(s: string, pattern: string)
    requires forall i :: 0 <= i < |pattern| ==> !('A' <= pattern[i] <= 'Z')
    ensures Contains(s, pattern) ==> Contains(Lower(s), pattern)
  {
    if Contains(s, pattern) {
      ContainsAt(s, pattern);
      var i :| 0 <= i <= |s| && StartsWith(s[i..], pattern);
      var low := Lower(s);
      forall j | 0 <= j < |pattern|
        ensures low[i..][..|pattern|][j] == pattern[j]
      {
        assert s[i..][..|pattern|][j] == s[i + j];
      }
      assert low[i..][..|pattern|] == pattern;
      ContainsAt(low, pattern);
    }
  }

  /**
   * `s.replace(pattern, replacement)`: a single left-to-right scan that
   * replaces each non-overlapping occurrence of `pattern`.
   */
  function Replace(s: string, pattern: string, replacement: string): string
    requires pattern != []
    decreases |s|
  {
    if |s| < |pattern| then s
    else if s[..|pattern|] == pattern then replacement + Replace(s[|pattern|..], pattern, replacement)
    else [s[0]] + Replace(s[1..], pattern, replacement)
  }

  /** A string without an occurrence of the pattern is returned unchanged. */
  lemma {:induction false} ReplaceAbsent(s: string, pattern: string, replacement: string)
    requires pattern != []
    requires !Contains(s, pattern)
    ensures Replace(s, pattern, replacement) == s
    decreases |s|
  {
    if |s| >= |pattern| {
      ReplaceAbsent(s[1..], pattern, replacement);
      assert [s[0]] + s[1..] == s;
    }
  }

  /** A pattern longer than the text does not occur in it. */
  lemma {:induction false} ContainsFits(s: string, pattern: string)
    requires Contains(s, pattern)
    ensures |pattern| <= |s|
    decreases |s|
  {
    if !StartsWith(s, pattern) {
      ContainsFits(s[1..], pattern);
    }
  }

  /** Removing occurrences never lengthens a string, and shortens it whenever the pattern occurs. */
  lemma {:induction false} RemoveShortens(s: string, pattern: string)
    requires pattern != []
    ensures |Replace(s, pattern, "")| <= |s|
    ensures Contains(s, pattern) ==> |Replace(s, pattern, "")| < |s|
    decreases |s|
  {
    if Contains(s, pattern) {
      ContainsFits(s, pattern);
    }
    if |s| >= |pattern| {
      RemoveShortens(s[1..], pattern);
      RemoveShortens(s[|pattern|..], pattern);
    }
  }

  /**
   * Removing `pattern` from `b + pattern` gives back `b` when no occurrence
   * starts inside `b`.
   */
  lemma {:induction false} RemoveTrailing(b: string, pattern: string)
    requires pattern != []
    requires forall i :: 0 <= i < |b| ==> !StartsWith((b + pattern)[i..], pattern)
    ensures Replace(b + pattern, pattern, "") == b
    decreases |b|
  {
    if b == [] {
      assert (b + pattern)[..|pattern|] == pattern;
      assert (b + pattern)[|pattern|..] == [];
    } else {
      var s := b + pattern;
      assert !StartsWith(s[0..], pattern);
      assert s[0..] == s;
      assert s[1..] == b[1..] + pattern;
      forall i | 0 <= i < |b[1..]|
        ensures !StartsWith((b[1..] + pattern)[i..], pattern)
      {
        assert (b[1..] + pattern)[i..] == s[i + 1..];
      }
      RemoveTrailing(b[1..], pattern);
      assert [b[0]] + b[1..] == b;
    }
  }

  /** The number of occurrences of `c` in `s`. */
  function Count(s: string, c: char): nat
  {
    if s == [] then 0 else (if s[0] == c then 1 else 0) + Count(s[1..], c)
  }

  /**
   * `s.split(sep)`: the pieces between the separators, always at least one,
   * one more than the number of separators, none containing the separator;
   * the first piece is the text before the first separator.
   */
  function Split(s: string, sep: char): (r: seq<string>)
    ensures |r| == Count(s, sep) + 1
    ensures forall k :: 0 <= k < |r| ==> sep !in r[k]
    ensures |r[0]| <= |s| && r[0] == s[..|r[0]|]
    ensures |r[0]| < |s| ==> s[|r[0]|] == sep
    decreases |s|
  {
    if s == [] then [""]
    else
      var rest := Split(s[1..], sep);
      if s[0] == sep then [""] + rest
      else [[s[0]] + rest[0]] + rest[1..]
  }

  /** `sep.join(pieces)`. */
  function Join(pieces: seq<string>, sep: char): string
  {
    if pieces == [] then ""
    else if |pieces| == 1 then pieces[0]
    else pieces[0] + [sep] + Join(pieces[1..], sep)
  }

  /** Joining the pieces of a split with the same separator gives back the original text. */
  lemma {:induction false} JoinSplit(s: string, sep: char)
    ensures Join(Split(s, sep), sep) == s
    decreases |s|
  {
    if s != [] {
      var rest := Split(s[1..], sep);
      JoinSplit(s[1..], sep);
      var r := Split(s, sep);
      assert s == [s[0]] + s[1..];
      if s[0] == sep {
        assert r == [""] + rest;
        assert r[1..] == rest;
        assert Join(r, sep) == "" + [sep] + Join(rest, sep);
      } else {
        assert r == [[s[0]] + rest[0]] + rest[1..];
        if |rest| == 1 {
          assert Join(r, sep) == [s[0]] + rest[0];
        } else {
          assert r[1..] == rest[1..];
          assert Join(rest, sep) == rest[0] + [sep] + Join(rest[1..], sep);
          assert Join(r, sep) == ([s[0]] + rest[0]) + [sep] + Join(rest[1..], sep);
        }
      }
    }
  }
}
