/** The few JavaScript value rules the components branch on: truthiness of
    optional strings and ids, and `String.prototype.trim`. */
module JsText {
  import opened Wrappers

  /** An optional string is truthy when it is present and not `""`. */
  predicate TruthyText(s: Option<string>)
  {
    s.Some? && s.value != ""
  }

  /** An optional number (an id, a page) is truthy when it is present and
      not `0`. */
  predicate TruthyNumber(n: Option<int>)
  {
    n.Some? && n.value != 0
  }

  /** An optional list passes `list?.length > 0` when present and non-empty. */
  predicate NonEmptyList<T>(xs: Option<seq<T>>)
  {
    xs.Some? && |xs.value| > 0
  }

  /** The characters `trim` removes: ECMAScript WhiteSpace and LineTerminator. */
  predicate IsJsWhitespace(c: char)
  {
    || c == '\t' || c == '\n' || c == '\U{000B}' || c == '\U{000C}' || c == '\r'
    || c == ' ' || c == '\U{00A0}' || c == '\U{1680}'
    || ('\U{2000}' <= c <= '\U{200A}')
    || c == '\U{2028}' || c == '\U{2029}' || c == '\U{202F}' || c == '\U{205F}'
    || c == '\U{3000}' || c == '\U{FEFF}'
  }

  /** `s` with its leading whitespace removed. */
  function TrimStart(s: string): (r: string)
    ensures |r| <= |s| && r == s[|s| - |r|..]
    ensures r != [] ==> !IsJsWhitespace(r[0])
    ensures forall i :: 0 <= i < |s| - |r| ==> IsJsWhitespace(s[i])
  {
    if s != [] && IsJsWhitespace(s[0]) then TrimStart(s[1..]) else s
  }

  /** `s` with its trailing whitespace removed. */
  function TrimEnd(s: string): (r: string)
    ensures |r| <= |s| && r == s[..|r|]
    ensures r != [] ==> !IsJsWhitespace(r[|r| - 1])
    ensures forall i :: |r| <= i < |s| ==> IsJsWhitespace(s[i])
  {
    if s != [] && IsJsWhitespace(s[|s| - 1]) then TrimEnd(s[..|s| - 1]) else s
  }

  /** Every character of `s` is whitespace (vacuously so for `""`). */
  predicate IsBlank(s: string)
  {
    forall i :: 0 <= i < |s| ==> IsJsWhitespace(s[i])
  }

  /** `s.trim()`: `s` without its leading and trailing whitespace; it
      neither starts nor ends with whitespace, and it is empty exactly when
      `s` is all whitespace. */
  function Trim(s: string): (r: string)
    ensures r == "" <==> IsBlank(s)
    ensures r != "" ==> !IsJsWhitespace(r[0]) && !IsJsWhitespace(r[|r| - 1])
    ensures |r| <= |s|
  {
    TrimFacts(s);
    TrimEnd(TrimStart(s))
  }

  /** The two halves of `Trim` together: empty exactly for blank input,
      and a non-empty result starts with what `TrimStart` left first. */
  lemma TrimFacts(s: string)
    ensures TrimEnd(TrimStart(s)) == "" <==> IsBlank(s)
    ensures TrimEnd(TrimStart(s)) != "" ==> TrimEnd(TrimStart(s))[0] == TrimStart(s)[0]
  {
    var t := TrimStart(s);
    TrimStartBlank(s);
    TrimEndNonBlank(t);
    if t != "" {
      assert !IsJsWhitespace(t[0]);
    }
  }

  /** Leading whitespace is all there is exactly when `s` is blank. */
  lemma TrimStartBlank(s: string)
    ensures TrimStart(s) == "" <==> IsBlank(s)
  {
    var t := TrimStart(s);
    if t != "" {
      assert s[|s| - |t|] == t[0];
    }
  }

  /** Trimming the end of a string that starts with a non-whitespace
      character leaves that character. */
  lemma TrimEndNonBlank(t: string)
    ensures t != "" && !IsJsWhitespace(t[0]) ==> TrimEnd(t) != "" && TrimEnd(t)[0] == t[0]
  {
    var r := TrimEnd(t);
    if r != "" {
      assert r[0] == t[..|r|][0];
    }
  }
}
