/** The few pieces of JavaScript semantics the handlers rely on: `null`able
    values, truthiness of strings, `a || b` on optional strings, and
    `String.prototype.trim`. */
module Js {

  /** A value that may be `null` or `undefined` (both behave alike here). */
  datatype Option<+T> = None | Some(value: T)

  /** Truthiness of a `string | null`: `null` and `""` are falsy, every other string is truthy. */
  predicate Present(o: Option<string>)
  {
    o.Some? && o.value != ""
  }

  /** `o || fallback` for an optional string. */
  function OrElse(o: Option<string>, fallback: string): string
  {
    if Present(o) then o.value else fallback
  }

  /** The characters `trim` strips: the ECMAScript WhiteSpace and LineTerminator code points. */
  predicate IsWhitespace(c: char)
  {
    c == '\t' || c == '\n' || c == '\U{000B}' || c == '\U{000C}' || c == '\r' || c == ' '
    || c == '\U{00A0}' || c == '\U{1680}' || ('\U{2000}' <= c <= '\U{200A}')
    || c == '\U{2028}' || c == '\U{2029}' || c == '\U{202F}' || c == '\U{205F}'
    || c == '\U{3000}' || c == '\U{FEFF}'
  }

  /** Drops the leading whitespace: the result is a suffix of `s` that does not start with whitespace. */
  function TrimStart(s: string): (r: string)
    ensures |r| <= |s| && r == s[|s| - |r|..]
    ensures r == [] || !IsWhitespace(r[0])
    ensures forall i :: 0 <= i < |s| - |r| ==> IsWhitespace(s[i])
  {
    if s != [] && IsWhitespace(s[0]) then TrimStart(s[1..]) else s
  }

  /** Drops the trailing whitespace: the result is a prefix of `s` that does not end with whitespace. */
  function TrimEnd(s: string): (r: string)
    ensures |r| <= |s| && r == s[..|r|]
    ensures r == [] || !IsWhitespace(r[|r| - 1])
    ensures forall i :: |r| <= i < |s| ==> IsWhitespace(s[i])
  {
    if s != [] && IsWhitespace(s[|s| - 1]) then TrimEnd(s[..|s| - 1]) else s
  }

  /** `s.trim()`: empty exactly when every character of `s` is whitespace. */
  function Trim(s: string): (r: string)
    ensures |r| <= |s|
    ensures r == [] <==> forall i :: 0 <= i < |s| ==> IsWhitespace(s[i])
    ensures r != [] ==> !IsWhitespace(r[0]) && !IsWhitespace(r[|r| - 1])
  {
    TrimEnd(TrimStart(s))
  }

  /** Every character of `s` is whitespace, one character at a time. */
  predicate Blank(s: string)
  {
    s == [] || (IsWhitespace(s[0]) && Blank(s[1..]))
  }

  /** `Blank` is `!s.trim()`: the string is blank exactly when trimming leaves nothing. */
  lemma {:induction false} BlankIsTrimEmpty(s: string)
    ensures Blank(s) <==> Trim(s) == []
  {
    if s != [] {
      BlankIsTrimEmpty(s[1..]);
      assert Trim(s[1..]) == [] <==> forall i :: 1 <= i < |s| ==> IsWhitespace(s[i]);
    }
  }
}
