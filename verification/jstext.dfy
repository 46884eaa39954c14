/**
 * The few JavaScript string operations the widget relies on, written out over
 * sequences of characters: `String.prototype.trim`, `split('-')[0]` and
 * `startsWith`.
 */
module JsText {

  /**
   * The characters `String.prototype.trim` strips: the ECMAScript WhiteSpace
   * set (tab, vertical tab, form feed, space, no-break space, byte-order mark
   * and every Unicode space separator) and the LineTerminator set.
   */
  predicate IsJsWhitespace(c: char)
  {
    || c == '\t' || c == '\n' || c == '\U{000B}' || c == '\U{000C}' || c == '\r'
    || c == ' ' || c == '\U{00A0}' || c == '\U{1680}'
    || ('\U{2000}' <= c <= '\U{200A}')
    || c == '\U{2028}' || c == '\U{2029}' || c == '\U{202F}' || c == '\U{205F}'
    || c == '\U{3000}' || c == '\U{FEFF}'
  }

  /** `s` with its leading whitespace removed. */
  function TrimStart(s: string): (r: string)
    ensures |r| <= |s| && r == s[|s| - |r|..]
    ensures forall i :: 0 <= i < |s| - |r| ==> IsJsWhitespace(s[i])
    ensures r != [] ==> !IsJsWhitespace(r[0])
  {
    if s != [] && IsJsWhitespace(s[0]) then TrimStart(s[1..]) else s
  }

  /** `s` with its trailing whitespace removed. */
  function TrimEnd(s: string): (r: string)
    ensures |r| <= |s| && r == s[..|r|]
    ensures forall i :: |r| <= i < |s| ==> IsJsWhitespace(s[i])
    ensures r != [] ==> !IsJsWhitespace(r[|r| - 1])
  {
    if s != [] && IsJsWhitespace(s[|s| - 1]) then TrimEnd(s[..|s| - 1]) else s
  }

  /**
   * `s.trim()`: the slice of `s` between its leading and its trailing
   * whitespace. It is empty exactly when `s` is all whitespace.
   */
  function Trim(s: string): (t: string)
    ensures t == [] <==> forall i :: 0 <= i < |s| ==> IsJsWhitespace(s[i])
    ensures t != [] ==> !IsJsWhitespace(t[0]) && !IsJsWhitespace(t[|t| - 1])
    ensures exists k :: StripsTo(s, t, k)
  {
    var front := TrimStart(s);
    var t := TrimEnd(front);
    assert t <= s[|s| - |front|..];
    assert StripsTo(s, t, |s| - |front|);
    if t == [] then
      t
    else
      assert t[0] == front[0];
      t
  }

  /** `s` is `k` whitespace characters, then `t`, then only whitespace. */
  predicate StripsTo(s: string, t: string, k: int)
  {
    && 0 <= k <= |s| - |t|
    && t == s[k..k + |t|]
    && (forall i :: 0 <= i < k ==> IsJsWhitespace(s[i]))
    && (forall i :: k + |t| <= i < |s| ==> IsJsWhitespace(s[i]))
  }

  /**
   * `s.split('-')[0]`: the text before the first `-`, or all of `s` when it
   * holds none. Its three postconditions determine the result.
   */
  function FirstDashField(s: string): (f: string)
    ensures f <= s
    ensures '-' !in f
    ensures |f| < |s| ==> s[|f|] == '-'
  {
    if s == [] || s[0] == '-' then [] else [s[0]] + FirstDashField(s[1..])
  }

  /** `s.startsWith(prefix)`. */
  predicate StartsWith(s: string, prefix: string)
  {
    prefix <= s
  }
}
