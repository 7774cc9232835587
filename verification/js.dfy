/**
 * The small slice of JavaScript value semantics that the two pages rely on:
 * `null`/`undefined` as an absent value, the truthiness of strings, the `||`
 * operator on strings, and `String.prototype.trim`.
 */
module Js {

  /** A value that may be `null` or `undefined` (None) or present (Some). */
  datatype Option<+T> = None | Some(value: T)

  /** JavaScript truthiness of a string: only the empty string is falsy. */
  predicate IsTruthy(s: string) {
    s != ""
  }

  /** Truthiness of a possibly absent string (`null`, `undefined` and `''` are falsy). */
  predicate IsTruthyOpt(s: Option<string>) {
    s.Some? && IsTruthy(s.value)
  }

  /** The string operator `a || b`: `a` when it is truthy, otherwise `b`. */
  function Or(a: string, b: string): (r: string)
    ensures IsTruthy(a) ==> r == a
    ensures !IsTruthy(a) ==> r == b
    ensures IsTruthy(r) <==> IsTruthy(a) || IsTruthy(b)
  {
    if IsTruthy(a) then a else b
  }

  /**
   * The characters `String.prototype.trim` removes: the ECMAScript
   * WhiteSpace code points (TAB, VT, FF, ZWNBSP and the Unicode category Zs)
   * and the LineTerminator code points (LF, CR, LS, PS).
   */
  const Whitespace: set<char> := {
    '\t', '\n', '\U{000B}', '\U{000C}', '\r', '\U{2028}', '\U{2029}', '\U{FEFF}',
    ' ', '\U{00A0}', '\U{1680}', '\U{2000}', '\U{2001}', '\U{2002}', '\U{2003}', '\U{2004}',
    '\U{2005}', '\U{2006}', '\U{2007}', '\U{2008}', '\U{2009}', '\U{200A}', '\U{202F}',
    '\U{205F}', '\U{3000}'
  }

  predicate IsWhitespace(c: char) {
    c in Whitespace
  }

  predicate AllWhitespace(s: string) {
    forall k :: 0 <= k < |s| ==> IsWhitespace(s[k])
  }

  /** A string with no whitespace at either end (what `trim` returns). */
  predicate IsTrimmed(s: string) {
    s == [] || (!IsWhitespace(s[0]) && !IsWhitespace(s[|s| - 1]))
  }

  /** The number of whitespace characters `s` starts with. */
  function LeadingWhitespace(s: string): (n: nat)
    ensures n <= |s|
    ensures AllWhitespace(s[..n])
    ensures n < |s| ==> !IsWhitespace(s[n])
  {
    if |s| > 0 && IsWhitespace(s[0]) then
      var n := 1 + LeadingWhitespace(s[1..]);
      assert forall k :: 1 <= k < n ==> s[k] == s[1..][k - 1];
      n
    else
      0
  }

  /** The length of `s` once its trailing whitespace is dropped. */
  function WithoutTrailingWhitespace(s: string): (n: nat)
    ensures n <= |s|
    ensures AllWhitespace(s[n..])
    ensures n > 0 ==> !IsWhitespace(s[n - 1])
  {
    if |s| > 0 && IsWhitespace(s[|s| - 1]) then
      var n := WithoutTrailingWhitespace(s[..|s| - 1]);
      assert forall k :: n <= k < |s| - 1 ==> s[k] == s[..|s| - 1][k];
      n
    else
      |s|
  }

  /**
   * `r` is what `s.trim()` gives: the infix of `s` that follows its leading
   * whitespace and has no whitespace at either end, where everything removed
   * before and after it is whitespace (so it is empty exactly when `s` is all
   * whitespace), and `s` itself when `s` has no whitespace at either end.
   */
  ghost predicate IsTrimOf(s: string, r: string) {
    && IsTrimmed(r)
    && (var i := LeadingWhitespace(s);
        && i + |r| <= |s| && r == s[i..i + |r|]
        && AllWhitespace(s[..i]) && AllWhitespace(s[i + |r|..]))
    && (r == [] <==> AllWhitespace(s))
    && (IsTrimmed(s) ==> r == s)
  }

  /** `s.trim()`: the leading whitespace dropped, then the trailing whitespace. */
  function Trim(s: string): (r: string)
    ensures IsTrimOf(s, r)
  {
    var i := LeadingWhitespace(s);
    s[i..i + WithoutTrailingWhitespace(s[i..])]
  }

  /** Trimming twice is trimming once. */
  lemma TrimIdempotent(s: string)
    ensures Trim(Trim(s)) == Trim(s)
  {
  }
}
