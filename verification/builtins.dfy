/**
 * The two JavaScript built-ins the wizard's rules depend on:
 * `Array.prototype.indexOf` and `String.prototype.trim`.
 */
module Builtins {

  /** `Array.prototype.indexOf`: the first position holding `x`, or -1 when there is none. */
  function ArrayIndexOf<T(==)>(xs: seq<T>, x: T): (r: int)
    ensures -1 <= r < |xs|
    ensures r == -1 <==> x !in xs
    ensures r >= 0 ==> xs[r] == x && forall j :: 0 <= j < r ==> xs[j] != x
  {
    if xs == [] then -1
    else if xs[0] == x then 0
    else
      var k := ArrayIndexOf(xs[1..], x);
      if k == -1 then -1 else k + 1
  }

  /**
   * The characters `trim` removes: ECMAScript's WhiteSpace (tab, vertical tab,
   * form feed, space, no-break space, the byte order mark and the other
   * space separators) and LineTerminator (LF, CR, U+2028, U+2029). None of
   * them is a visible ASCII character, and all lie in the Basic Multilingual
   * Plane, so each is one UTF-16 code unit.
   */
  predicate IsWhitespace(c: char)
    ensures IsWhitespace(c) ==> c < '\U{10000}' && !('!' <= c <= '~')
  {
    c == '\t' || c == '\n' || c == '\U{000B}' || c == '\U{000C}' || c == '\r' ||
    c == ' ' || c == '\U{00A0}' || c == '\U{1680}' || ('\U{2000}' <= c <= '\U{200A}') ||
    c == '\U{2028}' || c == '\U{2029}' || c == '\U{202F}' || c == '\U{205F}' ||
    c == '\U{3000}' || c == '\U{FEFF}'
  }

  /** `s` without its leading whitespace. */
  function TrimStart(s: string): (r: string)
    ensures |r| <= |s| && r == s[|s| - |r|..]
    ensures forall i :: 0 <= i < |s| - |r| ==> IsWhitespace(s[i])
    ensures r != [] ==> !IsWhitespace(r[0])
  {
    if s != [] && IsWhitespace(s[0]) then TrimStart(s[1..]) else s
  }

  /** `s` without its trailing whitespace. */
  function TrimEnd(s: string): (r: string)
    ensures |r| <= |s| && r == s[..|r|]
    ensures forall i :: |r| <= i < |s| ==> IsWhitespace(s[i])
    ensures r != [] ==> !IsWhitespace(r[|r| - 1])
  {
    if s != [] && IsWhitespace(s[|s| - 1]) then TrimEnd(s[..|s| - 1]) else s
  }

  /**
   * `String.prototype.trim`: `s` with the whitespace at both ends cut off. It
   * is empty exactly when `s` holds nothing but whitespace, and otherwise
   * starts and ends with a character that is not whitespace.
   */
  function Trim(s: string): (r: string)
    ensures r == [] <==> forall i :: 0 <= i < |s| ==> IsWhitespace(s[i])
    ensures r != [] ==> !IsWhitespace(r[0]) && !IsWhitespace(r[|r| - 1])
  {
    var t := TrimStart(s);
    var r := TrimEnd(t);
    TrimBothEnds(s, t, r, |s| - |t|);
    r
  }

  /**
   * Cutting whitespace off the front of `s` (leaving `t == s[a..]`) and then
   * off the back of `t` (leaving `r`) leaves the slice `s[a..a + |r|]`, with
   * only whitespace after it, and nothing exactly when `s` is all whitespace.
   */
  lemma TrimBothEnds(s: string, t: string, r: string, a: nat)
    requires a <= |s| && t == s[a..]
    requires forall i :: 0 <= i < a ==> IsWhitespace(s[i])
    requires t != [] ==> !IsWhitespace(t[0])
    requires |r| <= |t| && r == t[..|r|]
    requires forall j :: |r| <= j < |t| ==> IsWhitespace(t[j])
    ensures a + |r| <= |s| && r == s[a..a + |r|]
    ensures forall i :: a + |r| <= i < |s| ==> IsWhitespace(s[i])
    ensures r != [] ==> !IsWhitespace(r[0])
    ensures r == [] <==> forall i :: 0 <= i < |s| ==> IsWhitespace(s[i])
  {
    forall i | a + |r| <= i < |s|
      ensures IsWhitespace(s[i])
    {
      assert s[i] == t[i - a];
    }
  }
}
