/** `String.prototype.trim` of ECMAScript, used by the home view's blank
    check. */
module JsString {

  /** The WhiteSpace and LineTerminator code points that `trim` removes
      (sections 12.2 and 12.3 of ECMA-262): tab, vertical tab, form feed,
      space, no-break space, the byte order mark, the space separators of
      Unicode category Zs, line feed, carriage return, and the line and
      paragraph separators. */
  predicate IsWhiteSpace(c: char)
  {
    || c == '\t' || c == '\U{000B}' || c == '\U{000C}' || c == ' '
    || c == '\U{00A0}' || c == '\U{FEFF}'
    || c == '\U{1680}' || ('\U{2000}' <= c <= '\U{200A}')
    || c == '\U{202F}' || c == '\U{205F}' || c == '\U{3000}'
    || c == '\n' || c == '\r' || c == '\U{2028}' || c == '\U{2029}'
  }

  /** The index of the first character at or after `k` that is not white
      space, or `|s|` when there is none. */
  function SkipWhiteSpace(s: string, k: nat): (e: nat)
    requires k <= |s|
    ensures k <= e <= |s|
    ensures forall i :: k <= i < e ==> IsWhiteSpace(s[i])
    ensures e < |s| ==> !IsWhiteSpace(s[e])
    decreases |s| - k
  {
    if k == |s| || !IsWhiteSpace(s[k]) then k else SkipWhiteSpace(s, k + 1)
  }

  /** The index just past the last character of `s[k..e]` that is not white
      space, or `k` when there is none. */
  function SkipWhiteSpaceBack(s: string, k: nat, e: nat): (b: nat)
    requires k <= e <= |s|
    ensures k <= b <= e
    ensures forall i :: b <= i < e ==> IsWhiteSpace(s[i])
    ensures b > k ==> !IsWhiteSpace(s[b - 1])
    decreases e
  {
    if e == k || !IsWhiteSpace(s[e - 1]) then e else SkipWhiteSpaceBack(s, k, e - 1)
  }

  /** `s.trim()`: the slice of `s` between its leading and its trailing white
      space. It starts and ends with a character that is not white space,
      and what it drops on either side is white space only, which fixes
      it. */
  function Trim(s: string): (r: string)
    ensures |r| <= |s|
    ensures var k := SkipWhiteSpace(s, 0);
            && k + |r| <= |s|
            && r == s[k..k + |r|]
            && (forall i :: 0 <= i < k ==> IsWhiteSpace(s[i]))
            && (forall i :: k + |r| <= i < |s| ==> IsWhiteSpace(s[i]))
    ensures r != [] ==> !IsWhiteSpace(r[0]) && !IsWhiteSpace(r[|r| - 1])
  {
    var k := SkipWhiteSpace(s, 0);
    s[k..SkipWhiteSpaceBack(s, k, |s|)]
  }

  /** `s.trim() === ''` holds exactly when every character of `s` is white
      space, the empty string included. */
  lemma TrimEmptyIffAllWhiteSpace(s: string)
    ensures Trim(s) == "" <==> forall i :: 0 <= i < |s| ==> IsWhiteSpace(s[i])
  {
  }
}
