/**
  String helpers used by the form handlers: JavaScript's `String.prototype.trim`,
  which strips leading and trailing WhiteSpace and LineTerminator code points
  (section 22.1.3.32 of ECMA-262).
 */
module Text {

  /**
    The WhiteSpace (section 12.2) and LineTerminator (section 12.3) code points
    of ECMA-262: tab, line feed, vertical tab, form feed, carriage return,
    space, no-break space, the space separators U+1680, U+2000 to U+200A,
    U+202F, U+205F and U+3000, the line and paragraph separators, and the
    byte order mark.
   */
  predicate IsWhitespace(ch: char) {
    || '\t' <= ch <= '\r'
    || ch == ' '
    || ch == '\U{00A0}'
    || ch == '\U{1680}'
    || '\U{2000}' <= ch <= '\U{200A}'
    || ch == '\U{2028}' || ch == '\U{2029}'
    || ch == '\U{202F}' || ch == '\U{205F}'
    || ch == '\U{3000}'
    || ch == '\U{FEFF}'
  }

  /** Every character of `s` is whitespace (vacuously true of the empty string). */
  predicate IsBlank(s: string) {
    forall i :: 0 <= i < |s| ==> IsWhitespace(s[i])
  }

  /** Drops the leading whitespace: the result is the longest suffix of `s` that does not start with whitespace. */
  function TrimStart(s: string): (r: string)
    ensures |r| <= |s| && r == s[|s| - |r|..]
    ensures IsBlank(s[..|s| - |r|])
    ensures r == [] || !IsWhitespace(r[0])
    decreases |s|
  {
    if |s| > 0 && IsWhitespace(s[0]) then
      var r := TrimStart(s[1..]);
      assert s[..|s| - |r|] == [s[0]] + s[1..][..|s| - 1 - |r|];
      assert s[|s| - |r|..] == s[1..][|s| - 1 - |r|..];
      r
    else
      s
  }

  /** Drops the trailing whitespace: the result is the longest prefix of `s` that does not end with whitespace. */
  function TrimEnd(s: string): (r: string)
    ensures |r| <= |s| && r == s[..|r|]
    ensures IsBlank(s[|r|..])
    ensures r == [] || !IsWhitespace(r[|r| - 1])
    decreases |s|
  {
    if |s| > 0 && IsWhitespace(s[|s| - 1]) then
      var r := TrimEnd(s[..|s| - 1]);
      assert s[|r|..] == s[..|s| - 1][|r|..] + [s[|s| - 1]];
      assert s[..|r|] == s[..|s| - 1][..|r|];
      r
    else
      s
  }

  /** `s.trim()`: whitespace cut off on both sides; what remains neither starts nor ends with whitespace. */
  function Trim(s: string): (r: string)
    ensures |r| <= |s|
    ensures r == [] || (!IsWhitespace(r[0]) && !IsWhitespace(r[|r| - 1]))
  {
    TrimEnd(TrimStart(s))
  }

  /** Only whitespace is cut: the result is the slice `s[a..b]` and everything outside it is whitespace. */
  lemma TrimIsSlice(s: string) returns (a: nat, b: nat)
    ensures a <= b <= |s| && Trim(s) == s[a..b]
    ensures IsBlank(s[..a]) && IsBlank(s[b..])
  {
    var t := TrimStart(s);
    var r := TrimEnd(t);
    a := |s| - |t|;
    b := a + |r|;
    assert r == s[a..b];
    assert s[b..] == t[|r|..];
  }

  /** The trimmed string is empty exactly when the input is all whitespace: the `if (!name)` guard after `trim()`. */
  lemma TrimEmptyIffBlank(s: string)
    ensures Trim(s) == [] <==> IsBlank(s)
  {
  }
}
