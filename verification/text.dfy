/** Python's `str.strip()` and `str.isspace()`, as used to reject blank fields. */
module Text {

  /** The characters Python's `str.isspace` accepts: bidirectional classes
      WS, B and S plus the space separators (category Zs). */
  predicate IsSpace(c: char) {
    || c == ' '
    || ('\t' <= c <= '\r')
    || ('\U{1C}' <= c <= '\U{1F}')
    || c == '\U{85}'
    || c == '\U{A0}'
    || c == '\U{1680}'
    || ('\U{2000}' <= c <= '\U{200A}')
    || c == '\U{2028}'
    || c == '\U{2029}'
    || c == '\U{202F}'
    || c == '\U{205F}'
    || c == '\U{3000}'
  }

  /** Every character is whitespace (the empty string included). */
  predicate IsBlank(s: string) {
    forall i :: 0 <= i < |s| ==> IsSpace(s[i])
  }

  /** Drops leading whitespace: the result is the suffix of `s` that starts
      at the first non-space character. */
  function StripLeft(s: string): (r: string)
    ensures |r| <= |s| && r == s[|s| - |r|..]
    ensures forall i :: 0 <= i < |s| - |r| ==> IsSpace(s[i])
    ensures r != [] ==> !IsSpace(r[0])
  {
    if s != [] && IsSpace(s[0]) then StripLeft(s[1..]) else s
  }

  /** Drops trailing whitespace: the result is the prefix of `s` that ends
      at the last non-space character. */
  function StripRight(s: string): (r: string)
    ensures |r| <= |s| && r == s[..|r|]
    ensures forall i :: |r| <= i < |s| ==> IsSpace(s[i])
    ensures r != [] ==> !IsSpace(r[|r| - 1])
  {
    if s != [] && IsSpace(s[|s| - 1]) then StripRight(s[..|s| - 1]) else s
  }

  /** `r` is `s` with its first `i` characters and everything after `r`
      removed, and every removed character is whitespace. */
  predicate Trims(s: string, i: int, r: string) {
    && 0 <= i <= |s| - |r| && r == s[i..i + |r|]
    && (forall k :: 0 <= k < i ==> IsSpace(s[k]))
    && (forall k :: i + |r| <= k < |s| ==> IsSpace(s[k]))
  }

  /** Stripping the left end and then the right end trims `s` at both ends. */
  lemma StripBothEnds(s: string)
    ensures var r := StripRight(StripLeft(s));
      Trims(s, |s| - |StripLeft(s)|, r) && (r != [] ==> !IsSpace(r[0]))
  {
    var a := StripLeft(s);
    TrimRightOfSuffix(s, |s| - |a|, a, StripRight(a));
  }

  /** Trimming the right end of a suffix whose dropped prefix is whitespace. */
  lemma TrimRightOfSuffix(s: string, i: int, a: string, r: string)
    requires 0 <= i <= |s| && a == s[i..]
    requires forall k :: 0 <= k < i ==> IsSpace(s[k])
    requires a != [] ==> !IsSpace(a[0])
    requires |r| <= |a| && r == a[..|r|]
    requires forall k :: |r| <= k < |a| ==> IsSpace(a[k])
    ensures Trims(s, i, r) && (r != [] ==> !IsSpace(r[0]))
  {
    forall k | i + |r| <= k < |s|
      ensures IsSpace(s[k])
    {
      assert s[k] == a[k - i];
    }
  }

  /** `str.strip()` with no argument. */
  function Strip(s: string): (r: string)
    ensures |r| <= |s|
    ensures exists i :: Trims(s, i, r)
    ensures r != [] ==> !IsSpace(r[0]) && !IsSpace(r[|r| - 1])
  {
    StripBothEnds(s);
    StripRight(StripLeft(s))
  }

  /** `not s.strip()` holds exactly when every character of `s` is whitespace. */
  lemma StripEmptyIffBlank(s: string)
    ensures Strip(s) == [] <==> IsBlank(s)
  {
  }
}
