/**
 * String trimming as ECMAScript's `String.prototype.trim` does it: strip the
 * WhiteSpace and LineTerminator code points from both ends of the string.
 */
module Text {

  /** The code points that `trim` removes (ECMAScript WhiteSpace and LineTerminator). */
  const Whitespace: set<char> := {
    '\t', '\n', '\U{B}', '\U{C}', '\r', ' ', '\U{A0}', '\U{1680}',
    '\U{2000}', '\U{2001}', '\U{2002}', '\U{2003}', '\U{2004}', '\U{2005}',
    '\U{2006}', '\U{2007}', '\U{2008}', '\U{2009}', '\U{200A}',
    '\U{2028}', '\U{2029}', '\U{202F}', '\U{205F}', '\U{3000}', '\U{FEFF}'
  }

  predicate IsWhitespace(c: char) {
    c in Whitespace
  }

  /** Every character of `s` is whitespace (vacuously so for the empty string). */
  predicate AllWhitespace(s: string) {
    forall k :: 0 <= k < |s| ==> IsWhitespace(s[k])
  }

  /** The first index at or after `i` that does not hold whitespace (or `|s|`). */
  function SkipLeading(s: string, i: nat): (j: nat)
    requires i <= |s|
    ensures i <= j <= |s|
    ensures forall k :: i <= k < j ==> IsWhitespace(s[k])
    ensures j < |s| ==> !IsWhitespace(s[j])
    decreases |s| - i
  {
    if i < |s| && IsWhitespace(s[i]) then SkipLeading(s, i + 1) else i
  }

  /** The end of `s[lo..j]` once its trailing whitespace is dropped. */
  function SkipTrailing(s: string, lo: nat, j: nat): (e: nat)
    requires lo <= j <= |s|
    ensures lo <= e <= j
    ensures forall k :: e <= k < j ==> IsWhitespace(s[k])
    ensures lo < e ==> !IsWhitespace(s[e - 1])
  {
    if lo < j && IsWhitespace(s[j - 1]) then SkipTrailing(s, lo, j - 1) else j
  }

  /**
   * `s.trim()`: the substring of `s` left once whitespace is stripped from both
   * ends (it starts at the first non-whitespace index); an inner whitespace
   * character is kept.
   */
  function Trim(s: string): (r: string)
    ensures var i := SkipLeading(s, 0);
            && i + |r| <= |s| && r == s[i..i + |r|]
            && (forall k :: 0 <= k < i ==> IsWhitespace(s[k]))
            && (forall k :: i + |r| <= k < |s| ==> IsWhitespace(s[k]))
    ensures r != [] ==> !IsWhitespace(r[0]) && !IsWhitespace(r[|r| - 1])
  {
    var i := SkipLeading(s, 0);
    var e := SkipTrailing(s, i, |s|);
    s[i..e]
  }

  /** The test `query.trim() === ''` that makes a search attempt fail: exactly the all-whitespace strings. */
  predicate IsBlank(s: string): (b: bool)
    ensures b <==> AllWhitespace(s)
  {
    TrimEmptyIffAllWhitespace(s);
    Trim(s) == []
  }

  /** The trim of a string is empty exactly when every character of it is whitespace. */
  lemma TrimEmptyIffAllWhitespace(s: string)
    ensures Trim(s) == [] <==> AllWhitespace(s)
  {
    var i := SkipLeading(s, 0);
    if Trim(s) != [] {
      assert s[i] == Trim(s)[0];
    }
  }

  /** Trimming an already trimmed query changes nothing. */
  lemma TrimIdempotent(s: string)
    ensures Trim(Trim(s)) == Trim(s)
  {
    TrimNoOp(Trim(s));
  }

  /** A string with no whitespace at either end is its own trim. */
  lemma TrimNoOp(r: string)
    requires r != [] ==> !IsWhitespace(r[0]) && !IsWhitespace(r[|r| - 1])
    ensures Trim(r) == r
  {
    assert SkipLeading(r, 0) == 0;
    assert SkipTrailing(r, 0, |r|) == |r|;
    assert r[0..|r|] == r;
  }
}
