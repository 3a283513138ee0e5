/** The few string operations the validators and the property search rely
    on: Python's `str.strip()`, ASCII case folding and substring search. */
module Text {

  /** Python's `str.isspace()` for one character: the ASCII whitespace and
      separator controls, NEL, NO-BREAK SPACE and the Unicode space
      separators, line and paragraph separators. */
  predicate IsSpace(c: char) {
    || c == ' '
    || '\t' <= c <= '\r'
    || '\U{1C}' <= c <= '\U{1F}'
    || c == '\U{85}'
    || c == '\U{A0}'
    || c == '\U{1680}'
    || '\U{2000}' <= c <= '\U{200A}'
    || c == '\U{2028}'
    || c == '\U{2029}'
    || c == '\U{202F}'
    || c == '\U{205F}'
    || c == '\U{3000}'
  }

  /** Every character of `s` is whitespace (this holds of the empty string). */
  predicate Blank(s: string) {
    forall i :: 0 <= i < |s| ==> IsSpace(s[i])
  }

  /** Python's `s.lstrip()`: the suffix left after dropping the leading
      whitespace. */
  function StripLeft(s: string): (r: string)
    ensures |r| <= |s| && r == s[|s| - |r|..]
    ensures Blank(s[..|s| - |r|])
    ensures |r| > 0 ==> !IsSpace(r[0])
  {
    if |s| > 0 && IsSpace(s[0]) then StripLeft(s[1..]) else s
  }

  /** Python's `s.rstrip()`: the prefix left after dropping the trailing
      whitespace. */
  function StripRight(s: string): (r: string)
    ensures |r| <= |s| && r == s[..|r|]
    ensures Blank(s[|r|..])
    ensures |r| > 0 ==> !IsSpace(r[|r| - 1])
  {
    if |s| > 0 && IsSpace(s[|s| - 1]) then StripRight(s[..|s| - 1]) else s
  }

  /** Python's `s.strip()`: empty exactly when `s` is all whitespace, and
      otherwise neither starting nor ending with whitespace. */
  function Strip(s: string): (r: string)
    ensures |r| <= |s|
    ensures |r| > 0 ==> !IsSpace(r[0]) && !IsSpace(r[|r| - 1])
    ensures |r| == 0 <==> Blank(s)
    ensures exists i, j :: 0 <= i <= j <= |s| && r == s[i..j] && Blank(s[..i]) && Blank(s[j..])
  {
    var left := StripLeft(s);
    StripBlank(s);
    SliceBetween(s, left, StripRight(left));
    StripRight(left)
  }

  /** A prefix `r` of a suffix `left` of `s`, with only whitespace cut off on
      either side, is a slice of `s` between whitespace. */
  lemma SliceBetween(s: string, left: string, r: string)
    requires |left| <= |s| && left == s[|s| - |left|..] && Blank(s[..|s| - |left|])
    requires |r| <= |left| && r == left[..|r|] && Blank(left[|r|..])
    ensures exists i, j :: 0 <= i <= j <= |s| && r == s[i..j] && Blank(s[..i]) && Blank(s[j..])
  {
    var i := |s| - |left|;
    var j := i + |r|;
    assert r == s[i..j];
    assert left[|r|..] == s[j..];
  }

  lemma StripBlank(s: string)
    ensures |StripRight(StripLeft(s))| == 0 <==> Blank(s)
  {
    var left := StripLeft(s);
    var k := |s| - |left|;
    var r := StripRight(left);
    if |r| == 0 {
      assert Blank(left);
      assert s == s[..k];
    } else {
      assert left[0] == s[k];
    }
  }

  /** ASCII case folding, as the database's case-insensitive `LIKE` does. */
  function Lower(c: char): char {
    if 'A' <= c <= 'Z' then (c as int + 32) as char else c
  }

  function LowerText(s: string): string {
    seq(|s|, i requires 0 <= i < |s| => Lower(s[i]))
  }

  /** `needle` occurs in `hay` starting at index `i`. */
  predicate OccursAt(needle: string, hay: string, i: int) {
    0 <= i && i + |needle| <= |hay| && hay[i..i + |needle|] == needle
  }

  /** With no occurrence at index 0, `needle` occurs in `hay` exactly when
      it occurs in `hay` without its first character. */
  lemma OccursInTail(needle: string, hay: string)
    requires |hay| > 0 && !OccursAt(needle, hay, 0)
    ensures (exists i :: OccursAt(needle, hay, i)) <==> (exists j :: OccursAt(needle, hay[1..], j))
  {
    if i :| OccursAt(needle, hay, i) {
      assert hay[1..][i - 1..i - 1 + |needle|] == hay[i..i + |needle|];
      assert OccursAt(needle, hay[1..], i - 1);
    }
    if j :| OccursAt(needle, hay[1..], j) {
      assert hay[1..][j..j + |needle|] == hay[j + 1..j + 1 + |needle|];
      assert OccursAt(needle, hay, j + 1);
    }
  }

  /** Python's `needle in hay`: scans `hay` left to right for an occurrence. */
  function Contains(needle: string, hay: string): (b: bool)
    ensures b <==> exists i :: OccursAt(needle, hay, i)
    decreases |hay|
  {
    if |needle| > |hay| then false
    else if hay[..|needle|] == needle then
      assert OccursAt(needle, hay, 0);
      true
    else
      OccursInTail(needle, hay);
      Contains(needle, hay[1..])
  }

  /** Django's `icontains` lookup: a substring test after case folding. */
  predicate ContainsIgnoringCase(needle: string, hay: string) {
    Contains(LowerText(needle), LowerText(hay))
  }
}
