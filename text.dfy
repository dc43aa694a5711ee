/** Strings as JavaScript's String.prototype.trim and the regular-expression
    class \s see them. */
module Text {

  /** The ECMAScript WhiteSpace and LineTerminator characters: the set that
      trim() strips and that \s matches. */
  predicate IsSpace(c: char)
  {
    || c == ' ' || c == '\t' || c == '\n' || c == '\r'
    || c == '\U{000B}' || c == '\U{000C}' || c == '\U{00A0}' || c == '\U{1680}'
    || ('\U{2000}' <= c <= '\U{200A}')
    || c == '\U{2028}' || c == '\U{2029}' || c == '\U{202F}' || c == '\U{205F}'
    || c == '\U{3000}' || c == '\U{FEFF}'
  }

  predicate AllSpace(s: string)
  {
    forall k | 0 <= k < |s| :: IsSpace(s[k])
  }

  /** The number of white-space characters s starts with. */
  function LeadingSpaces(s: string): (n: nat)
    ensures n <= |s|
    ensures forall k | 0 <= k < n :: IsSpace(s[k])
    ensures n < |s| ==> !IsSpace(s[n])
  {
    if |s| == 0 || !IsSpace(s[0]) then 0 else 1 + LeadingSpaces(s[1..])
  }

  /** The number of white-space characters s ends with. */
  function TrailingSpaces(s: string): (n: nat)
    ensures n <= |s|
    ensures forall k | |s| - n <= k < |s| :: IsSpace(s[k])
    ensures n < |s| ==> !IsSpace(s[|s| - n - 1])
  {
    if |s| == 0 || !IsSpace(s[|s| - 1]) then 0 else 1 + TrailingSpaces(s[..|s| - 1])
  }

  /** s.trim(): leading white space removed, then trailing white space. */
  function Trim(s: string): (r: string)
    ensures |r| <= |s|
    ensures r == [] || (!IsSpace(r[0]) && !IsSpace(r[|r| - 1]))
  {
    var t := s[LeadingSpaces(s)..];
    t[..|t| - TrailingSpaces(t)]
  }

  /** What trim() keeps is an infix of s, and everything it drops on
      either side is white space. */
  lemma TrimKeepsInfix(s: string)
    ensures var i := LeadingSpaces(s);
      && i + |Trim(s)| <= |s|
      && Trim(s) == s[i..i + |Trim(s)|]
      && AllSpace(s[..i]) && AllSpace(s[i + |Trim(s)|..])
  {
    var i := LeadingSpaces(s);
    var t := s[i..];
    var m := TrailingSpaces(t);
    assert Trim(s) == s[i..|s| - m];
    assert s[|s| - m..] == t[|t| - m..];
  }

  /** A character outside the Basic Multilingual Plane, which JavaScript
      stores as a surrogate pair. */
  predicate IsAstral(c: char)
  {
    c > '\U{FFFF}'
  }

  /** s.length: the number of UTF-16 code units of s, two for each astral
      character and one for every other. */
  function Utf16Length(s: string): (n: nat)
    ensures |s| <= n <= 2 * |s|
    decreases |s|
  {
    if |s| == 0 then 0
    else Utf16Length(s[..|s| - 1]) + (if IsAstral(s[|s| - 1]) then 2 else 1)
  }

  /** The code-unit length equals the number of characters exactly when no
      character is astral. */
  lemma {:induction false} Utf16LengthOfBmp(s: string)
    ensures Utf16Length(s) == |s| <==> forall k | 0 <= k < |s| :: !IsAstral(s[k])
    decreases |s|
  {
    if |s| > 0 {
      var init := s[..|s| - 1];
      Utf16LengthOfBmp(init);
      assert forall k | 0 <= k < |init| :: init[k] == s[k];
    }
  }

  /** s.trim().length: the number of UTF-16 code units trim() keeps. */
  function TrimmedLength(s: string): (n: nat)
    ensures n <= 2 * |s|
    ensures n == 0 <==> |Trim(s)| == 0
  {
    Utf16Length(Trim(s))
  }

  /** Three copies of U+1F600 are six code units long although the
      sequence has three characters, and trim() keeps all of them. */
  lemma AstralCountsTwice()
    ensures |"\U{1F600}\U{1F600}\U{1F600}"| == 3
    ensures Utf16Length("\U{1F600}\U{1F600}\U{1F600}") == 6
    ensures TrimmedLength("\U{1F600}\U{1F600}\U{1F600}") == 6
  {
    var s := "\U{1F600}\U{1F600}\U{1F600}";
    assert s[..2] == "\U{1F600}\U{1F600}";
    assert s[..2][..1] == "\U{1F600}";
    assert s[..2][..1][..0] == "";
    assert LeadingSpaces(s) == 0 && TrailingSpaces(s) == 0;
    assert Trim(s) == s;
  }

  /** s.trim().length === 0. */
  predicate IsBlank(s: string)
  {
    TrimmedLength(s) == 0
  }

  /** A string is blank exactly when every character of it is white space
      (the empty string included). */
  lemma BlankIffAllSpace(s: string)
    ensures IsBlank(s) <==> AllSpace(s)
  {
    TrimKeepsInfix(s);
    var i := LeadingSpaces(s);
    if IsBlank(s) {
      assert i == |s|;
    }
  }
}
