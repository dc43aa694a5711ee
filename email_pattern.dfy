/** The e-mail check shared by the validation helpers and the three form
    screens: the regular expression /^[^\s@]+@[^\s@]+\.[^\s@]+$/, written out
    as a string predicate. */
module EmailPattern {
  import opened Text

  /** A character of the class [^\s@]. */
  predicate IsPlain(c: char)
  {
    !IsSpace(c) && c != '@'
  }

  predicate AllPlain(s: string)
  {
    forall k | 0 <= k < |s| :: IsPlain(s[k])
  }

  /** The position of the first c in s, or |s| when there is none. */
  function IndexOf(s: string, c: char): (i: nat)
    ensures i <= |s|
    ensures i < |s| ==> s[i] == c
    ensures forall k | 0 <= k < i :: s[k] != c
  {
    if |s| == 0 then 0
    else if s[0] == c then 0
    else 1 + IndexOf(s[1..], c)
  }

  /** Some '.' of d has at least one character on each side. */
  predicate HasInnerDot(d: string)
  {
    exists j | 0 < j < |d| - 1 :: d[j] == '.'
  }

  /** The matcher: split at the first '@'; the local part must be non-empty,
      neither part may hold white space or another '@', and the domain must
      hold an inner '.'. */
  predicate IsValidEmail(s: string)
  {
    var at := IndexOf(s, '@');
    0 < at < |s| && AllPlain(s[..at]) && AllPlain(s[at + 1..]) && HasInnerDot(s[at + 1..])
  }

  /** The regular expression read literally: three non-empty runs of [^\s@]
      separated by '@' and by '.', anchored at both ends. The greedy runs
      backtrack, so any '.' of the domain with text on both sides serves. */
  ghost predicate MatchesPattern(s: string)
  {
    exists at, dot | 0 < at && at + 1 < dot && dot + 1 < |s| ::
      && s[at] == '@' && s[dot] == '.'
      && AllPlain(s[..at]) && AllPlain(s[at + 1..dot]) && AllPlain(s[dot + 1..])
  }

  /** What the pattern asks of a string, stated plainly: exactly one '@',
      no white space, a non-empty part before the '@', and a '.' after the
      '@' with text on both of its sides. */
  ghost predicate EmailShape(s: string)
  {
    && (forall k | 0 <= k < |s| :: !IsSpace(s[k]))
    && exists at | 0 < at < |s| ::
      && s[at] == '@'
      && (forall k | 0 <= k < |s| && s[k] == '@' :: k == at)
      && exists dot | at + 1 < dot < |s| - 1 :: s[dot] == '.'
  }

  /** The matcher accepts exactly the strings the regular expression does. */
  lemma ValidEmailMatchesPattern(s: string)
    ensures IsValidEmail(s) <==> MatchesPattern(s)
  {
    if IsValidEmail(s) {
      ValidEmailIsMatch(s);
    }
    if MatchesPattern(s) {
      MatchIsValidEmail(s);
    }
  }

  lemma ValidEmailIsMatch(s: string)
    requires IsValidEmail(s)
    ensures MatchesPattern(s)
  {
    var at := IndexOf(s, '@');
    var d := s[at + 1..];
    var j :| 0 < j < |d| - 1 && d[j] == '.';
    var dot := at + 1 + j;
    assert s[at + 1..dot] == d[..j];
    assert s[dot + 1..] == d[j + 1..];
    assert s[dot] == d[j];
  }

  lemma MatchIsValidEmail(s: string)
    requires MatchesPattern(s)
    ensures IsValidEmail(s)
  {
    var at, dot :| 0 < at && at + 1 < dot && dot + 1 < |s| && s[at] == '@' && s[dot] == '.'
      && AllPlain(s[..at]) && AllPlain(s[at + 1..dot]) && AllPlain(s[dot + 1..]);
    forall k | 0 <= k < at ensures s[k] != '@' {
      assert IsPlain(s[..at][k]);
    }
    assert IndexOf(s, '@') == at;
    var d := s[at + 1..];
    forall k | 0 <= k < |d| ensures IsPlain(d[k]) {
      if k < dot - at - 1 {
        assert d[k] == s[at + 1..dot][k];
      } else if k > dot - at - 1 {
        assert d[k] == s[dot + 1..][k - (dot - at)];
      }
    }
    assert d[dot - at - 1] == '.';
  }

  /** The matcher accepts exactly the strings of the plain description. */
  lemma ValidEmailShape(s: string)
    ensures IsValidEmail(s) <==> EmailShape(s)
  {
    if IsValidEmail(s) {
      var at := IndexOf(s, '@');
      var d := s[at + 1..];
      forall k | 0 <= k < |s|
        ensures !IsSpace(s[k]) && (s[k] == '@' ==> k == at)
      {
        if k < at {
          assert s[k] == s[..at][k];
        } else if k > at {
          assert s[k] == d[k - at - 1];
        }
      }
      var j :| 0 < j < |d| - 1 && d[j] == '.';
      assert s[at + 1 + j] == d[j];
    }
    if EmailShape(s) {
      var at :| 0 < at < |s| && s[at] == '@' && (forall k | 0 <= k < |s| && s[k] == '@' :: k == at)
        && exists dot | at + 1 < dot < |s| - 1 :: s[dot] == '.';
      var dot :| at + 1 < dot < |s| - 1 && s[dot] == '.';
      var i := IndexOf(s, '@');
      assert i <= at;
      assert i == at;
      var d := s[at + 1..];
      assert d[dot - at - 1] == '.';
      assert AllPlain(s[..at]) by {
        forall k | 0 <= k < at ensures IsPlain(s[..at][k]) {
          assert s[..at][k] == s[k];
        }
      }
      assert AllPlain(d) by {
        forall k | 0 <= k < |d| ensures IsPlain(d[k]) {
          assert d[k] == s[at + 1 + k];
        }
      }
    }
  }

  /** A blank string (all white space, or empty) never matches. */
  lemma BlankIsNotValidEmail(s: string)
    requires IsBlank(s)
    ensures !IsValidEmail(s)
  {
    BlankIffAllSpace(s);
    var at := IndexOf(s, '@');
    if at < |s| {
      assert IsSpace(s[at]);
    }
  }
}
