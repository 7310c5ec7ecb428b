/** The address check of the licence flow: the regular expression
    `^[^\s@]+@[^\s@]+\.[^\s@]+$` that a text must match before it is taken as
    the customer's e-mail. */
module Email {
  import opened JsString

  /** A string accepted by the class `[^\s@]+`: one or more characters, none
      of them white space or `@`. */
  predicate IsAtom(t: string) {
    |t| > 0 && forall k :: 0 <= k < |t| ==> !IsSpace(t[k]) && t[k] != '@'
  }

  /** The regular expression, as the split of the whole string it demands:
      an atom, `@`, an atom, a literal dot, an atom. */
  predicate MatchesEmailPattern(s: string) {
    exists i, j :: 0 <= i < j < |s| && s[i] == '@' && s[j] == '.'
      && IsAtom(s[..i]) && IsAtom(s[i + 1..j]) && IsAtom(s[j + 1..])
  }

  function CountChar(s: string, c: char): nat {
    if |s| == 0 then 0 else (if s[0] == c then 1 else 0) + CountChar(s[1..], c)
  }

  /** A string in which no index other than i holds c counts c once if it
      holds c at i. */
  lemma {:induction false} CountOnlyAt(s: string, c: char, i: nat)
    requires i < |s| && s[i] == c
    requires forall k :: 0 <= k < |s| && k != i ==> s[k] != c
    ensures CountChar(s, c) == 1
  {
    if i == 0 {
      CountAbsent(s[1..], c);
    } else {
      CountOnlyAt(s[1..], c, i - 1);
    }
  }

  lemma {:induction false} CountAbsent(s: string, c: char)
    requires forall k :: 0 <= k < |s| ==> s[k] != c
    ensures CountChar(s, c) == 0
  {
    if |s| > 0 {
      CountAbsent(s[1..], c);
    }
  }

  /** Shape of the accepted strings, read off the regular expression: no white
      space at all, exactly one `@`, not in first place, and a dot strictly
      between the character after `@` and the last character. */
  predicate HasEmailShape(s: string) {
    && HasNoSpace(s)
    && (exists i :: 0 < i < |s| && s[i] == '@'
         && (forall k :: 0 <= k < |s| && k != i ==> s[k] != '@')
         && (exists j :: i + 1 < j < |s| - 1 && s[j] == '.'))
  }

  lemma PatternGivesShape(s: string)
    requires MatchesEmailPattern(s)
    ensures HasEmailShape(s)
  {
    var i, j :| 0 <= i < j < |s| && s[i] == '@' && s[j] == '.'
      && IsAtom(s[..i]) && IsAtom(s[i + 1..j]) && IsAtom(s[j + 1..]);
    forall k | 0 <= k < |s|
      ensures !IsSpace(s[k]) && (k != i ==> s[k] != '@')
    {
      if k < i {
        assert s[k] == s[..i][k];
      } else if i < k < j {
        assert s[k] == s[i + 1..j][k - i - 1];
      } else if j < k {
        assert s[k] == s[j + 1..][k - j - 1];
      }
    }
    assert i > 0;
    assert i + 1 < j < |s| - 1;
  }

  lemma ShapeGivesPattern(s: string)
    requires HasEmailShape(s)
    ensures MatchesEmailPattern(s)
  {
    var i :| 0 < i < |s| && s[i] == '@'
      && (forall k :: 0 <= k < |s| && k != i ==> s[k] != '@')
      && (exists j :: i + 1 < j < |s| - 1 && s[j] == '.');
    var j :| i + 1 < j < |s| - 1 && s[j] == '.';
    assert IsAtom(s[..i]) by {
      forall k | 0 <= k < i ensures !IsSpace(s[..i][k]) && s[..i][k] != '@' {
        assert s[..i][k] == s[k];
      }
    }
    var domain := s[i + 1..j];
    assert IsAtom(domain) by {
      forall k | 0 <= k < |domain| ensures !IsSpace(domain[k]) && domain[k] != '@' {
        assert domain[k] == s[i + 1 + k];
      }
    }
    var suffix := s[j + 1..];
    assert IsAtom(suffix) by {
      forall k | 0 <= k < |suffix| ensures !IsSpace(suffix[k]) && suffix[k] != '@' {
        assert suffix[k] == s[j + 1 + k];
      }
    }
  }

  /** The regular expression accepts exactly the strings of that shape. */
  lemma PatternIsShape(s: string)
    ensures MatchesEmailPattern(s) <==> HasEmailShape(s)
  {
    if MatchesEmailPattern(s) {
      PatternGivesShape(s);
    }
    if HasEmailShape(s) {
      ShapeGivesPattern(s);
    }
  }

  /** An accepted address holds one `@`, no white space, and so is unchanged
      by the `trim()` the bot applies after the test. */
  lemma AcceptedAddressIsTrimmed(s: string)
    requires MatchesEmailPattern(s)
    ensures CountChar(s, '@') == 1
    ensures HasNoSpace(s)
    ensures Trim(s) == s
    ensures s != ""
  {
    PatternGivesShape(s);
    var i :| 0 < i < |s| && s[i] == '@'
      && (forall k :: 0 <= k < |s| && k != i ==> s[k] != '@')
      && (exists j :: i + 1 < j < |s| - 1 && s[j] == '.');
    CountOnlyAt(s, '@', i);
    TrimOfSpaceless(s);
  }
}
