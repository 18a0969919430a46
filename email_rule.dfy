/** The e-mail check shared by the login and signup pages: the regular
    expression `^[^\s@]+@[^\s@]+\.[^\s@]+$`, and what it means in plain terms. */
module EmailRule {
  import opened Common

  /** The character class `[^\s@]`. */
  predicate IsWordChar(c: char) {
    !IsJsWhitespace(c) && c != '@'
  }

  /** `w` is matched in full by `[^\s@]+`. */
  predicate IsWord(w: string) {
    |w| > 0 && forall i :: 0 <= i < |w| ==> IsWordChar(w[i])
  }

  /** `emailRegex.test(s)`: `s` is three words joined by an '@' (at `a`) and a
      '.' (at `b`). The middle word may itself hold dots, so any '.' after the
      first domain character can serve as `b`. */
  predicate EmailRegexTest(s: string) {
    exists a, b | 0 < a < |s| && a + 1 < b < |s| - 1 ::
      s[a] == '@' && s[b] == '.' && IsWord(s[..a]) && IsWord(s[a + 1..b]) && IsWord(s[b + 1..])
  }

  /** The domain part holds a '.' that is neither its first nor its last character. */
  predicate HasInnerDot(d: string) {
    exists k | 0 < k < |d| - 1 :: d[k] == '.'
  }

  /** The regular expression restated: no white space, exactly one '@', a
      non-empty local part before it, and a domain after it with an inner dot. */
  ghost predicate HasEmailShape(s: string) {
    && (forall i :: 0 <= i < |s| ==> !IsJsWhitespace(s[i]))
    && multiset(s)['@'] == 1
    && exists a | 0 <= a < |s| :: s[a] == '@' && a > 0 && HasInnerDot(s[a + 1..])
  }

  lemma {:induction false} NoAtCount(w: string)
    requires forall i :: 0 <= i < |w| ==> w[i] != '@'
    ensures multiset(w)['@'] == 0
  {
    if w != [] {
      assert w == [w[0]] + w[1..];
      NoAtCount(w[1..]);
    }
  }

  /** An '@' at `a` that is the only one in `s` makes the multiset count 1, and back. */
  lemma {:induction false} SingleAt(s: string, a: nat)
    requires a < |s| && s[a] == '@'
    ensures multiset(s)['@'] == 1 <==> forall j :: 0 <= j < |s| && j != a ==> s[j] != '@'
  {
    assert s == s[..a] + [s[a]] + s[a + 1..];
    var m := multiset(s[..a])['@'] + multiset(s[a + 1..])['@'];
    assert multiset(s)['@'] == m + 1;
    if forall j :: 0 <= j < |s| && j != a ==> s[j] != '@' {
      NoAtCount(s[..a]);
      NoAtCount(s[a + 1..]);
    } else {
      var j :| 0 <= j < |s| && j != a && s[j] == '@';
      if j < a {
        assert s[..a][j] == '@';
        assert '@' in multiset(s[..a]);
      } else {
        assert s[a + 1..][j - a - 1] == '@';
        assert '@' in multiset(s[a + 1..]);
      }
    }
  }

  lemma RegexGivesShape(s: string)
    requires EmailRegexTest(s)
    ensures HasEmailShape(s)
  {
    var a, b :| 0 < a < |s| && a + 1 < b < |s| - 1 && s[a] == '@' && s[b] == '.'
      && IsWord(s[..a]) && IsWord(s[a + 1..b]) && IsWord(s[b + 1..]);
    forall j | 0 <= j < |s| && j != a ensures IsWordChar(s[j]) {
      if j < a {
        assert s[j] == s[..a][j];
      } else if j < b {
        assert s[j] == s[a + 1..b][j - a - 1];
      } else if j > b {
        assert s[j] == s[b + 1..][j - b - 1];
      }
    }
    SingleAt(s, a);
    assert s[a + 1..][b - a - 1] == '.';
    assert HasInnerDot(s[a + 1..]);
  }

  lemma ShapeGivesRegex(s: string)
    requires HasEmailShape(s)
    ensures EmailRegexTest(s)
  {
    var a :| 0 <= a < |s| && s[a] == '@' && a > 0 && HasInnerDot(s[a + 1..]);
    var d := s[a + 1..];
    var k :| 0 < k < |d| - 1 && d[k] == '.';
    var b := a + 1 + k;
    SingleAt(s, a);
    assert s[b] == d[k];
    assert forall j :: 0 <= j < |s| && j != a ==> IsWordChar(s[j]);
    assert IsWord(s[..a]);
    assert IsWord(s[a + 1..b]);
    assert IsWord(s[b + 1..]);
  }

  /** What the regular expression accepts, stated both ways. */
  lemma EmailRegexMeaning(s: string)
    ensures EmailRegexTest(s) <==> HasEmailShape(s)
  {
    if EmailRegexTest(s) {
      RegexGivesShape(s);
    }
    if HasEmailShape(s) {
      ShapeGivesRegex(s);
    }
  }
}
