/**
 * What the signup and login forms share: the validator verdict, and the email
 * test `/^[^\s@]+@[^\s@]+\.[^\s@]+$/` both apply to the untrimmed email. `\s`
 * is the same character class as the one `String.prototype.trim` removes.
 */
module EmailFormat {
  import opened JsText

  /** A form validator's verdict: `true`, or the message of the first failed check. */
  datatype Verdict = Accepted | Refused(message: string)

  /** A run of `[^\s@]+`: non-empty, no whitespace, no '@'. */
  predicate Plain(t: string)
  {
    t != [] && forall k :: 0 <= k < |t| ==> !IsWhiteSpace(t[k]) && t[k] != '@'
  }

  /**
   * What the regular expression accepts: some split of the whole string into a
   * plain run, '@', a plain run, '.', and a plain run.
   */
  ghost predicate MatchesPattern(s: string)
  {
    exists i, j :: 0 < i && i + 1 < j && j + 1 < |s| && s[i] == '@' && s[j] == '.'
                   && Plain(s[..i]) && Plain(s[i + 1..j]) && Plain(s[j + 1..])
  }

  /** The position of the first '@' in `s`, or `|s|` when there is none. */
  function AtIndex(s: string): (i: nat)
    ensures i <= |s|
    ensures i < |s| ==> s[i] == '@'
    ensures forall k :: 0 <= k < i ==> s[k] != '@'
  {
    if s == [] then 0
    else if s[0] == '@' then 0
    else 1 + AtIndex(s[1..])
  }

  /** Whether `d` has a '.' that is neither its first nor its last character. */
  predicate HasInnerDot(d: string)
  {
    exists j :: 0 < j < |d| - 1 && d[j] == '.'
  }

  /**
   * The email rule read off the pattern: no whitespace at all, exactly one '@',
   * something before it, and a '.' inside the domain after it.
   */
  predicate IsEmailFormat(s: string)
  {
    var i := AtIndex(s);
    && (forall k :: 0 <= k < |s| ==> !IsWhiteSpace(s[k]))
    && 0 < i < |s|
    && (forall k :: i < k < |s| ==> s[k] != '@')
    && HasInnerDot(s[i + 1..])
  }

  /** A slice is a plain run exactly when it is non-empty and each of its characters is plain. */
  lemma PlainSlice(s: string, lo: int, hi: int)
    requires 0 <= lo < hi <= |s|
    ensures Plain(s[lo..hi]) <==> forall k :: lo <= k < hi ==> !IsWhiteSpace(s[k]) && s[k] != '@'
  {
    var t := s[lo..hi];
    assert forall k :: lo <= k < hi ==> s[k] == t[k - lo];
  }

  /** The readable email rule accepts only strings the regular expression accepts. */
  lemma {:induction false} EmailFormatIsPattern(s: string)
    requires IsEmailFormat(s)
    ensures MatchesPattern(s)
  {
    var i := AtIndex(s);
    var d := s[i + 1..];
    var j' :| 0 < j' < |d| - 1 && d[j'] == '.';
    var j := i + 1 + j';
    assert s[j] == d[j'];
    PlainSlice(s, 0, i);
    PlainSlice(s, i + 1, j);
    PlainSlice(s, j + 1, |s|);
    assert s[..i] == s[0..i];
    assert s[j + 1..] == s[j + 1..|s|];
  }

  /** Every string the regular expression accepts satisfies the readable email rule. */
  lemma {:induction false} PatternIsEmailFormat(s: string)
    requires MatchesPattern(s)
    ensures IsEmailFormat(s)
  {
    var i, j :| 0 < i && i + 1 < j && j + 1 < |s| && s[i] == '@' && s[j] == '.'
                && Plain(s[..i]) && Plain(s[i + 1..j]) && Plain(s[j + 1..]);
    assert s[..i] == s[0..i];
    assert s[j + 1..] == s[j + 1..|s|];
    PlainSlice(s, 0, i);
    PlainSlice(s, i + 1, j);
    PlainSlice(s, j + 1, |s|);
    AtIndexIsFirst(s, i);
    forall k | 0 <= k < |s| ensures !IsWhiteSpace(s[k]) {
      if k != i && k != j {
        assert k < i || i < k < j || j < k;
      }
    }
    forall k | i < k < |s| ensures s[k] != '@' {
      if k != j {
        assert k < j || j < k;
      }
    }
    var d := s[i + 1..];
    assert d[j - i - 1] == '.';
    assert HasInnerDot(d);
  }

  /** The readable email rule accepts exactly the strings the regular expression accepts. */
  lemma EmailFormatMatchesPattern(s: string)
    ensures IsEmailFormat(s) <==> MatchesPattern(s)
  {
    if IsEmailFormat(s) {
      EmailFormatIsPattern(s);
    }
    if MatchesPattern(s) {
      PatternIsEmailFormat(s);
    }
  }

  /** The first '@' is at `i` when `s[i]` is '@' and none comes before it. */
  lemma {:induction false} AtIndexIsFirst(s: string, i: nat)
    requires i < |s| && s[i] == '@'
    requires forall k :: 0 <= k < i ==> s[k] != '@'
    ensures AtIndex(s) == i
  {
    if i > 0 {
      assert s[1..][i - 1] == s[i];
      forall k | 0 <= k < i - 1 ensures s[1..][k] != '@' {
        assert s[1..][k] == s[k + 1];
      }
      AtIndexIsFirst(s[1..], i - 1);
    }
  }
}
