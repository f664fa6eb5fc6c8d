/** The form validators of the browser scripts (`Validation` in
    public/js/utils.js): four regular-expression or length tests on strings. */
module Validation {
  import opened Common

  /** A character of the class `[^\s@]`. */
  predicate IsEmailChar(c: char) {
    !IsJsSpace(c) && c != '@'
  }

  predicate AllEmailChars(s: string) {
    forall k :: 0 <= k < |s| ==> IsEmailChar(s[k])
  }

  /** `s` matches `^[^\s@]+@[^\s@]+\.[^\s@]+$` with the '@' at `at` and the
      separating '.' at `dot`: three non-empty runs of `[^\s@]` around them. */
  ghost predicate EmailSplit(s: string, at: int, dot: int) {
    && 0 < at && at + 1 < dot && dot + 1 < |s|
    && s[at] == '@' && s[dot] == '.'
    && AllEmailChars(s[..at]) && AllEmailChars(s[at + 1..dot]) && AllEmailChars(s[dot + 1..])
  }

  /** The language of the e-mail regular expression. */
  ghost predicate MatchesEmailPattern(s: string) {
    exists at, dot :: EmailSplit(s, at, dot)
  }

  /** `isValidEmail`: no whitespace, exactly one '@' with something before it,
      and a '.' after the '@' that is neither the first nor the last character
      of the domain. */
  predicate IsValidEmail(s: string) {
    && (forall k :: 0 <= k < |s| ==> !IsJsSpace(s[k]))
    && match IndexOf(s, '@')
       case None => false
       case Some(at) =>
         && at > 0
         && '@' !in s[at + 1..]
         && exists dot :: at + 1 < dot < |s| - 1 && s[dot] == '.'
  }

  /** The check above accepts exactly the strings the regular expression accepts. */
  lemma EmailCheckMatchesPattern(s: string)
    ensures IsValidEmail(s) <==> MatchesEmailPattern(s)
  {
    if IsValidEmail(s) {
      var at := IndexOf(s, '@').value;
      var dot :| at + 1 < dot < |s| - 1 && s[dot] == '.';
      forall k | 0 <= k < |s| && k != at ensures IsEmailChar(s[k]) {
        if k < at {
          assert s[k] in s[..at];
        } else {
          assert s[k] in s[at + 1..];
        }
      }
      assert EmailSplit(s, at, dot);
    }
    if MatchesEmailPattern(s) {
      var at, dot :| EmailSplit(s, at, dot);
      forall k | 0 <= k < |s| && k != at ensures IsEmailChar(s[k]) {
        if k < at {
          assert s[k] == s[..at][k];
        } else if k < dot {
          assert s[k] == s[at + 1..dot][k - at - 1];
        } else if k > dot {
          assert s[k] == s[dot + 1..][k - dot - 1];
        }
      }
      assert '@' !in s[..at];
      assert IndexOf(s, '@') == Some(at);
      assert '@' !in s[at + 1..];
    }
  }

  /** `isValidPassword`: at least six characters. */
  predicate IsValidPassword(p: string) {
    |p| >= 6
  }

  /** A character of the class `[a-zA-Z0-9_]`. */
  predicate IsWordChar(c: char) {
    ('a' <= c <= 'z') || ('A' <= c <= 'Z') || ('0' <= c <= '9') || c == '_'
  }

  /** `isValidUsername`: `^[a-zA-Z0-9_]{3,20}$`. */
  predicate IsValidUsername(s: string) {
    3 <= |s| <= 20 && forall k :: 0 <= k < |s| ==> IsWordChar(s[k])
  }

  /** `isValidGCashNumber`: `^09\d{9}$`, eleven characters starting with "09". */
  predicate IsValidGCashNumber(s: string) {
    |s| == 11 && s[0] == '0' && s[1] == '9' && forall k :: 2 <= k < 11 ==> IsAsciiDigit(s[k])
  }

  /** A string with no whitespace at either end is its own trim. */
  lemma TrimKeeps(s: string)
    requires s == [] || (!IsJsSpace(s[0]) && !IsJsSpace(s[|s| - 1]))
    ensures Trim(s) == s
  {
    if s != [] {
      assert TextStart(s, 0) == 0;
      assert TextEnd(s, 0, |s|) == |s|;
    }
  }

  /** Every string the e-mail, username or GCash test accepts is non-empty and
      unchanged by `trim`, so trimming a form field never turns an accepted
      value into a different one. */
  lemma AcceptedValuesAreTrimmed(s: string)
    requires IsValidEmail(s) || IsValidUsername(s) || IsValidGCashNumber(s)
    ensures s != [] && Trim(s) == s
  {
    if IsValidUsername(s) {
      assert IsWordChar(s[0]) && IsWordChar(s[|s| - 1]);
    } else if IsValidGCashNumber(s) {
      assert IsAsciiDigit(s[10]);
    }
    TrimKeeps(s);
  }

  /** Boundary cases of the GCash pattern: the prefix and the exact length matter. */
  lemma GCashExamples()
    ensures IsValidGCashNumber("09171234567") && !IsValidGCashNumber("08171234567")
    ensures !IsValidGCashNumber("0917123456") && !IsValidGCashNumber("091712345678")
  {
    assert "08171234567"[1] == '8';
  }

  /** Boundary cases of the username pattern. */
  lemma UsernameExamples()
    ensures IsValidUsername("abc") && !IsValidUsername("ab") && !IsValidUsername("a-bc")
    ensures IsValidUsername("abcdefghij_123456789") && !IsValidUsername("abcdefghij_1234567890")
  {
    assert !IsWordChar("a-bc"[1]);
  }

  /** Boundary cases of the e-mail pattern: the '.' must sit strictly inside the
      domain. */
  lemma EmailExamples()
    ensures IsValidEmail("a@b.c")
    ensures !IsValidEmail("a@.bc") && !IsValidEmail("a@bc.")
  {
    assert IndexOf("a@b.c", '@') == Some(1) && "a@b.c"[3] == '.';
    assert IndexOf("a@.bc", '@') == Some(1);
    assert IndexOf("a@bc.", '@') == Some(1);
  }

  /** Boundary cases of the e-mail pattern: there must be exactly one '@',
      preceded by something, and no whitespace anywhere. */
  lemma EmailAtSignExamples()
    ensures !IsValidEmail("@b.c") && !IsValidEmail("a@b@c.d") && !IsValidEmail("a b@c.d")
  {
    assert IndexOf("@b.c", '@') == Some(0);
    assert IndexOf("a@b@c.d", '@') == Some(1) && "a@b@c.d"[3] == '@';
    assert IsJsSpace("a b@c.d"[1]);
  }
}
