/**
 * The username and password rules of SignupSchema in
 * Frontened/src/auth/signUp.jsx. Each rule that fails contributes its message;
 * a field is valid when none fails.
 */
module SignUp {
  import Text
  import Js

  predicate IsLetter(c: char) { Text.IsUpper(c) || Text.IsLower(c) }

  predicate IsDigit(c: char) { '0' <= c <= '9' }

  /** A character of the class `[A-Za-z0-9_]`. */
  predicate IsWordChar(c: char) { IsLetter(c) || IsDigit(c) || c == '_' }

  /** A character of the class `[!@#$%^&*]`. */
  predicate IsSpecial(c: char) { c in "!@#$%^&*" }

  /** Characters that `.` in a regular expression does not match. */
  predicate IsLineTerminator(c: char)
  {
    c == '\n' || c == '\r' || c == '\U{2028}' || c == '\U{2029}'
  }

  predicate HasChar(s: string, p: char -> bool)
  {
    exists i :: 0 <= i < |s| && p(s[i])
  }

  /**
   * `/^(?=.*[A-Za-z])[A-Za-z0-9_]+$/`: the lookahead finds a letter before any
   * line terminator, and the whole string is one or more word characters.
   */
  predicate UsernamePattern(u: string)
  {
    && (exists i :: 0 <= i < |u| && IsLetter(u[i]) && forall k :: 0 <= k < i ==> !IsLineTerminator(u[k]))
    && |u| >= 1
    && forall i :: 0 <= i < |u| ==> IsWordChar(u[i])
  }

  const UsernameTooShort: string := "Username must be at least 3 characters"
  const UsernameNeedsLetters: string := "Must contain letters"

  /**
   * The messages of the username rules that fail, in schema order; `min`
   * compares the JavaScript length, in UTF-16 code units.
   */
  function UsernameIssues(u: string): seq<string>
  {
    (if Js.Utf16Length(u) < 3 then [UsernameTooShort] else [])
    + (if UsernamePattern(u) then [] else [UsernameNeedsLetters])
  }

  /** The lookahead reduces to "some letter", since a word never holds a line terminator. */
  lemma UsernamePatternIff(u: string)
    ensures UsernamePattern(u) <==>
      |u| >= 1 && (forall i :: 0 <= i < |u| ==> IsWordChar(u[i])) && HasChar(u, IsLetter)
  {
    if |u| >= 1 && (forall i :: 0 <= i < |u| ==> IsWordChar(u[i])) && HasChar(u, IsLetter) {
      var i :| 0 <= i < |u| && IsLetter(u[i]);
      assert forall k :: 0 <= k < i ==> IsWordChar(u[k]);
    }
  }

  /**
   * A username is accepted exactly when it has at least three characters, all
   * letters, digits or underscores, and at least one letter.
   */
  lemma UsernameValidIff(u: string)
    ensures UsernameIssues(u) == [] <==>
      |u| >= 3 && (forall i :: 0 <= i < |u| ==> IsWordChar(u[i])) && HasChar(u, IsLetter)
  {
    UsernamePatternIff(u);
    if forall i :: 0 <= i < |u| ==> IsWordChar(u[i]) {
      Js.Utf16LengthOfBmp(u);
    }
  }

  /** A username of digits and underscores only is rejected for want of a letter. */
  lemma UsernameWithoutLetterRejected(u: string)
    requires forall i :: 0 <= i < |u| ==> IsDigit(u[i]) || u[i] == '_'
    ensures UsernameNeedsLetters in UsernameIssues(u)
  {
    UsernamePatternIff(u);
  }

  lemma UsernameExamples()
    ensures UsernameIssues("ab_1") == []
    ensures UsernameIssues("12") == [UsernameTooShort, UsernameNeedsLetters]
  {
    UsernameValidIff("ab_1");
    assert IsLetter("ab_1"[0]);
    Js.Utf16LengthOfBmp("12");
    UsernameWithoutLetterRejected("12");
  }

  /**
   * "a" followed by an emoji is long enough for `min(3)`, since the emoji is
   * two code units, but fails the pattern.
   */
  lemma UsernameAstralExample()
    ensures UsernameIssues("a\U{1F600}") == [UsernameNeedsLetters]
  {
    var u := "a\U{1F600}";
    assert u[..1] == "a" && u[..1][..0] == [];
    assert !IsWordChar(u[1]);
  }

  const PasswordTooShort: string := "Password must be at least 8 characters"
  const PasswordNeedsUpper: string := "Requires uppercase letter"
  const PasswordNeedsLower: string := "Requires lowercase letter"
  const PasswordNeedsDigit: string := "Requires number"
  const PasswordNeedsSpecial: string := "Requires special character"

  /** The messages of the password rules that fail, in schema order; the length is in UTF-16 code units. */
  function PasswordIssues(p: string): seq<string>
  {
    (if Js.Utf16Length(p) < 8 then [PasswordTooShort] else [])
    + (if HasChar(p, Text.IsUpper) then [] else [PasswordNeedsUpper])
    + (if HasChar(p, Text.IsLower) then [] else [PasswordNeedsLower])
    + (if HasChar(p, IsDigit) then [] else [PasswordNeedsDigit])
    + (if HasChar(p, IsSpecial) then [] else [PasswordNeedsSpecial])
  }

  /**
   * A password is accepted exactly when it has at least eight UTF-16 code units and
   * holds an upper-case letter, a lower-case letter, a digit and one of `!@#$%^&*`;
   * each missing requirement shows up as its own message.
   */
  lemma PasswordValidIff(p: string)
    ensures PasswordIssues(p) == [] <==>
      Js.Utf16Length(p) >= 8 && HasChar(p, Text.IsUpper) && HasChar(p, Text.IsLower)
      && HasChar(p, IsDigit) && HasChar(p, IsSpecial)
    ensures (PasswordTooShort in PasswordIssues(p)) <==> Js.Utf16Length(p) < 8
    ensures (PasswordNeedsUpper in PasswordIssues(p)) <==> !HasChar(p, Text.IsUpper)
    ensures (PasswordNeedsLower in PasswordIssues(p)) <==> !HasChar(p, Text.IsLower)
    ensures (PasswordNeedsDigit in PasswordIssues(p)) <==> !HasChar(p, IsDigit)
    ensures (PasswordNeedsSpecial in PasswordIssues(p)) <==> !HasChar(p, IsSpecial)
  {
  }

  lemma PasswordAcceptedExample()
    ensures PasswordIssues("Passw0rd!") == []
  {
    var good := "Passw0rd!";
    Js.Utf16LengthOfBmp(good);
    assert Text.IsUpper(good[0]) && Text.IsLower(good[1]) && IsDigit(good[5]) && IsSpecial(good[8]);
  }

  lemma PasswordWeakExample()
    ensures PasswordIssues("password") == [PasswordNeedsUpper, PasswordNeedsDigit, PasswordNeedsSpecial]
  {
    var weak := "password";
    Js.Utf16LengthOfBmp(weak);
    assert Text.IsLower(weak[0]);
  }

  /** Six characters, two of them emoji, make the eight code units `min(8)` asks for. */
  lemma PasswordAstralExample()
    ensures PasswordIssues("Aa1!\U{1F600}\U{1F600}") == []
  {
    var p := "Aa1!\U{1F600}\U{1F600}";
    Js.Utf16LengthOfBmp(p[..4]);
    assert p[..5][..4] == p[..4] && p[..6][..5] == p[..5] && p[..6] == p;
    assert Js.Utf16Length(p[..5]) == 6;
    assert Text.IsUpper(p[0]) && Text.IsLower(p[1]) && IsDigit(p[2]) && IsSpecial(p[3]);
  }
}
