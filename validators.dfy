/**
 * The three form patterns (username, password, email) written as predicates
 * over characters, with the JavaScript regular-expression semantics they
 * come from stated separately and proved equal.
 */
module Validators {

  // ----- Character classes (JavaScript semantics, no `u` flag) -----

  predicate IsLower(c: char) { 'a' <= c <= 'z' }

  predicate IsUpper(c: char) { 'A' <= c <= 'Z' }

  /** `\d`: the ASCII digits only. */
  predicate IsDigit(c: char) { '0' <= c <= '9' }

  predicate IsAlnum(c: char) { IsLower(c) || IsUpper(c) || IsDigit(c) }

  /** The characters `.` does not match: line feed, carriage return, line and paragraph separators. */
  predicate IsLineTerminator(c: char)
  {
    c == '\n' || c == '\r' || c == '\U{2028}' || c == '\U{2029}'
  }

  /** `\s`: JavaScript white space and line terminators. */
  predicate IsWhitespace(c: char)
  {
    || c == '\t' || c == '\n' || c == '\U{000B}' || c == '\U{000C}' || c == '\r' || c == ' '
    || c == '\U{00A0}' || c == '\U{1680}' || ('\U{2000}' <= c <= '\U{200A}')
    || c == '\U{2028}' || c == '\U{2029}' || c == '\U{202F}' || c == '\U{205F}'
    || c == '\U{3000}' || c == '\U{FEFF}'
  }

  /** The special characters the registration password needs: `[@$!%*?&]`. */
  predicate IsRegisterSpecial(c: char) { c in "@$!%*?&" }

  /** Characters a registration password may consist of: `[A-Za-z\d@$!%*?&]`. */
  predicate IsRegisterPasswordChar(c: char) { IsAlnum(c) || IsRegisterSpecial(c) }

  /** The wider special set of the account-settings password: ``!@#$%^&*()_+-=[]{};':"\|,.<>/?``. */
  predicate IsSettingsSpecial(c: char) { c in "!@#$%^&*()_+-=[]{};':\"\\|,.<>/?" }

  /** Some character of `s` is in class `cls`. */
  predicate Has(s: string, cls: char -> bool)
  {
    exists i | 0 <= i < |s| :: cls(s[i])
  }

  // ----- The three checks -----

  /** `^[a-zA-Z0-9]{3,20}$`. */
  predicate ValidUsername(s: string)
  {
    3 <= |s| <= 20 && forall i | 0 <= i < |s| :: IsAlnum(s[i])
  }

  /** Registration password: at least 8 characters from the allowed class, with a lower-case letter, an upper-case letter, a digit and a special. */
  predicate ValidRegisterPassword(s: string)
  {
    && |s| >= 8
    && (forall i | 0 <= i < |s| :: IsRegisterPasswordChar(s[i]))
    && Has(s, IsLower) && Has(s, IsUpper) && Has(s, IsDigit) && Has(s, IsRegisterSpecial)
  }

  /** Account-settings password: at least 8 characters, none a line terminator, with a lower-case letter, an upper-case letter, a digit and a (wider) special. */
  predicate ValidSettingsPassword(s: string)
  {
    && |s| >= 8
    && (forall i | 0 <= i < |s| :: !IsLineTerminator(s[i]))
    && Has(s, IsLower) && Has(s, IsUpper) && Has(s, IsDigit) && Has(s, IsSettingsSpecial)
  }

  /** A `.` strictly inside `domain`: neither its first nor its last character. */
  predicate HasInnerDot(domain: string)
  {
    exists p | 0 < p < |domain| - 1 :: domain[p] == '.'
  }

  /** Only position `k` of `s` holds an `@`. */
  predicate OnlyAtSignAt(s: string, k: int)
  {
    0 <= k < |s| && s[k] == '@' && forall m | 0 <= m < |s| && m != k :: s[m] != '@'
  }

  /** Email: no white space, exactly one `@`, a non-empty local part, and a domain part with an inner dot. */
  predicate ValidEmail(s: string)
  {
    && (forall i | 0 <= i < |s| :: !IsWhitespace(s[i]))
    && exists k | 0 < k < |s| :: OnlyAtSignAt(s, k) && HasInnerDot(s[k + 1..])
  }

  // ----- The checked fields and their messages (the same text on both forms) -----

  datatype Field = Username | Password | Email

  const UsernameMessage: string := "Username must be 3-20 characters long and contain only letters and numbers."
  const PasswordMessage: string := "Password must be at least 8 characters, include uppercase, lowercase, number, and special character."
  const EmailMessage: string := "Please enter a valid email address."

  /** The message shown when a field fails its check. */
  function FailureMessage(f: Field): string
  {
    match f
    case Username => UsernameMessage
    case Password => PasswordMessage
    case Email => EmailMessage
  }

  /** Distinct fields have distinct messages, so a message identifies the failing check. */
  lemma FailureMessagesDiffer(f: Field, g: Field)
    requires f != g
    ensures FailureMessage(f) != FailureMessage(g)
  {
  }

  // ----- What the regular expressions match, stated as the engine would -----

  /** `(?=.*X)` at the start of the input: a character of class X is reached before any line terminator. */
  ghost predicate LookaheadAtStart(s: string, cls: char -> bool)
  {
    exists i :: 0 <= i < |s| && cls(s[i]) && forall j :: 0 <= j < i ==> !IsLineTerminator(s[j])
  }

  /** `^(?=.*[a-z])(?=.*[A-Z])(?=.*\d)(?=.*[@$!%*?&])[A-Za-z\d@$!%*?&]{8,}$`. */
  ghost predicate RegisterPasswordRegex(s: string)
  {
    && LookaheadAtStart(s, IsLower) && LookaheadAtStart(s, IsUpper)
    && LookaheadAtStart(s, IsDigit) && LookaheadAtStart(s, IsRegisterSpecial)
    && |s| >= 8 && forall i :: 0 <= i < |s| ==> IsRegisterPasswordChar(s[i])
  }

  /** `^(?=.*[a-z])(?=.*[A-Z])(?=.*\d)(?=.*[!@#$%^&*()_+\-=[\]{};':"\\|,.<>/?]).{8,}$`. */
  ghost predicate SettingsPasswordRegex(s: string)
  {
    && LookaheadAtStart(s, IsLower) && LookaheadAtStart(s, IsUpper)
    && LookaheadAtStart(s, IsDigit) && LookaheadAtStart(s, IsSettingsSpecial)
    && |s| >= 8 && forall i :: 0 <= i < |s| ==> !IsLineTerminator(s[i])
  }

  /** `[^\s@]+`: a non-empty run of characters that are neither white space nor `@`. */
  ghost predicate EmailPart(s: string)
  {
    |s| > 0 && forall i :: 0 <= i < |s| ==> !IsWhitespace(s[i]) && s[i] != '@'
  }

  /** `^[^\s@]+@[^\s@]+\.[^\s@]+$`: some split of the input at an `@` (index i) and a later `.` (index j) into three such runs. */
  ghost predicate EmailRegex(s: string)
  {
    exists i, j :: 0 <= i < j < |s| && s[i] == '@' && s[j] == '.'
      && EmailPart(s[..i]) && EmailPart(s[i + 1..j]) && EmailPart(s[j + 1..])
  }

  // ----- The predicates accept exactly what the patterns match -----

  lemma {:induction false} LookaheadAgrees(s: string, cls: char -> bool)
    requires forall i :: 0 <= i < |s| ==> !IsLineTerminator(s[i])
    ensures LookaheadAtStart(s, cls) <==> Has(s, cls)
  {
  }

  lemma {:induction false} RegisterPasswordMatchesRegex(s: string)
    ensures ValidRegisterPassword(s) <==> RegisterPasswordRegex(s)
  {
    if forall i :: 0 <= i < |s| ==> IsRegisterPasswordChar(s[i]) {
      assert forall i :: 0 <= i < |s| ==> !IsLineTerminator(s[i]) by {
        forall i | 0 <= i < |s| ensures !IsLineTerminator(s[i]) {
          assert IsRegisterPasswordChar(s[i]);
        }
      }
      LookaheadAgrees(s, IsLower);
      LookaheadAgrees(s, IsUpper);
      LookaheadAgrees(s, IsDigit);
      LookaheadAgrees(s, IsRegisterSpecial);
    }
  }

  lemma {:induction false} SettingsPasswordMatchesRegex(s: string)
    ensures ValidSettingsPassword(s) <==> SettingsPasswordRegex(s)
  {
  }

  /** A regular-expression match has the shape the predicate asks for. */
  lemma {:induction false} EmailRegexIsValid(s: string)
    requires EmailRegex(s)
    ensures ValidEmail(s)
  {
    var i, j :| 0 <= i < j < |s| && s[i] == '@' && s[j] == '.'
      && EmailPart(s[..i]) && EmailPart(s[i + 1..j]) && EmailPart(s[j + 1..]);
    var local, mid, top := s[..i], s[i + 1..j], s[j + 1..];
    // Every position lies in one of the three runs or is the '@' or the '.'.
    forall m | 0 <= m < |s|
      ensures !IsWhitespace(s[m]) && (m != i ==> s[m] != '@')
    {
      if m < i {
        assert s[m] == local[m];
      } else if i < m < j {
        assert s[m] == mid[m - i - 1];
      } else if j < m {
        assert s[m] == top[m - j - 1];
      }
    }
    assert OnlyAtSignAt(s, i);
    var domain := s[i + 1..];
    assert domain[j - i - 1] == '.';
    assert HasInnerDot(domain);
  }

  /** A string the predicate accepts splits into the three runs the pattern needs. */
  lemma {:induction false} ValidEmailMatchesRegex(s: string)
    requires ValidEmail(s)
    ensures EmailRegex(s)
  {
  }

  lemma {:induction false} EmailMatchesRegex(s: string)
    ensures ValidEmail(s) <==> EmailRegex(s)
  {
    if EmailRegex(s) {
      EmailRegexIsValid(s);
    }
    if ValidEmail(s) {
      ValidEmailMatchesRegex(s);
    }
  }

  // ----- The two password rules compared -----

  /** Every password accepted at registration is accepted by the account-settings rule. */
  lemma {:induction false} RegisterPasswordPassesSettings(s: string)
    requires ValidRegisterPassword(s)
    ensures ValidSettingsPassword(s)
  {
  }

  /** Every character of `Abcdefg1#` lies below the line terminators. */
  lemma SampleHasNoLineTerminator(s: string)
    requires s == "Abcdefg1#"
    ensures forall i | 0 <= i < |s| :: !IsLineTerminator(s[i])
  {
    forall i | 0 <= i < |s| ensures s[i] <= 'z' {
    }
  }

  /** `Abcdefg1#` has a lower, an upper, a digit and a settings special, and no line terminator. */
  lemma SettingsSampleAccepted()
    ensures ValidSettingsPassword("Abcdefg1#")
  {
    var s := "Abcdefg1#";
    SampleHasNoLineTerminator(s);
    assert IsSettingsSpecial(s[8]) by {
      assert "!@#$%^&*()_+-=[]{};':\"\\|,.<>/?"[2] == s[8];
    }
    assert IsLower(s[1]) && IsUpper(s[0]) && IsDigit(s[7]);
  }

  /** The converse fails: `Abcdefg1#` uses a special character only the settings rule allows. */
  lemma SettingsPasswordNotAlwaysRegisterPassword()
    ensures ValidSettingsPassword("Abcdefg1#") && !ValidRegisterPassword("Abcdefg1#")
  {
    SettingsSampleAccepted();
    var s := "Abcdefg1#";
    assert !IsRegisterPasswordChar(s[8]);
  }

  // ----- Sample inputs -----

  /** `ab` is too short; `validUser1` passes. */
  lemma UsernameSamples()
    ensures !ValidUsername("ab") && ValidUsername("validUser1")
  {
  }

  /** `Weak1!` is too short; `Strong1!` has every required class. */
  lemma PasswordSamples()
    ensures !ValidRegisterPassword("Weak1!") && ValidRegisterPassword("Strong1!")
  {
    var p := "Strong1!";
    assert IsUpper(p[0]) && IsLower(p[1]) && IsDigit(p[6]) && IsRegisterSpecial(p[7]);
  }

  /** `not-an-email` has no `@`; `a@b.co` splits as `a`, `b`, `co`. */
  lemma EmailSamples()
    ensures !ValidEmail("not-an-email") && ValidEmail("a@b.co")
  {
    var e := "a@b.co";
    assert OnlyAtSignAt(e, 1);
    assert e[2..][1] == '.';
    assert HasInnerDot(e[2..]);
    var bad := "not-an-email";
    assert forall k | 0 <= k < |bad| :: bad[k] != '@';
  }
}
