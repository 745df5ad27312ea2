/** The registration request and the field constraints its annotations
    declare, each written out as a predicate. */
module Registration {
  import opened Outcomes
  import opened Text

  const UsernameMinLength := 3
  const UsernameMaxLength := 255
  const PasswordMinLength := 6

  predicate IsAsciiLetter(c: char)
  {
    'A' <= c <= 'Z' || 'a' <= c <= 'z'
  }

  /** The characters the regex `.` does not match. */
  predicate IsLineTerminator(c: char)
  {
    c == '\n' || c == '\r' || c == '\U{0085}' || c == '\U{2028}' || c == '\U{2029}'
  }

  predicate NoLineTerminatorBefore(s: string, j: nat)
    requires j <= |s|
  {
    forall k | 0 <= k < j :: !IsLineTerminator(s[k])
  }

  /** The lookahead `(?=.*[A-Za-z])`: a letter that `.*` can reach. */
  predicate LetterLookahead(s: string)
  {
    exists j | 0 <= j < |s| :: IsAsciiLetter(s[j]) && NoLineTerminatorBefore(s, j)
  }

  /** The lookahead `(?=.*\\d)`, where the regex `\\d` is an escaped
      backslash followed by the letter `d`: that pair, reachable by `.*`. */
  predicate BackslashDLookahead(s: string)
  {
    exists j | 0 <= j < |s| - 1 :: s[j] == '\\' && s[j + 1] == 'd' && NoLineTerminatorBefore(s, j)
  }

  /** The class `[A-Za-z\\d]`: letters, the backslash and `d`. */
  predicate InPasswordClass(c: char)
  {
    IsAsciiLetter(c) || c == '\\' || c == 'd'
  }

  /** The whole password pattern, matched against the whole string. */
  predicate MatchesPasswordPattern(s: string)
    ensures MatchesPasswordPattern(s) ==>
              |s| >= PasswordMinLength && forall i | 0 <= i < |s| :: !('0' <= s[i] <= '9')
  {
    && LetterLookahead(s)
    && BackslashDLookahead(s)
    && |s| >= PasswordMinLength
    && forall i | 0 <= i < |s| :: InPasswordClass(s[i])
  }

  predicate ContainsBackslashD(s: string)
  {
    exists j | 0 <= j < |s| - 1 :: s[j] == '\\' && s[j + 1] == 'd'
  }

  /** What the pattern demands, stated without the regex: at least six
      characters, all letters or backslashes, with a backslash directly
      followed by `d` somewhere. The letter lookahead adds nothing, since
      that `d` is a letter. */
  lemma PasswordPatternAsWritten(s: string)
    ensures MatchesPasswordPattern(s) <==>
            |s| >= PasswordMinLength && ContainsBackslashD(s) &&
            forall i | 0 <= i < |s| :: InPasswordClass(s[i])
  {
    if |s| >= PasswordMinLength && ContainsBackslashD(s) &&
       forall i | 0 <= i < |s| :: InPasswordClass(s[i])
    {
      var j :| 0 <= j < |s| - 1 && s[j] == '\\' && s[j + 1] == 'd';
      assert NoLineTerminatorBefore(s, j) by {
        forall k | 0 <= k < j ensures !IsLineTerminator(s[k]) {
          assert InPasswordClass(s[k]);
        }
      }
      assert NoLineTerminatorBefore(s, j + 1) by {
        assert !IsLineTerminator(s[j]);
      }
      assert IsAsciiLetter(s[j + 1]);
    }
  }

  /** `Passw0rd` is refused and `pass\dword` accepted. */
  lemma PasswordPatternExamples()
    ensures !MatchesPasswordPattern("Passw0rd")
    ensures MatchesPasswordPattern("pass\\dword")
  {
    var ok := "pass\\dword";
    assert ok[4] == '\\' && ok[5] == 'd';
    assert ContainsBackslashD(ok);
    PasswordPatternAsWritten(ok);
    assert "Passw0rd"[5] == '0';
    PasswordPatternAsWritten("Passw0rd");
  }

  /** `@NotNull @NotBlank @Size(min = 3, max = 255)` */
  predicate ValidUsername(v: Option<string>)
    ensures ValidUsername(v) <==>
              v.Some? && HasVisibleChar(v.value) && UsernameMinLength <= |v.value| <= UsernameMaxLength
  {
    match v
    case None => false
    case Some(s) =>
      NotBlankIffVisibleChar(s);
      NotBlank(s) && UsernameMinLength <= |s| <= UsernameMaxLength
  }

  /** `@NotNull @NotBlank @Email`; the address syntax is the parameter. */
  predicate ValidEmail(v: Option<string>, isEmailAddress: string -> bool)
    ensures ValidEmail(v, isEmailAddress) <==>
              v.Some? && HasVisibleChar(v.value) && isEmailAddress(v.value)
  {
    match v
    case None => false
    case Some(s) =>
      NotBlankIffVisibleChar(s);
      NotBlank(s) && isEmailAddress(s)
  }

  /** `@NotNull @NotBlank @Pattern(...)`, used for both password fields.
      `@NotBlank` adds nothing here: every character the pattern admits is
      visible. */
  predicate ValidPassword(v: Option<string>)
    ensures ValidPassword(v) <==>
              v.Some? && |v.value| >= PasswordMinLength && ContainsBackslashD(v.value) &&
              forall i | 0 <= i < |v.value| :: InPasswordClass(v.value[i])
  {
    match v
    case None => false
    case Some(s) =>
      PasswordPatternAsWritten(s);
      PatternAdmitsNoBlank(s);
      NotBlank(s) && MatchesPasswordPattern(s)
  }

  /** A string the pattern accepts is never blank. */
  lemma PatternAdmitsNoBlank(s: string)
    ensures MatchesPasswordPattern(s) ==> NotBlank(s)
  {
    NotBlankIffVisibleChar(s);
    if MatchesPasswordPattern(s) {
      assert InPasswordClass(s[0]);
    }
  }

  /** `@NotNull @NotBlank` */
  predicate ValidName(v: Option<string>)
    ensures ValidName(v) <==> v.Some? && HasVisibleChar(v.value)
  {
    match v
    case None => false
    case Some(s) =>
      NotBlankIffVisibleChar(s);
      NotBlank(s)
  }

  /** Each password field is checked on its own: two different passwords
      both pass, so a body whose confirmation differs is still valid. */
  lemma PasswordsNeedNotAgree()
    ensures ValidPassword(Some("ab\\dcd")) && ValidPassword(Some("cd\\dab"))
  {
    AcceptedPassword("ab\\dcd", 2);
    AcceptedPassword("cd\\dab", 2);
  }

  lemma AcceptedPassword(s: string, j: nat)
    requires |s| >= PasswordMinLength && j < |s| - 1 && s[j] == '\\' && s[j + 1] == 'd'
    requires forall i | 0 <= i < |s| :: InPasswordClass(s[i])
    ensures ValidPassword(Some(s))
  {
    PasswordPatternAsWritten(s);
    NotBlankIffVisibleChar(s);
    assert s[j] > ' ';
  }

  class RegistrationBody {
    var username: Option<string>
    var email: Option<string>
    var password: Option<string>
    var confirmPassword: Option<string>
    var firstName: Option<string>
    var lastName: Option<string>

    /** Every field starts out null. */
    constructor ()
      ensures username == None && email == None && password == None
      ensures confirmPassword == None && firstName == None && lastName == None
    {
      username, email, password := None, None, None;
      confirmPassword, firstName, lastName := None, None, None;
    }

    method SetUsername(v: Option<string>)
      modifies this`username
      ensures username == v
    {
      username := v;
    }

    method SetEmail(v: Option<string>)
      modifies this`email
      ensures email == v
    {
      email := v;
    }

    method SetPassword(v: Option<string>)
      modifies this`password
      ensures password == v
    {
      password := v;
    }

    method SetConfirmPassword(v: Option<string>)
      modifies this`confirmPassword
      ensures confirmPassword == v
    {
      confirmPassword := v;
    }

    method SetFirstName(v: Option<string>)
      modifies this`firstName
      ensures firstName == v
    {
      firstName := v;
    }

    method SetLastName(v: Option<string>)
      modifies this`lastName
      ensures lastName == v
    {
      lastName := v;
    }

    /** All six field constraints; nothing relates the two passwords. */
    predicate SatisfiesConstraints(isEmailAddress: string -> bool)
      reads this
      ensures SatisfiesConstraints(isEmailAddress) ==>
                && username.Some? && email.Some? && password.Some?
                && confirmPassword.Some? && firstName.Some? && lastName.Some?
                && UsernameMinLength <= |username.value| <= UsernameMaxLength
                && MatchesPasswordPattern(password.value)
                && MatchesPasswordPattern(confirmPassword.value)
    {
      && ValidUsername(username)
      && ValidEmail(email, isEmailAddress)
      && ValidPassword(password)
      && ValidPassword(confirmPassword)
      && ValidName(firstName)
      && ValidName(lastName)
    }
  }
}
