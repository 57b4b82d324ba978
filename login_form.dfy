/**
 * The login and registration forms (`LoginScreen`): the email pattern
 * `^[A-Za-z0-9+_.-]+@[A-Za-z0-9.-]+\.[A-Za-z]{2,6}$`, the password
 * pattern (eight or more of letters, digits and `@$!%*#?&`, with at least
 * one of each kind), and the error flags set by the two submit buttons.
 * Every character class in these patterns is ASCII.
 */
module LoginForm {
  import opened Wrappers
  import opened Text

  predicate IsAsciiLetter(c: char) { 'A' <= c <= 'Z' || 'a' <= c <= 'z' }

  /** `[A-Za-z0-9+_.-]`. */
  predicate IsLocalChar(c: char) { IsAsciiLetter(c) || IsDigit(c) || c == '+' || c == '_' || c == '.' || c == '-' }

  /** `[A-Za-z0-9.-]`. */
  predicate IsDomainChar(c: char) { IsAsciiLetter(c) || IsDigit(c) || c == '.' || c == '-' }

  /** `[@$!%*#?&]`. */
  predicate IsSpecial(c: char) { c == '@' || c == '$' || c == '!' || c == '%' || c == '*' || c == '#' || c == '?' || c == '&' }

  predicate AllOf(s: string, p: char -> bool) { forall i :: 0 <= i < |s| ==> p(s[i]) }

  /** The email pattern as written: a local part, '@', a domain, '.', and a 2 to 6 letter ending. */
  predicate MatchesEmail(s: string) {
    exists a, d :: 0 < a && a + 1 < d < |s| && s[a] == '@' && s[d] == '.'
      && AllOf(s[..a], IsLocalChar) && AllOf(s[a + 1..d], IsDomainChar)
      && 2 <= |s| - d - 1 <= 6 && AllOf(s[d + 1..], IsAsciiLetter)
  }

  /**
   * A decision procedure for the email pattern: since neither class before
   * the final '.' admits '@' and the ending admits no '.', the '@' must be
   * the first one and the '.' the last one.
   */
  function IsEmail(s: string): (b: bool)
    ensures b <==> MatchesEmail(s)
  {
    match (IndexOfChar(s, '@'), LastIndexOfChar(s, '.'))
    case (Some(a), Some(d)) =>
      var b := 0 < a && a + 1 < d && AllOf(s[..a], IsLocalChar) && AllOf(s[a + 1..d], IsDomainChar)
        && 2 <= |s| - d - 1 <= 6 && AllOf(s[d + 1..], IsAsciiLetter);
      EmailSplit(s, a, d);
      b
    case _ =>
      false
  }

  /** Every match of the pattern places its '@' at the first '@' and its '.' at the last '.'. */
  lemma EmailSplit(s: string, a: nat, d: nat)
    requires a < |s| && s[a] == '@' && forall j :: 0 <= j < a ==> s[j] != '@'
    requires d < |s| && s[d] == '.' && forall j :: d < j < |s| ==> s[j] != '.'
    ensures MatchesEmail(s) <==>
      (0 < a && a + 1 < d && AllOf(s[..a], IsLocalChar) && AllOf(s[a + 1..d], IsDomainChar)
       && 2 <= |s| - d - 1 <= 6 && AllOf(s[d + 1..], IsAsciiLetter))
  {
    if MatchesEmail(s) {
      var a', d' :| 0 < a' && a' + 1 < d' < |s| && s[a'] == '@' && s[d'] == '.'
        && AllOf(s[..a'], IsLocalChar) && AllOf(s[a' + 1..d'], IsDomainChar)
        && 2 <= |s| - d' - 1 <= 6 && AllOf(s[d' + 1..], IsAsciiLetter);
      assert forall i :: 0 <= i < a' ==> s[i] != '@' by {
        forall i | 0 <= i < a' ensures s[i] != '@' { assert s[..a'][i] == s[i]; }
      }
      assert forall j :: d' < j < |s| ==> s[j] != '.' by {
        forall j | d' < j < |s| ensures s[j] != '.' { assert s[d' + 1..][j - d' - 1] == s[j]; }
      }
      assert a == a' && d == d';
    }
  }

  /** The password pattern: at least 8 characters, all allowed, with a letter, a digit and a special character. */
  predicate MatchesPassword(s: string) {
    |s| >= 8
    && (forall i :: 0 <= i < |s| ==> IsAsciiLetter(s[i]) || IsDigit(s[i]) || IsSpecial(s[i]))
    && (exists i :: 0 <= i < |s| && IsAsciiLetter(s[i]))
    && (exists i :: 0 <= i < |s| && IsDigit(s[i]))
    && (exists i :: 0 <= i < |s| && IsSpecial(s[i]))
  }

  /** Text matching the email pattern is never blank. */
  lemma EmailNotBlank(s: string)
    requires MatchesEmail(s)
    ensures !IsBlank(s)
  {
    var a, d :| 0 < a && a + 1 < d < |s| && s[a] == '@' && s[d] == '.'
      && AllOf(s[..a], IsLocalChar) && AllOf(s[a + 1..d], IsDomainChar)
      && 2 <= |s| - d - 1 <= 6 && AllOf(s[d + 1..], IsAsciiLetter);
    assert !IsWhitespace(s[a]);
  }

  /** The login form's two error flags. */
  class LoginFormState {
    var emailError: bool
    var passwordError: bool

    constructor ()
      ensures !emailError && !passwordError
    {
      emailError := false;
      passwordError := false;
    }

    /** Editing a field clears that field's flag only. */
    method OnEmailChange()
      modifies this`emailError
      ensures !emailError
    {
      emailError := false;
    }

    method OnPasswordChange()
      modifies this`passwordError
      ensures !passwordError
    {
      passwordError := false;
    }

    /** The Login button: flags each blank field, and submits exactly when neither is blank. */
    method OnLoginClick(email: string, password: string) returns (submit: bool)
      modifies this
      ensures emailError == IsBlank(email) && passwordError == IsBlank(password)
      ensures submit <==> !IsBlank(email) && !IsBlank(password)
    {
      emailError := IsBlank(email);
      passwordError := IsBlank(password);
      submit := !emailError && !passwordError;
    }
  }

  /** The registration form's four error flags. */
  class RegisterFormState {
    var nombreError: bool
    var apellidoError: bool
    var emailError: bool
    var passwordError: bool

    constructor ()
      ensures !nombreError && !apellidoError && !emailError && !passwordError
    {
      nombreError := false;
      apellidoError := false;
      emailError := false;
      passwordError := false;
    }

    method OnNombreChange()
      modifies this`nombreError
      ensures !nombreError
    {
      nombreError := false;
    }

    method OnApellidoChange()
      modifies this`apellidoError
      ensures !apellidoError
    {
      apellidoError := false;
    }

    method OnEmailChange()
      modifies this`emailError
      ensures !emailError
    {
      emailError := false;
    }

    method OnPasswordChange()
      modifies this`passwordError
      ensures !passwordError
    {
      passwordError := false;
    }

    /** Sign up: every flag is recomputed, and the form submits exactly when all four checks pass. */
    method OnRegisterClick(nombre: string, apellido: string, email: string, password: string) returns (submit: bool)
      modifies this
      ensures nombreError == IsBlank(nombre) && apellidoError == IsBlank(apellido)
      ensures emailError == !MatchesEmail(email) && passwordError == !MatchesPassword(password)
      ensures submit <==> !IsBlank(nombre) && !IsBlank(apellido) && MatchesEmail(email) && MatchesPassword(password)
    {
      nombreError := IsBlank(nombre);
      apellidoError := IsBlank(apellido);
      emailError := !IsEmail(email);
      passwordError := !MatchesPassword(password);
      submit := !nombreError && !apellidoError && !emailError && !passwordError;
    }
  }

  /** Two sample addresses: a plain one matches, one with a 7-letter ending does not. */
  lemma EmailExamples()
    ensures IsEmail("ana@mail.com")
    ensures !IsEmail("ana@mail.network")
  {
    PlainAddressMatches();
    LongEndingFails();
  }

  /** "ana@mail.com" has its '@' at 3 and its last '.' at 8, with everything around them allowed. */
  lemma PlainAddressMatches()
    ensures MatchesEmail("ana@mail.com")
  {
    var ok := "ana@mail.com";
    assert ok[..3] == "ana" && ok[4..8] == "mail" && ok[9..] == "com";
    assert AllOf(ok[..3], IsLocalChar) && AllOf(ok[3 + 1..8], IsDomainChar) && AllOf(ok[8 + 1..], IsAsciiLetter);
    assert ok[3] == '@' && ok[8] == '.' && 2 <= |ok| - 8 - 1 <= 6;
  }

  /** "ana@mail.network" ends in seven letters, one more than the pattern allows. */
  lemma LongEndingFails()
    ensures !MatchesEmail("ana@mail.network")
  {
    var ko := "ana@mail.network";
    assert ko[3] == '@' && ko[8] == '.';
    assert forall j :: 0 <= j < 3 ==> ko[j] != '@';
    assert forall j :: 8 < j < |ko| ==> ko[j] != '.';
    EmailSplit(ko, 3, 8);
  }
}
