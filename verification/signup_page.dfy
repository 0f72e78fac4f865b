/**
 * The sign-up page: the email-shape rule, the ordered password rules, the
 * field errors they set, and the submit handler that runs both checks and
 * only then signs up through the authentication provider.
 */
module SignupPage {
  import opened Wrappers
  import opened Text
  import opened Api
  import opened Auth
  import opened AuthContext

  const EmailMessage := "Please enter a valid email address"
  const SignupFallback := "Signup failed. Please try again."
  const DashboardPath := "/dashboard"

  // ---------------------------------------------------------------- email

  /** A character the email pattern's `[^\s@]` class admits. */
  predicate Plain(c: char) {
    !IsWhitespace(c) && c != '@'
  }

  predicate AllPlain(s: string) {
    forall k | 0 <= k < |s| :: Plain(s[k])
  }

  /**
   * The email pattern `^[^\s@]+@[^\s@]+\.[^\s@]+$`: a non-empty plain run, an
   * '@', a non-empty plain run, a '.', and a non-empty plain run, with nothing
   * before or after.
   */
  predicate ValidEmail(s: string) {
    exists i, j | 0 < i && i + 1 < j && j + 1 < |s| ::
      && s[i] == '@' && s[j] == '.'
      && AllPlain(s[..i]) && AllPlain(s[i + 1..j]) && AllPlain(s[j + 1..])
  }

  /** The part after the '@' has a '.' with a character on each side. */
  predicate HasInnerDot(r: string) {
    exists j | 0 < j < |r| - 1 :: r[j] == '.'
  }

  /**
   * The same rule read from the first '@': something plain before it, and
   * after it a plain remainder with a '.' strictly inside.
   */
  predicate AtSignForm(s: string) {
    match IndexOf(s, '@')
    case None => false
    case Some(i) => 0 < i && AllPlain(s[..i]) && AllPlain(s[i + 1..]) && HasInnerDot(s[i + 1..])
  }

  lemma ValidEmailHasAtSignForm(s: string)
    requires ValidEmail(s)
    ensures AtSignForm(s)
  {
    var i, j :| 0 < i && i + 1 < j && j + 1 < |s| && s[i] == '@' && s[j] == '.'
                && AllPlain(s[..i]) && AllPlain(s[i + 1..j]) && AllPlain(s[j + 1..]);
    forall k | 0 <= k < i ensures s[k] != '@' {
      assert s[k] == s[..i][k];
    }
    assert IndexOf(s, '@') == Some(i);
    var rest := s[i + 1..];
    forall k | 0 <= k < |rest| ensures Plain(rest[k]) {
      if k < j - i - 1 {
        assert rest[k] == s[i + 1..j][k];
      } else if k > j - i - 1 {
        assert rest[k] == s[j + 1..][k - (j - i)];
      }
    }
    assert rest[j - i - 1] == '.';
  }

  lemma AtSignFormIsValidEmail(s: string)
    requires AtSignForm(s)
    ensures ValidEmail(s)
  {
    var i := IndexOf(s, '@').value;
    var rest := s[i + 1..];
    var d :| 0 < d < |rest| - 1 && rest[d] == '.';
    var j := i + 1 + d;
    assert s[j] == '.';
    assert s[i + 1..j] == rest[..d];
    assert s[j + 1..] == rest[d + 1..];
    assert AllPlain(rest[..d]) && AllPlain(rest[d + 1..]);
  }

  /** A valid email is exactly one in the '@'-split form: one '@', no whitespace, an inner dot after it. */
  lemma ValidEmailIffAtSignForm(s: string)
    ensures ValidEmail(s) <==> AtSignForm(s)
  {
    if ValidEmail(s) {
      ValidEmailHasAtSignForm(s);
    }
    if AtSignForm(s) {
      AtSignFormIsValidEmail(s);
    }
  }

  /** The address the sign-up tests type in is rejected; an ordinary address is accepted. */
  lemma EmailExamples()
    ensures !ValidEmail("invalid-email")
    ensures ValidEmail("user@example.com")
  {
    var bad := "invalid-email";
    forall i | 0 <= i < |bad| ensures bad[i] != '@' { }
    var good := "user@example.com";
    assert good[4] == '@' && good[12] == '.';
    assert AllPlain(good[..4]) && AllPlain(good[5..12]) && AllPlain(good[13..]);
  }

  // ---------------------------------------------------------------- password

  /** The password rules, in the order they are checked. */
  datatype PasswordProblem = TooShort | NoUppercase | NoLowercase | NoDigit

  function ProblemMessage(p: PasswordProblem): string {
    match p
    case TooShort => "Password must be at least 8 characters"
    case NoUppercase => "Password must contain at least one uppercase letter"
    case NoLowercase => "Password must contain at least one lowercase letter"
    case NoDigit => "Password must contain at least one number"
  }

  predicate HasUpper(p: string) { exists k | 0 <= k < |p| :: IsAsciiUpper(p[k]) }
  predicate HasLower(p: string) { exists k | 0 <= k < |p| :: IsAsciiLower(p[k]) }
  predicate HasDigit(p: string) { exists k | 0 <= k < |p| :: IsAsciiDigit(p[k]) }

  /** All four rules hold. */
  predicate StrongPassword(p: string) {
    |p| >= 8 && HasUpper(p) && HasLower(p) && HasDigit(p)
  }

  /** The first rule the password breaks, if any. */
  function FirstProblem(p: string): (r: Option<PasswordProblem>)
    ensures r.None? <==> StrongPassword(p)
    ensures r == Some(TooShort) <==> |p| < 8
    ensures r == Some(NoUppercase) <==> |p| >= 8 && !HasUpper(p)
    ensures r == Some(NoLowercase) <==> |p| >= 8 && HasUpper(p) && !HasLower(p)
    ensures r == Some(NoDigit) <==> |p| >= 8 && HasUpper(p) && HasLower(p) && !HasDigit(p)
  {
    if |p| < 8 then Some(TooShort)
    else if !HasUpper(p) then Some(NoUppercase)
    else if !HasLower(p) then Some(NoLowercase)
    else if !HasDigit(p) then Some(NoDigit)
    else None
  }

  /** The tests' weak password is reported as too short; one breaking a later rule as that rule. */
  lemma PasswordExamples()
    ensures FirstProblem("weak") == Some(TooShort)
    ensures FirstProblem("abcdefgh") == Some(NoUppercase)
    ensures FirstProblem("Abcdefgh") == Some(NoDigit)
    ensures FirstProblem("Abcdefg1") == None
  {
    var p := "Abcdefgh";
    assert IsAsciiUpper(p[0]) && IsAsciiLower(p[1]);
    var q := "Abcdefg1";
    assert IsAsciiUpper(q[0]) && IsAsciiLower(q[1]) && IsAsciiDigit(q[7]);
  }

  /** The message a rejected signup shows: the error's message, or the fallback when that is empty. */
  function FailureText(t: Thrown, engineMessage: string): (m: string)
    ensures m != ""
    ensures KnownMessage(t).Some? && KnownMessage(t).value != "" ==> m == KnownMessage(t).value
    ensures KnownMessage(t).None? && engineMessage != "" ==> m == engineMessage
  {
    var message := if KnownMessage(t).Some? then KnownMessage(t).value else engineMessage;
    if message != "" then message else SignupFallback
  }

  // ---------------------------------------------------------------- the page

  class SignupForm {
    var email: string
    var password: string
    var error: string
    var isLoading: bool
    var emailError: string
    var passwordError: string
    /** Where `router.push` last sent the page, if anywhere. */
    var route: Option<string>

    constructor (email: string, password: string)
      ensures this.email == email && this.password == password
      ensures error == "" && !isLoading && emailError == "" && passwordError == "" && route == None
    {
      this.email := email;
      this.password := password;
      error := "";
      isLoading := false;
      emailError := "";
      passwordError := "";
      route := None;
    }

    /** `validateEmail`: the verdict of the email rule, and its field error. */
    method ValidateEmail() returns (ok: bool)
      modifies this`emailError
      ensures ok == ValidEmail(email)
      ensures emailError == if ok then "" else EmailMessage
    {
      ok := ValidEmail(email);
      emailError := if ok then "" else EmailMessage;
    }

    /** `validatePassword`: the verdict of the password rules, and the first broken rule's message. */
    method ValidatePassword() returns (ok: bool)
      modifies this`passwordError
      ensures ok == StrongPassword(password)
      ensures passwordError == if ok then "" else ProblemMessage(FirstProblem(password).value)
    {
      var problem := FirstProblem(password);
      ok := problem.None?;
      passwordError := if ok then "" else ProblemMessage(problem.value);
    }

    /**
     * `handleSubmit`: clears the page error, runs both checks (so both field
     * errors are set), and signs up only when both pass. A rejection shows its
     * message; success goes to the dashboard. `engineMessage` is the text of an
     * error the JavaScript engine raised, when that is what was thrown.
     */
    method HandleSubmit(auth: AuthProvider, response: Response, engineMessage: string)
      returns (submitted: bool)
      modifies this, auth, auth.browser`storage, auth.browser`location
      ensures submitted == (ValidEmail(email) && StrongPassword(password))
      ensures emailError == (if ValidEmail(email) then "" else EmailMessage)
      ensures passwordError == (if StrongPassword(password) then "" else ProblemMessage(FirstProblem(password).value))
      ensures email == old(email) && password == old(password)
      ensures !submitted ==> error == "" && isLoading == old(isLoading) && route == old(route)
      ensures !submitted ==> auth.user == old(auth.user) && auth.isLoading == old(auth.isLoading)
      ensures !submitted ==> auth.browser.storage == old(auth.browser.storage) && auth.browser.location == old(auth.browser.location)
      ensures submitted ==> !isLoading && !auth.isLoading
      ensures submitted ==> var r := CredentialsOutcome(response);
        auth.user == (if r.Ok? then UserAfterSuccess(r, auth.decode, old(auth.user)) else old(auth.user))
      ensures submitted ==> SessionAfterSubmit(auth.browser, response, CredentialsOutcome(response))
      ensures submitted ==> var r := CredentialsOutcome(response);
        && (r.Ok? ==> error == "" && route == Some(DashboardPath))
        && (r.Err? ==> error == FailureText(r.error, engineMessage) && route == old(route))
    {
      error := "";
      var emailOk := ValidateEmail();
      var passwordOk := ValidatePassword();
      if !emailOk || !passwordOk {
        return false;
      }
      submitted := true;
      isLoading := true;
      var thrown := auth.Signup(email, password, response);
      if thrown.None? {
        route := Some(DashboardPath);
      } else {
        error := FailureText(thrown.value, engineMessage);
      }
      isLoading := false;
    }
  }
}
