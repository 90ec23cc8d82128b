/**
 * The validation rules of the login, sign-up and password-reset-request
 * forms. Each form's schema becomes a function from the entered record to
 * the list of issues the schema library reports, in the order it checks
 * them; a form is submitted only when that list is empty.
 *
 * The library's e-mail format check is not part of this model: every rule
 * that uses it takes it as the parameter `isEmail`.
 */
module AuthSchemas {
  import opened Common

  datatype AuthField = FirstName | LastName | Email | Password | ConfirmPassword

  // ---------------------------------------------------------------------
  // Login

  /** `rememberMe` is an optional flag with no rule of its own. */
  datatype LoginForm = LoginForm(email: string, password: string, rememberMe: Option<bool>)

  const EmailRequiredMessage := "Email is required"
  const InvalidEmailMessage := "Invalid email address"
  const PasswordRequiredMessage := "Password is required"

  /**
   * The e-mail field's two checks: present, then e-mail shaped. Both run, so
   * an empty e-mail that is also malformed gets both messages, the
   * "required" one first.
   */
  function EmailIssues(email: string, isEmail: string -> bool): (r: seq<Issue<AuthField>>)
    ensures r == [] <==> email != "" && isEmail(email)
    ensures forall i :: 0 <= i < |r| ==> r[i].path == Email
    ensures Issue(Email, EmailRequiredMessage) in r <==> email == ""
    ensures Issue(Email, InvalidEmailMessage) in r <==> !isEmail(email)
    ensures forall x :: x in r ==> x == Issue(Email, EmailRequiredMessage) || x == Issue(Email, InvalidEmailMessage)
  {
    Check(|email| >= 1, Email, EmailRequiredMessage)
      + Check(isEmail(email), Email, InvalidEmailMessage)
  }

  /** The message under the e-mail input: "required" before "invalid". */
  lemma EmailShownMessage(email: string, isEmail: string -> bool)
    ensures FirstError(EmailIssues(email, isEmail), Email)
      == if email == "" then Some(EmailRequiredMessage)
         else if !isEmail(email) then Some(InvalidEmailMessage) else None
  {
    FirstErrorConcat(Check(|email| >= 1, Email, EmailRequiredMessage),
                     Check(isEmail(email), Email, InvalidEmailMessage), Email);
  }

  function LoginIssues(f: LoginForm, isEmail: string -> bool): (r: seq<Issue<AuthField>>)
    ensures r == [] <==> f.email != "" && isEmail(f.email) && f.password != ""
    ensures forall i :: 0 <= i < |r| ==> r[i].path in {Email, Password}
    ensures forall x :: x in r <==>
      x in EmailIssues(f.email, isEmail) || (x == Issue(Password, PasswordRequiredMessage) && f.password == "")
    ensures Issue(Password, PasswordRequiredMessage) in r <==> f.password == ""
  {
    EmailIssues(f.email, isEmail)
      + Check(|f.password| >= 1, Password, PasswordRequiredMessage)
  }

  /** The message under each login input: the e-mail's own, and "Password is required" exactly when it is empty. */
  lemma LoginShownMessages(f: LoginForm, isEmail: string -> bool)
    ensures FirstError(LoginIssues(f, isEmail), Email) == FirstError(EmailIssues(f.email, isEmail), Email)
    ensures FirstError(LoginIssues(f, isEmail), Password)
      == if f.password == "" then Some(PasswordRequiredMessage) else None
  {
    var e := EmailIssues(f.email, isEmail);
    var p := Check(|f.password| >= 1, Password, PasswordRequiredMessage);
    FirstErrorConcat(e, p, Email);
    FirstErrorConcat(e, p, Password);
  }

  /** `rememberMe` never decides whether a login form is accepted. */
  lemma LoginIgnoresRememberMe(f: LoginForm, flag: Option<bool>, isEmail: string -> bool)
    ensures LoginIssues(f, isEmail) == [] <==> LoginIssues(f.(rememberMe := flag), isEmail) == []
  {
  }

  // ---------------------------------------------------------------------
  // Sign-up

  datatype SignUpForm = SignUpForm(
    firstName: string, lastName: string, email: string,
    password: string, confirmPassword: string, rememberMe: Option<bool>)

  /** `/[A-Z]/.test(s)`: some character of `s` is an upper-case ASCII letter. */
  predicate HasUpper(s: string) { exists i :: 0 <= i < |s| && 'A' <= s[i] <= 'Z' }

  /** `/[a-z]/.test(s)`. */
  predicate HasLower(s: string) { exists i :: 0 <= i < |s| && 'a' <= s[i] <= 'z' }

  /** `/[0-9]/.test(s)`. */
  predicate HasDigit(s: string) { exists i :: 0 <= i < |s| && '0' <= s[i] <= '9' }

  const ShortPasswordMessage := "Password must be at least 8 characters"
  const NoUpperMessage := "Password must contain at least one uppercase letter"
  const NoLowerMessage := "Password must contain at least one lowercase letter"
  const NoDigitMessage := "Password must contain at least one number"

  /**
   * The sign-up password policy: length first, then the three character
   * classes. Every check runs, so the password field shows the first rule
   * it breaks.
   */
  function PasswordPolicyIssues(pw: string): (r: seq<Issue<AuthField>>)
    ensures r == [] <==> |pw| >= 8 && HasUpper(pw) && HasLower(pw) && HasDigit(pw)
    ensures forall i :: 0 <= i < |r| ==> r[i].path == Password
    ensures |r| <= 4
    ensures Issue(Password, ShortPasswordMessage) in r <==> |pw| < 8
    ensures Issue(Password, NoUpperMessage) in r <==> !HasUpper(pw)
    ensures Issue(Password, NoLowerMessage) in r <==> !HasLower(pw)
    ensures Issue(Password, NoDigitMessage) in r <==> !HasDigit(pw)
    ensures forall x :: x in r ==>
      x.path == Password && x.message in {ShortPasswordMessage, NoUpperMessage, NoLowerMessage, NoDigitMessage}
  {
    Check(|pw| >= 8, Password, ShortPasswordMessage)
      + Check(HasUpper(pw), Password, NoUpperMessage)
      + Check(HasLower(pw), Password, NoLowerMessage)
      + Check(HasDigit(pw), Password, NoDigitMessage)
  }

  /** The message under the password input: the first rule of the policy the password breaks. */
  lemma PolicyShownMessage(pw: string)
    ensures FirstError(PasswordPolicyIssues(pw), Password) ==
      if |pw| < 8 then Some(ShortPasswordMessage)
      else if !HasUpper(pw) then Some(NoUpperMessage)
      else if !HasLower(pw) then Some(NoLowerMessage)
      else if !HasDigit(pw) then Some(NoDigitMessage)
      else None
  {
    var a := Check(|pw| >= 8, Password, ShortPasswordMessage);
    var b := Check(HasUpper(pw), Password, NoUpperMessage);
    var c := Check(HasLower(pw), Password, NoLowerMessage);
    var d := Check(HasDigit(pw), Password, NoDigitMessage);
    FirstErrorConcat(a + b + c, d, Password);
    FirstErrorConcat(a + b, c, Password);
    FirstErrorConcat(a, b, Password);
  }

  /** The message the password-confirmation refinement attaches to `confirmPassword`. */
  const MismatchMessage := "Passwords do not match"

  const FirstNameRequiredMessage := "First name is required"
  const LastNameRequiredMessage := "Last name is required"
  const ConfirmRequiredMessage := "Confirm password is required"

  /** The object's field checks, in the order the fields are declared. */
  function SignUpFieldIssues(f: SignUpForm, isEmail: string -> bool): (r: seq<Issue<AuthField>>)
    ensures r == [] <==>
      && f.firstName != "" && f.lastName != ""
      && f.email != "" && isEmail(f.email)
      && |f.password| >= 8 && HasUpper(f.password) && HasLower(f.password) && HasDigit(f.password)
      && f.confirmPassword != ""
    ensures forall x :: x in r <==>
      || (x == Issue(FirstName, FirstNameRequiredMessage) && f.firstName == "")
      || (x == Issue(LastName, LastNameRequiredMessage) && f.lastName == "")
      || x in EmailIssues(f.email, isEmail)
      || x in PasswordPolicyIssues(f.password)
      || (x == Issue(ConfirmPassword, ConfirmRequiredMessage) && f.confirmPassword == "")
  {
    var a := Check(|f.firstName| >= 1, FirstName, FirstNameRequiredMessage);
    var b := Check(|f.lastName| >= 1, LastName, LastNameRequiredMessage);
    var e := EmailIssues(f.email, isEmail);
    var p := PasswordPolicyIssues(f.password);
    var c := Check(|f.confirmPassword| >= 1, ConfirmPassword, ConfirmRequiredMessage);
    assert forall x :: x in a + b + e + p + c <==> x in a || x in b || x in e || x in p || x in c;
    a + b + e + p + c
  }

  /**
   * The field checks and then the object refinement. The fields are always
   * strings, so the refinement runs even when a field check has failed.
   */
  function SignUpIssues(f: SignUpForm, isEmail: string -> bool): (r: seq<Issue<AuthField>>)
    ensures r == [] <==>
      && f.firstName != "" && f.lastName != ""
      && f.email != "" && isEmail(f.email)
      && |f.password| >= 8 && HasUpper(f.password) && HasLower(f.password) && HasDigit(f.password)
      && f.confirmPassword != ""
      && f.password == f.confirmPassword
    ensures f.password != f.confirmPassword <==> Issue(ConfirmPassword, MismatchMessage) in r
    ensures forall x :: x in r <==>
      x in SignUpFieldIssues(f, isEmail)
      || (x == Issue(ConfirmPassword, MismatchMessage) && f.password != f.confirmPassword)
  {
    var fields := SignUpFieldIssues(f, isEmail);
    assert Issue(ConfirmPassword, MismatchMessage) !in EmailIssues(f.email, isEmail) + PasswordPolicyIssues(f.password);
    assert Issue(ConfirmPassword, MismatchMessage) !in fields;
    fields + Check(f.password == f.confirmPassword, ConfirmPassword, MismatchMessage)
  }

  /**
   * The message under each sign-up input: each name's "required" message
   * when it is empty, the e-mail's and the password policy's own, and under
   * the confirmation "Confirm password is required" before the mismatch.
   */
  /**
   * Each message of the sign-up form is reported exactly when its own input
   * fails its own rule; no other rule can produce it.
   */
  lemma SignUpFieldMessages(f: SignUpForm, isEmail: string -> bool)
    ensures var r := SignUpIssues(f, isEmail);
      && (Issue(FirstName, FirstNameRequiredMessage) in r <==> f.firstName == "")
      && (Issue(LastName, LastNameRequiredMessage) in r <==> f.lastName == "")
      && (Issue(ConfirmPassword, ConfirmRequiredMessage) in r <==> f.confirmPassword == "")
  {
    var e := EmailIssues(f.email, isEmail);
    var p := PasswordPolicyIssues(f.password);
    assert Issue(FirstName, FirstNameRequiredMessage) !in e + p;
    assert Issue(LastName, LastNameRequiredMessage) !in e + p;
    assert Issue(ConfirmPassword, ConfirmRequiredMessage) !in e + p;
  }

  lemma SignUpShownMessages(f: SignUpForm, isEmail: string -> bool)
    ensures var r := SignUpIssues(f, isEmail);
      && FirstError(r, FirstName) == (if f.firstName == "" then Some(FirstNameRequiredMessage) else None)
      && FirstError(r, LastName) == (if f.lastName == "" then Some(LastNameRequiredMessage) else None)
      && FirstError(r, Email) == FirstError(EmailIssues(f.email, isEmail), Email)
      && FirstError(r, Password) == FirstError(PasswordPolicyIssues(f.password), Password)
      && FirstError(r, ConfirmPassword) ==
           if f.confirmPassword == "" then Some(ConfirmRequiredMessage)
           else if f.password != f.confirmPassword then Some(MismatchMessage)
           else None
  {
    var a := Check(|f.firstName| >= 1, FirstName, FirstNameRequiredMessage);
    var b := Check(|f.lastName| >= 1, LastName, LastNameRequiredMessage);
    var e := EmailIssues(f.email, isEmail);
    var p := PasswordPolicyIssues(f.password);
    var c := Check(|f.confirmPassword| >= 1, ConfirmPassword, ConfirmRequiredMessage);
    var m := Check(f.password == f.confirmPassword, ConfirmPassword, MismatchMessage);
    assert SignUpIssues(f, isEmail) == a + b + e + p + c + m;
    assert AllOn(a, FirstName) && AllOn(b, LastName) && AllOn(e, Email) && AllOn(p, Password);
    assert AllOn(c, ConfirmPassword) && AllOn(m, ConfirmPassword);
    SignUpFieldsApart(a, b, e, p, c, m);
  }

  /**
   * Six lists, each on its own field but the last two, reported one after
   * the other: each field shows its own list's message, and the confirmation
   * shows the fifth list's before the sixth's.
   */
  lemma SignUpFieldsApart(a: seq<Issue<AuthField>>, b: seq<Issue<AuthField>>, e: seq<Issue<AuthField>>,
                          p: seq<Issue<AuthField>>, c: seq<Issue<AuthField>>, m: seq<Issue<AuthField>>)
    requires AllOn(a, FirstName) && AllOn(b, LastName) && AllOn(e, Email) && AllOn(p, Password)
    requires AllOn(c, ConfirmPassword) && AllOn(m, ConfirmPassword)
    ensures var r := a + b + e + p + c + m;
      && FirstError(r, FirstName) == FirstError(a, FirstName)
      && FirstError(r, LastName) == FirstError(b, LastName)
      && FirstError(r, Email) == FirstError(e, Email)
      && FirstError(r, Password) == FirstError(p, Password)
      && FirstError(r, ConfirmPassword) ==
           if FirstError(c, ConfirmPassword).Some? then FirstError(c, ConfirmPassword) else FirstError(m, ConfirmPassword)
  {
    var r := a + b + e + p + c + m;
    assert FirstError(r, FirstName) == FirstError(a, FirstName) by {
      ConcatFive(a, b, e, p, c, m, FirstName);
    }
    assert FirstError(r, LastName) == FirstError(b, LastName) by {
      ConcatFive(a, b, e, p, c, m, LastName);
      assert FirstError(a, LastName) == None;
    }
    assert FirstError(r, Email) == FirstError(e, Email) by {
      ConcatFive(a, b, e, p, c, m, Email);
      assert FirstError(a, Email) == None && FirstError(b, Email) == None;
    }
    assert FirstError(r, Password) == FirstError(p, Password) by {
      ConcatFive(a, b, e, p, c, m, Password);
      assert FirstError(a, Password) == None && FirstError(b, Password) == None;
      assert FirstError(e, Password) == None;
    }
    assert FirstError(r, ConfirmPassword) ==
      if FirstError(c, ConfirmPassword).Some? then FirstError(c, ConfirmPassword) else FirstError(m, ConfirmPassword) by {
      ConcatFive(a, b, e, p, c, m, ConfirmPassword);
      assert FirstError(a, ConfirmPassword) == None && FirstError(b, ConfirmPassword) == None;
      assert FirstError(e, ConfirmPassword) == None && FirstError(p, ConfirmPassword) == None;
    }
  }

  /** Five concatenations unfolded: the message a field shows for six lists in a row. */
  lemma ConcatFive(a: seq<Issue<AuthField>>, b: seq<Issue<AuthField>>, e: seq<Issue<AuthField>>,
                   p: seq<Issue<AuthField>>, c: seq<Issue<AuthField>>, m: seq<Issue<AuthField>>, g: AuthField)
    ensures FirstError(a + b + e + p + c + m, g) ==
      if FirstError(a, g).Some? then FirstError(a, g)
      else if FirstError(b, g).Some? then FirstError(b, g)
      else if FirstError(e, g).Some? then FirstError(e, g)
      else if FirstError(p, g).Some? then FirstError(p, g)
      else if FirstError(c, g).Some? then FirstError(c, g)
      else FirstError(m, g)
  {
    FirstErrorConcat(a + b + e + p + c, m, g);
    FirstErrorConcat(a + b + e + p, c, g);
    FirstErrorConcat(a + b + e, p, g);
    FirstErrorConcat(a + b, e, g);
    FirstErrorConcat(a, b, g);
  }

  /**
   * When the confirmation is filled in but differs from the password, the
   * message shown under `confirmPassword` is the mismatch message.
   */
  lemma MismatchShownOnConfirm(f: SignUpForm, isEmail: string -> bool)
    requires f.confirmPassword != "" && f.password != f.confirmPassword
    ensures FirstError(SignUpIssues(f, isEmail), ConfirmPassword) == Some(MismatchMessage)
  {
    var r := SignUpIssues(f, isEmail);
    var k :| 0 <= k < |r| && r[k] == Issue(ConfirmPassword, MismatchMessage);
    assert k == |r| - 1;
    FirstErrorIsLast(r, ConfirmPassword);
  }

  /** "Secret123" meets the policy; without its capital letter it does not. */
  lemma PolicyExamples()
    ensures PasswordPolicyIssues("Secret123") == []
    ensures PasswordPolicyIssues("secret123")
      == [Issue(Password, "Password must contain at least one uppercase letter")]
  {
    var good := "Secret123";
    assert 'A' <= good[0] <= 'Z' && 'a' <= good[1] <= 'z' && '0' <= good[6] <= '9';
    var bad := "secret123";
    assert 'a' <= bad[0] <= 'z' && '0' <= bad[6] <= '9';
    assert !HasUpper(bad) by {
      forall i | 0 <= i < |bad| ensures !('A' <= bad[i] <= 'Z') {
      }
    }
  }

  // ---------------------------------------------------------------------
  // Password-reset request

  datatype ResetRequestForm = ResetRequestForm(email: string)

  function ResetRequestIssues(f: ResetRequestForm, isEmail: string -> bool): (r: seq<Issue<AuthField>>)
    ensures r == [] <==> f.email != "" && isEmail(f.email)
    ensures forall i :: 0 <= i < |r| ==> r[i].path == Email
    ensures Issue(Email, EmailRequiredMessage) in r <==> f.email == ""
    ensures Issue(Email, InvalidEmailMessage) in r <==> !isEmail(f.email)
    ensures forall x :: x in r ==> x == Issue(Email, EmailRequiredMessage) || x == Issue(Email, InvalidEmailMessage)
  {
    EmailIssues(f.email, isEmail)
  }
}
