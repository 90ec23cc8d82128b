/**
 * The change-password settings page: its validation rules, the three
 * show/hide toggles of the password inputs, the masked record it logs, and
 * what it does after a successful change or a cancel.
 */
module ChangePasswordPage {
  import opened Common
  import MockApi

  datatype PasswordField = Current | New | Confirm

  datatype PasswordForm = PasswordForm(currentPassword: string, newPassword: string, confirmPassword: string)

  /** The inputs after `reset()`: the form has no default values, so all three are empty. */
  const EmptyForm := PasswordForm("", "", "")

  const MismatchMessage := "Passwords don't match"

  /** Where the page navigates after a change or a cancel. */
  const SettingsRoute := "/settings"

  const CurrentShortMessage := "Current password must be at least 6 characters"
  const NewShortMessage := "New password must be at least 6 characters"
  const ConfirmShortMessage := "Confirm password must be at least 6 characters"

  /** Each field at least six characters, then the confirmation refinement. */
  function PasswordIssues(f: PasswordForm): (r: seq<Issue<PasswordField>>)
    ensures r == [] <==>
      |f.currentPassword| >= 6 && |f.newPassword| >= 6 && |f.confirmPassword| >= 6
      && f.newPassword == f.confirmPassword
    ensures Issue(Current, CurrentShortMessage) in r <==> |f.currentPassword| < 6
    ensures Issue(New, NewShortMessage) in r <==> |f.newPassword| < 6
    ensures Issue(Confirm, ConfirmShortMessage) in r <==> |f.confirmPassword| < 6
    ensures f.newPassword != f.confirmPassword <==> Issue(Confirm, MismatchMessage) in r
    ensures forall x :: x in r ==>
      || x == Issue(Current, CurrentShortMessage) || x == Issue(New, NewShortMessage)
      || x == Issue(Confirm, ConfirmShortMessage) || x == Issue(Confirm, MismatchMessage)
  {
    var fields :=
      Check(|f.currentPassword| >= 6, Current, CurrentShortMessage)
      + Check(|f.newPassword| >= 6, New, NewShortMessage)
      + Check(|f.confirmPassword| >= 6, Confirm, ConfirmShortMessage);
    assert Issue(Confirm, MismatchMessage) !in fields;
    fields + Check(f.newPassword == f.confirmPassword, Confirm, MismatchMessage)
  }

  /**
   * The message under each input: its own length message when it is too
   * short, and under the confirmation the length message before the mismatch.
   */
  lemma PasswordShownMessages(f: PasswordForm)
    ensures var r := PasswordIssues(f);
      && FirstError(r, Current) == (if |f.currentPassword| < 6 then Some(CurrentShortMessage) else None)
      && FirstError(r, New) == (if |f.newPassword| < 6 then Some(NewShortMessage) else None)
      && FirstError(r, Confirm) ==
           if |f.confirmPassword| < 6 then Some(ConfirmShortMessage)
           else if f.newPassword != f.confirmPassword then Some(MismatchMessage)
           else None
  {
    var a := Check(|f.currentPassword| >= 6, Current, CurrentShortMessage);
    var b := Check(|f.newPassword| >= 6, New, NewShortMessage);
    var c := Check(|f.confirmPassword| >= 6, Confirm, ConfirmShortMessage);
    var m := Check(f.newPassword == f.confirmPassword, Confirm, MismatchMessage);
    assert PasswordIssues(f) == a + b + c + m;
    assert AllOn(a, Current) && AllOn(b, New) && AllOn(c, Confirm) && AllOn(m, Confirm);
    PasswordFieldsApart(a, b, c, m);
  }

  /** Issues on four lists, each on one input, are shown input by input. */
  lemma PasswordFieldsApart(a: seq<Issue<PasswordField>>, b: seq<Issue<PasswordField>>,
                            c: seq<Issue<PasswordField>>, m: seq<Issue<PasswordField>>)
    requires AllOn(a, Current) && AllOn(b, New) && AllOn(c, Confirm) && AllOn(m, Confirm)
    ensures FirstError(a + b + c + m, Current) == FirstError(a, Current)
    ensures FirstError(a + b + c + m, New) == FirstError(b, New)
    ensures FirstError(a + b + c + m, Confirm) ==
      if FirstError(c, Confirm).Some? then FirstError(c, Confirm) else FirstError(m, Confirm)
  {
    var r := a + b + c + m;
    assert FirstError(r, Current) == FirstError(a, Current) by {
      FirstErrorConcat(a + b + c, m, Current);
      FirstErrorConcat(a + b, c, Current);
      FirstErrorConcat(a, b, Current);
    }
    assert FirstError(r, New) == FirstError(b, New) by {
      FirstErrorConcat(a + b + c, m, New);
      FirstErrorConcat(a + b, c, New);
      FirstErrorConcat(a, b, New);
    }
    assert FirstError(r, Confirm) ==
      if FirstError(c, Confirm).Some? then FirstError(c, Confirm) else FirstError(m, Confirm) by {
      FirstErrorConcat(a + b + c, m, Confirm);
      FirstErrorConcat(a + b, c, Confirm);
      FirstErrorConcat(a, b, Confirm);
    }
  }

  /**
   * A confirmation of six or more characters that differs from the new
   * password shows the mismatch message under the confirmation input.
   */
  lemma MismatchShownOnConfirm(f: PasswordForm)
    requires |f.confirmPassword| >= 6 && f.newPassword != f.confirmPassword
    ensures FirstError(PasswordIssues(f), Confirm) == Some(MismatchMessage)
  {
    var r := PasswordIssues(f);
    var k :| 0 <= k < |r| && r[k] == Issue(Confirm, MismatchMessage);
    assert k == |r| - 1;
    FirstErrorIsLast(r, Confirm);
  }

  /** A form the page accepts is one the password-change call never rejects. */
  lemma AcceptedFormIsNotRejected(f: PasswordForm)
    requires PasswordIssues(f) == []
    ensures MockApi.ChangePassword(ToRequest(f)).Ok?
  {
  }

  function ToRequest(f: PasswordForm): MockApi.PasswordChange
  {
    MockApi.PasswordChange(f.currentPassword, f.newPassword, f.confirmPassword)
  }

  // ---------------------------------------------------------------------
  // Visibility toggles

  /** Whether each password input shows its text. */
  datatype Visibility = Visibility(current: bool, newPassword: bool, confirm: bool)

  const AllHidden := Visibility(false, false, false)

  function Shown(v: Visibility, f: PasswordField): bool
  {
    match f
    case Current => v.current
    case New => v.newPassword
    case Confirm => v.confirm
  }

  /** `{ ...prev, [field]: !prev[field] }`. */
  function Toggled(v: Visibility, f: PasswordField): (r: Visibility)
    ensures Shown(r, f) == !Shown(v, f)
    ensures forall g :: g != f ==> Shown(r, g) == Shown(v, g)
  {
    match f
    case Current => v.(current := !v.current)
    case New => v.(newPassword := !v.newPassword)
    case Confirm => v.(confirm := !v.confirm)
  }

  /** Two records agreeing on all three inputs are the same record. */
  lemma VisibilityExt(a: Visibility, b: Visibility)
    requires forall g :: Shown(a, g) == Shown(b, g)
    ensures a == b
  {
    assert Shown(a, Current) == Shown(b, Current);
    assert Shown(a, New) == Shown(b, New);
    assert Shown(a, Confirm) == Shown(b, Confirm);
  }

  /** Toggling the same input twice restores the record. */
  lemma ToggleTwice(v: Visibility, f: PasswordField)
    ensures Toggled(Toggled(v, f), f) == v
  {
    VisibilityExt(Toggled(Toggled(v, f), f), v);
  }

  /** Toggles of different inputs do not interfere: their order does not matter. */
  lemma TogglesCommute(v: Visibility, f: PasswordField, g: PasswordField)
    ensures Toggled(Toggled(v, f), g) == Toggled(Toggled(v, g), f)
  {
    VisibilityExt(Toggled(Toggled(v, f), g), Toggled(Toggled(v, g), f));
  }

  // ---------------------------------------------------------------------
  // Submission log

  /** The record written to the console on submit. */
  datatype LogRecord = LogRecord(currentPassword: string, newPassword: string, confirmPassword: string)

  function MaskedLog(f: PasswordForm): (r: LogRecord)
    ensures r.currentPassword == "***" && r.newPassword == "***" && r.confirmPassword == "***"
  {
    LogRecord("***", "***", "***")
  }

  /** The log reveals nothing about the passwords: any two forms log the same record. */
  lemma MaskedLogHidesPasswords(a: PasswordForm, b: PasswordForm)
    ensures MaskedLog(a) == MaskedLog(b)
  {
  }

  // ---------------------------------------------------------------------
  // The page

  class ChangePassword {
    var showPasswords: Visibility
    var values: PasswordForm
    /** The last route the page navigated to, if any. */
    var route: Option<string>

    constructor ()
      ensures showPasswords == AllHidden && values == EmptyForm && route == None
    {
      showPasswords := AllHidden;
      values := EmptyForm;
      route := None;
    }

    /** The eye button of one input: flips that input's visibility only. */
    method TogglePasswordVisibility(f: PasswordField)
      modifies this`showPasswords
      ensures showPasswords == Toggled(old(showPasswords), f)
    {
      match f
      case Current => showPasswords := showPasswords.(current := !showPasswords.current);
      case New => showPasswords := showPasswords.(newPassword := !showPasswords.newPassword);
      case Confirm => showPasswords := showPasswords.(confirm := !showPasswords.confirm);
    }

    /** Typing into the inputs. */
    method Edit(f: PasswordForm)
      modifies this`values
      ensures values == f
    {
      values := f;
    }

    /**
     * "Save": a valid form is logged with every password masked and sent to
     * the password-change call; an invalid one sends nothing.
     */
    method Submit() returns (log: Option<LogRecord>, request: Option<MockApi.PasswordChange>)
      ensures request.Some? <==> PasswordIssues(values) == []
      ensures request.Some? ==> request.value == ToRequest(values) && MockApi.ChangePassword(request.value).Ok?
      ensures log.Some? <==> request.Some?
      ensures log.Some? ==> log.value == LogRecord("***", "***", "***")
    {
      if PasswordIssues(values) == [] {
        log := Some(MaskedLog(values));
        request := Some(ToRequest(values));
        AcceptedFormIsNotRejected(values);
      } else {
        log, request := None, None;
      }
    }

    /** A successful change clears the inputs and goes to the settings route. */
    method OnSuccess()
      modifies this`values, this`route
      ensures values == EmptyForm && route == Some(SettingsRoute)
    {
      values := EmptyForm;
      route := Some(SettingsRoute);
    }

    /** "Cancel" goes to the settings route and leaves the inputs as they are. */
    method HandleCancel()
      modifies this`route
      ensures route == Some(SettingsRoute)
    {
      route := Some(SettingsRoute);
    }
  }
}
