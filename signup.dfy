/** The sign-up form: the checks made before the account is requested, the
    request itself and what the page shows afterwards, and the floating labels. */
module SignupForm {
  import opened JsText

  datatype Form = Form(name: string, email: string, password: string, confirmPassword: string)

  const MismatchMessage: string := "Passwords do not match"
  const TooShortMessage: string := "Password must be at least 6 characters"
  const MinPasswordLength: nat := 6

  /** The message of the first check the form fails, if any: the confirmation
      is compared before the length is. */
  function Validate(f: Form): (r: Option<string>)
    ensures r == Some(MismatchMessage) <==> f.password != f.confirmPassword
    ensures r == Some(TooShortMessage) <==> f.password == f.confirmPassword && Utf16Length(f.password) < MinPasswordLength
    ensures r.None? <==> f.password == f.confirmPassword && Utf16Length(f.password) >= MinPasswordLength
  {
    if f.password != f.confirmPassword then Some(MismatchMessage)
    else if Utf16Length(f.password) < MinPasswordLength then Some(TooShortMessage)
    else None
  }

  /** A form that passes the checks has a password of at least six characters,
      so the server never rejects it for a missing password. */
  lemma ValidatedPasswordPresent(f: Form)
    requires Validate(f).None?
    ensures Truthy(Some(f.password)) && |f.password| >= 3
  {
  }

  /** The account service's answer: accepted, or rejected with the server's
      message if it sent one. */
  datatype Reply = Accepted | Rejected(message: Option<string>)

  /** The error the auth context hands back on a rejection. */
  function SignupError(message: Option<string>): (r: string)
    ensures r != ""
    ensures Truthy(message) ==> r == message.value
    ensures !Truthy(message) ==> r == "Signup failed"
  {
    OrElse(message, "Signup failed")
  }

  /** What a submission leaves on the page: the error shown, the account request
      made (name, email, password), the page navigated to, and the loading flag. */
  datatype Outcome = Outcome(
    error: string, request: Option<(string, string, string)>, navigatedTo: Option<string>, loading: bool)

  /** The browser refuses to submit while a `required` field is empty. */
  predicate Submittable(f: Form) {
    f.name != "" && f.email != "" && f.password != "" && f.confirmPassword != ""
  }

  /** `handleSubmit`, given the service's reply; `None` when the browser does not
      submit at all. */
  function Submit(f: Form, reply: Reply): (o: Option<Outcome>)
    ensures o.None? <==> !Submittable(f)
    ensures o.Some? && Validate(f).Some? ==>
      o.value == Outcome(Validate(f).value, None, None, false)
    ensures o.Some? && Validate(f).None? ==>
      && o.value.request == Some((f.name, f.email, f.password))
      && !o.value.loading
      && (reply.Accepted? ==> o.value.navigatedTo == Some("/dashboard") && o.value.error == "")
      && (reply.Rejected? ==> o.value.navigatedTo.None? && o.value.error == SignupError(reply.message))
  {
    if !Submittable(f) then None
    else
      match Validate(f)
      case Some(message) => Some(Outcome(message, None, None, false))
      case None =>
        var request := Some((f.name, f.email, f.password));
        match reply
        case Accepted => Some(Outcome("", request, Some("/dashboard"), false))
        case Rejected(m) => Some(Outcome(SignupError(m), request, None, false))
  }

  /** The account is requested exactly when the form is submitted and passes
      both checks, and every shown error names the check or the server's reason. */
  lemma RequestOnlyWhenValid(f: Form, reply: Reply)
    ensures (Submit(f, reply).Some? && Submit(f, reply).value.request.Some?) <==>
      Submittable(f) && f.password == f.confirmPassword && Utf16Length(f.password) >= MinPasswordLength
    ensures Submit(f, reply).Some? && Submit(f, reply).value.error != "" ==>
      Submit(f, reply).value.error in {MismatchMessage, TooShortMessage} || reply.Rejected?
  {
  }

  // ---------------------------------------------------------------------------
  // Floating labels

  datatype Field = NameField | EmailField | PasswordField | ConfirmField

  function FieldName(field: Field): string {
    match field
    case NameField => "name"
    case EmailField => "email"
    case PasswordField => "password"
    case ConfirmField => "confirmPassword"
  }

  function FieldValue(f: Form, field: Field): string {
    match field
    case NameField => f.name
    case EmailField => f.email
    case PasswordField => f.password
    case ConfirmField => f.confirmPassword
  }

  /** The label sits raised when the field holds text or has the focus
      (`focused` is the name of the focused field, "" for none). */
  function LabelRaised(f: Form, field: Field, focused: string): (r: bool)
    ensures FieldValue(f, field) != "" ==> r
    ensures focused == "" ==> (r <==> FieldValue(f, field) != "")
    ensures FieldValue(f, field) == "" ==> (r <==> focused == FieldName(field))
  {
    FieldValue(f, field) != "" || focused == FieldName(field)
  }

  /** At most one empty field has a raised label: focus is on one field at a time. */
  lemma OneEmptyLabelRaised(f: Form, a: Field, b: Field, focused: string)
    requires a != b && FieldValue(f, a) == "" && FieldValue(f, b) == ""
    ensures !(LabelRaised(f, a, focused) && LabelRaised(f, b, focused))
  {
  }
}
