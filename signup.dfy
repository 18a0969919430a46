/** The signup page: a form record updated one field at a time, and a submit
    handler with the same ordered checks as the login page (its messages go
    to `alert`). The service's answer is an input here. */
module Signup {
  import opened Common
  import opened EmailRule
  import Login

  datatype SignupForm = SignupForm(name: string, email: string, password: string, role: string, adminSecretKey: string)

  /** The `name` attributes of the form's inputs. */
  datatype Field = Name | Email | Password | Role | AdminSecretKey

  /** The form's value for one field. */
  function Get(form: SignupForm, field: Field): string {
    match field
    case Name => form.name
    case Email => form.email
    case Password => form.password
    case Role => form.role
    case AdminSecretKey => form.adminSecretKey
  }

  /** The form as the page first shows it. */
  function InitialForm(): (form: SignupForm)
    ensures form.role == "user"
    ensures forall f :: f != Role ==> Get(form, f) == ""
  {
    SignupForm("", "", "", "user", "")
  }

  /** `handleChange`: `{...form, [name]: value}`. */
  function HandleChange(form: SignupForm, field: Field, value: string): (r: SignupForm)
    ensures Get(r, field) == value
    ensures forall f :: f != field ==> Get(r, f) == Get(form, f)
  {
    match field
    case Name => form.(name := value)
    case Email => form.(email := value)
    case Password => form.(password := value)
    case Role => form.(role := value)
    case AdminSecretKey => form.(adminSecretKey := value)
  }

  /** Changing a field twice keeps only the second value, and changes to two
      different fields do not interfere. */
  lemma ChangesCompose(form: SignupForm, f: Field, g: Field, x: string, y: string)
    ensures HandleChange(HandleChange(form, f, x), f, y) == HandleChange(form, f, y)
    ensures f != g ==> HandleChange(HandleChange(form, f, x), g, y) == HandleChange(HandleChange(form, g, y), f, x)
  {
  }

  /** The first failing check: name, e-mail and password must be present
      (role and the admin key are not checked), the e-mail must match, and
      the password must be long enough. */
  function ValidateSignup(form: SignupForm): (r: Option<string>)
    ensures r.None? <==>
      && form.name != "" && form.email != "" && form.password != ""
      && EmailRegexTest(form.email) && |form.password| >= Login.MinPasswordLength
    ensures (form.name == "" || form.email == "" || form.password == "") ==> r == Some(Login.FillAllFields)
    ensures form.name != "" && form.email != "" && form.password != "" && !EmailRegexTest(form.email) ==>
      r == Some(Login.InvalidEmail)
    ensures form.name != "" && EmailRegexTest(form.email) && form.password != "" && |form.password| < Login.MinPasswordLength ==>
      r == Some(Login.ShortPassword)
  {
    if form.name == "" || form.email == "" || form.password == "" then Some(Login.FillAllFields)
    else if !EmailRegexTest(form.email) then Some(Login.InvalidEmail)
    else if |form.password| < Login.MinPasswordLength then Some(Login.ShortPassword)
    else None
  }

  /** The signup checks on e-mail and password are the login checks. */
  lemma SignupChecksAgreeWithLogin(form: SignupForm)
    requires form.name != ""
    ensures ValidateSignup(form) == Login.ValidateLogin(form.email, form.password)
  {
  }

  /** The service's answer: created, or an error with maybe a message. */
  datatype SignupReply = Created | SignupRefused(serverMessage: Option<string>)

  /** What the user sees after submitting: the alert, the form sent (if any)
      and the page navigated to (if any). */
  datatype SignupOutcome = SignupOutcome(alert: string, sent: Option<SignupForm>, navigate: Option<string>)

  /** `handleSignup`. */
  function HandleSignup(form: SignupForm, reply: SignupReply): (r: SignupOutcome)
    ensures r.sent.Some? <==> ValidateSignup(form).None?
    ensures r.sent.Some? ==> r.sent.value == form
    ensures r.sent.None? ==> r.alert == ValidateSignup(form).value && r.navigate.None?
    ensures r.navigate.Some? <==> r.sent.Some? && reply.Created?
    ensures r.navigate.Some? ==> r.navigate.value == "/login" && r.alert == "Signup successful. Please login."
    ensures r.sent.Some? && reply.SignupRefused? ==> r.alert == Login.OrElse(reply.serverMessage, "Signup failed")
  {
    match ValidateSignup(form)
    case Some(message) => SignupOutcome(message, None, None)
    case None =>
      match reply
      case Created => SignupOutcome("Signup successful. Please login.", Some(form), Some("/login"))
      case SignupRefused(serverMessage) =>
        SignupOutcome(Login.OrElse(serverMessage, "Signup failed"), Some(form), None)
  }

  /** The untouched form is never sent: it is missing its name. */
  lemma InitialFormRejected(reply: SignupReply)
    ensures HandleSignup(InitialForm(), reply) == SignupOutcome(Login.FillAllFields, None, None)
  {
  }
}
