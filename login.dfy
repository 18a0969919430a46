/** The login page's submit handler: an ordered chain of input checks, then
    the request to the authentication service, whose answer is an input here. */
module Login {
  import opened Common
  import opened EmailRule

  const FillAllFields := "Please fill in all fields"
  const InvalidEmail := "Please enter a valid email address"
  const ShortPassword := "Password must be at least 8 characters"
  const LoginFailed := "Login failed"

  /** The minimum password length both auth pages ask for. */
  const MinPasswordLength := 8

  /** The first failing input check, or nothing when every check passes. */
  function ValidateLogin(email: string, password: string): (r: Option<string>)
    ensures r.None? <==> email != "" && password != "" && EmailRegexTest(email) && |password| >= MinPasswordLength
    ensures (email == "" || password == "") ==> r == Some(FillAllFields)
    ensures email != "" && password != "" && !EmailRegexTest(email) ==> r == Some(InvalidEmail)
    ensures email != "" && password != "" && EmailRegexTest(email) && |password| < MinPasswordLength ==> r == Some(ShortPassword)
  {
    if email == "" || password == "" then Some(FillAllFields)
    else if !EmailRegexTest(email) then Some(InvalidEmail)
    else if |password| < MinPasswordLength then Some(ShortPassword)
    else None
  }

  /** What the authentication service answers: the user's record (only its
      role matters here) or an error, whose server message and own message
      may each be missing. */
  datatype LoginReply =
    | Accepted(role: string)
    | Refused(serverMessage: Option<string>, errorMessage: Option<string>)

  /** The page after an attempt: the error shown, whether a request was sent,
      and where the browser was sent. */
  datatype LoginOutcome = LoginOutcome(error: string, requestSent: bool, redirect: Option<string>)

  /** `a || b`, for optional strings: a missing or empty string is falsy. */
  function OrElse(a: Option<string>, b: string): (r: string)
    ensures a.Some? && a.value != "" ==> r == a.value
    ensures (a.None? || a.value == "") ==> r == b
  {
    if a.Some? && a.value != "" then a.value else b
  }

  /** The route each role lands on. */
  function LandingPage(role: string): (path: string)
    ensures path == "/admin" <==> role == "admin"
    ensures path in {"/admin", "/dashboard"}
  {
    if role == "admin" then "/admin" else "/dashboard"
  }

  /** `handleLogin`: the error is cleared first (no earlier error survives an
      attempt), the first failing check is reported without a request, and
      otherwise the service's answer decides. */
  function HandleLogin(email: string, password: string, reply: LoginReply): (r: LoginOutcome)
    ensures r.requestSent <==> ValidateLogin(email, password).None?
    ensures !r.requestSent ==> r.error == ValidateLogin(email, password).value && r.redirect.None?
    ensures r.redirect.Some? <==> r.requestSent && reply.Accepted?
    ensures r.redirect.Some? ==> r.error == "" && r.redirect.value == LandingPage(reply.role)
    ensures r.requestSent && reply.Refused? ==>
      r.error == OrElse(reply.serverMessage, OrElse(reply.errorMessage, LoginFailed)) && r.error != ""
  {
    match ValidateLogin(email, password)
    case Some(message) => LoginOutcome(message, false, None)
    case None =>
      match reply
      case Accepted(role) => LoginOutcome("", true, Some(LandingPage(role)))
      case Refused(serverMessage, errorMessage) =>
        LoginOutcome(OrElse(serverMessage, OrElse(errorMessage, LoginFailed)), true, None)
  }

  /** A password of exactly the minimum length is long enough, one shorter is not. */
  lemma PasswordBoundary(email: string, password: string)
    requires EmailRegexTest(email)
    ensures |password| == MinPasswordLength ==> ValidateLogin(email, password).None?
    ensures |password| == MinPasswordLength - 1 ==> ValidateLogin(email, password) == Some(ShortPassword)
  {
  }

  /** An address with white space, or without an '@', never reaches the server. */
  lemma MalformedEmailNotSent(email: string, password: string, reply: LoginReply)
    requires email != "" && password != ""
    requires '@' !in email || exists i :: 0 <= i < |email| && IsJsWhitespace(email[i])
    ensures HandleLogin(email, password, reply) == LoginOutcome(InvalidEmail, false, None)
  {
    EmailRegexMeaning(email);
  }
}
