/**
 * The two checks that gate the wizard's remote calls: the email uniqueness
 * check between steps 5 and 6, and the finalize validation that must pass
 * before the signup request is sent. The network answers are inputs.
 */
module Gateways {
  import opened Wrappers
  import opened Draft

  /** What `POST /auth/check-email` gives: an answer, a non-2xx status, or a failed request or body. */
  datatype EmailResponse = Answered(registered: bool) | HttpError(status: int) | Unreachable

  const AlreadyRegistered := "This email is already registered. Please login instead."
  const CheckFailed := "Unable to check email. Please try again."

  /**
   * The inline error `validateEmail` leaves behind: none exactly when the
   * registry answered that the email is not registered, which is also the
   * only case in which it returns true.
   */
  function EmailVerdict(response: EmailResponse): (error: Option<string>)
    ensures error.None? <==> response == Answered(false)
    ensures error.Some? ==> |error.value| > 0
    ensures response == Answered(true) ==> error == Some(AlreadyRegistered)
    ensures !response.Answered? ==> error == Some(CheckFailed)
  {
    match response
    case Answered(registered) => if registered then Some(AlreadyRegistered) else None
    case HttpError(_) => Some(CheckFailed)
    case Unreachable => Some(CheckFailed)
  }

  const MissingFields := "Please complete all required fields"
  const PasswordsDiffer := "Passwords do not match"
  const PasswordTooShort := "Password must be at least 8 characters"
  const MinPasswordLength := 8

  /** The conditions under which `handleSubmit` sends the signup request. */
  predicate ReadyToSubmit(d: FormData) {
    d.productType.Some? && d.name != "" && d.email != "" && d.password != ""
    && d.password == d.confirmPassword && |d.password| >= MinPasswordLength
  }

  /**
   * The first finalize check that fails, in the order `handleSubmit` runs
   * them (required fields, then matching passwords, then length); none when
   * the signup request may go out.
   */
  function SubmissionError(d: FormData): (error: Option<string>)
    ensures error.None? <==> ReadyToSubmit(d)
    ensures (d.productType.None? || d.name == "" || d.email == "" || d.password == "") ==> error == Some(MissingFields)
    ensures error == Some(PasswordsDiffer) ==> d.password != d.confirmPassword
    ensures error == Some(PasswordTooShort) ==> d.password == d.confirmPassword && |d.password| < MinPasswordLength
    ensures (!(d.productType.None? || d.name == "" || d.email == "" || d.password == "")
             && d.password != d.confirmPassword) ==> error == Some(PasswordsDiffer)
    ensures (!(d.productType.None? || d.name == "" || d.email == "" || d.password == "")
             && d.password == d.confirmPassword && |d.password| < MinPasswordLength) ==> error == Some(PasswordTooShort)
  {
    if d.productType.None? || d.name == "" || d.email == "" || d.password == "" then Some(MissingFields)
    else if d.password != d.confirmPassword then Some(PasswordsDiffer)
    else if |d.password| < MinPasswordLength then Some(PasswordTooShort)
    else None
  }

  /** The body of `POST /auth/signup`: the email, the password and the display name as `username`. */
  datatype SignupRequest = SignupRequest(email: string, password: string, username: string)

  /** What `POST /auth/signup` gives: the new account, a rejection with its `error` field, or a failed request. */
  datatype SignupResponse =
    | Created(user: string, token: string)
    | Rejected(error: string)
    | Failed(message: string)

  const SignupFailedDefault := "Signup failed"

  /** The message shown for a signup that did not create the account (`error.error || 'Signup failed'`). */
  function SignupErrorMessage(response: SignupResponse): (message: string)
    requires !response.Created?
    ensures response.Rejected? ==> message != ""
    ensures response.Rejected? && response.error != "" ==> message == response.error
    ensures response.Rejected? && response.error == "" ==> message == SignupFailedDefault
    ensures response.Failed? ==> message == response.message
  {
    match response
    case Rejected(error) => if error != "" then error else SignupFailedDefault
    case Failed(message) => message
  }
}
