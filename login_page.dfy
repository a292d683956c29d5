/**
 * The login form (app/login/page.tsx): the already-signed-in gate, the
 * empty-field check, and how a provider error is worded.
 */
module LoginPage {
  import opened Wrappers
  import opened Text

  datatype View = AlreadyLoggedIn | LoginForm

  /** Line 24: once the session is known, a signed-in visitor does not see the form. */
  function Gate(authLoading: bool, signedIn: bool): (v: View)
    ensures v == AlreadyLoggedIn <==> !authLoading && signedIn
  {
    if !authLoading && signedIn then AlreadyLoggedIn else LoginForm
  }

  const EmptyFieldsMessage := "Please enter both email and password"
  const InvalidCredentialsMessage := "Invalid email or password"
  const UnexpectedMessage := "An unexpected error occurred. Please try again."

  /** Lines 96-100: the provider's wording for bad credentials is replaced, any other is shown as is. */
  function ShownSignInError(message: string): (shown: string)
    ensures Contains(message, "Invalid login credentials") ==> shown == InvalidCredentialsMessage
    ensures !Contains(message, "Invalid login credentials") ==> shown == message
  {
    if Contains(message, "Invalid login credentials") then InvalidCredentialsMessage else message
  }

  /** What `signIn` did. */
  datatype SignInResult = SignInOk | SignInFailed(message: string) | SignInThrew

  /** The form after a submission: its error (`None` is cleared) and whether `signIn` was called. */
  datatype Submission = Submission(error: Option<string>, signInCalled: bool)

  /** `handleSubmit` (lines 77-106). */
  function Submit(email: string, password: string, result: SignInResult): (s: Submission)
    ensures email == "" || password == "" ==> s == Submission(Some(EmptyFieldsMessage), false)
    ensures s.signInCalled <==> email != "" && password != ""
    ensures s.signInCalled ==> (s.error.None? <==> result.SignInOk?)
    ensures s.signInCalled && result.SignInFailed? ==> s.error == Some(ShownSignInError(result.message))
    ensures s.signInCalled && result.SignInThrew? ==> s.error == Some(UnexpectedMessage)
  {
    if email == "" || password == "" then
      Submission(Some(EmptyFieldsMessage), false)
    else
      match result
      case SignInOk => Submission(None, true)
      case SignInFailed(m) => Submission(Some(ShownSignInError(m)), true)
      case SignInThrew => Submission(Some(UnexpectedMessage), true)
  }

  /** A successful attempt clears an error left by an earlier one. */
  lemma SuccessClearsError(email: string, password: string)
    requires email != "" && password != ""
    ensures Submit(email, password, SignInOk).error.None?
  {
  }
}
