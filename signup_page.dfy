/**
 * The sign-up form (app/signup/page.tsx): the validation order of
 * `handleSubmit`, the classification of provider errors, and the image
 * carousel step.
 */
module SignupPage {
  import opened Wrappers
  import opened Text

  const MismatchMessage := "Passwords don't match!"
  const ShortMessage := "Password must be at least 8 characters"
  const RegisteredMessage := "Email is already registered. Please sign in instead."
  const RateLimitMessage := "Too many sign-up attempts. Please wait a few minutes and try again."
  const UnconfirmedMessage := "Please check your email for a confirmation link to activate your account."
  const GenericMessage := "An error occurred during sign up. Please try again."
  const UnexpectedMessage := "An unexpected error occurred. Please try again."
  const SuccessPath := "/signup/success"

  /** The two local checks, mismatch first (lines 55-63); `None` when both pass. */
  function Validate(password: string, confirm: string): (err: Option<string>)
    ensures err.None? <==> password == confirm && |password| >= 8
    ensures password != confirm ==> err == Some(MismatchMessage)
    ensures password == confirm && |password| < 8 ==> err == Some(ShortMessage)
  {
    if password != confirm then Some(MismatchMessage)
    else if |password| < 8 then Some(ShortMessage)
    else None
  }

  /** How `handleSubmit` classifies a provider error (lines 91-100). */
  datatype ErrorKind = AlreadyRegistered | RateLimited | NotConfirmed | Other

  function Classify(message: string): (k: ErrorKind)
    ensures Contains(message, "already been registered") || Contains(message, "already registered") ==> k == AlreadyRegistered
    ensures k == Other ==> !Contains(message, "rate limit") && !Contains(message, "Email not confirmed")
  {
    if Contains(message, "already been registered") || Contains(message, "already registered") || Contains(message, "User already registered") then
      AlreadyRegistered
    else if Contains(message, "Email rate limit") || Contains(message, "rate limit") then
      RateLimited
    else if Contains(message, "Email not confirmed") then
      NotConfirmed
    else
      Other
  }

  /** The text shown for a provider error. */
  function ShownError(message: string): (shown: string)
    ensures shown != ""
    ensures Classify(message) == AlreadyRegistered ==> shown == RegisteredMessage
    ensures Classify(message) == RateLimited ==> shown == RateLimitMessage
    ensures Classify(message) == NotConfirmed ==> shown == UnconfirmedMessage
    ensures Classify(message) == Other && message != "" ==> shown == message
    ensures Classify(message) == Other && message == "" ==> shown == GenericMessage
  {
    match Classify(message)
    case AlreadyRegistered => RegisteredMessage
    case RateLimited => RateLimitMessage
    case NotConfirmed => UnconfirmedMessage
    case Other => if message != "" then message else GenericMessage
  }

  /**
   * The third "registered" test and the "Email rate limit" test are implied
   * by the shorter ones, so the classification is decided by four substrings.
   */
  lemma ClassificationByFourSubstrings(message: string)
    ensures Classify(message) == AlreadyRegistered <==> Contains(message, "already been registered") || Contains(message, "already registered")
    ensures Classify(message) == RateLimited <==>
      !Contains(message, "already been registered") && !Contains(message, "already registered") && Contains(message, "rate limit")
    ensures Classify(message) == NotConfirmed <==>
      !Contains(message, "already been registered") && !Contains(message, "already registered") && !Contains(message, "rate limit") && Contains(message, "Email not confirmed")
  {
    if Contains(message, "User already registered") {
      UserAlreadyRegisteredIsAlreadyRegistered(message);
    }
    if Contains(message, "Email rate limit") {
      EmailRateLimitIsRateLimit(message);
    }
  }

  lemma UserAlreadyRegisteredIsAlreadyRegistered(message: string)
    requires Contains(message, "User already registered")
    ensures Contains(message, "already registered")
  {
    assert "User already registered" == "User " + "already registered";
    ContainsLonger(message, "User ", "already registered");
  }

  lemma EmailRateLimitIsRateLimit(message: string)
    requires Contains(message, "Email rate limit")
    ensures Contains(message, "rate limit")
  {
    assert "Email rate limit" == "Email " + "rate limit";
    ContainsLonger(message, "Email ", "rate limit");
  }

  /** What the provider's `signUp` call did. */
  datatype SignUpResult = SignedUp | SignUpFailed(message: string) | SignUpThrew

  /** The form after a submission: its error text, whether the provider was called, where it navigates. */
  datatype Submission = Submission(error: string, providerCalled: bool, navigateTo: Option<string>)

  /** `handleSubmit` (lines 51-112), with the provider call as an input used only when it happens. */
  function Submit(password: string, confirm: string, result: SignUpResult): (s: Submission)
    ensures s.providerCalled <==> Validate(password, confirm).None?
    ensures !s.providerCalled ==> s == Submission(Validate(password, confirm).value, false, None)
    ensures s.navigateTo.Some? <==> s.providerCalled && result.SignedUp?
    ensures s.navigateTo.Some? ==> s.navigateTo.value == SuccessPath && s.error == ""
    ensures s.providerCalled && result.SignUpFailed? ==> s.error == ShownError(result.message)
    ensures s.providerCalled && result.SignUpThrew? ==> s.error == UnexpectedMessage
  {
    match Validate(password, confirm)
    case Some(err) => Submission(err, false, None)
    case None =>
      match result
      case SignedUp => Submission("", true, Some(SuccessPath))
      case SignUpFailed(m) => Submission(ShownError(m), true, None)
      case SignUpThrew => Submission(UnexpectedMessage, true, None)
  }

  /** A mismatch is reported even for a short password, and nothing is sent. */
  lemma MismatchTakesPrecedence(password: string, confirm: string, result: SignUpResult)
    requires password != confirm && |password| < 8
    ensures Submit(password, confirm, result) == Submission(MismatchMessage, false, None)
  {
  }

  /** Only a successful sign-up leaves the page; every failure leaves a visible error. */
  lemma FailureStaysWithError(password: string, confirm: string, result: SignUpResult)
    requires !result.SignedUp?
    ensures Submit(password, confirm, result).navigateTo.None?
    ensures Submit(password, confirm, result).error != ""
  {
  }

  /** The number of carousel images (lines 14-30). */
  const ImageCount := 3

  /** The interval step `(prev + 1) % length` (line 46). */
  function NextImage(prev: nat): (next: nat)
    ensures next < ImageCount
    ensures prev < ImageCount - 1 ==> next == prev + 1
    ensures prev == ImageCount - 1 ==> next == 0
  {
    (prev + 1) % ImageCount
  }

  /** Three steps bring the carousel back to the image it showed. */
  lemma CarouselCycles(i: nat)
    requires i < ImageCount
    ensures NextImage(NextImage(NextImage(i))) == i
  {
  }
}
