/**
 * The combined sign-in / sign-up page (app/get-started/page.tsx): the mode
 * taken from the URL, the image carousel that depends on it, and the
 * messages a submission leaves.
 */
module GetStarted {
  import opened Wrappers
  import opened Text
  import LoginPage
  import SignupPage

  /** Lines 51-52 and 83-84: login mode iff the `mode` parameter is exactly "login". */
  predicate IsLoginMode(mode: Option<string>) {
    mode == Some("login")
  }

  /** The carousel lengths (lines 14-43, chosen at line 87). */
  function ImageCount(isLogin: bool): (n: nat)
    ensures isLogin ==> n == 4
    ensures !isLogin ==> n == 1
  {
    if isLogin then 4 else 1
  }

  const ExistsMessage := "An account with this email already exists. Please sign in instead."
  const WeakPasswordMessage := "Password must be at least 6 characters"
  const ConfirmMessage := "Check your email for the confirmation link!"
  const UnexpectedMessage := "An unexpected error occurred"

  /** The sign-up error wording (lines 122-129). */
  function ShownSignUpError(message: string): (shown: string)
    ensures Contains(message, "User already registered") || Contains(message, "already been registered") ==> shown == ExistsMessage
    ensures !Contains(message, "User already registered") && !Contains(message, "already been registered") && Contains(message, "Password should be") ==> shown == WeakPasswordMessage
    ensures !Contains(message, "User already registered") && !Contains(message, "already been registered") && !Contains(message, "Password should be") ==> shown == message
  {
    if Contains(message, "User already registered") || Contains(message, "already been registered") then ExistsMessage
    else if Contains(message, "Password should be") then WeakPasswordMessage
    else message
  }

  /**
   * The two sign-up forms word the same provider error differently: a
   * message with "already registered" but neither longer phrase is
   * recognised on the sign-up page and shown raw here.
   */
  lemma SignUpPagesDisagree(message: string)
    requires Contains(message, "already registered")
    requires !Contains(message, "User already registered") && !Contains(message, "already been registered")
    requires !Contains(message, "Password should be")
    ensures SignupPage.ShownError(message) == SignupPage.RegisteredMessage
    ensures ShownSignUpError(message) == message
  {
  }

  /** What the provider call made by a submission did. */
  datatype AuthResult = AuthOk | AuthFailed(message: string) | AuthThrew

  /** The `(error, success)` pair left by `handleSubmit` (lines 103-138). */
  function SubmitMessages(isLogin: bool, result: AuthResult): (m: (Option<string>, Option<string>))
    ensures isLogin ==> m.1.None?
    ensures m.0.Some? ==> m.1.None?
    ensures !isLogin && result.AuthOk? ==> m == (None, Some(ConfirmMessage))
    ensures isLogin && result.AuthOk? ==> m == (None, None)
    ensures result.AuthFailed? ==> m.0 == Some(if isLogin then LoginPage.ShownSignInError(result.message) else ShownSignUpError(result.message))
    ensures result.AuthThrew? ==> m == (Some(UnexpectedMessage), None)
  {
    match result
    case AuthOk => if isLogin then (None, None) else (None, Some(ConfirmMessage))
    case AuthFailed(msg) => (Some(if isLogin then LoginPage.ShownSignInError(msg) else ShownSignUpError(msg)), None)
    case AuthThrew => (Some(UnexpectedMessage), None)
  }

  /** The page's state: the mode, the carousel index and the two messages. */
  class GetStartedForm {
    var isLogin: bool
    var currentImage: nat
    var error: Option<string>
    var successMessage: Option<string>

    /** The carousel index always names one of the mode's images. */
    ghost predicate Valid()
      reads this
    {
      currentImage < ImageCount(isLogin)
    }

    /** Lines 51-61: the first render. */
    constructor(mode: Option<string>)
      ensures Valid()
      ensures isLogin == IsLoginMode(mode) && currentImage == 0
      ensures error.None? && successMessage.None?
    {
      isLogin := IsLoginMode(mode);
      currentImage := 0;
      error := None;
      successMessage := None;
    }

    /**
     * The URL's `mode` changed (lines 82-85); a change of mode then resets
     * the carousel (lines 89-91).
     */
    method ModeParamChanged(mode: Option<string>)
      requires Valid()
      modifies this
      ensures Valid()
      ensures isLogin == IsLoginMode(mode)
      ensures currentImage == if old(isLogin) == isLogin then old(currentImage) else 0
      ensures error == old(error) && successMessage == old(successMessage)
    {
      var next := IsLoginMode(mode);
      if next != isLogin {
        isLogin := next;
        currentImage := 0;
      }
    }

    /** One carousel interval (lines 93-101): it runs only when the mode has several images. */
    method Tick()
      requires Valid()
      modifies this
      ensures Valid()
      ensures isLogin == old(isLogin) && error == old(error) && successMessage == old(successMessage)
      ensures currentImage == NextImage(isLogin, old(currentImage))
    {
      var n := ImageCount(isLogin);
      if n > 1 {
        currentImage := (currentImage + 1) % n;
      }
    }

    /** The "Sign up" / "Sign in" switch (lines 421-425), followed by the reset effect. */
    method Toggle()
      requires Valid()
      modifies this
      ensures Valid()
      ensures isLogin == !old(isLogin) && currentImage == 0
      ensures error.None? && successMessage.None?
    {
      isLogin := !isLogin;
      error := None;
      successMessage := None;
      currentImage := 0;
    }

    /** A submission (lines 103-138): both messages are cleared, then set from the outcome. */
    method Submit(result: AuthResult)
      requires Valid()
      modifies this
      ensures Valid()
      ensures isLogin == old(isLogin) && currentImage == old(currentImage)
      ensures (error, successMessage) == SubmitMessages(isLogin, result)
    {
      error := None;
      successMessage := None;
      var m := SubmitMessages(isLogin, result);
      error := m.0;
      successMessage := m.1;
    }

    /** The Google button (lines 140-146): clears the error, then shows the provider's message verbatim. */
    method GoogleSignIn(failure: Option<string>)
      requires Valid()
      modifies this
      ensures Valid()
      ensures isLogin == old(isLogin) && currentImage == old(currentImage) && successMessage == old(successMessage)
      ensures error == failure
    {
      error := None;
      if failure.Some? {
        error := failure;
      }
    }
  }

  /** The index after one carousel interval (lines 95-99). */
  function NextImage(isLogin: bool, i: nat): (j: nat)
    requires i < ImageCount(isLogin)
    ensures j < ImageCount(isLogin)
    ensures !isLogin ==> j == i
    ensures isLogin && i < 3 ==> j == i + 1
    ensures isLogin && i == 3 ==> j == 0
  {
    if ImageCount(isLogin) > 1 then (i + 1) % ImageCount(isLogin) else i
  }

  /** Four intervals bring the carousel back to the image it showed. */
  lemma CarouselPeriod(isLogin: bool, i: nat)
    requires i < ImageCount(isLogin)
    ensures NextImage(isLogin, NextImage(isLogin, NextImage(isLogin, NextImage(isLogin, i)))) == i
  {
  }
}
