/**
 * The password-reset page (app/reset-password/page.tsx): the three-valued
 * recovery-session flag and the events that set it, the view it selects,
 * and the form's validation.
 */
module ResetPassword {
  import opened Wrappers

  const MismatchMessage := "Passwords don't match"
  const ShortMessage := "Password must be at least 8 characters"
  const UnexpectedMessage := "An unexpected error occurred. Please try again."

  /** Lines 66-74: mismatch first, then length; `None` when both pass. */
  function Validate(password: string, confirm: string): (err: Option<string>)
    ensures err.None? <==> password == confirm && |password| >= 8
    ensures password != confirm ==> err == Some(MismatchMessage)
    ensures password == confirm && |password| < 8 ==> err == Some(ShortMessage)
  {
    if password != confirm then Some(MismatchMessage)
    else if |password| < 8 then Some(ShortMessage)
    else None
  }

  /** What `updateUser` did. */
  datatype UpdateResult = Updated | UpdateFailed(message: string) | UpdateThrew

  /** The `(error, success)` pair `handleSubmit` leaves, from the pair it found (lines 63-100). */
  function SubmitEffect(success: bool, password: string, confirm: string, result: UpdateResult): (r: (Option<string>, bool))
    ensures Validate(password, confirm).Some? ==> r == (Validate(password, confirm), success)
    ensures Validate(password, confirm).None? ==> (r.0.None? <==> result.Updated?)
    ensures Validate(password, confirm).None? && result.UpdateFailed? ==> r == (Some(result.message), success)
    ensures Validate(password, confirm).None? && result.Updated? ==> r == (None, true)
    ensures Validate(password, confirm).None? && result.UpdateThrew? ==> r == (Some(UnexpectedMessage), success)
  {
    match Validate(password, confirm)
    case Some(err) => (Some(err), success)
    case None =>
      match result
      case Updated => (None, true)
      case UpdateFailed(m) => (Some(m), success)
      case UpdateThrew => (Some(UnexpectedMessage), success)
  }

  /** Which of the four renderings is shown. */
  datatype Screen = SuccessScreen | InvalidLinkScreen | CheckingScreen | FormScreen

  /** Lines 104, 147, 205 and 216, in that order of precedence. */
  function View(success: bool, isValidSession: Option<bool>): (v: Screen)
    ensures success ==> v == SuccessScreen
    ensures v == FormScreen <==> !success && isValidSession == Some(true)
    ensures v == InvalidLinkScreen <==> !success && isValidSession == Some(false)
    ensures v == CheckingScreen <==> !success && isValidSession.None?
  {
    if success then SuccessScreen
    else
      match isValidSession
      case Some(false) => InvalidLinkScreen
      case None => CheckingScreen
      case Some(true) => FormScreen
  }

  /** The page's state. */
  class ResetPasswordPage {
    var isValidSession: Option<bool>
    var error: Option<string>
    var success: bool

    constructor()
      ensures isValidSession.None? && error.None? && !success
    {
      isValidSession := None;
      error := None;
      success := false;
    }

    /** `getSession` answered (lines 31-35). */
    method OnSessionChecked(hasSession: bool)
      modifies this
      ensures isValidSession == Some(hasSession)
      ensures error == old(error) && success == old(success)
    {
      isValidSession := Some(hasSession);
    }

    /** An auth event arrived (lines 43-47): only `PASSWORD_RECOVERY` marks the link valid. */
    method OnAuthEvent(passwordRecovery: bool)
      modifies this
      ensures isValidSession == if passwordRecovery then Some(true) else old(isValidSession)
      ensures error == old(error) && success == old(success)
    {
      if passwordRecovery {
        isValidSession := Some(true);
      }
    }

    /** The five-second timeout (lines 51-55): an undecided check counts as an invalid link. */
    method OnTimeout()
      modifies this
      ensures isValidSession == AfterTimeout(old(isValidSession))
      ensures error == old(error) && success == old(success)
    {
      if isValidSession.None? {
        isValidSession := Some(false);
      }
    }

    /** `handleSubmit` with the provider's answer as an input. */
    method Submit(password: string, confirm: string, result: UpdateResult)
      modifies this
      ensures (error, success) == SubmitEffect(old(success), password, confirm, result)
      ensures isValidSession == old(isValidSession)
    {
      var err := Validate(password, confirm);
      if err.Some? {
        error := err;
        return;
      }
      error := None;
      match result {
        case Updated => success := true;
        case UpdateFailed(m) => error := Some(m);
        case UpdateThrew => error := Some(UnexpectedMessage);
      }
    }
  }

  /** The flag after the timeout: an undecided check becomes "invalid", a decided one stays. */
  function AfterTimeout(flag: Option<bool>): (r: Option<bool>)
    ensures r.Some?
    ensures flag.Some? ==> r == flag
  {
    if flag.None? then Some(false) else flag
  }

  /** After the timeout the page no longer shows the checking spinner. */
  lemma TimeoutEndsChecking(success: bool, flag: Option<bool>)
    ensures View(success, AfterTimeout(flag)) != CheckingScreen
    ensures flag.None? && !success ==> View(success, AfterTimeout(flag)) == InvalidLinkScreen
  {
  }

  /** A failed validation does not depend on the provider and keeps an earlier success. */
  lemma ValidationIgnoresProvider(success: bool, password: string, confirm: string, r1: UpdateResult, r2: UpdateResult)
    requires password != confirm || |password| < 8
    ensures SubmitEffect(success, password, confirm, r1) == SubmitEffect(success, password, confirm, r2)
    ensures SubmitEffect(success, password, confirm, r1).1 == success
  {
  }
}
