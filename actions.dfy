/** The server actions behind the auth forms, and `checkUserSubscription`. The
    auth service's replies and the database rows are inputs; each action returns
    the redirect it ends with and whether it reached the auth service. */
module Actions {
  import opened Common
  import opened Subscription

  datatype MessageKind = ErrorMessage | SuccessMessage

  /** `encodedRedirect(kind, path, message)` puts the message in the query
      string of the redirect; a plain `redirect(path)` does not. The signUp
      action can also fall through and return nothing. */
  datatype Response =
    | EncodedRedirect(kind: MessageKind, path: string, message: string)
    | Redirect(path: string)
    | NoResponse

  datatype ActionOutcome = ActionOutcome(calledAuth: bool, response: Response)

  /** What `supabase.auth.signUp` came to. */
  datatype SignUpReply = SignUpThrew | SignUpFailed(message: string) | SignedUp(userReturned: bool)

  const MismatchMessage: string := "Your password and verify password do not match, try again."
  const AlreadyExistsMessage: string := "An account with this email already exists. Please sign in instead."

  /** `verifyPassword !== password`, where a missing verify field is read as ''
      and a missing password stays undefined, so it never equals a string. */
  predicate PasswordsDiffer(password: Option<string>, verifyPassword: Option<string>) {
    password.None? || password.value != OrElse(verifyPassword, "")
  }

  /** The message for a refused sign-up: the fixed one for an existing account,
      the service's own otherwise. */
  function SignUpErrorMessage(message: string): (r: string)
    ensures Contains(message, "already registered") || Contains(message, "already exists") ==> r == AlreadyExistsMessage
    ensures !Contains(message, "already registered") && !Contains(message, "already exists") ==> r == message
  {
    if Contains(message, "already registered") || Contains(message, "already exists") then AlreadyExistsMessage
    else message
  }

  /** `signUpAction`: the password comparison comes before the required-field check. */
  function SignUp(email: Option<string>, password: Option<string>, verifyPassword: Option<string>,
                  reply: SignUpReply): (r: ActionOutcome)
    ensures PasswordsDiffer(password, verifyPassword) ==>
      r == ActionOutcome(false, EncodedRedirect(ErrorMessage, "/sign-up", MismatchMessage))
    ensures !PasswordsDiffer(password, verifyPassword) && (!Truthy(email) || !Truthy(password)) ==>
      r == ActionOutcome(false, EncodedRedirect(ErrorMessage, "/sign-up", "Email and password are required"))
    ensures r.calledAuth <==> !PasswordsDiffer(password, verifyPassword) && Truthy(email) && Truthy(password)
    ensures r.calledAuth ==> match reply
      case SignUpThrew => r.response == EncodedRedirect(ErrorMessage, "/sign-up", "An unexpected error occurred. Please try again.")
      case SignUpFailed(m) => r.response == EncodedRedirect(ErrorMessage, "/sign-up", SignUpErrorMessage(m))
      case SignedUp(u) => r.response == if u then EncodedRedirect(SuccessMessage, "/sign-up", "Account created! Please check your email for verification.") else NoResponse
  {
    if PasswordsDiffer(password, verifyPassword) then
      ActionOutcome(false, EncodedRedirect(ErrorMessage, "/sign-up", MismatchMessage))
    else if !Truthy(email) || !Truthy(password) then
      ActionOutcome(false, EncodedRedirect(ErrorMessage, "/sign-up", "Email and password are required"))
    else
      var response := match reply
        case SignUpThrew => EncodedRedirect(ErrorMessage, "/sign-up", "An unexpected error occurred. Please try again.")
        case SignUpFailed(m) => EncodedRedirect(ErrorMessage, "/sign-up", SignUpErrorMessage(m))
        case SignedUp(u) =>
          if u then EncodedRedirect(SuccessMessage, "/sign-up", "Account created! Please check your email for verification.")
          else NoResponse;
      ActionOutcome(true, response)
  }

  /** A form without a password is reported as a mismatch, not as a missing
      field, unless the verify field holds the same value; an empty password and
      an empty verify field get the required-field message. */
  lemma MismatchReportedFirst(email: Option<string>, verifyPassword: Option<string>, reply: SignUpReply)
    ensures SignUp(email, None, verifyPassword, reply).response == EncodedRedirect(ErrorMessage, "/sign-up", MismatchMessage)
    ensures SignUp(email, Some(""), None, reply).response == EncodedRedirect(ErrorMessage, "/sign-up", "Email and password are required")
    ensures SignUp(email, Some(""), Some(""), reply).response == EncodedRedirect(ErrorMessage, "/sign-up", "Email and password are required")
  {
  }

  /** A new account is only reported when the form passed both checks and the
      service returned a user. */
  lemma AccountCreatedOnlyWithUser(email: Option<string>, password: Option<string>, verifyPassword: Option<string>,
                                   reply: SignUpReply)
    ensures SignUp(email, password, verifyPassword, reply).response.EncodedRedirect? &&
            SignUp(email, password, verifyPassword, reply).response.kind == SuccessMessage
        <==> Truthy(email) && Truthy(password) && !PasswordsDiffer(password, verifyPassword) && reply == SignedUp(true)
  {
  }

  const UnexpectedMessage: string := "An unexpected error occurred. Please try again."

  /** `signUpAction` for an `encodedRedirect` that signals by throwing, as
      `redirect` from next/navigation does: a redirect raised inside the `try`
      is caught, and the catch redirects with the unexpected-error message
      instead. The two checks before the `try` are not affected. */
  function SignUpWhenRedirectThrows(email: Option<string>, password: Option<string>, verifyPassword: Option<string>,
                                    reply: SignUpReply): (r: ActionOutcome)
    ensures !r.calledAuth ==> r == SignUp(email, password, verifyPassword, reply)
    ensures r.calledAuth <==> SignUp(email, password, verifyPassword, reply).calledAuth
    ensures r.calledAuth ==>
      r.response == if reply == SignedUp(false) then NoResponse
                    else EncodedRedirect(ErrorMessage, "/sign-up", UnexpectedMessage)
  {
    var outcome := SignUp(email, password, verifyPassword, reply);
    if outcome.calledAuth && outcome.response.EncodedRedirect? then
      ActionOutcome(true, EncodedRedirect(ErrorMessage, "/sign-up", UnexpectedMessage))
    else outcome
  }

  /** If the redirect throws, no sign-up that reaches the service is ever
      reported as a success. */
  lemma ThrownRedirectHidesSuccess(email: Option<string>, password: Option<string>, verifyPassword: Option<string>,
                                   reply: SignUpReply)
    ensures SignUpWhenRedirectThrows(email, password, verifyPassword, reply).response.EncodedRedirect? ==>
            SignUpWhenRedirectThrows(email, password, verifyPassword, reply).response.kind == ErrorMessage
  {
  }

  /** `signInAction`: the service's error goes back to the form, otherwise on to the dashboard. */
  function SignIn(error: Option<string>): (r: Response)
    ensures error.Some? <==> r.EncodedRedirect?
    ensures error.Some? ==> r == EncodedRedirect(ErrorMessage, "/sign-in", error.value)
    ensures error.None? ==> r == Redirect("/dashboard")
  {
    if error.Some? then EncodedRedirect(ErrorMessage, "/sign-in", error.value) else Redirect("/dashboard")
  }

  /** `forgotPasswordAction`; `resetFailed` is the reset request's error. */
  function ForgotPassword(email: Option<string>, callbackUrl: Option<string>, resetFailed: bool): (r: ActionOutcome)
    ensures !Truthy(email) ==> r == ActionOutcome(false, EncodedRedirect(ErrorMessage, "/forgot-password", "Email is required"))
    ensures r.calledAuth <==> Truthy(email)
    ensures Truthy(email) && resetFailed ==> r.response == EncodedRedirect(ErrorMessage, "/forgot-password", "Could not reset password")
    ensures Truthy(email) && !resetFailed && Truthy(callbackUrl) ==> r.response == Redirect(callbackUrl.value)
    ensures Truthy(email) && !resetFailed && !Truthy(callbackUrl) ==>
      r.response == EncodedRedirect(SuccessMessage, "/forgot-password", "Check your email for a link to reset your password.")
  {
    if !Truthy(email) then ActionOutcome(false, EncodedRedirect(ErrorMessage, "/forgot-password", "Email is required"))
    else if resetFailed then ActionOutcome(true, EncodedRedirect(ErrorMessage, "/forgot-password", "Could not reset password"))
    else if Truthy(callbackUrl) then ActionOutcome(true, Redirect(callbackUrl.value))
    else ActionOutcome(true, EncodedRedirect(SuccessMessage, "/forgot-password", "Check your email for a link to reset your password."))
  }

  /** `resetPasswordAction`: empty fields are checked before the comparison. The
      missing-field and success messages go to `/protected/reset-password`, the
      mismatch and failure messages to `/dashboard/reset-password`. */
  function ResetPassword(password: Option<string>, confirmPassword: Option<string>, updateFailed: bool): (r: ActionOutcome)
    ensures !Truthy(password) || !Truthy(confirmPassword) ==>
      r == ActionOutcome(false, EncodedRedirect(ErrorMessage, "/protected/reset-password", "Password and confirm password are required"))
    ensures Truthy(password) && Truthy(confirmPassword) && password != confirmPassword ==>
      r == ActionOutcome(false, EncodedRedirect(ErrorMessage, "/dashboard/reset-password", "Passwords do not match"))
    ensures r.calledAuth <==> Truthy(password) && password == confirmPassword
    ensures r.calledAuth ==> r.response == if updateFailed
      then EncodedRedirect(ErrorMessage, "/dashboard/reset-password", "Password update failed")
      else EncodedRedirect(SuccessMessage, "/protected/reset-password", "Password updated")
  {
    if !Truthy(password) || !Truthy(confirmPassword) then
      ActionOutcome(false, EncodedRedirect(ErrorMessage, "/protected/reset-password", "Password and confirm password are required"))
    else if password != confirmPassword then
      ActionOutcome(false, EncodedRedirect(ErrorMessage, "/dashboard/reset-password", "Passwords do not match"))
    else if updateFailed then
      ActionOutcome(true, EncodedRedirect(ErrorMessage, "/dashboard/reset-password", "Password update failed"))
    else ActionOutcome(true, EncodedRedirect(SuccessMessage, "/protected/reset-password", "Password updated"))
  }

  /** A password is only ever updated to a value both fields agree on. */
  lemma UpdateOnlyWhenConfirmed(password: Option<string>, confirmPassword: Option<string>, updateFailed: bool)
    requires ResetPassword(password, confirmPassword, updateFailed).calledAuth
    ensures password.Some? && password.value != "" && confirmPassword == password
  {
  }

  /** A subscriptions row together with its owner. */
  datatype SubscriptionRow = SubscriptionRow(userId: string, sub: SubscriptionData)

  function IsActiveRowOf(userId: string): SubscriptionRow -> bool {
    (r: SubscriptionRow) => r.userId == userId && r.sub.status == "active"
  }

  /** `checkUserSubscription`: the query keeps the user's rows whose status is
      'active', and `.single()` fails unless there is exactly one; `rows` is `None`
      when the query itself failed. The check is positive exactly when the query
      succeeds with one active row of the user. */
  function CheckUserSubscription(userId: string, rows: Option<seq<SubscriptionRow>>): (r: bool)
    ensures rows.None? ==> !r
    ensures r <==> rows.Some? && ExactlyOne(rows.value, IsActiveRowOf(userId))
  {
    if rows.None? then false
    else
      FilterSingleton(rows.value, IsActiveRowOf(userId));
      |Filter(rows.value, IsActiveRowOf(userId))| == 1
  }

  /** A positive check means the user has an active row, which grants access. */
  lemma CheckedUserHasAccess(userId: string, rows: seq<SubscriptionRow>, now: int)
    requires CheckUserSubscription(userId, Some(rows))
    ensures exists i :: 0 <= i < |rows| && rows[i].userId == userId && rows[i].sub.status == "active" && HasAccess(rows[i].sub, now)
  {
    var i :| 0 <= i < |rows| && OnlyAt(rows, IsActiveRowOf(userId), i);
    assert IsActiveRowOf(userId)(rows[i]);
    assert HasAccess(rows[i].sub, now);
  }

  /** The check knows no grace period: a canceled subscription still inside its
      paid period grants access under the access rule but fails the check. */
  lemma NoGracePeriod(userId: string, s: SubscriptionData, now: int)
    requires s.status == "canceled" && s.cancelAtPeriodEnd && s.currentPeriodEnd > now
    ensures HasAccess(s, now)
    ensures !CheckUserSubscription(userId, Some([SubscriptionRow(userId, s)]))
  {
    assert Filter([SubscriptionRow(userId, s)], IsActiveRowOf(userId)) == [];
  }

  /** Two active rows for one user make `.single()` fail, so the check is negative. */
  lemma DuplicateActiveRowsFail(userId: string, rows: seq<SubscriptionRow>, i: int, j: int)
    requires 0 <= i < j < |rows|
    requires IsActiveRowOf(userId)(rows[i]) && IsActiveRowOf(userId)(rows[j])
    ensures !CheckUserSubscription(userId, Some(rows))
  {
    forall k | 0 <= k < |rows| ensures !OnlyAt(rows, IsActiveRowOf(userId), k) {
      if k == i {
        assert IsActiveRowOf(userId)(rows[j]);
      } else {
        assert IsActiveRowOf(userId)(rows[i]);
      }
    }
  }
}
