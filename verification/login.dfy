/** The sign-in page of `src/pages/LoginPage.js`: the role toggle, password
    and Google sign-in with their shared routing, the forgot-password form
    and how the message box is styled. */
module Login {
  import opened Common
  import Register
  import VerifyOtp

  /** The page's state. `message` is missing after a failure that carried no
      error text; the box is shown only for a truthy message. */
  datatype Page = Page(role: string, email: string, password: string, message: Option<string>, forgotMode: bool)

  const Initial := Page("user", "", "", Some(""), false)

  const FillAll := "Please fill all fields"
  const NeedEmail := "Please enter your email"
  const LinkSent := "Password reset link sent to your email!"
  const GoogleBroken := "Failed to process Google login."
  const GoogleFailed := "Google Login Failed. Please try again."

  /** Where a signed-in account goes next, by the server's `nextStep`. */
  function NextRoute(nextStep: Option<string>): (path: string)
    ensures nextStep == Some("RESTAURANT_DETAILS") <==> path == "/creator/setup-restaurant"
    ensures nextStep == Some("VERIFICATION_PENDING") <==> path == "/creator/verification-pending"
    ensures path == "/creator/setup-restaurant" || path == "/creator/verification-pending" || path == "/home"
  {
    if nextStep == Some("RESTAURANT_DETAILS") then "/creator/setup-restaurant"
    else if nextStep == Some("VERIFICATION_PENDING") then "/creator/verification-pending"
    else "/home"
  }

  /** Sign-in and code verification route alike, except that only sign-in
      knows the verification-pending page. */
  lemma RoutingAgreesWithOtp(nextStep: Option<string>)
    ensures nextStep != Some("VERIFICATION_PENDING") ==> NextRoute(nextStep) == VerifyOtp.NextRoute(nextStep)
    ensures nextStep == Some("VERIFICATION_PENDING") ==> VerifyOtp.NextRoute(nextStep) == "/home"
  {
  }

  datatype Result = Success(nextStep: Option<string>) | Failure(error: Option<string>)

  /** The page after a handler and the route it navigates to, if any. */
  datatype Outcome = Outcome(page: Page, navigateTo: Option<string>)

  /** What a settled request does to the page: routing on success, the
      server's error (possibly missing) as the message on failure. */
  function Settle(p: Page, result: Result): (o: Outcome)
    ensures result.Success? ==> o == Outcome(p, Some(NextRoute(result.nextStep)))
    ensures result.Failure? ==> o == Outcome(p.(message := result.error), None)
  {
    match result
    case Success(step) => Outcome(p, Some(NextRoute(step)))
    case Failure(e) => Outcome(p.(message := e), None)
  }

  /** `handleLogin`: both fields are required before anything is sent. */
  function HandleLogin(p: Page, result: Result): (o: Outcome)
    ensures p.email == "" || p.password == "" ==> o == Outcome(p.(message := Some(FillAll)), None)
    ensures p.email != "" && p.password != "" ==> o == Settle(p, result)
    ensures o.navigateTo.Some? <==> p.email != "" && p.password != "" && result.Success?
  {
    if p.email == "" || p.password == "" then Outcome(p.(message := Some(FillAll)), None)
    else Settle(p, result)
  }

  /** How the Google flow went: the credential could not be decoded, the
      call threw, or the server answered. */
  datatype Google = Undecodable | Threw | Answered(result: Result)

  /** `handleGoogleSuccess`: a thrown step shows the processing error. */
  function HandleGoogle(p: Page, g: Google): (o: Outcome)
    ensures !g.Answered? ==> o == Outcome(p.(message := Some(GoogleBroken)), None)
    ensures g.Answered? ==> o == Settle(p, g.result)
  {
    match g
    case Answered(result) => Settle(p, result)
    case _ => Outcome(p.(message := Some(GoogleBroken)), None)
  }

  /** `handleGoogleError` */
  function GoogleError(p: Page): (r: Page)
    ensures r == p.(message := Some(GoogleFailed))
  {
    p.(message := Some(GoogleFailed))
  }

  /** A filled-in password sign-in and a Google sign-in that reach the server
      with the same answer end the same way. */
  lemma BothSignInsAgree(p: Page, result: Result)
    requires p.email != "" && p.password != ""
    ensures HandleLogin(p, result) == HandleGoogle(p, Answered(result))
  {
  }

  datatype ForgotResult = Sent | NotSent(error: Option<string>)

  /** `handleForgotPassword`: an email is required; a sent link leaves the
      forgot form, a failure stays on it with the server's error. */
  function HandleForgot(p: Page, result: ForgotResult): (r: Page)
    ensures p.email == "" ==> r == p.(message := Some(NeedEmail))
    ensures p.email != "" && result.Sent? ==> r == p.(message := Some(LinkSent), forgotMode := false)
    ensures p.email != "" && result.NotSent? ==> r == p.(message := result.error)
    ensures r.role == p.role && r.email == p.email && r.password == p.password
  {
    if p.email == "" then p.(message := Some(NeedEmail))
    else match result
      case Sent => p.(message := Some(LinkSent), forgotMode := false)
      case NotSent(e) => p.(message := e)
  }

  /** The two role buttons: the role changes and the message is cleared. */
  function SwitchRole(p: Page, role: string): (r: Page)
    ensures r.role == role && r.message == Some("")
    ensures r.email == p.email && r.password == p.password && r.forgotMode == p.forgotMode
  {
    p.(role := role, message := Some(""))
  }

  /** "Forgot password?" and "Back to Login". */
  function ShowForgot(p: Page, on: bool): (r: Page)
    ensures r.forgotMode == on && r.(forgotMode := p.forgotMode) == p
  {
    p.(forgotMode := on)
  }

  /** Google sign-in is offered to diners only. */
  predicate ShowGoogle(p: Page) {
    p.role == "user"
  }

  /** The role is one of the two the toggle offers, from the first render on. */
  predicate ValidRole(p: Page) {
    p.role == "user" || p.role == "creator"
  }

  /** Every handler keeps the role one of the two the toggle offers. */
  lemma HandlersKeepRole(p: Page, result: Result, g: Google, fr: ForgotResult, role: string, on: bool)
    requires ValidRole(p)
    requires role == "user" || role == "creator"
    ensures ValidRole(Initial)
    ensures ValidRole(HandleLogin(p, result).page) && ValidRole(HandleGoogle(p, g).page)
    ensures ValidRole(GoogleError(p)) && ValidRole(HandleForgot(p, fr)) && ValidRole(SwitchRole(p, role))
    ensures ValidRole(ShowForgot(p, on))
  {
  }

  /** Switching to the creator role hides Google sign-in; switching back shows it. */
  lemma GoogleFollowsRole(p: Page)
    ensures !ShowGoogle(SwitchRole(p, "creator"))
    ensures ShowGoogle(SwitchRole(p, "user"))
  {
  }

  /** "Join Now" passes the chosen role, so the sign-up page opens with that
      role and without its own role toggle. */
  lemma JoinNowKeepsRole(p: Page)
    requires ValidRole(p)
    ensures !Register.ShowRoleButtons(Some(p.role))
    ensures Register.InitialRole(Some(p.role)) == p.role
  {
  }

  /** The message box is styled as a success iff its text contains "sent". */
  predicate SuccessStyle(message: string) {
    Contains(message, "sent")
  }

  /** The reset-link notice gets the success style; the empty-field notice
      does not. */
  lemma OwnMessagesStyled()
    ensures SuccessStyle(LinkSent)
    ensures !SuccessStyle(FillAll)
  {
    var w := "sent";
    assert LinkSent == "Password reset link " + w + " to your email!";
    assert LinkSent[20..24] == w;
    assert OccursAt(LinkSent, w, 20);
    MissingCharNoContains(FillAll, w, 2);
  }
}
