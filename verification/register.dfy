/** The sign-up form of `src/pages/RegisterPage.js`: the preset role, the
    two ordered checks and where each result leads. */
module Register {
  import opened Common

  /** The starting role: the one passed in navigation state, else "user". */
  function InitialRole(stateRole: Option<string>): (r: string)
    ensures Truthy(stateRole) ==> r == stateRole.value
    ensures !Truthy(stateRole) ==> r == "user"
  {
    OrElse(stateRole, "user")
  }

  /** The role toggle is offered only when no role was passed. */
  predicate ShowRoleButtons(stateRole: Option<string>) {
    !Truthy(stateRole)
  }

  /** Without the toggle the page keeps the passed role; with it the page
      starts as "user". */
  lemma PresetRoleIsKept(stateRole: Option<string>)
    ensures !ShowRoleButtons(stateRole) ==> InitialRole(stateRole) == stateRole.value
    ensures ShowRoleButtons(stateRole) ==> InitialRole(stateRole) == "user"
  {
  }

  datatype Form = Form(fullName: string, email: string, username: string, password: string, confirmPassword: string)

  const FillAll := "Please fill all account details"
  const Mismatch := "Passwords do not match"

  /** The request: the form and the role in upper case. */
  datatype Request = Request(form: Form, role: string)

  datatype Check = Rejected(message: string) | Send(request: Request)

  predicate AnyEmpty(f: Form) {
    f.fullName == "" || f.email == "" || f.username == "" || f.password == "" || f.confirmPassword == ""
  }

  /** The checks of `handleFinalSubmit`, in order: every field filled, then
      the two passwords equal. */
  function CheckRegister(f: Form, userType: string): (c: Check)
    ensures AnyEmpty(f) ==> c == Rejected(FillAll)
    ensures !AnyEmpty(f) && f.password != f.confirmPassword ==> c == Rejected(Mismatch)
    ensures c.Send? <==> !AnyEmpty(f) && f.password == f.confirmPassword
    ensures c.Send? ==> c.request == Request(f, ToUpper(userType))
  {
    if AnyEmpty(f) then Rejected(FillAll)
    else if f.password != f.confirmPassword then Rejected(Mismatch)
    else Send(Request(f, ToUpper(userType)))
  }

  /** Two different passwords with one left empty report the empty field,
      not the mismatch. */
  lemma EmptyReportedFirst(f: Form, userType: string)
    requires f.confirmPassword == "" && f.password != ""
    ensures CheckRegister(f, userType) == Rejected(FillAll)
  {
  }

  datatype Result = Success(pending: bool) | Failure(error: Option<string>)

  /** A navigation with the state it carries. */
  datatype Nav = ToVerifyOtp(email: string, role: string) | ToHome

  datatype Outcome = Outcome(error: string, nav: Option<Nav>)

  /** `handleFinalSubmit` end to end: a pending account goes to OTP entry
      with its email and role, any other success goes home, and a failure
      shows the server's error or "Registration failed". */
  function HandleRegister(f: Form, userType: string, result: Result): (o: Outcome)
    ensures CheckRegister(f, userType).Rejected? ==> o == Outcome(CheckRegister(f, userType).message, None)
    ensures CheckRegister(f, userType).Send? && result.Success? && result.pending ==> o == Outcome("", Some(ToVerifyOtp(f.email, userType)))
    ensures CheckRegister(f, userType).Send? && result.Success? && !result.pending ==> o == Outcome("", Some(ToHome))
    ensures CheckRegister(f, userType).Send? && result.Failure? ==> o == Outcome(OrElse(result.error, "Registration failed"), None)
  {
    match CheckRegister(f, userType)
    case Rejected(m) => Outcome(m, None)
    case Send(_) =>
      match result
      case Success(pending) => Outcome("", Some(if pending then ToVerifyOtp(f.email, userType) else ToHome))
      case Failure(e) => Outcome(OrElse(e, "Registration failed"), None)
  }

  /** The page only navigates after a request it actually sent. */
  lemma NavigatesOnlyAfterSend(f: Form, userType: string, result: Result)
    ensures HandleRegister(f, userType, result).nav.Some? ==> CheckRegister(f, userType).Send? && result.Success?
  {
  }
}
