/** The one-time-code page of `src/pages/VerifyOtpPage.jsx`: the digits-only
    input, the length check and where a verified account goes. */
module VerifyOtp {
  import opened Common
  import Register

  /** The address the code was sent to: the one passed in navigation state, else "". */
  function Email(stateEmail: Option<string>): (r: string)
    ensures Truthy(stateEmail) ==> r == stateEmail.value
    ensures !Truthy(stateEmail) ==> r == ""
  {
    OrElse(stateEmail, "")
  }

  const MaxLength := 6

  /** The field's `maxLength`: the browser keeps at most six typed characters. */
  function Capped(raw: string): (r: string)
    ensures |r| <= MaxLength
    ensures |r| <= |raw| && r == raw[..|r|]
    ensures |raw| <= MaxLength ==> r == raw
  {
    if |raw| <= MaxLength then raw else raw[..MaxLength]
  }

  /** The `onChange` rule: every non-digit is dropped from the field's value. */
  function OtpInput(raw: string): (r: string)
    ensures |r| <= MaxLength
    ensures forall i :: 0 <= i < |r| ==> IsDigit(r[i])
    ensures forall i :: 0 <= i < |Capped(raw)| && IsDigit(Capped(raw)[i]) ==> Capped(raw)[i] in r
  {
    Filter(Capped(raw), (c: char) => IsDigit(c))
  }

  /** The rule in full: only the first six characters count, a single
      character stays exactly when it is a digit, and within the cap the
      value of a joined input is the joined values, so the digits keep their
      order. */
  lemma OtpInputMeaning(raw: string, a: string, b: string, c: char)
    ensures |raw| > MaxLength ==> OtpInput(raw) == OtpInput(raw[..MaxLength])
    ensures OtpInput([c]) == if IsDigit(c) then [c] else []
    ensures |a + b| <= MaxLength ==> OtpInput(a + b) == OtpInput(a) + OtpInput(b)
  {
    FilterSingle(c, (c: char) => IsDigit(c));
    FilterConcat(a, b, (c: char) => IsDigit(c));
  }

  /** Feeding the field's own value back through the rule keeps it. */
  lemma OtpInputIdempotent(raw: string)
    ensures OtpInput(OtpInput(raw)) == OtpInput(raw)
  {
    var r := OtpInput(raw);
    assert Capped(r) == r;
    FilterKeepsAll(r, (c: char) => IsDigit(c));
  }

  /** A six-digit code is kept exactly as typed. */
  lemma SixDigitsKept(code: string)
    requires |code| == MaxLength && forall i :: 0 <= i < |code| ==> IsDigit(code[i])
    ensures OtpInput(code) == code
  {
    FilterKeepsAll(code, (c: char) => IsDigit(c));
  }

  const Invalid := "Please enter a valid 6-digit OTP"
  const Fallback := "Verification failed. Please check the code."

  datatype Check = Rejected(message: string) | Send(email: string, otp: string)

  /** `handleVerify`'s guard: an empty code or one shorter than six is refused. */
  function CheckOtp(email: string, otp: string): (c: Check)
    ensures c.Send? <==> |otp| >= MaxLength
    ensures c.Rejected? ==> c.message == Invalid
    ensures c.Send? ==> c.email == email && c.otp == otp
  {
    if otp == "" || |otp| < MaxLength then Rejected(Invalid) else Send(email, otp)
  }

  /** Whatever is typed, a code that gets through the field and the guard is
      exactly six digits. */
  lemma SentCodeIsSixDigits(email: string, raw: string)
    ensures var c := CheckOtp(email, OtpInput(raw));
      c.Send? ==> |c.otp| == MaxLength && forall i :: 0 <= i < |c.otp| ==> IsDigit(c.otp[i])
  {
  }

  datatype Result = Success(nextStep: Option<string>) | Failure(error: Option<string>)

  datatype Outcome = Outcome(error: string, navigateTo: Option<string>)

  /** After a verified code a creator still lacking restaurant details goes to
      the setup page; anyone else goes home. */
  function NextRoute(nextStep: Option<string>): (path: string)
    ensures nextStep == Some("RESTAURANT_DETAILS") <==> path == "/creator/setup-restaurant"
    ensures path == "/creator/setup-restaurant" || path == "/home"
  {
    if nextStep == Some("RESTAURANT_DETAILS") then "/creator/setup-restaurant" else "/home"
  }

  /** `handleVerify` end to end. */
  function HandleVerify(stateEmail: Option<string>, otp: string, result: Result): (o: Outcome)
    ensures CheckOtp(Email(stateEmail), otp).Rejected? ==> o == Outcome(Invalid, None)
    ensures CheckOtp(Email(stateEmail), otp).Send? && result.Success? ==> o == Outcome("", Some(NextRoute(result.nextStep)))
    ensures CheckOtp(Email(stateEmail), otp).Send? && result.Failure? ==> o == Outcome(OrElse(result.error, Fallback), None)
    ensures o.navigateTo.Some? <==> |otp| >= MaxLength && result.Success?
  {
    match CheckOtp(Email(stateEmail), otp)
    case Rejected(m) => Outcome(m, None)
    case Send(_, _) =>
      match result
      case Success(step) => Outcome("", Some(NextRoute(step)))
      case Failure(e) => Outcome(OrElse(e, Fallback), None)
  }

  /** A pending registration arrives here with the address it was created
      with, so the code is checked against that address. */
  lemma RegisterHandsOverEmail(f: Register.Form, userType: string, result: Register.Result)
    requires Register.HandleRegister(f, userType, result).nav.Some?
    requires Register.HandleRegister(f, userType, result).nav.value.ToVerifyOtp?
    ensures Email(Some(Register.HandleRegister(f, userType, result).nav.value.email)) == f.email
    ensures f.email != ""
  {
  }
}
