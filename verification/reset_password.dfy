/** The new-password form of `src/pages/ResetPasswordPage.js`. */
module ResetPassword {
  import opened Common

  const FillAll := "Please fill all fields"
  const Mismatch := "Passwords do not match"
  /** The success text, split around the word the message style looks for. */
  const Done := "Password " + "successfully" + " reset! Redirecting to login..."

  datatype Check = Rejected(message: string) | Send(token: string, password: string)

  /** The checks of `handleSubmit`: both fields filled, then equal. */
  function CheckReset(token: string, password: string, confirmPassword: string): (c: Check)
    ensures password == "" || confirmPassword == "" ==> c == Rejected(FillAll)
    ensures password != "" && confirmPassword != "" && password != confirmPassword ==> c == Rejected(Mismatch)
    ensures c.Send? <==> password != "" && password == confirmPassword
    ensures c.Send? ==> c.token == token && c.password == password
  {
    if password == "" || confirmPassword == "" then Rejected(FillAll)
    else if password != confirmPassword then Rejected(Mismatch)
    else Send(token, password)
  }

  datatype Result = Success | Failure(error: Option<string>)

  /** The page afterwards: the message (missing when the server sent no
      error text, which hides the box) and the page the 3 s timer opens. */
  datatype Outcome = Outcome(message: Option<string>, navigateTo: Option<string>)

  function HandleSubmit(token: string, password: string, confirmPassword: string, result: Result): (o: Outcome)
    ensures CheckReset(token, password, confirmPassword).Rejected? ==> o == Outcome(Some(CheckReset(token, password, confirmPassword).message), None)
    ensures CheckReset(token, password, confirmPassword).Send? && result.Success? ==> o == Outcome(Some(Done), Some("/login"))
    ensures CheckReset(token, password, confirmPassword).Send? && result.Failure? ==> o == Outcome(result.error, None)
    ensures o.navigateTo.Some? <==> CheckReset(token, password, confirmPassword).Send? && result.Success?
  {
    match CheckReset(token, password, confirmPassword)
    case Rejected(m) => Outcome(Some(m), None)
    case Send(_, _) =>
      match result
      case Success => Outcome(Some(Done), Some("/login"))
      case Failure(e) => Outcome(e, None)
  }

  /** The message box is styled as a success iff its text contains "successfully". */
  predicate SuccessStyle(message: string) {
    Contains(message, "successfully")
  }

  /** Only the success text gets the success style among the page's own messages. */
  lemma OwnMessagesStyled()
    ensures SuccessStyle(Done)
    ensures !SuccessStyle(FillAll) && !SuccessStyle(Mismatch)
  {
    DoneStyled();
    FillAllPlain();
    MismatchPlain();
  }

  lemma DoneStyled()
    ensures SuccessStyle(Done)
  {
    ContainsMiddle("Password ", "successfully", " reset! Redirecting to login...");
  }

  lemma FillAllPlain()
    ensures !SuccessStyle(FillAll)
  {
    MissingCharNoContains(FillAll, "successfully", 11);
  }

  lemma MismatchPlain()
    ensures !SuccessStyle(Mismatch)
  {
    MissingCharNoContains(Mismatch, "successfully", 11);
  }
}
