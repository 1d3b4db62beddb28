/** The restaurant setup form of `src/pages/SetupRestaurantPage.jsx`: the
    field update rules (GST normalisation), the submit checks and where a
    successful submit leads. */
module SetupRestaurant {
  import opened Common

  /** Only a signed-in user whose role is not `CREATOR` is sent home; a
      signed-out visitor stays. */
  predicate RedirectsHome(role: Option<Option<string>>) {
    role.Some? && role.value != Some("CREATOR")
  }

  lemma SignedOutStays()
    ensures !RedirectsHome(None)
    ensures RedirectsHome(Some(Some("creator")))
  {
  }

  /** The form; the photo is the picked file's name. */
  datatype Form = Form(
    restaurantName: string,
    address: string,
    gstNumber: string,
    restaurantPhoto: Option<string>,
    zomatoLink: string,
    swiggyLink: string,
    priceMode: string)

  const EmptyForm := Form("", "", "", None, "", "", "")

  const GstLength := 15

  /** `value.slice(0, 15).toUpperCase()` */
  function Gst(value: string): (r: string)
    ensures |r| <= GstLength
    ensures |r| == if |value| < GstLength then |value| else GstLength
    ensures forall i :: 0 <= i < |r| ==> r[i] == UpperChar(value[i])
  {
    ToUpper(if |value| <= GstLength then value else value[..GstLength])
  }

  /** Re-applying the rule to its own output changes nothing. */
  lemma GstIdempotent(value: string)
    ensures Gst(Gst(value)) == Gst(value)
  {
  }

  /** A GST number already short and upper case is kept as typed. */
  lemma GstKeepsCanonical(value: string)
    requires |value| <= GstLength && ToUpper(value) == value
    ensures Gst(value) == value
  {
  }

  /** One `onChange`: a text field with its value, or the photo input with
      its picked files. */
  datatype Change =
    | RestaurantName(value: string)
    | Address(value: string)
    | GstNumber(value: string)
    | Photo(files: seq<string>)
    | ZomatoLink(value: string)
    | SwiggyLink(value: string)
    | PriceMode(value: string)

  /** `handleChange`: the photo takes the first file, the GST number is
      normalised, any other field is stored verbatim; nothing else changes. */
  function HandleChange(f: Form, c: Change): (r: Form)
    ensures c.Photo? ==> r == f.(restaurantPhoto := if |c.files| > 0 then Some(c.files[0]) else None)
    ensures c.GstNumber? ==> r == f.(gstNumber := Gst(c.value))
    ensures c.RestaurantName? ==> r == f.(restaurantName := c.value)
    ensures c.Address? ==> r == f.(address := c.value)
    ensures c.ZomatoLink? ==> r == f.(zomatoLink := c.value)
    ensures c.SwiggyLink? ==> r == f.(swiggyLink := c.value)
    ensures c.PriceMode? ==> r == f.(priceMode := c.value)
  {
    match c
    case Photo(files) => f.(restaurantPhoto := if |files| > 0 then Some(files[0]) else None)
    case GstNumber(v) => f.(gstNumber := Gst(v))
    case RestaurantName(v) => f.(restaurantName := v)
    case Address(v) => f.(address := v)
    case ZomatoLink(v) => f.(zomatoLink := v)
    case SwiggyLink(v) => f.(swiggyLink := v)
    case PriceMode(v) => f.(priceMode := v)
  }

  /** Whatever is typed, the stored GST number has at most 15 characters. */
  lemma GstStaysShort(f: Form, c: Change)
    requires |f.gstNumber| <= GstLength
    ensures |HandleChange(f, c).gstNumber| <= GstLength
  {
  }

  const NoPriceMode := "Please select a price mode (POS or MANUAL)"
  const NoPhoto := "Please upload a store frontal photo"

  datatype Submit = Rejected(message: string) | Send(form: Form)

  /** The submit checks, in order: a price mode, then a photo. */
  function CheckSubmit(f: Form): (s: Submit)
    ensures f.priceMode == "" ==> s == Rejected(NoPriceMode)
    ensures f.priceMode != "" && f.restaurantPhoto.None? ==> s == Rejected(NoPhoto)
    ensures s.Send? <==> f.priceMode != "" && f.restaurantPhoto.Some?
    ensures s.Send? ==> s.form == f
  {
    if f.priceMode == "" then Rejected(NoPriceMode)
    else if f.restaurantPhoto.None? then Rejected(NoPhoto)
    else Send(f)
  }

  /** How the request ended. */
  datatype Response = Answered(nextStep: Option<string>) | Errored(message: Option<string>)

  /** The page after a submit: the error shown and where it navigates. */
  datatype Outcome = Outcome(error: string, navigateTo: Option<string>)

  /** `handleSubmit`: a rejected form shows its message; a sent one clears
      the error, goes to the verification-pending page only when the server
      says so, and shows the server's message or a fallback on error. */
  function HandleSubmit(f: Form, response: Response): (o: Outcome)
    ensures CheckSubmit(f).Rejected? ==> o == Outcome(CheckSubmit(f).message, None)
    ensures o.navigateTo.Some? <==> CheckSubmit(f).Send? && response == Answered(Some("VERIFICATION_PENDING"))
    ensures o.navigateTo.Some? ==> o.navigateTo.value == "/creator/verification-pending"
    ensures CheckSubmit(f).Send? && response.Answered? ==> o.error == ""
    ensures CheckSubmit(f).Send? && response.Errored? ==> o.error == OrElse(response.message, "Failed to submit restaurant details")
  {
    match CheckSubmit(f)
    case Rejected(m) => Outcome(m, None)
    case Send(_) =>
      match response
      case Answered(step) => Outcome("", if step == Some("VERIFICATION_PENDING") then Some("/creator/verification-pending") else None)
      case Errored(m) => Outcome(OrElse(m, "Failed to submit restaurant details"), None)
  }
}
