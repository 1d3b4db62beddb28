/** The reel upload form of `src/pages/CreatorUploadPage.jsx`: who may see
    it, the ordered checks before an upload, the request it builds and what
    a created response does to the form. */
module CreatorUpload {
  import opened Common
  import Sidebar

  /** The signed-in user's fields the page reads. */
  datatype User = User(userType: Option<string>, id: Option<string>, mongoId: Option<string>)

  /** Only a signed-in creator stays on the page. */
  predicate RedirectsHome(user: Option<User>) {
    user.None? || user.value.userType != Some("creator")
  }

  /** `profileStatus` as fetched; every field may be missing. */
  datatype ProfileStatus = ProfileStatus(verificationStatus: Option<string>, setupCompleted: Option<bool>, priceMode: Option<string>)

  predicate IsVerified(p: Option<ProfileStatus>) {
    p.Some? && (p.value.verificationStatus == Some("APPROVED") || p.value.verificationStatus == Some("VERIFIED"))
  }

  /** `setupCompleted === true`: a missing flag is not complete. */
  predicate IsSetupComplete(p: Option<ProfileStatus>) {
    p.Some? && p.value.setupCompleted == Some(true)
  }

  predicate IsManualMode(p: Option<ProfileStatus>) {
    p.Some? && p.value.priceMode == Some("MANUAL")
  }

  /** The form; the video is the picked file's name, or none. */
  datatype Form = Form(videoFile: Option<string>, foodName: string, category: string, caption: string, zomatoPrice: string, swiggyPrice: string)

  const EmptyForm := Form(None, "", "", "", "", "")

  const UnderVerification := "Your account is under verification."
  const SetupFirst := "Please complete your profile setup (POS/Manual pricing) first."
  const MissingFields := "Add video, food name & category."
  const Preparing := "Preparing your dish..."

  /** The multipart body: the prices are present only when attached. */
  datatype Upload = Upload(video: string, foodName: string, category: string, caption: string,
                           zomatoPrice: Option<string>, swiggyPrice: Option<string>)

  datatype Check = Rejected(message: string) | Send(upload: Upload)

  /** The form is complete: a video, a food name and a category. */
  predicate Complete(f: Form) {
    f.videoFile.Some? && f.foodName != "" && f.category != ""
  }

  /** A price is attached in manual mode when it was typed. */
  function Attached(p: Option<ProfileStatus>, price: string): Option<string> {
    if IsManualMode(p) && price != "" then Some(price) else None
  }

  /** The checks of `handleUpload`, in order: verification, then setup, then
      the three required fields; the first failure's message is shown and
      nothing is sent. */
  function CheckUpload(p: Option<ProfileStatus>, f: Form): (c: Check)
    ensures !IsVerified(p) ==> c == Rejected(UnderVerification)
    ensures IsVerified(p) && !IsSetupComplete(p) ==> c == Rejected(SetupFirst)
    ensures IsVerified(p) && IsSetupComplete(p) && !Complete(f) ==> c == Rejected(MissingFields)
    ensures c.Send? <==> IsVerified(p) && IsSetupComplete(p) && Complete(f)
    ensures c.Send? ==> (c.upload.video == f.videoFile.value && c.upload.foodName == f.foodName &&
                         c.upload.category == f.category && c.upload.caption == f.caption)
    ensures c.Send? ==> (c.upload.zomatoPrice.Some? <==> IsManualMode(p) && f.zomatoPrice != "")
    ensures c.Send? ==> (c.upload.swiggyPrice.Some? <==> IsManualMode(p) && f.swiggyPrice != "")
    ensures c.Send? && c.upload.zomatoPrice.Some? ==> c.upload.zomatoPrice.value == f.zomatoPrice
    ensures c.Send? && c.upload.swiggyPrice.Some? ==> c.upload.swiggyPrice.value == f.swiggyPrice
  {
    if !IsVerified(p) then Rejected(UnderVerification)
    else if !IsSetupComplete(p) then Rejected(SetupFirst)
    else if !Complete(f) then Rejected(MissingFields)
    else Send(Upload(f.videoFile.value, f.foodName, f.category, f.caption, Attached(p, f.zomatoPrice), Attached(p, f.swiggyPrice)))
  }

  /** A creator in POS mode never sends prices, whatever was typed. */
  lemma PosModeSendsNoPrices(p: Option<ProfileStatus>, f: Form)
    requires p.Some? && p.value.priceMode == Some("POS")
    ensures CheckUpload(p, f).Send? ==> CheckUpload(p, f).upload.zomatoPrice.None? && CheckUpload(p, f).upload.swiggyPrice.None?
  {
  }

  /** How the request ended: a response with its status and message, or an
      error with the server's message. */
  datatype Response = Answered(status: int, message: Option<string>) | Errored(message: Option<string>)

  /** The page after an upload attempt: the form, the message and the page
      the 1.5 s timer will open. */
  datatype Page = Page(form: Form, message: string, navigateTo: Option<string>)

  /** `handleUpload` end to end. A 201 response clears every field and
      schedules the creator's profile; another status keeps the form and the
      "preparing" message; an error shows the server's message or a fallback. */
  function HandleUpload(user: User, p: Option<ProfileStatus>, f: Form, response: Response): (r: Page)
    ensures CheckUpload(p, f).Rejected? ==> r == Page(f, CheckUpload(p, f).message, None)
    ensures CheckUpload(p, f).Send? && response.Answered? && response.status == 201 ==>
      r.form == EmptyForm && r.message == OrElse(response.message, "Served to your menu 🍽️") &&
      r.navigateTo == Some("/creator/" + JsString(FirstTruthy(user.id, user.mongoId)))
    ensures CheckUpload(p, f).Send? && response.Answered? && response.status != 201 ==> r == Page(f, Preparing, None)
    ensures CheckUpload(p, f).Send? && response.Errored? ==>
      r == Page(f, OrElse(response.message, "Failed to serve the reel. Try again!"), None)
  {
    match CheckUpload(p, f)
    case Rejected(m) => Page(f, m, None)
    case Send(_) =>
      match response
      case Answered(status, m) =>
        if status == 201 then Page(EmptyForm, OrElse(m, "Served to your menu 🍽️"), Some("/creator/" + JsString(FirstTruthy(user.id, user.mongoId))))
        else Page(f, Preparing, None)
      case Errored(m) => Page(f, OrElse(m, "Failed to serve the reel. Try again!"), None)
  }

  /** After a created upload the form is rejected until a new video and names
      are supplied, so it cannot be sent twice. */
  lemma CreatedUploadCannotRepeat(user: User, p: Option<ProfileStatus>, f: Form, m: Option<string>)
    requires CheckUpload(p, f).Send?
    ensures CheckUpload(p, HandleUpload(user, p, f, Answered(201, m)).form) == Rejected(MissingFields)
  {
  }

  /** The page's creator test is exact, unlike the menu's: a signed-out
      visitor and an upper-case "CREATOR" are sent home, although the menu
      offers the latter its Create item; a lower-case "creator" stays. */
  lemma CreateLinkCanBounce()
    ensures RedirectsHome(None)
    ensures RedirectsHome(Some(User(Some("CREATOR"), Some("7"), None)))
    ensures Sidebar.IsCreator(Some(Sidebar.User(Some("CREATOR"), None, Some("7"), None)))
    ensures !RedirectsHome(Some(User(Some("creator"), Some("7"), None)))
  {
    Sidebar.RoleIgnoresCase();
  }
}
