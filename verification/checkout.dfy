/** The checkout page of `src/pages/CheckoutPage.jsx`. The restaurant groups
    come ready-made from the server; the page decides what to render and
    whether a platform button opens a link or shows a notice. */
module Checkout {
  import opened Common
  import opened Links

  /** One restaurant group as the server sends it, reduced to what the page
      reads: its name, its item count and the two checkout links. */
  datatype Group = Group(
    restaurantName: string,
    itemCount: nat,
    zomato: Option<string>,
    zomatoAvailable: bool,
    swiggy: Option<string>,
    swiggyAvailable: bool)

  /** The result of the checkout request. */
  datatype Fetch = Loaded(groups: seq<Group>) | LoadFailed

  /** The three screens. */
  datatype Screen = Preparing | NoItems | Groups(groups: seq<Group>)

  /** `groupedData` starts as `[]` and is replaced only by a successful fetch. */
  function GroupsAfter(fetch: Fetch): (g: seq<Group>)
    ensures fetch.LoadFailed? ==> g == []
    ensures fetch.Loaded? ==> g == fetch.groups
  {
    match fetch
    case Loaded(groups) => groups
    case LoadFailed => []
  }

  /** What renders: a spinner until the request settles, then the empty state
      when there are no groups, else one card per group. */
  function Render(settled: Option<Fetch>): (s: Screen)
    ensures settled.None? ==> s == Preparing
    ensures settled == Some(LoadFailed) ==> s == NoItems
    ensures settled.Some? && settled.value.Loaded? ==> (s == NoItems <==> settled.value.groups == [])
  {
    match settled
    case None => Preparing
    case Some(f) => var g := GroupsAfter(f); if |g| == 0 then NoItems else Groups(g)
  }

  /** The snackbar's state; its timer hides it again. */
  datatype Snackbar = Snackbar(show: bool, message: string)

  const Hidden := Snackbar(false, "")

  /** What a platform button does. */
  datatype OpenApp = Notice(snackbar: Snackbar) | OpenTab(url: string)

  function MissingLinkMessage(platform: string): string {
    "This restaurant has not provided a " + platform + " link yet."
  }

  /** `openApp(url, platform, available)` */
  function OpenAppFor(url: Option<string>, platform: string, available: bool): (r: OpenApp)
    ensures r.Notice? <==> !available || !Truthy(url)
    ensures r.Notice? ==> r.snackbar == Snackbar(true, MissingLinkMessage(platform))
    ensures r.OpenTab? ==> r.url == SafeUrl(url.value) && StartsWith(r.url, "http")
  {
    if !available || !Truthy(url) then Notice(Snackbar(true, MissingLinkMessage(platform)))
    else OpenTab(SafeUrl(url.value))
  }

  /** The snackbar timer's expiry always hides the notice. */
  function SnackbarExpire(s: Snackbar): (r: Snackbar)
    ensures !r.show && r.message == ""
  {
    Hidden
  }

  /** The Zomato and Swiggy buttons of one group. */
  function OpenZomato(g: Group): OpenApp {
    OpenAppFor(g.zomato, "Zomato", g.zomatoAvailable)
  }

  function OpenSwiggy(g: Group): OpenApp {
    OpenAppFor(g.swiggy, "Swiggy", g.swiggyAvailable)
  }

  /** A button marked available with a link opens a tab, and that tab's URL
      is the link itself when it already starts with "http". */
  lemma AvailableLinkOpens(g: Group)
    requires g.zomatoAvailable && Truthy(g.zomato)
    ensures OpenZomato(g).OpenTab?
    ensures StartsWith(g.zomato.value, "http") ==> OpenZomato(g).url == g.zomato.value
  {
  }

  /** The notice names the platform that was clicked, so the two notices differ. */
  lemma NoticesNamePlatform()
    ensures MissingLinkMessage("Zomato") != MissingLinkMessage("Swiggy")
  {
    var prefix := "This restaurant has not provided a ";
    assert MissingLinkMessage("Zomato")[|prefix|] == 'Z';
    assert MissingLinkMessage("Swiggy")[|prefix|] == 'S';
  }
}
