/** The home feed of `src/pages/HomePage/HomePage.jsx`: a debounced, bounded
    reel index and two mutually exclusive overlays. */
module HomeFeed {
  import opened Common

  /** The feed's state. `scrolling` is `isScrollingRef`; the two ids are
      `commentReelId` and `likesReelId`; `cartPanelOpen` comes from the cart. */
  datatype Feed = Feed(
    reelCount: nat,
    currentIndex: int,
    scrolling: bool,
    commentReelId: Option<string>,
    likesReelId: Option<string>,
    cartPanelOpen: bool)

  const Initial := Feed(0, 0, false, None, None, false)

  /** The scroll lock lasts this many milliseconds; its end is `ScrollTimerExpired`. */
  const ScrollLockMillis := 500

  /** The index names a reel (or is 0 while the feed is empty), and at most
      one of the two overlays holds a reel id. */
  predicate Valid(f: Feed) {
    0 <= f.currentIndex && (f.reelCount == 0 ==> f.currentIndex == 0) && (f.reelCount > 0 ==> f.currentIndex < f.reelCount)
    && (f.commentReelId.None? || f.likesReelId.None?)
  }

  lemma InitialValid()
    ensures Valid(Initial)
  {
  }

  /** The fetched reels arrive; the index stays at 0. */
  function Loaded(f: Feed, count: nat): (r: Feed)
    requires f.currentIndex == 0
    ensures r.reelCount == count && r.currentIndex == 0
    ensures r.(reelCount := f.reelCount) == f
    ensures Valid(f) ==> Valid(r)
  {
    f.(reelCount := count)
  }

  /** The DOM holds one `.reel-wrapper` per reel. */
  predicate ElementExists(f: Feed, index: int) {
    0 <= index < f.reelCount
  }

  /** `scrollToReel(index)`: ignored while the lock is held; otherwise takes
      the lock and moves only if the target element exists. */
  function ScrollToReel(f: Feed, index: int): (r: Feed)
    ensures f.scrolling ==> r == f
    ensures !f.scrolling ==> r.scrolling
    ensures !f.scrolling ==> r.currentIndex == if ElementExists(f, index) then index else f.currentIndex
    ensures r.reelCount == f.reelCount && r.commentReelId == f.commentReelId && r.likesReelId == f.likesReelId
    ensures r.cartPanelOpen == f.cartPanelOpen
  {
    if f.scrolling then f
    else f.(scrolling := true, currentIndex := if ElementExists(f, index) then index else f.currentIndex)
  }

  /** The lock's timer fires. */
  function ScrollTimerExpired(f: Feed): (r: Feed)
    ensures !r.scrolling && r.(scrolling := f.scrolling) == f
  {
    f.(scrolling := false)
  }

  /** The up button: one reel back unless already at the first. */
  function ScrollUp(f: Feed): (r: Feed)
    ensures f.currentIndex <= 0 || f.scrolling ==> r == f
    ensures 0 < f.currentIndex <= f.reelCount && !f.scrolling ==> r.currentIndex == f.currentIndex - 1 && r.scrolling
    ensures r.(currentIndex := f.currentIndex, scrolling := f.scrolling) == f
  {
    if f.currentIndex > 0 then ScrollToReel(f, f.currentIndex - 1) else f
  }

  /** The down button: one reel on unless already at the last. */
  function ScrollDown(f: Feed): (r: Feed)
    ensures f.currentIndex >= f.reelCount - 1 || f.scrolling ==> r == f
    ensures f.currentIndex < f.reelCount - 1 && !f.scrolling && 0 <= f.currentIndex ==> r.currentIndex == f.currentIndex + 1 && r.scrolling
    ensures r.(currentIndex := f.currentIndex, scrolling := f.scrolling) == f
  {
    if f.currentIndex < f.reelCount - 1 then ScrollToReel(f, f.currentIndex + 1) else f
  }

  /** A wheel event: with an overlay in the page it is left alone; otherwise
      a positive `deltaY` scrolls down and anything else up, unless locked. */
  function Wheel(f: Feed, deltaY: int, overlayInPage: bool): (r: Feed)
    ensures overlayInPage || f.scrolling ==> r == f
    ensures !overlayInPage && !f.scrolling && deltaY > 0 ==> r == ScrollDown(f)
    ensures !overlayInPage && !f.scrolling && deltaY <= 0 ==> r == ScrollUp(f)
  {
    if overlayInPage then f
    else if f.scrolling then f
    else if deltaY > 0 then ScrollDown(f)
    else ScrollUp(f)
  }

  /** The scroll moves keep the index in range and move it by at most one. */
  lemma ScrollKeepsValid(f: Feed, deltaY: int, overlayInPage: bool)
    requires Valid(f)
    ensures Valid(ScrollUp(f)) && Valid(ScrollDown(f)) && Valid(ScrollTimerExpired(f))
    ensures Valid(Wheel(f, deltaY, overlayInPage))
    ensures -1 <= ScrollUp(f).currentIndex - f.currentIndex <= 0
    ensures 0 <= ScrollDown(f).currentIndex - f.currentIndex <= 1
  {
  }

  /** A second scroll before the timer fires is ignored; after the timer it
      goes through. */
  lemma ScrollIsDebounced(f: Feed)
    requires Valid(f) && !f.scrolling && f.reelCount >= 3 && f.currentIndex == 0
    ensures ScrollDown(ScrollDown(f)).currentIndex == 1
    ensures ScrollDown(ScrollTimerExpired(ScrollDown(f))).currentIndex == 2
  {
  }

  /** `handleOpenComments`: clears the likes target first. */
  function OpenComments(f: Feed, reelId: string): (r: Feed)
    ensures r.commentReelId == Some(reelId) && r.likesReelId.None?
    ensures r.(commentReelId := f.commentReelId, likesReelId := f.likesReelId) == f
  {
    f.(likesReelId := None, commentReelId := Some(reelId))
  }

  /** `handleOpenLikes`: clears the comments target first. */
  function OpenLikes(f: Feed, reelId: string): (r: Feed)
    ensures r.likesReelId == Some(reelId) && r.commentReelId.None?
    ensures r.(commentReelId := f.commentReelId, likesReelId := f.likesReelId) == f
  {
    f.(commentReelId := None, likesReelId := Some(reelId))
  }

  /** Closing an overlay clears its target only, which keeps the feed valid. */
  function CloseComments(f: Feed): (r: Feed)
    ensures r.commentReelId.None? && r.(commentReelId := f.commentReelId) == f
    ensures Valid(f) ==> Valid(r)
  {
    f.(commentReelId := None)
  }

  function CloseLikes(f: Feed): (r: Feed)
    ensures r.likesReelId.None? && r.(likesReelId := f.likesReelId) == f
    ensures Valid(f) ==> Valid(r)
  {
    f.(likesReelId := None)
  }

  /** Every overlay event keeps at most one of the two targets set. */
  lemma OverlaysExclusive(f: Feed, reelId: string)
    requires Valid(f)
    ensures Valid(OpenComments(f, reelId)) && Valid(OpenLikes(f, reelId))
    ensures Valid(CloseComments(f)) && Valid(CloseLikes(f))
  {
  }

  /** `isOverlayOpen`: `Boolean(commentReelId) || Boolean(likesReelId) || Boolean(cartPanelOpen)`. */
  predicate IsOverlayOpen(f: Feed) {
    Truthy(f.commentReelId) || Truthy(f.likesReelId) || f.cartPanelOpen
  }

  /** The scroll buttons render exactly while no overlay is open. */
  predicate ScrollButtonsShown(f: Feed) {
    !IsOverlayOpen(f)
  }

  /** Opening comments or likes on a reel with a real id hides the buttons,
      and closing both with the cart panel shut shows them again. */
  lemma ButtonsFollowOverlays(f: Feed, reelId: string)
    requires reelId != ""
    ensures !ScrollButtonsShown(OpenComments(f, reelId)) && !ScrollButtonsShown(OpenLikes(f, reelId))
    ensures !f.cartPanelOpen ==> ScrollButtonsShown(CloseLikes(CloseComments(f)))
  {
  }

  /** Reel `index` is the active one. */
  predicate Active(f: Feed, index: int) {
    index == f.currentIndex
  }

  /** In a non-empty valid feed exactly one reel is active. */
  lemma ExactlyOneActive(f: Feed)
    requires Valid(f) && f.reelCount > 0
    ensures 0 <= f.currentIndex < f.reelCount && Active(f, f.currentIndex)
    ensures forall i :: 0 <= i < f.reelCount && Active(f, i) ==> i == f.currentIndex
  {
  }
}
