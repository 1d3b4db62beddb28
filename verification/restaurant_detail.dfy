/** The restaurant detail card of `src/components/RestaurantDetailCard.jsx`:
    two slideshows (ambience and menu) and two order buttons. */
module RestaurantDetail {
  import opened Common
  import opened Links
  import opened Slides

  /** The fetched details; either image list may be missing. */
  datatype Details = Details(
    ambienceImages: Option<seq<string>>,
    menuImages: Option<seq<string>>,
    zomatoLink: Option<string>,
    swiggyLink: Option<string>)

  datatype CardState = CardState(activeSlide: Num, activeMenuSlide: Num)

  const Initial := CardState(Int(0), Int(0))

  /** A move guarded by `if (!images) return;`. */
  function Guarded(images: Option<seq<string>>, s: Num, forward: bool): Num {
    match images
    case None => s
    case Some(imgs) => if forward then Next(s, |imgs|) else Prev(s, |imgs|)
  }

  function NextSlide(d: Details, c: CardState): CardState {
    c.(activeSlide := Guarded(d.ambienceImages, c.activeSlide, true))
  }

  function PrevSlide(d: Details, c: CardState): CardState {
    c.(activeSlide := Guarded(d.ambienceImages, c.activeSlide, false))
  }

  function NextMenuSlide(d: Details, c: CardState): CardState {
    c.(activeMenuSlide := Guarded(d.menuImages, c.activeMenuSlide, true))
  }

  function PrevMenuSlide(d: Details, c: CardState): CardState {
    c.(activeMenuSlide := Guarded(d.menuImages, c.activeMenuSlide, false))
  }

  /** Each slideshow moves by one with wrap-around, stays in range and leaves
      the other alone; going back after going forward returns to the same slide; with
      the list missing nothing moves. */
  lemma SlideshowsBehave(d: Details, c: CardState)
    ensures NextSlide(d, c).activeMenuSlide == c.activeMenuSlide && PrevSlide(d, c).activeMenuSlide == c.activeMenuSlide
    ensures NextMenuSlide(d, c).activeSlide == c.activeSlide && PrevMenuSlide(d, c).activeSlide == c.activeSlide
    ensures d.ambienceImages.Some? && InRange(c.activeSlide, |d.ambienceImages.value|) ==>
      InRange(NextSlide(d, c).activeSlide, |d.ambienceImages.value|) && InRange(PrevSlide(d, c).activeSlide, |d.ambienceImages.value|)
    ensures d.ambienceImages.Some? && InRange(c.activeSlide, |d.ambienceImages.value|) ==>
      PrevSlide(d, NextSlide(d, c)) == c && NextSlide(d, PrevSlide(d, c)) == c
    ensures d.menuImages.Some? && InRange(c.activeMenuSlide, |d.menuImages.value|) ==>
      InRange(NextMenuSlide(d, c).activeMenuSlide, |d.menuImages.value|) && InRange(PrevMenuSlide(d, c).activeMenuSlide, |d.menuImages.value|)
    ensures d.menuImages.Some? && InRange(c.activeMenuSlide, |d.menuImages.value|) ==>
      PrevMenuSlide(d, NextMenuSlide(d, c)) == c && NextMenuSlide(d, PrevMenuSlide(d, c)) == c
    ensures d.ambienceImages.None? ==> NextSlide(d, c) == c && PrevSlide(d, c) == c
    ensures d.menuImages.None? ==> NextMenuSlide(d, c) == c && PrevMenuSlide(d, c) == c
  {
    if d.ambienceImages.Some? && InRange(c.activeSlide, |d.ambienceImages.value|) {
      PrevUndoesNext(c.activeSlide, |d.ambienceImages.value|);
      StepsStayInRange(c.activeSlide, |d.ambienceImages.value|);
    }
    if d.menuImages.Some? && InRange(c.activeMenuSlide, |d.menuImages.value|) {
      PrevUndoesNext(c.activeMenuSlide, |d.menuImages.value|);
      StepsStayInRange(c.activeMenuSlide, |d.menuImages.value|);
    }
  }

  /** The arrows render only for more than one image, so a click never
      divides by zero; the card opens on slide 0, which is in range. */
  predicate ShowArrows(images: Option<seq<string>>) {
    images.Some? && |images.value| > 1
  }

  lemma ArrowsKeepIndexValid(d: Details)
    requires ShowArrows(d.ambienceImages)
    ensures InRange(Initial.activeSlide, |d.ambienceImages.value|)
    ensures InRange(NextSlide(d, Initial).activeSlide, |d.ambienceImages.value|)
  {
    SlideshowsBehave(d, Initial);
  }

  /** The image shown for a slide: `getAssetUrl(images[index])`, which is ''
      when the index is NaN or past the end. */
  function SlideSource(base: string, images: seq<string>, s: Num): (r: string)
    ensures !InRange(s, |images|) ==> r == ""
    ensures InRange(s, |images|) ==> r == AssetUrl(base, Some(images[s.v]))
  {
    if InRange(s, |images|) then AssetUrl(base, Some(images[s.v])) else AssetUrl(base, None)
  }

  /** The order buttons: shown iff the link is truthy, pointing at it with a
      scheme added unless it already starts with "http". */
  function OrderButton(link: Option<string>): (href: Option<string>)
    ensures href.Some? <==> Truthy(link)
    ensures href.Some? ==> StartsWith(href.value, "http")
    ensures href.Some? && !StartsWith(link.value, "http") ==> href.value == "https://" + link.value
    ensures href.Some? && StartsWith(link.value, "http") ==> href.value == link.value
  {
    if Truthy(link) then Some(SafeUrl(link.value)) else None
  }
}
