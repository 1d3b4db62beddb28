/** The price comparison page of `src/pages/PriceComparison.jsx`: a per-item
    choice between Zomato and Swiggy that starts on the cheaper platform and can
    be toggled, plus removal of items from the page's local copy of the cart. */
module PriceComparison {
  import opened Common

  /** A cart line as the page reads it (`reelId`, `comparisonPrices`, `links`). */
  datatype CompareItem = CompareItem(
    reelId: string,
    zomatoPrice: Option<int>,
    swiggyPrice: Option<int>,
    zomatoLink: Option<string>,
    swiggyLink: Option<string>)

  /** The two selectable platforms, `'zomato'` and `'swiggy'`. */
  datatype App = Zomato | Swiggy

  /** A price after `price || Infinity`. */
  datatype Bound = Finite(n: int) | Infinity

  function OrInfinity(p: Option<int>): (b: Bound)
    ensures b.Infinity? <==> !TruthyNum(p)
  {
    if TruthyNum(p) then Finite(p.value) else Infinity
  }

  predicate AtMost(a: Bound, b: Bound) {
    match (a, b)
    case (_, Infinity) => true
    case (Infinity, Finite(_)) => false
    case (Finite(x), Finite(y)) => x <= y
  }

  /** The default choice for one item. */
  function Cheapest(item: CompareItem): (a: App)
    ensures a == Swiggy ==> TruthyNum(item.swiggyPrice)
    ensures !TruthyNum(item.zomatoPrice) && TruthyNum(item.swiggyPrice) ==> a == Swiggy
    ensures TruthyNum(item.zomatoPrice) && !TruthyNum(item.swiggyPrice) ==> a == Zomato
  {
    if AtMost(OrInfinity(item.zomatoPrice), OrInfinity(item.swiggyPrice)) then Zomato else Swiggy
  }

  /** Swiggy is chosen only when it has a real price strictly below Zomato's (or
      Zomato has none); every tie, including two missing prices, goes to Zomato. */
  lemma CheapestRule(item: CompareItem)
    ensures Cheapest(item) == Swiggy <==>
      TruthyNum(item.swiggyPrice) && (!TruthyNum(item.zomatoPrice) || item.swiggyPrice.value < item.zomatoPrice.value)
    ensures TruthyNum(item.zomatoPrice) && TruthyNum(item.swiggyPrice) && item.zomatoPrice.value == item.swiggyPrice.value
      ==> Cheapest(item) == Zomato
    ensures !TruthyNum(item.zomatoPrice) && !TruthyNum(item.swiggyPrice) ==> Cheapest(item) == Zomato
  {
  }

  function ReelKey(item: CompareItem): Option<string> {
    Some(item.reelId)
  }

  /** The selections the page starts with: one entry per `reelId`, written in
      cart order so a later line with the same `reelId` wins. */
  function InitialSelections(cart: seq<CompareItem>): map<string, App> {
    LastWins(cart, ReelKey, Cheapest)
  }

  /** Every item starts selected, on the cheaper platform of the last line
      carrying its `reelId`. */
  lemma InitialSelectionsCover(cart: seq<CompareItem>, i: int)
    requires 0 <= i < |cart|
    ensures cart[i].reelId in InitialSelections(cart)
    ensures LastWithKey(cart, ReelKey, i) ==> InitialSelections(cart)[cart[i].reelId] == Cheapest(cart[i])
  {
    LastWinsKeys(cart, ReelKey, Cheapest, cart[i].reelId);
    if LastWithKey(cart, ReelKey, i) {
      LastWinsValue(cart, ReelKey, Cheapest, i);
    }
  }

  /** `handleAppSelection`: choosing the current platform clears the item's
      selection, choosing the other one sets it; other items are unchanged. */
  function Toggle(selections: map<string, App>, itemId: string, app: App): (r: map<string, App>)
    ensures itemId in selections && selections[itemId] == app ==> itemId !in r
    ensures !(itemId in selections && selections[itemId] == app) ==> itemId in r && r[itemId] == app
    ensures forall k :: k != itemId ==> (k in r <==> k in selections) && (k in r ==> r[k] == selections[k])
  {
    if itemId in selections && selections[itemId] == app then selections - {itemId}
    else selections[itemId := app]
  }

  /** Choosing the same platform twice from an unselected item returns to unselected. */
  lemma ToggleTwice(selections: map<string, App>, itemId: string, app: App)
    requires itemId !in selections
    ensures Toggle(Toggle(selections, itemId, app), itemId, app) == selections
  {
  }

  /** What a platform card shows as its price: `price || 'N/A'`. */
  datatype PriceCell = NotAvailable | Rupees(amount: int)

  function PriceCellOf(p: Option<int>): PriceCell {
    if TruthyNum(p) then Rupees(p.value) else NotAvailable
  }

  /** `data.price === 'N/A' || data.price === 0` */
  predicate IsNA(cell: PriceCell) {
    cell.NotAvailable? || cell == Rupees(0)
  }

  /** A card is disabled exactly when its price is missing or zero; the zero
      test of the card can never fire on its own because `|| 'N/A'` already
      turned a zero into N/A. */
  lemma DisabledIffNoPrice(p: Option<int>)
    ensures IsNA(PriceCellOf(p)) <==> !TruthyNum(p)
    ensures PriceCellOf(p) != Rupees(0)
  {
  }

  /** `links?.zomato || '#'` */
  function LinkOf(link: Option<string>): (r: string)
    ensures r != ""
  {
    OrElse(link, "#")
  }

  function PriceFor(item: CompareItem, app: App): Option<int> {
    match app
    case Zomato => item.zomatoPrice
    case Swiggy => item.swiggyPrice
  }

  /** A click on a card: a disabled card does nothing, any other toggles. */
  function Click(selections: map<string, App>, item: CompareItem, app: App): (r: map<string, App>)
    ensures !TruthyNum(PriceFor(item, app)) ==> r == selections
    ensures TruthyNum(PriceFor(item, app)) ==> r == Toggle(selections, item.reelId, app)
  {
    if IsNA(PriceCellOf(PriceFor(item, app))) then selections else Toggle(selections, item.reelId, app)
  }

  /** Clicks never select an unavailable platform. */
  lemma ClickSelectsOnlyAvailable(selections: map<string, App>, item: CompareItem, app: App)
    requires item.reelId in selections ==> TruthyNum(PriceFor(item, selections[item.reelId]))
    ensures var r := Click(selections, item, app);
      item.reelId in r ==> TruthyNum(PriceFor(item, r[item.reelId]))
  {
  }

  /** The default choice is not held to that rule: with no price anywhere the
      item starts on Zomato, whose card is disabled. */
  lemma DefaultMayBeUnavailable()
    ensures var item := CompareItem("r1", None, None, None, None);
      InitialSelections([item]) == map["r1" := Zomato] && IsNA(PriceCellOf(PriceFor(item, Zomato)))
  {
    var item := CompareItem("r1", None, None, None, None);
    assert [item][..0] == [];
  }

  predicate OtherReel(itemId: string, x: CompareItem) {
    x.reelId != itemId
  }

  /** `cart.filter(item => item.reelId !== itemId)`: the general
      element-by-element filter, so the other lines keep their order. */
  function WithoutReel(cart: seq<CompareItem>, itemId: string): (r: seq<CompareItem>)
    ensures forall x :: x in r <==> x in cart && x.reelId != itemId
    ensures r == Filter(cart, x => OtherReel(itemId, x))
  {
    if cart == [] then [] else (if cart[0].reelId != itemId then [cart[0]] else []) + WithoutReel(cart[1..], itemId)
  }

  /** Removing goes line by line: one line survives exactly when it belongs
      to another reel, and removing from a joined cart joins the results. */
  lemma WithoutReelDistributes(a: seq<CompareItem>, b: seq<CompareItem>, x: CompareItem, itemId: string)
    ensures WithoutReel([x], itemId) == if x.reelId != itemId then [x] else []
    ensures WithoutReel(a + b, itemId) == WithoutReel(a, itemId) + WithoutReel(b, itemId)
  {
    FilterConcat(a, b, x => OtherReel(itemId, x));
  }

  datatype PageState = PageState(cart: seq<CompareItem>, selections: map<string, App>)

  datatype RemoveResult = RemoveResult(state: PageState, goHome: bool)

  /** `handleRemoveItem`: drops every line of that reel, forgets its selection,
      and goes home when nothing is left. */
  function RemoveItem(s: PageState, itemId: string): (r: RemoveResult)
    ensures forall x :: x in r.state.cart <==> x in s.cart && x.reelId != itemId
    ensures itemId !in r.state.selections
    ensures forall k :: k != itemId ==> (k in r.state.selections <==> k in s.selections)
    ensures forall k :: k != itemId && k in s.selections ==> r.state.selections[k] == s.selections[k]
    ensures r.goHome <==> r.state.cart == []
  {
    var cart := WithoutReel(s.cart, itemId);
    RemoveResult(PageState(cart, s.selections - {itemId}), |cart| == 0)
  }
}
