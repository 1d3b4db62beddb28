/** The detail card of `src/components/SearchPage/SearchRightPanel.jsx`: the
    rating tag, the two ordering rows and the order button. */
module SearchRight {
  import opened Common
  import opened Links

  /** The selected dish or restaurant. Ratings are kept in tenths (4.5 is 45);
      a missing rating compares false. */
  datatype Dish = Dish(
    ratingTenths: Option<int>,
    restaurantName: Option<string>,
    zomatoPrice: Option<int>,
    swiggyPrice: Option<int>,
    zomatoLink: Option<string>,
    swiggyLink: Option<string>)

  const ChefsChoiceTenths := 45

  /** `dish.rating >= 4.5 ? "Chef's Choice" : "Top Rated"` */
  function Tag(d: Dish): (t: string)
    ensures t == "Chef's Choice" <==> d.ratingTenths.Some? && d.ratingTenths.value >= ChefsChoiceTenths
    ensures t != "Chef's Choice" ==> t == "Top Rated"
  {
    if d.ratingTenths.Some? && d.ratingTenths.value >= ChefsChoiceTenths then "Chef's Choice" else "Top Rated"
  }

  datatype PriceText = PriceRupees(amount: int) | MenuText

  /** One platform row: its price text and, if it has a link, the GO target. */
  datatype Row = Row(price: PriceText, go: Option<string>)

  /** A platform row: shown iff the platform has a price or a link; the price
      reads "Menu" without a price, and GO appears only with a link. */
  function PlatformRow(price: Option<int>, link: Option<string>): (r: Option<Row>)
    ensures r.Some? <==> TruthyNum(price) || Truthy(link)
    ensures r.Some? ==> (r.value.price == MenuText <==> !TruthyNum(price))
    ensures r.Some? && TruthyNum(price) ==> r.value.price == PriceRupees(price.value)
    ensures r.Some? ==> (r.value.go.Some? <==> Truthy(link))
    ensures r.Some? && Truthy(link) ==> r.value.go == Some(EnsureProtocol(link))
  {
    if TruthyNum(price) || Truthy(link) then
      Some(Row(if TruthyNum(price) then PriceRupees(price.value) else MenuText,
               if Truthy(link) then Some(EnsureProtocol(link)) else None))
    else None
  }

  datatype Panel =
    | EmptyState
    | Card(tag: string, zomatoRow: Option<Row>, swiggyRow: Option<Row>, unavailable: bool, orderLabel: string)

  /** The panel: the empty state without a selection, otherwise the card;
      "Order links unavailable" appears iff all four of price and link per
      platform are missing. */
  function Render(dish: Option<Dish>): (p: Panel)
    ensures dish.None? <==> p.EmptyState?
    ensures dish.Some? ==> p.tag == Tag(dish.value)
    ensures dish.Some? ==> p.zomatoRow == PlatformRow(dish.value.zomatoPrice, dish.value.zomatoLink)
    ensures dish.Some? ==> p.swiggyRow == PlatformRow(dish.value.swiggyPrice, dish.value.swiggyLink)
    ensures dish.Some? ==> (p.unavailable <==>
      !Truthy(dish.value.zomatoLink) && !Truthy(dish.value.swiggyLink) && !TruthyNum(dish.value.zomatoPrice) && !TruthyNum(dish.value.swiggyPrice))
    ensures dish.Some? ==> p.orderLabel == "ORDER FROM " + OrElse(dish.value.restaurantName, "RESTAURANT")
  {
    match dish
    case None => EmptyState
    case Some(d) =>
      Card(Tag(d), PlatformRow(d.zomatoPrice, d.zomatoLink), PlatformRow(d.swiggyPrice, d.swiggyLink),
           !Truthy(d.zomatoLink) && !Truthy(d.swiggyLink) && !TruthyNum(d.zomatoPrice) && !TruthyNum(d.swiggyPrice),
           "ORDER FROM " + OrElse(d.restaurantName, "RESTAURANT"))
  }

  /** The "unavailable" note shows exactly when neither row does. */
  lemma UnavailableIffNoRows(d: Dish)
    ensures var p := Render(Some(d)); p.unavailable <==> p.zomatoRow.None? && p.swiggyRow.None?
  {
  }

  /** The order button's effect. */
  datatype OrderAction = OpenTab(url: string) | ShowDetailsAlert

  /** The order button: the Zomato link, falling back to Swiggy, normalised;
      a tab opens only for a non-empty result. */
  function OrderClick(d: Dish): (a: OrderAction)
    ensures a.OpenTab? <==> Truthy(d.zomatoLink) || Truthy(d.swiggyLink)
    ensures Truthy(d.zomatoLink) ==> a == OpenTab(EnsureProtocol(d.zomatoLink))
    ensures !Truthy(d.zomatoLink) && Truthy(d.swiggyLink) ==> a == OpenTab(EnsureProtocol(d.swiggyLink))
  {
    var link := EnsureProtocol(FirstTruthy(d.zomatoLink, d.swiggyLink));
    if link != "" then OpenTab(link) else ShowDetailsAlert
  }

  /** The button opens the same address as the first GO link on the card. */
  lemma OrderMatchesFirstGoLink(d: Dish)
    ensures var p := Render(Some(d));
      OrderClick(d).OpenTab? ==>
        (if Truthy(d.zomatoLink) then p.zomatoRow.value.go else p.swiggyRow.value.go) == Some(OrderClick(d).url)
  {
  }
}
