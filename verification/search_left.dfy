/** The discovery list of `src/components/SearchPage/SearchLeftPanel.jsx`:
    reels and restaurants flattened into one searchable list, the
    case-insensitive filter, and what selecting a result does. */
module SearchLeft {
  import opened Common
  import SearchHistory

  datatype Kind = Dish | Restaurant

  /** A reel's `prices` object; either price may be missing. */
  datatype Prices = Prices(zomatoPrice: Option<int>, swiggyPrice: Option<int>)

  /** A reel as the server sends it; the nested creator and restaurant
      fields are flattened. */
  datatype ReelRow = ReelRow(
    mongoId: Option<string>,
    foodName: Option<string>,
    caption: Option<string>,
    creatorNestedName: Option<string>,
    creatorName: Option<string>,
    restaurantRestaurantName: Option<string>,
    restaurantName: Option<string>,
    zomatoLink: Option<string>,
    swiggyLink: Option<string>,
    prices: Option<Prices>)

  datatype RestaurantRow = RestaurantRow(
    mongoId: Option<string>,
    name: Option<string>,
    restaurantName: Option<string>,
    zomatoLink: Option<string>,
    swiggyLink: Option<string>)

  /** One searchable entry: `dishName` is the title and `creatorName` the
      subtitle; `name` is only consulted for restaurants. */
  datatype Item = Item(
    kind: Kind,
    id: Option<string>,
    dishName: Option<string>,
    creatorName: Option<string>,
    name: Option<string>,
    restaurantName: Option<string>,
    deliveryApps: seq<string>,
    zomatoLink: Option<string>,
    swiggyLink: Option<string>,
    prices: Prices)

  /** A reel becomes a dish entry titled by its food name, then caption,
      then "Tasty Dish". */
  function FormatReel(r: ReelRow): (i: Item)
    ensures i.kind == Dish && i.id == r.mongoId
    ensures i.dishName == Some(OrElse(FirstTruthy(r.foodName, r.caption), "Tasty Dish"))
    ensures i.creatorName == FirstTruthy(r.creatorNestedName, r.creatorName)
    ensures i.restaurantName == Some(OrElse(FirstTruthy(r.restaurantRestaurantName, r.restaurantName), "Unknown Restaurant"))
    ensures i.prices == match r.prices case Some(p) => p case None => Prices(None, None)
  {
    Item(Dish, r.mongoId,
         Some(OrElse(FirstTruthy(r.foodName, r.caption), "Tasty Dish")),
         FirstTruthy(r.creatorNestedName, r.creatorName),
         None,
         Some(OrElse(FirstTruthy(r.restaurantRestaurantName, r.restaurantName), "Unknown Restaurant")),
         [],
         r.zomatoLink, r.swiggyLink,
         match r.prices case Some(p) => p case None => Prices(None, None))
  }

  /** The apps a restaurant is reachable on: Zomato iff it has a Zomato link,
      then Swiggy iff it has a Swiggy link. */
  function DeliveryApps(zomatoLink: Option<string>, swiggyLink: Option<string>): (apps: seq<string>)
    ensures "Zomato" in apps <==> Truthy(zomatoLink)
    ensures "Swiggy" in apps <==> Truthy(swiggyLink)
    ensures |apps| <= 2 && (Truthy(zomatoLink) ==> apps[0] == "Zomato")
  {
    (if Truthy(zomatoLink) then ["Zomato"] else []) + (if Truthy(swiggyLink) then ["Swiggy"] else [])
  }

  /** `parts.join(sep)` */
  function Join(parts: seq<string>, sep: string): string {
    if parts == [] then ""
    else if |parts| == 1 then parts[0]
    else parts[0] + sep + Join(parts[1..], sep)
  }

  /** A restaurant's subtitle: its apps joined with " & ", or
      "Delivery Available" when it has none. */
  function AppsLabel(apps: seq<string>): string {
    if |apps| > 0 then Join(apps, " & ") else "Delivery Available"
  }

  function FormatRestaurant(r: RestaurantRow): (i: Item)
    ensures i.kind == Restaurant && i.id == r.mongoId && i.name == r.name
    ensures i.dishName == FirstTruthy(r.name, r.restaurantName)
    ensures i.deliveryApps == DeliveryApps(r.zomatoLink, r.swiggyLink)
  {
    var apps := DeliveryApps(r.zomatoLink, r.swiggyLink);
    Item(Restaurant, r.mongoId, FirstTruthy(r.name, r.restaurantName), Some(AppsLabel(apps)), r.name,
         r.restaurantName, apps, r.zomatoLink, r.swiggyLink, Prices(None, None))
  }

  /** The four possible subtitles of a restaurant. */
  lemma RestaurantSubtitle(r: RestaurantRow)
    ensures var sub := FormatRestaurant(r).creatorName.value;
      (Truthy(r.zomatoLink) && Truthy(r.swiggyLink) ==> sub == "Zomato & Swiggy") &&
      (Truthy(r.zomatoLink) && !Truthy(r.swiggyLink) ==> sub == "Zomato") &&
      (!Truthy(r.zomatoLink) && Truthy(r.swiggyLink) ==> sub == "Swiggy") &&
      (!Truthy(r.zomatoLink) && !Truthy(r.swiggyLink) ==> sub == "Delivery Available")
  {
    var both := ["Zomato", "Swiggy"];
    assert both[1..] == ["Swiggy"];
    assert Join(both, " & ") == "Zomato" + " & " + "Swiggy";
  }

  /** `[...formattedReels, ...formattedRestaurants]` */
  function AllData(reels: seq<ReelRow>, restaurants: seq<RestaurantRow>): (d: seq<Item>)
    ensures |d| == |reels| + |restaurants|
    ensures forall i :: 0 <= i < |reels| ==> d[i] == FormatReel(reels[i])
    ensures forall i :: 0 <= i < |restaurants| ==> d[|reels| + i] == FormatRestaurant(restaurants[i])
  {
    seq(|reels|, i requires 0 <= i < |reels| => FormatReel(reels[i]))
      + seq(|restaurants|, i requires 0 <= i < |restaurants| => FormatRestaurant(restaurants[i]))
  }

  /** Every dish comes before every restaurant. */
  lemma DishesBeforeRestaurants(reels: seq<ReelRow>, restaurants: seq<RestaurantRow>, i: int, j: int)
    requires 0 <= i < j < |AllData(reels, restaurants)|
    requires AllData(reels, restaurants)[j].kind == Dish
    ensures AllData(reels, restaurants)[i].kind == Dish
  {
  }

  /** `field?.toLowerCase().includes(lower)`, false when the field is missing. */
  predicate FieldMatches(field: Option<string>, lower: string) {
    field.Some? && Contains(ToLower(field.value), lower)
  }

  /** An entry matches when one of its searchable fields contains the term;
      a missing field never matches. */
  predicate Matches(item: Item, lower: string)
    ensures Matches(item, lower) ==> item.dishName.Some? || item.creatorName.Some? || (item.kind == Restaurant && item.name.Some?)
    ensures item.dishName.Some? && Contains(ToLower(item.dishName.value), lower) ==> Matches(item, lower)
  {
    FieldMatches(item.dishName, lower) || FieldMatches(item.creatorName, lower)
    || (item.kind == Restaurant && FieldMatches(item.name, lower))
  }

  /** The empty term matches exactly the entries that have a searchable field. */
  lemma EmptyTermMatches(item: Item)
    ensures Matches(item, "") <==> item.dishName.Some? || item.creatorName.Some? || (item.kind == Restaurant && item.name.Some?)
  {
    forall s: string
      ensures Contains(s, "")
    {
      assert OccursAt(s, "", 0);
    }
  }

  function MatchesTerm(lower: string): Item -> bool {
    (item: Item) => Matches(item, lower)
  }

  /** The results for a term: none for a blank term; otherwise the entries
      that match the lower-cased (untrimmed) term. */
  function Results(data: seq<Item>, term: string): (r: seq<Item>)
    ensures IsBlank(term) ==> r == []
    ensures |r| <= |data|
  {
    if IsBlank(term) then [] else Filter(data, MatchesTerm(ToLower(term)))
  }

  /** An entry is a result exactly when the term is not blank and the entry
      matches it. */
  lemma ResultsMeaning(data: seq<Item>, term: string, i: int)
    requires 0 <= i < |data|
    ensures data[i] in Results(data, term) <==> !IsBlank(term) && Matches(data[i], ToLower(term))
  {
    if !IsBlank(term) && data[i] in Results(data, term) {
      var r := Results(data, term);
      var j :| 0 <= j < |r| && r[j] == data[i];
      assert MatchesTerm(ToLower(term))(r[j]);
    }
  }

  /** Results go entry by entry: one entry is a result exactly when the term
      is not blank and the entry matches it, and the results of a joined list
      are the joined results, so they keep the order of the list. */
  lemma ResultsKeepOrder(a: seq<Item>, b: seq<Item>, item: Item, term: string)
    ensures Results([item], term) == if !IsBlank(term) && Matches(item, ToLower(term)) then [item] else []
    ensures Results(a + b, term) == Results(a, term) + Results(b, term)
  {
    FilterSingle(item, MatchesTerm(ToLower(term)));
    FilterConcat(a, b, MatchesTerm(ToLower(term)));
  }

  /** Matching ignores case: an entry whose title is the term in upper case
      is found. */
  lemma TitleMatchesItself(item: Item, term: string)
    requires item.dishName == Some(term)
    ensures Matches(item, ToLower(term))
  {
    assert OccursAt(ToLower(term), ToLower(term), 0);
  }

  datatype App = Zomato | Swiggy

  /** What the right panel shows as the price. */
  datatype PriceLabel = MenuVaries | Rupees(amount: int)

  /** The right panel's input. */
  datatype Selected = Selected(id: Option<string>, dishName: Option<string>, bestApp: string, price: PriceLabel, isRestaurant: bool)

  /** A dish's best app: Zomato whenever it has a Zomato price, else Swiggy
      when it has a Swiggy price, else Zomato at 199. */
  function BestApp(p: Prices): (r: (App, int))
    ensures TruthyNum(p.zomatoPrice) ==> r == (Zomato, p.zomatoPrice.value)
    ensures !TruthyNum(p.zomatoPrice) && TruthyNum(p.swiggyPrice) ==> r == (Swiggy, p.swiggyPrice.value)
    ensures !TruthyNum(p.zomatoPrice) && !TruthyNum(p.swiggyPrice) ==> r == (Zomato, 199)
  {
    if TruthyNum(p.zomatoPrice) then (Zomato, p.zomatoPrice.value)
    else if TruthyNum(p.swiggyPrice) then (Swiggy, p.swiggyPrice.value)
    else (Zomato, 199)
  }

  /** "Best" is not "cheapest": a Zomato price wins even when Swiggy's is lower. */
  lemma BestAppIgnoresPrice()
    ensures BestApp(Prices(Some(300), Some(250))) == (Zomato, 300)
  {
  }

  function AppName(a: App): string {
    match a
    case Zomato => "Zomato"
    case Swiggy => "Swiggy"
  }

  /** The panel's state after a selection. */
  datatype Picked = Picked(selected: Selected, term: string, recents: seq<SearchHistory.Entry>)

  /** `handleSelectItem`: a restaurant is shown with its first app (or
      "Various") and leaves the term and the recent searches alone; a dish is
      shown with its best app, remembered at the front of the recent
      searches, and clears the term. */
  function SelectItem(item: Item, term: string, recents: seq<SearchHistory.Entry>, now: int): (p: Picked)
    ensures p.selected.id == item.id && p.selected.dishName == item.dishName
    ensures item.kind == Restaurant ==>
      p.term == term && p.recents == recents && p.selected.isRestaurant && p.selected.price == MenuVaries &&
      p.selected.bestApp == (if |item.deliveryApps| > 0 && item.deliveryApps[0] != "" then item.deliveryApps[0] else "Various")
    ensures item.kind == Dish ==>
      p.term == "" && !p.selected.isRestaurant &&
      p.selected.bestApp == AppName(BestApp(item.prices).0) && p.selected.price == Rupees(BestApp(item.prices).1) &&
      |p.recents| > 0 && p.recents[0] == SearchHistory.Entry(item.id, OrElse(item.dishName, ""), Some(now)) &&
      p.recents[1..] == SearchHistory.RemoveSearch(recents, item.id)
  {
    match item.kind
    case Restaurant =>
      var first := if |item.deliveryApps| > 0 then Some(item.deliveryApps[0]) else None;
      Picked(Selected(item.id, item.dishName, OrElse(first, "Various"), MenuVaries, true), term, recents)
    case Dish =>
      var (app, price) := BestApp(item.prices);
      var dish := SearchHistory.Entry(item.id, match item.dishName case Some(n) => n case None => "", None);
      SearchHistory.AddSearchMeaning(recents, dish, now);
      Picked(Selected(item.id, item.dishName, AppName(app), Rupees(price), false), "", SearchHistory.AddSearch(recents, dish, now))
  }

  /** Picking a dish twice keeps a single entry for it in the recent searches. */
  lemma SelectDishTwice(item: Item, term: string, recents: seq<SearchHistory.Entry>, t1: int, t2: int)
    requires item.kind == Dish
    ensures SelectItem(item, "", SelectItem(item, term, recents, t1).recents, t2).recents == SelectItem(item, term, recents, t2).recents
  {
    var dish := SearchHistory.Entry(item.id, match item.dishName case Some(n) => n case None => "", None);
    SearchHistory.AddSearchTwice(recents, dish, t1, t2);
  }

  /** `handleSearchSubmit`: selects the first result, if there is one. */
  function Submit(results: seq<Item>, term: string, recents: seq<SearchHistory.Entry>, now: int): (r: Option<Picked>)
    ensures results == [] <==> r.None?
    ensures results != [] ==> r == Some(SelectItem(results[0], term, recents, now))
  {
    if |results| > 0 then Some(SelectItem(results[0], term, recents, now)) else None
  }

  /** A blank term never selects anything. */
  lemma BlankSubmitDoesNothing(data: seq<Item>, term: string, recents: seq<SearchHistory.Entry>, now: int)
    requires IsBlank(term)
    ensures Submit(Results(data, term), term, recents, now).None?
  {
  }
}
