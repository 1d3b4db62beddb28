/** The per-item app picker of `src/pages/OrderSelectionPage.jsx`: one app
    choice per cart line, the proceed gate and the tabs it opens. */
module OrderSelection {
  import opened Common
  import Cart

  /** The three apps on offer. */
  datatype AppKey = Zomato | Swiggy | Blinkit

  function BaseUrl(app: AppKey): string {
    match app
    case Zomato => "https://www.zomato.com"
    case Swiggy => "https://www.swiggy.com"
    case Blinkit => "https://blinkit.com"
  }

  /** The three addresses are pairwise different, so a tab names its app. */
  lemma BaseUrlsDistinct()
    ensures BaseUrl(Zomato) != BaseUrl(Swiggy) && BaseUrl(Zomato) != BaseUrl(Blinkit) && BaseUrl(Swiggy) != BaseUrl(Blinkit)
  {
    assert BaseUrl(Zomato)[12] == 'z' && BaseUrl(Swiggy)[12] == 's' && BaseUrl(Blinkit)[12] == 'k';
  }

  /** `selections`: item id (as an object key) to the chosen app. */
  type Selections = map<string, AppKey>

  /** The key a cart line is selected under. */
  function Key(item: Cart.LineItem): string {
    JsString(item.id)
  }

  /** `handleAppSelection(itemId, appKey)` */
  function SelectApp(sel: Selections, itemId: string, app: AppKey): (r: Selections)
    ensures itemId in r && r[itemId] == app
    ensures forall k :: k != itemId ==> (k in r <==> k in sel) && (k in r ==> r[k] == sel[k])
  {
    sel[itemId := app]
  }

  /** What `handleRemoveItem` leaves behind: the selections and the cart step. */
  datatype Removal = Removal(selections: Selections, cart: Cart.Step)

  /** `handleRemoveItem(itemId)`: drops the item's selection and asks the cart
      to remove it, passing the line's id where the cart expects a reel id
      and no platform. */
  function RemoveItem(sel: Selections, items: seq<Cart.LineItem>, itemId: string, removed: bool, fetch: Cart.FetchOutcome): (r: Removal)
    ensures itemId !in r.selections
    ensures forall k :: k != itemId ==> (k in r.selections <==> k in sel) && (k in r.selections ==> r.selections[k] == sel[k])
    ensures r.cart.request == Some(Cart.RemoveItem(itemId, None))
    ensures !removed ==> r.cart.items == items
  {
    Removal(sel - {itemId}, Cart.Remove(items, itemId, None, removed, fetch))
  }

  /** `allItemsSelected`: as many selections as cart lines. */
  predicate AllItemsSelected(sel: Selections, items: seq<Cart.LineItem>) {
    |sel.Keys| == |items|
  }

  /** The tabs proceed opens: one per cart line that has a selection, in cart order. */
  function OpenUrls(items: seq<Cart.LineItem>, sel: Selections): (urls: seq<string>)
    ensures |urls| <= |items|
    ensures (forall i :: 0 <= i < |items| ==> Key(items[i]) in sel) ==>
      |urls| == |items| && forall i :: 0 <= i < |items| ==> urls[i] == BaseUrl(sel[Key(items[i])])
  {
    if items == [] then []
    else
      var head := if Key(items[0]) in sel then [BaseUrl(sel[Key(items[0])])] else [];
      head + OpenUrls(items[1..], sel)
  }

  datatype Proceed = PleaseSelectAll | OpenTabs(urls: seq<string>)

  /** `handleProceedToOrder`: alerts and opens nothing unless every line is
      counted as selected. */
  function ProceedToOrder(sel: Selections, items: seq<Cart.LineItem>): (p: Proceed)
    ensures p.PleaseSelectAll? <==> !AllItemsSelected(sel, items)
    ensures p.OpenTabs? ==> p.urls == OpenUrls(items, sel)
  {
    if !AllItemsSelected(sel, items) then PleaseSelectAll else OpenTabs(OpenUrls(items, sel))
  }

  /** The ids of a list of cart lines. */
  function KeysOf(items: seq<Cart.LineItem>): (ks: set<string>)
    ensures forall i :: 0 <= i < |items| ==> Key(items[i]) in ks
    ensures forall k :: k in ks ==> exists i :: 0 <= i < |items| && Key(items[i]) == k
  {
    if items == [] then {} else {Key(items[0])} + KeysOf(items[1..])
  }

  predicate UniqueKeys(items: seq<Cart.LineItem>) {
    forall i, j :: 0 <= i < j < |items| ==> Key(items[i]) != Key(items[j])
  }

  lemma {:induction false} KeysOfSize(items: seq<Cart.LineItem>)
    requires UniqueKeys(items)
    ensures |KeysOf(items)| == |items|
  {
    if items != [] {
      KeysOfSize(items[1..]);
      assert forall i :: 0 <= i < |items[1..]| ==> Key(items[1..][i]) != Key(items[0]) by {
        forall i | 0 <= i < |items[1..]|
          ensures Key(items[1..][i]) != Key(items[0])
        {
          assert items[1..][i] == items[i + 1];
        }
      }
    }
  }

  lemma {:induction false} SubsetOfSameSize(a: set<string>, b: set<string>)
    requires a <= b && |a| == |b|
    ensures a == b
    decreases |b|
  {
    if b != {} {
      var x :| x in b;
      SubsetSize(a - {x}, b - {x});
      assert x in a;
      SubsetOfSameSize(a - {x}, b - {x});
      assert a == (a - {x}) + {x};
      assert b == (b - {x}) + {x};
    }
  }

  lemma {:induction false} SubsetSize(a: set<string>, b: set<string>)
    requires a <= b
    ensures |a| <= |b|
    decreases |a|
  {
    if a != {} {
      var x :| x in a;
      SubsetSize(a - {x}, b - {x});
    }
  }

  /** On a cart with distinct ids, while every selection names a cart line,
      the count gate holds exactly when every line has a selection, and then
      proceed opens one tab per line with that line's app. */
  lemma GateMeansEverySelected(sel: Selections, items: seq<Cart.LineItem>)
    requires UniqueKeys(items)
    requires sel.Keys <= KeysOf(items)
    ensures AllItemsSelected(sel, items) <==> forall i :: 0 <= i < |items| ==> Key(items[i]) in sel
    ensures AllItemsSelected(sel, items) ==>
      var p := ProceedToOrder(sel, items);
      p.OpenTabs? && |p.urls| == |items| && forall i :: 0 <= i < |items| ==> p.urls[i] == BaseUrl(sel[Key(items[i])])
  {
    KeysOfSize(items);
    if AllItemsSelected(sel, items) {
      SubsetOfSameSize(sel.Keys, KeysOf(items));
    }
    if forall i :: 0 <= i < |items| ==> Key(items[i]) in sel {
      assert KeysOf(items) <= sel.Keys;
      assert sel.Keys == KeysOf(items);
    }
  }

  /** Selecting a cart line keeps every selection naming a line of the cart
      the page shows, and so does removing an item, both when the cart
      refuses the removal and when it succeeds and the refetched cart still
      holds every other line. */
  lemma SelectionsStayInCart(sel: Selections, items: seq<Cart.LineItem>, i: int, app: AppKey, itemId: string,
                             removed: bool, fetched: seq<Cart.LineItem>)
    requires sel.Keys <= KeysOf(items) && 0 <= i < |items|
    ensures SelectApp(sel, Key(items[i]), app).Keys <= KeysOf(items)
    ensures RemoveItem(sel, items, itemId, false, Cart.FetchFailed).selections.Keys <= KeysOf(items)
    ensures KeysOf(items) - {itemId} <= KeysOf(fetched) ==>
      var r := RemoveItem(sel, items, itemId, removed, Cart.Fetched(Some(fetched)));
      r.selections.Keys <= KeysOf(r.cart.items)
  {
  }

  /** The summary shown while the count gate holds looks up the app of every
      cart line, which throws for a line without a choice; this says whether
      the page renders at all. */
  predicate SummaryRenders(sel: Selections, items: seq<Cart.LineItem>) {
    AllItemsSelected(sel, items) ==> forall i :: 0 <= i < |items| ==> Key(items[i]) in sel
  }

  /** The button can only be clicked on a page that rendered, and there a
      passing gate means every line has a choice, so proceed opens one tab
      per line, in cart order, at that line's app. */
  lemma RenderedProceedOpensAll(sel: Selections, items: seq<Cart.LineItem>)
    ensures var p := ProceedToOrder(sel, items);
      SummaryRenders(sel, items) && p.OpenTabs? ==>
        |p.urls| == |items| && forall i :: 0 <= i < |items| ==> p.urls[i] == BaseUrl(sel[Key(items[i])])
  {
  }

  /** The count gate cannot tell a stale choice from a missing one: with a
      choice left over for a removed line it passes although a line has no
      choice. The proceed handler would then open one tab for two lines, but
      the program never gets there, because the summary cannot render. */
  lemma CountGateIsWeaker()
    ensures var a := Cart.LineItem(Some("a"), "r1", "ZOMATO", None, None, 1, None, None);
      var b := Cart.LineItem(Some("b"), "r2", "ZOMATO", None, None, 1, None, None);
      var sel := map["a" := Zomato, "gone" := Swiggy];
      AllItemsSelected(sel, [a, b]) && Key(b) !in sel && ProceedToOrder(sel, [a, b]) == OpenTabs(["https://www.zomato.com"])
      && !SummaryRenders(sel, [a, b])
  {
    var a := Cart.LineItem(Some("a"), "r1", "ZOMATO", None, None, 1, None, None);
    var b := Cart.LineItem(Some("b"), "r2", "ZOMATO", None, None, 1, None, None);
    var sel := map["a" := Zomato, "gone" := Swiggy];
    assert sel.Keys == {"a", "gone"};
    assert [a, b][1..] == [b];
  }
}
