/** The cart side panel of `src/components/CartPanel.jsx`: what it renders for
    a cart, and the checkout hand-off. */
module CartPanel {
  import opened Common
  import opened Cart

  /** A platform price pill: hidden, or shown and possibly active. */
  datatype Pill = Hidden | Shown(active: bool)

  /** One rendered cart line. `subtotal` is `None` when the price is missing
      (JavaScript renders NaN). */
  datatype LineView = LineView(decreaseDisabled: bool, subtotal: Option<int>, zomato: Pill, swiggy: Pill)

  datatype PanelView = PanelView(itemCount: nat, lines: seq<LineView>, footer: bool)

  /** A comparison price pill shows iff the price is positive and is active iff
      the line was added on that platform. */
  function PricePill(price: Option<int>, platform: string, pillPlatform: string): (p: Pill)
    ensures p.Shown? <==> price.Some? && price.value > 0
    ensures p.Shown? ==> (p.active <==> platform == pillPlatform)
  {
    if price.Some? && price.value > 0 then Shown(platform == pillPlatform) else Hidden
  }

  function ViewLine(item: LineItem): LineView {
    LineView(
      item.quantity <= 1,
      match item.price case Some(p) => Some(p * item.quantity) case None => None,
      PricePill(item.zomatoPrice, item.platform, "ZOMATO"),
      PricePill(item.swiggyPrice, item.platform, "SWIGGY"))
  }

  function ViewLines(items: seq<LineItem>): (r: seq<LineView>)
    ensures |r| == |items|
    ensures forall i :: 0 <= i < |items| ==> r[i] == ViewLine(items[i])
  {
    if items == [] then [] else [ViewLine(items[0])] + ViewLines(items[1..])
  }

  /** Nothing renders while the panel is closed; the header counts lines (not
      units) and the footer shows only for a non-empty cart. */
  function View(isOpen: bool, items: seq<LineItem>): (r: Option<PanelView>)
    ensures r.None? <==> !isOpen
    ensures r.Some? ==> r.value.itemCount == |items| && |r.value.lines| == |items|
    ensures r.Some? ==> (r.value.footer <==> |items| > 0)
  {
    if !isOpen then None else Some(PanelView(|items|, ViewLines(items), |items| > 0))
  }

  /** What "Proceed to Checkout" does. */
  datatype Proceed = NoOp | CompareThenClose(cart: seq<LineItem>)

  function ProceedToCheckout(items: seq<LineItem>): (r: Proceed)
    ensures r.NoOp? <==> items == []
    ensures r.CompareThenClose? ==> r.cart == items
  {
    if |items| == 0 then NoOp else CompareThenClose(items)
  }

  /** The decrease button of a line is enabled exactly when pressing it makes
      the engine send an update: the panel guard and the engine guard agree for
      the first line of each `(reelId, platform)` key. */
  lemma DecreaseButtonMatchesEngine(items: seq<LineItem>, k: int, updated: bool, fetch: FetchOutcome)
    requires 0 <= k < |items|
    requires forall i :: 0 <= i < k ==> !KeyMatches(items[i], items[k].reelId, items[k].platform)
    ensures !ViewLines(items)[k].decreaseDisabled <==>
      Decrease(items, items[k].reelId, items[k].platform, updated, fetch).request.Some?
  {
    var found := FindLine(items, items[k].reelId, items[k].platform);
    assert KeyMatches(items[k], items[k].reelId, items[k].platform);
    assert found.Some?;
    var j :| 0 <= j < |items| && items[j] == found.value && KeyMatches(items[j], items[k].reelId, items[k].platform)
             && forall i :: 0 <= i < j ==> !KeyMatches(items[i], items[k].reelId, items[k].platform);
    assert j == k;
  }

  /** The header's line count never exceeds the cart's total quantity. */
  lemma HeaderCountsLines(items: seq<LineItem>)
    requires Canonical(items)
    ensures View(true, items).value.itemCount <= TotalQuantity(items)
  {
    TotalQuantityBound(items);
  }

  /** Sum of the shown subtotals (a NaN subtotal counts as nothing). */
  function SumSubtotals(lines: seq<LineView>): int {
    if lines == [] then 0
    else (match lines[0].subtotal case Some(v) => v case None => 0) + SumSubtotals(lines[1..])
  }

  /** When every line has a non-zero price, the shown subtotals add up to the
      engine's `totalPrice`. */
  lemma {:induction false} SubtotalsAddUp(items: seq<LineItem>)
    requires forall i :: 0 <= i < |items| ==> TruthyNum(items[i].price)
    ensures SumSubtotals(ViewLines(items)) == TotalPrice(items)
    decreases |items|
  {
    if items != [] {
      SubtotalsAddUp(items[1..]);
      assert ViewLines(items)[1..] == ViewLines(items[1..]);
    }
  }
}
