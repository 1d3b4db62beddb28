/** The cart state engine of `src/context/CartContext.js`: a pure reducer over
    the list of line items, the derived totals, and the remote actions that
    send one request and then replace the whole list with a refetch. */
module Cart {
  import opened Common

  /** One cart line as the server sends it. The reducer keys on `id` (which the
      server may leave out); the remote actions key on `(reelId, platform)`. */
  datatype LineItem = LineItem(
    id: Option<string>,
    reelId: string,
    platform: string,
    price: Option<int>,
    totalPrice: Option<int>,
    quantity: int,
    zomatoPrice: Option<int>,
    swiggyPrice: Option<int>)

  /** The reducer's action tags; `Other` is any tag the reducer does not know. */
  datatype Action =
    | SetCart(payload: Option<seq<LineItem>>)
    | AddToCart(item: LineItem)
    | RemoveFromCart(target: Option<string>)
    | IncreaseQuantity(target: Option<string>)
    | DecreaseQuantity(target: Option<string>)
    | ClearCart
    | Other(tag: string)

  function Bump(item: LineItem): LineItem {
    item.(quantity := item.quantity + 1)
  }

  predicate HasId(s: seq<LineItem>, id: Option<string>) {
    exists i :: 0 <= i < |s| && s[i].id == id
  }

  /** Number of lines whose `id` equals `id`. */
  function CountId(s: seq<LineItem>, id: Option<string>): nat {
    if s == [] then 0 else (if s[0].id == id then 1 else 0) + CountId(s[1..], id)
  }

  /** Every line of canonical state has a positive quantity. */
  predicate Canonical(s: seq<LineItem>) {
    forall i :: 0 <= i < |s| ==> s[i].quantity > 0
  }

  /** No two lines share an `id`. */
  predicate UniqueIds(s: seq<LineItem>) {
    forall i, j :: 0 <= i < j < |s| ==> s[i].id != s[j].id
  }

  /** `state.map(item => item.id === id ? {...item, quantity: item.quantity + 1} : item)` */
  function IncreaseMatching(s: seq<LineItem>, id: Option<string>): (r: seq<LineItem>)
    ensures |r| == |s|
    ensures forall i :: 0 <= i < |s| ==> r[i] == if s[i].id == id then Bump(s[i]) else s[i]
  {
    if s == [] then [] else [if s[0].id == id then Bump(s[0]) else s[0]] + IncreaseMatching(s[1..], id)
  }

  predicate OtherId(id: Option<string>, x: LineItem) {
    x.id != id
  }

  /** `state.filter(item => item.id !== id)` */
  function RemoveMatching(s: seq<LineItem>, id: Option<string>): (r: seq<LineItem>)
    ensures forall x :: x in r <==> x in s && x.id != id
    ensures |r| == |s| - CountId(s, id)
    ensures r == Filter(s, x => OtherId(id, x))
  {
    if s == [] then [] else (if s[0].id != id then [s[0]] else []) + RemoveMatching(s[1..], id)
  }

  /** One line under DECREASE_QUANTITY's map step. */
  function LowerOne(x: LineItem, id: Option<string>): LineItem {
    if x.id == id then x.(quantity := if x.quantity - 1 > 0 then x.quantity - 1 else 0) else x
  }

  /** Matching lines lose one unit, floored at zero (`Math.max(0, q - 1)`). */
  function LowerMatching(s: seq<LineItem>, id: Option<string>): (r: seq<LineItem>)
    ensures |r| == |s|
    ensures forall i :: 0 <= i < |s| ==> r[i].id == s[i].id
    ensures forall i :: 0 <= i < |s| && s[i].id != id ==> r[i] == s[i]
    ensures forall i :: 0 <= i < |s| && s[i].id == id ==>
      r[i] == s[i].(quantity := if s[i].quantity - 1 > 0 then s[i].quantity - 1 else 0)
  {
    if s == [] then [] else [LowerOne(s[0], id)] + LowerMatching(s[1..], id)
  }

  predicate Positive(x: LineItem) {
    x.quantity > 0
  }

  /** `.filter(item => item.quantity > 0)`; it is the general element-by-element
      filter, so it keeps the order and the repetitions of the positive lines. */
  function KeepPositive(s: seq<LineItem>): (r: seq<LineItem>)
    ensures Canonical(r)
    ensures forall x :: x in r <==> x in s && x.quantity > 0
    ensures r == Filter(s, Positive)
  {
    if s == [] then [] else (if s[0].quantity > 0 then [s[0]] else []) + KeepPositive(s[1..])
  }

  /** DECREASE_QUANTITY on the whole list: the lowered lines that stay positive. */
  function DecreaseMatching(s: seq<LineItem>, id: Option<string>): (r: seq<LineItem>)
    ensures Canonical(r)
    ensures |r| <= |s|
    ensures forall x :: x in r <==> x.quantity > 0 && exists i :: 0 <= i < |s| && x == LowerOne(s[i], id)
  {
    var low := LowerMatching(s, id);
    assert forall i :: 0 <= i < |s| ==> low[i] == LowerOne(s[i], id);
    KeepPositive(low)
  }

  function AddLine(s: seq<LineItem>, item: LineItem): (r: seq<LineItem>)
    ensures HasId(s, item.id) ==> |r| == |s|
    ensures HasId(s, item.id) ==> forall i :: 0 <= i < |s| ==> r[i] == if s[i].id == item.id then Bump(s[i]) else s[i]
    ensures !HasId(s, item.id) ==> r == s + [item.(quantity := 1)]
  {
    if HasId(s, item.id) then IncreaseMatching(s, item.id) else s + [item.(quantity := 1)]
  }

  /** The reducer. */
  function Reduce(state: seq<LineItem>, action: Action): (r: seq<LineItem>)
    ensures action.ClearCart? ==> r == []
    ensures action == SetCart(None) ==> r == []
    ensures action.Other? ==> r == state
  {
    match action
    case SetCart(payload) => (match payload case Some(items) => items case None => [])
    case AddToCart(item) => AddLine(state, item)
    case RemoveFromCart(id) => RemoveMatching(state, id)
    case IncreaseQuantity(id) => IncreaseMatching(state, id)
    case DecreaseQuantity(id) => DecreaseMatching(state, id)
    case ClearCart => []
    case Other(_) => state
  }

  /** ADD_TO_CART of a present id: same length, that line one unit more, every
      other line untouched. */
  lemma AddExisting(s: seq<LineItem>, item: LineItem, k: int)
    requires 0 <= k < |s| && s[k].id == item.id && UniqueIds(s)
    ensures |Reduce(s, AddToCart(item))| == |s|
    ensures Reduce(s, AddToCart(item))[k] == s[k].(quantity := s[k].quantity + 1)
    ensures forall i :: 0 <= i < |s| && i != k ==> Reduce(s, AddToCart(item))[i] == s[i]
  {
    assert HasId(s, item.id);
  }

  /** ADD_TO_CART of a new id appends it with quantity 1. */
  lemma AddNew(s: seq<LineItem>, item: LineItem)
    requires forall i :: 0 <= i < |s| ==> s[i].id != item.id
    ensures Reduce(s, AddToCart(item)) == s + [item.(quantity := 1)]
  {
  }

  /** REMOVE_FROM_CART is a filter: it commutes with concatenation, so the
      surviving lines keep their original order. */
  lemma RemoveDistributes(a: seq<LineItem>, b: seq<LineItem>, id: Option<string>)
    ensures RemoveMatching(a + b, id) == RemoveMatching(a, id) + RemoveMatching(b, id)
  {
    FilterConcat(a, b, x => OtherId(id, x));
  }

  /** DECREASE_QUANTITY goes line by line: one line becomes its lowered self
      when that stays positive and disappears otherwise, and decreasing a
      joined list joins the two results, so the survivors keep their order. */
  lemma DecreaseDistributes(a: seq<LineItem>, b: seq<LineItem>, x: LineItem, id: Option<string>)
    ensures DecreaseMatching([x], id) == if LowerOne(x, id).quantity > 0 then [LowerOne(x, id)] else []
    ensures DecreaseMatching(a + b, id) == DecreaseMatching(a, id) + DecreaseMatching(b, id)
  {
    DecreaseSingle(x, id);
    LowerConcat(a, b, id);
    FilterConcat(LowerMatching(a, id), LowerMatching(b, id), Positive);
  }

  /** DECREASE_QUANTITY on a non-empty list: the head's result, then the tail's. */
  lemma DecreaseStep(s: seq<LineItem>, id: Option<string>)
    requires s != []
    ensures DecreaseMatching(s, id) == DecreaseMatching([s[0]], id) + DecreaseMatching(s[1..], id)
  {
    DecreaseDistributes([s[0]], s[1..], s[0], id);
    assert [s[0]] + s[1..] == s;
  }

  /** A positive line under DECREASE_QUANTITY loses one unit and one unit
      price when it matches, and nothing otherwise. */
  lemma DecreaseOneLine(x: LineItem, id: Option<string>)
    requires x.quantity > 0
    ensures TotalQuantity(DecreaseMatching([x], id)) == x.quantity - (if x.id == id then 1 else 0)
    ensures TotalPrice(DecreaseMatching([x], id)) == LineValue(x) - (if x.id == id then UnitPrice(x) else 0)
  {
    var y := LowerOne(x, id);
    DecreaseSingle(x, id);
    if y.quantity > 0 {
      SingleTotals(y);
      if x.id == id {
        OneMoreUnit(y);
        assert Bump(y) == x;
      }
    } else {
      assert x.id == id && x.quantity == 1;
      assert LineValue(x) == UnitPrice(x);
    }
  }

  /** One line under DECREASE_QUANTITY: its lowered self if still positive. */
  lemma DecreaseSingle(x: LineItem, id: Option<string>)
    ensures DecreaseMatching([x], id) == if LowerOne(x, id).quantity > 0 then [LowerOne(x, id)] else []
  {
    assert LowerMatching([x], id) == [LowerOne(x, id)];
    FilterSingle(LowerOne(x, id), Positive);
  }

  /** The totals of a one-line cart are that line's quantity and value. */
  lemma SingleTotals(y: LineItem)
    ensures TotalQuantity([y]) == y.quantity
    ensures TotalPrice([y]) == LineValue(y)
  {
    assert [y][1..] == [];
  }

  lemma {:induction false} LowerConcat(a: seq<LineItem>, b: seq<LineItem>, id: Option<string>)
    ensures LowerMatching(a + b, id) == LowerMatching(a, id) + LowerMatching(b, id)
    decreases |a|
  {
    if a == [] {
      assert a + b == b;
    } else {
      assert (a + b)[1..] == a[1..] + b;
      LowerConcat(a[1..], b, id);
    }
  }


  lemma {:induction false} RemoveIdempotent(s: seq<LineItem>, id: Option<string>)
    ensures RemoveMatching(RemoveMatching(s, id), id) == RemoveMatching(s, id)
    decreases |s|
  {
    if s != [] {
      var head := if s[0].id != id then [s[0]] else [];
      RemoveDistributes(head, RemoveMatching(s[1..], id), id);
      RemoveIdempotent(s[1..], id);
      assert RemoveMatching(head, id) == head by {
        if head != [] {
          assert head[1..] == [];
        }
      }
    }
  }

  /** DECREASE_QUANTITY keeps every other positive line unchanged, turns a
      matching line of quantity q > 1 into q - 1, and drops a matching line at 1. */
  lemma DecreaseEffect(s: seq<LineItem>, id: Option<string>, x: LineItem)
    requires x in s
    ensures x.id != id && x.quantity > 0 ==> x in DecreaseMatching(s, id)
    ensures x.id == id && x.quantity > 1 ==> x.(quantity := x.quantity - 1) in DecreaseMatching(s, id)
    ensures x.id == id && x.quantity <= 1 ==> x !in DecreaseMatching(s, id) || exists y :: y in s && y.id == id && y.quantity == 2 && y.(quantity := 1) == x
  {
    var i :| 0 <= i < |s| && s[i] == x;
    var lowered := LowerMatching(s, id);
    assert lowered[i] in lowered;
    if x.id == id && x.quantity <= 1 && x in DecreaseMatching(s, id) {
      assert x in lowered;
      var j :| 0 <= j < |lowered| && lowered[j] == x;
      assert s[j].id == id && s[j].quantity == 2 && s[j].(quantity := 1) == x;
    }
  }

  /* ---------- totals ---------- */

  /** The badge count: the quantities summed. With no negative quantity it
      is never negative and bounds every single line's quantity. */
  function TotalQuantity(s: seq<LineItem>): (t: int)
    ensures (forall i :: 0 <= i < |s| ==> s[i].quantity >= 0) ==> t >= 0 && forall i :: 0 <= i < |s| ==> s[i].quantity <= t
  {
    if s == [] then 0 else s[0].quantity + TotalQuantity(s[1..])
  }

  /** `item.price || item.totalPrice || 0`: a zero or missing price falls through. */
  function UnitPrice(item: LineItem): (p: int)
    ensures TruthyNum(item.price) ==> p == item.price.value
    ensures !TruthyNum(item.price) && TruthyNum(item.totalPrice) ==> p == item.totalPrice.value
    ensures !TruthyNum(item.price) && !TruthyNum(item.totalPrice) ==> p == 0
  {
    if TruthyNum(item.price) then item.price.value
    else if TruthyNum(item.totalPrice) then item.totalPrice.value
    else 0
  }

  /** The cart total: unit price times quantity, summed over the lines. With
      no negative price or quantity it is never negative and bounds the
      contribution of every single line. */
  function TotalPrice(s: seq<LineItem>): (t: int)
    ensures (forall i :: 0 <= i < |s| ==> s[i].quantity >= 0 && UnitPrice(s[i]) >= 0) ==>
      t >= 0 && forall i :: 0 <= i < |s| ==> LineValue(s[i]) <= t
  {
    if s == [] then 0 else LineValue(s[0]) + TotalPrice(s[1..])
  }

  /** What one line adds to the total. */
  function LineValue(x: LineItem): int {
    UnitPrice(x) * x.quantity
  }

  /** One more unit of a line adds one unit price. */
  lemma OneMoreUnit(x: LineItem)
    ensures LineValue(Bump(x)) == LineValue(x) + UnitPrice(x)
  {
    assert UnitPrice(Bump(x)) == UnitPrice(x);
    assert UnitPrice(x) * (x.quantity + 1) == UnitPrice(x) * x.quantity + UnitPrice(x);
  }

  /** The unit prices of the lines with that id, summed. */
  function UnitSum(s: seq<LineItem>, id: Option<string>): int {
    if s == [] then 0 else (if s[0].id == id then UnitPrice(s[0]) else 0) + UnitSum(s[1..], id)
  }

  /** What the lines with that id contribute to the total price. */
  function IdValue(s: seq<LineItem>, id: Option<string>): int {
    if s == [] then 0 else (if s[0].id == id then LineValue(s[0]) else 0) + IdValue(s[1..], id)
  }

  /** The total price of two lists joined is the sum of their totals. */
  lemma {:induction false} TotalPriceConcat(a: seq<LineItem>, b: seq<LineItem>)
    ensures TotalPrice(a + b) == TotalPrice(a) + TotalPrice(b)
    decreases |a|
  {
    if a != [] {
      assert (a + b)[1..] == a[1..] + b;
      TotalPriceConcat(a[1..], b);
    } else {
      assert a + b == b;
    }
  }

  /** REMOVE_FROM_CART takes off exactly what the matching lines were worth. */
  lemma {:induction false} TotalPriceAfterRemove(s: seq<LineItem>, id: Option<string>)
    ensures TotalPrice(Reduce(s, RemoveFromCart(id))) == TotalPrice(s) - IdValue(s, id)
    decreases |s|
  {
    if s != [] {
      TotalPriceAfterRemove(s[1..], id);
      TotalPriceConcat(if s[0].id != id then [s[0]] else [], RemoveMatching(s[1..], id));
    }
  }

  /** INCREASE_QUANTITY adds one unit price per matching line. */
  lemma {:induction false} TotalPriceAfterIncrease(s: seq<LineItem>, id: Option<string>)
    ensures TotalPrice(Reduce(s, IncreaseQuantity(id))) == TotalPrice(s) + UnitSum(s, id)
    decreases |s|
  {
    if s != [] {
      TotalPriceAfterIncrease(s[1..], id);
      var r := IncreaseMatching(s, id);
      assert r[1..] == IncreaseMatching(s[1..], id);
      assert TotalPrice(r) == LineValue(r[0]) + TotalPrice(r[1..]);
      if s[0].id == id {
        OneMoreUnit(s[0]);
      }
    }
  }

  /** On canonical state DECREASE_QUANTITY takes off one unit price per
      matching line, whether the line survives or is dropped at zero. */
  lemma {:induction false} TotalPriceAfterDecrease(s: seq<LineItem>, id: Option<string>)
    requires Canonical(s)
    ensures TotalPrice(Reduce(s, DecreaseQuantity(id))) == TotalPrice(s) - UnitSum(s, id)
    decreases |s|
  {
    if s != [] {
      TotalPriceAfterDecrease(s[1..], id);
      DecreaseStep(s, id);
      TotalPriceConcat(DecreaseMatching([s[0]], id), DecreaseMatching(s[1..], id));
      DecreaseOneLine(s[0], id);
    }
  }

  /** ADD_TO_CART of a new id adds the item's unit price; of a present id it
      adds the unit prices of the lines already there, whatever the item says. */
  lemma TotalPriceAfterAdd(s: seq<LineItem>, item: LineItem)
    ensures !HasId(s, item.id) ==> TotalPrice(Reduce(s, AddToCart(item))) == TotalPrice(s) + UnitPrice(item)
    ensures HasId(s, item.id) ==> TotalPrice(Reduce(s, AddToCart(item))) == TotalPrice(s) + UnitSum(s, item.id)
  {
    if HasId(s, item.id) {
      TotalPriceAfterIncrease(s, item.id);
    } else {
      TotalPriceConcat(s, [item.(quantity := 1)]);
      assert UnitPrice(item.(quantity := 1)) == UnitPrice(item);
    }
  }

  /** With unique ids the sums over one id are that line's own figures, and
      zero for an id not in the cart. */
  lemma {:induction false} SumsOfUniqueId(s: seq<LineItem>, id: Option<string>, k: int)
    requires UniqueIds(s) && 0 <= k < |s| && s[k].id == id
    ensures UnitSum(s, id) == UnitPrice(s[k])
    ensures IdValue(s, id) == LineValue(s[k])
    decreases |s|
  {
    if k == 0 {
      SumsOfAbsentId(s[1..], id);
    } else {
      SumsOfUniqueId(s[1..], id, k - 1);
    }
  }

  lemma {:induction false} SumsOfAbsentId(s: seq<LineItem>, id: Option<string>)
    requires forall i :: 0 <= i < |s| ==> s[i].id != id
    ensures UnitSum(s, id) == 0 && IdValue(s, id) == 0
    decreases |s|
  {
    if s != [] {
      SumsOfAbsentId(s[1..], id);
    }
  }

  lemma {:induction false} TotalQuantityConcat(a: seq<LineItem>, b: seq<LineItem>)
    ensures TotalQuantity(a + b) == TotalQuantity(a) + TotalQuantity(b)
    decreases |a|
  {
    if a != [] {
      assert (a + b)[1..] == a[1..] + b;
      TotalQuantityConcat(a[1..], b);
    } else {
      assert a + b == b;
    }
  }

  /** In canonical state the total quantity is at least the number of lines. */
  lemma {:induction false} TotalQuantityBound(s: seq<LineItem>)
    requires Canonical(s)
    ensures TotalQuantity(s) >= |s|
    decreases |s|
  {
    if s != [] {
      TotalQuantityBound(s[1..]);
    }
  }

  /** INCREASE_QUANTITY adds one unit per matching line to the total. */
  lemma {:induction false} TotalAfterIncrease(s: seq<LineItem>, id: Option<string>)
    ensures TotalQuantity(Reduce(s, IncreaseQuantity(id))) == TotalQuantity(s) + CountId(s, id)
    decreases |s|
  {
    if s != [] {
      TotalAfterIncrease(s[1..], id);
      assert IncreaseMatching(s, id)[1..] == IncreaseMatching(s[1..], id);
    }
  }

  /** On canonical state DECREASE_QUANTITY removes exactly one unit per matching line. */
  lemma {:induction false} TotalAfterDecrease(s: seq<LineItem>, id: Option<string>)
    requires Canonical(s)
    ensures TotalQuantity(Reduce(s, DecreaseQuantity(id))) == TotalQuantity(s) - CountId(s, id)
    decreases |s|
  {
    if s != [] {
      TotalAfterDecrease(s[1..], id);
      DecreaseStep(s, id);
      TotalQuantityConcat(DecreaseMatching([s[0]], id), DecreaseMatching(s[1..], id));
      DecreaseOneLine(s[0], id);
    }
  }

  /** With unique ids, ADD_TO_CART always adds exactly one unit and keeps ids unique. */
  lemma AddOneUnit(s: seq<LineItem>, item: LineItem)
    requires UniqueIds(s)
    ensures UniqueIds(Reduce(s, AddToCart(item)))
    ensures TotalQuantity(Reduce(s, AddToCart(item))) == TotalQuantity(s) + 1
  {
    if HasId(s, item.id) {
      var k :| 0 <= k < |s| && s[k].id == item.id;
      CountIdUnique(s, item.id, k);
      TotalAfterIncrease(s, item.id);
    } else {
      TotalQuantityConcat(s, [item.(quantity := 1)]);
    }
  }

  lemma {:induction false} CountIdUnique(s: seq<LineItem>, id: Option<string>, k: int)
    requires UniqueIds(s) && 0 <= k < |s| && s[k].id == id
    ensures CountId(s, id) == 1
    decreases |s|
  {
    if k == 0 {
      CountIdAbsent(s[1..], id);
    } else {
      CountIdUnique(s[1..], id, k - 1);
    }
  }

  lemma {:induction false} CountIdAbsent(s: seq<LineItem>, id: Option<string>)
    requires forall i :: 0 <= i < |s| ==> s[i].id != id
    ensures CountId(s, id) == 0
    decreases |s|
  {
    if s != [] {
      CountIdAbsent(s[1..], id);
    }
  }

  /** Canonical state stays canonical under every action whose payload is canonical. */
  lemma ReducePreservesCanonical(s: seq<LineItem>, action: Action)
    requires Canonical(s)
    requires action.SetCart? && action.payload.Some? ==> Canonical(action.payload.value)
    ensures Canonical(Reduce(s, action))
  {
    match action
    case AddToCart(item) =>
      if HasId(s, item.id) {
        var r := IncreaseMatching(s, item.id);
        assert forall i :: 0 <= i < |r| ==> r[i].quantity >= s[i].quantity;
      }
    case RemoveFromCart(id) =>
      var r := RemoveMatching(s, id);
      forall i | 0 <= i < |r| ensures r[i].quantity > 0 {
        assert r[i] in s;
      }
    case IncreaseQuantity(id) =>
    case _ =>
  }

  /** The worked example: one Zomato line of quantity 1 at 200; increasing it gives
      quantity 2 and a total price of 400. */
  lemma IncreaseExample()
    ensures var a := LineItem(Some("A"), "A", "ZOMATO", Some(200), None, 1, None, None);
            var r := Reduce([a], IncreaseQuantity(Some("A")));
            r == [a.(quantity := 2)] && TotalQuantity(r) == 2 && TotalPrice(r) == 400
  {
    var a := LineItem(Some("A"), "A", "ZOMATO", Some(200), None, 1, None, None);
    assert IncreaseMatching([a], Some("A"))[0] == a.(quantity := 2);
  }

  /* ---------- remote actions ---------- */

  /** The client's view of the cart: the line items and whether the panel is open. */
  datatype Session = Session(items: seq<LineItem>, panelOpen: bool)

  /** Requests the engine sends to the cart endpoints. */
  datatype Request =
    | AddItem(reelId: string, platform: string)
    | RemoveItem(reelId: string, platformArg: Option<string>)
    | UpdateQuantity(reelId: string, platform: string, quantity: int)

  /** Result of `GET /cart`: the `items` field of the body (possibly absent), or a failure. */
  datatype FetchOutcome = Fetched(items: Option<seq<LineItem>>) | FetchFailed

  /** Result of `POST /cart/add`. */
  datatype AddOutcome =
    | Answered(success: bool, message: Option<string>)
    | Rejected(message: Option<string>, error: Option<string>)
    | NoResponse
    | SetupError(errorMessage: Option<string>)

  /** `fetchCart`: a fetched list replaces the state wholesale, a failure keeps it. */
  function Refetch(items: seq<LineItem>, fetch: FetchOutcome): (r: seq<LineItem>)
    ensures fetch.FetchFailed? ==> r == items
    ensures fetch == Fetched(None) ==> r == []
    ensures fetch.Fetched? && fetch.items.Some? ==> r == fetch.items.value
  {
    match fetch
    case Fetched(p) => Reduce(items, SetCart(p))
    case FetchFailed => items
  }

  /** Line matches the `(reelId, platform)` key of the remote actions. */
  predicate KeyMatches(item: LineItem, reelId: string, platform: string) {
    item.reelId == reelId && item.platform == platform
  }

  /** `cartItems.find(i => i.reelId === reelId && i.platform === platform)` */
  function FindLine(s: seq<LineItem>, reelId: string, platform: string): (r: Option<LineItem>)
    ensures r.None? <==> forall i :: 0 <= i < |s| ==> !KeyMatches(s[i], reelId, platform)
    ensures r.Some? ==> exists k :: 0 <= k < |s| && s[k] == r.value && KeyMatches(s[k], reelId, platform)
                          && forall i :: 0 <= i < k ==> !KeyMatches(s[i], reelId, platform)
  {
    if s == [] then None
    else if KeyMatches(s[0], reelId, platform) then Some(s[0])
    else
      var r := FindLine(s[1..], reelId, platform);
      assert forall i :: 0 <= i < |s| - 1 ==> s[1..][i] == s[i + 1];
      r
  }

  datatype Step = Step(items: seq<LineItem>, request: Option<Request>)

  /** `increaseQuantity`: a missing line sends nothing; otherwise one update to
      quantity + 1, and the refetch runs only after the update succeeded. */
  function Increase(items: seq<LineItem>, reelId: string, platform: string, updated: bool, fetch: FetchOutcome): (r: Step)
    ensures FindLine(items, reelId, platform).None? ==> r == Step(items, None)
    ensures FindLine(items, reelId, platform).Some? ==>
      r.request == Some(UpdateQuantity(reelId, platform, FindLine(items, reelId, platform).value.quantity + 1))
    ensures !updated ==> r.items == items
    ensures updated && r.request.Some? ==> r.items == Refetch(items, fetch)
  {
    match FindLine(items, reelId, platform)
    case None => Step(items, None)
    case Some(line) =>
      Step(if updated then Refetch(items, fetch) else items, Some(UpdateQuantity(reelId, platform, line.quantity + 1)))
  }

  /** `decreaseQuantity`: no request for a missing line or one at quantity 1 or
      less; otherwise one update to quantity - 1, refetched on success. */
  function Decrease(items: seq<LineItem>, reelId: string, platform: string, updated: bool, fetch: FetchOutcome): (r: Step)
    ensures r.request.Some? <==> FindLine(items, reelId, platform).Some? && FindLine(items, reelId, platform).value.quantity > 1
    ensures r.request.Some? ==>
      r.request.value == UpdateQuantity(reelId, platform, FindLine(items, reelId, platform).value.quantity - 1)
      && r.request.value.quantity >= 1
    ensures r.request.None? || !updated ==> r.items == items
    ensures updated && r.request.Some? ==> r.items == Refetch(items, fetch)
  {
    match FindLine(items, reelId, platform)
    case None => Step(items, None)
    case Some(line) =>
      if line.quantity <= 1 then Step(items, None)
      else Step(if updated then Refetch(items, fetch) else items, Some(UpdateQuantity(reelId, platform, line.quantity - 1)))
  }

  /** `removeFromCart`: always sends the request; a successful one is followed by a refetch. */
  function Remove(items: seq<LineItem>, reelId: string, platform: Option<string>, removed: bool, fetch: FetchOutcome): (r: Step)
    ensures r.request == Some(RemoveItem(reelId, platform))
    ensures !removed ==> r.items == items
    ensures removed ==> r.items == Refetch(items, fetch)
  {
    Step(if removed then Refetch(items, fetch) else items, Some(RemoveItem(reelId, platform)))
  }

  /** The alert `addToCartFromReel` raises, one kind per failure path. */
  datatype Alert =
    | NotAdded(message: Option<string>)
    | ServerError(message: Option<string>, error: Option<string>)
    | NoServerResponse
    | ClientError(errorMessage: Option<string>)

  /** The alert's text as shown to the user. */
  function AlertText(a: Alert): string {
    match a
    case NotAdded(message) => "[DEBUG] " + OrElse(message, "Failed to add item to cart")
    case ServerError(message, error) => "[DEBUG] Failed to add: " + OrElse(FirstTruthy(message, error), "Server error occurred")
    case NoServerResponse => "[DEBUG] No response from server. Check backend terminal."
    case ClientError(m) => "[DEBUG] Error: " + JsString(m)
  }

  /** Result of `addToCartFromReel`: new session, the request sent and the alert raised. */
  datatype AddResult = AddResult(session: Session, request: Request, alert: Option<Alert>)

  const DefaultPlatform: string := "ZOMATO"

  /** `addToCartFromReel`: the platform defaults to ZOMATO; only a response whose
      success flag is set refetches and opens the panel; every failure leaves the
      session untouched and raises the alert of its own kind. */
  function AddFromReel(session: Session, reelId: string, platform: Option<string>, outcome: AddOutcome, fetch: FetchOutcome): (r: AddResult)
    ensures r.request == AddItem(reelId, if platform.Some? then platform.value else DefaultPlatform)
    ensures outcome.Answered? && outcome.success ==>
      r.session == Session(Refetch(session.items, fetch), true) && r.alert.None?
    ensures !(outcome.Answered? && outcome.success) ==> r.session == session && r.alert.Some?
    ensures outcome.Answered? && !outcome.success ==> r.alert == Some(NotAdded(outcome.message))
    ensures outcome.Rejected? ==> r.alert == Some(ServerError(outcome.message, outcome.error))
    ensures outcome.NoResponse? ==> r.alert == Some(NoServerResponse)
    ensures outcome.SetupError? ==> r.alert == Some(ClientError(outcome.errorMessage))
  {
    var request := AddItem(reelId, match platform case Some(p) => p case None => DefaultPlatform);
    match outcome
    case Answered(success, message) =>
      if success then AddResult(Session(Refetch(session.items, fetch), true), request, None)
      else AddResult(session, request, Some(NotAdded(message)))
    case Rejected(message, error) => AddResult(session, request, Some(ServerError(message, error)))
    case NoResponse => AddResult(session, request, Some(NoServerResponse))
    case SetupError(m) => AddResult(session, request, Some(ClientError(m)))
  }

  /** `addToCart`: local ADD_TO_CART and the panel opens. */
  function AddLocal(session: Session, item: LineItem): (r: Session)
    ensures r.panelOpen
    ensures |r.items| == |session.items| + (if HasId(session.items, item.id) then 0 else 1)
  {
    Session(Reduce(session.items, AddToCart(item)), true)
  }

  /** `clearCart` empties the list and leaves the panel alone. */
  function Clear(session: Session): (r: Session)
    ensures r.items == [] && r.panelOpen == session.panelOpen
  {
    Session(Reduce(session.items, ClearCart), session.panelOpen)
  }
}
