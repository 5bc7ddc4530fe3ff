/** The customer screen: a cart keyed by product id, its item and price totals,
    the store listing with category and text search, order placement and the
    simulated four-step order tracking. */
module CustomerScreen {
  import opened Types
  import opened Constants
  import opened Text

  // ---------------------------------------------------------------------------
  // The cart: a product-id -> quantity object, kept as its entries in key
  // insertion order (the order `Object.entries` reports for these keys).
  // ---------------------------------------------------------------------------

  type Cart = seq<CartItem>

  function Keys(c: Cart): set<string> {
    if c == [] then {} else {c[0].productId} + Keys(c[1..])
  }

  /** `cart[id] || 0`: the quantity stored under `id`, or 0 when absent. */
  function Quantity(c: Cart, id: string): (r: int)
    ensures id !in Keys(c) ==> r == 0
    ensures id in Keys(c) ==> CartItem(id, r) in c
  {
    if c == [] then 0
    else if c[0].productId == id then c[0].quantity
    else Quantity(c[1..], id)
  }

  /** An object has each key once. */
  predicate DistinctKeys(c: Cart) {
    c == [] || (c[0].productId !in Keys(c[1..]) && DistinctKeys(c[1..]))
  }

  predicate AllPositive(c: Cart) {
    forall x :: x in c ==> x.quantity > 0
  }

  /** What the cart handlers maintain: one entry per product, none of them 0
      or negative. */
  predicate WellFormed(c: Cart) {
    DistinctKeys(c) && AllPositive(c)
  }

  /** The object without the key `id` (`const { [id]: _, ...rest } = prev`). */
  function RemoveKey(c: Cart, id: string): (r: Cart)
    ensures Keys(r) == Keys(c) - {id}
    ensures Quantity(r, id) == 0
    ensures forall k :: k != id ==> Quantity(r, k) == Quantity(c, k)
    ensures forall x :: x in r ==> x in c
    ensures DistinctKeys(c) ==> DistinctKeys(r)
    ensures id !in Keys(c) ==> r == c
  {
    if c == [] then []
    else if c[0].productId == id then RemoveKey(c[1..], id)
    else [c[0]] + RemoveKey(c[1..], id)
  }

  /** The keys, quantities and distinctness of a cart with one more entry in
      front. */
  lemma ConsFacts(x: CartItem, c: Cart)
    ensures Keys([x] + c) == {x.productId} + Keys(c)
    ensures forall k :: Quantity([x] + c, k) == if x.productId == k then x.quantity else Quantity(c, k)
    ensures DistinctKeys([x] + c) <==> x.productId !in Keys(c) && DistinctKeys(c)
    ensures forall y :: y in [x] + c <==> y == x || y in c
  {
    assert ([x] + c)[0] == x && ([x] + c)[1..] == c;
  }

  /** `{ ...prev, [id]: q }`: an existing key keeps its place, a new key goes last. */
  function SetKey(c: Cart, id: string, q: int): (r: Cart)
    ensures Keys(r) == Keys(c) + {id}
    ensures Quantity(r, id) == q
    ensures forall k :: k != id ==> Quantity(r, k) == Quantity(c, k)
    ensures forall x :: x in r ==> x in c || x == CartItem(id, q)
    ensures DistinctKeys(c) ==> DistinctKeys(r)
    ensures id !in Keys(c) ==> r == c + [CartItem(id, q)]
    ensures id in Keys(c) ==> |r| == |c|
  {
    if c == [] then
      ConsFacts(CartItem(id, q), []);
      [CartItem(id, q)]
    else
      assert c == [c[0]] + c[1..];
      ConsFacts(c[0], c[1..]);
      if c[0].productId == id then
        ConsFacts(CartItem(id, q), c[1..]);
        [CartItem(id, q)] + c[1..]
      else
        var rest := SetKey(c[1..], id, q);
        ConsFacts(c[0], rest);
        assert Quantity([c[0]] + rest, id) == Quantity(rest, id);
        assert c[0].productId in Keys(c[1..]) <==> c[0].productId in Keys(rest);
        assert id !in Keys(c) ==> [c[0]] + rest == [c[0]] + (c[1..] + [CartItem(id, q)]);
        [c[0]] + rest
  }

  /** The quantity `updateCart(id, delta)` leaves under `id`: the old quantity
      plus `delta`, or nothing (0) once that is not positive. */
  function NewQuantity(c: Cart, id: string, delta: int): (r: int)
    ensures r >= 0
    ensures r == 0 || r == Quantity(c, id) + delta
  {
    if Quantity(c, id) + delta <= 0 then 0 else Quantity(c, id) + delta
  }

  /** The cart after `updateCart(id, delta)`. */
  function UpdatedCart(c: Cart, id: string, delta: int): (r: Cart)
    ensures Quantity(r, id) == NewQuantity(c, id, delta)
    ensures forall k :: k != id ==> Quantity(r, k) == Quantity(c, k)
    ensures id in Keys(r) <==> Quantity(c, id) + delta > 0
    ensures forall k :: k != id ==> (k in Keys(r) <==> k in Keys(c))
  {
    var q := Quantity(c, id) + delta;
    if q <= 0 then RemoveKey(c, id) else SetKey(c, id, q)
  }

  /** The handlers never store a zero or negative quantity, nor a key twice. */
  lemma UpdatePreservesWellFormed(c: Cart, id: string, delta: int)
    requires WellFormed(c)
    ensures WellFormed(UpdatedCart(c, id, delta))
  {
  }

  lemma {:induction false} QuantityPositive(c: Cart, id: string)
    requires AllPositive(c) && id in Keys(c)
    ensures Quantity(c, id) > 0
  {
    assert CartItem(id, Quantity(c, id)) in c;
  }

  lemma {:induction false} SetKeyTwice(c: Cart, id: string, a: int, b: int)
    ensures SetKey(SetKey(c, id, a), id, b) == SetKey(c, id, b)
  {
    if c != [] && c[0].productId != id {
      SetKeyTwice(c[1..], id, a, b);
      assert SetKey(c, id, a)[1..] == SetKey(c[1..], id, a);
    }
  }

  lemma {:induction false} SetKeyToSame(c: Cart, id: string)
    requires DistinctKeys(c) && id in Keys(c)
    ensures SetKey(c, id, Quantity(c, id)) == c
  {
    if c[0].productId != id {
      SetKeyToSame(c[1..], id);
    }
  }

  lemma {:induction false} RemoveAppended(c: Cart, id: string, q: int)
    requires id !in Keys(c)
    ensures RemoveKey(c + [CartItem(id, q)], id) == c
  {
    if c == [] {
      assert [CartItem(id, q)][1..] == [];
    } else {
      assert (c + [CartItem(id, q)])[1..] == c[1..] + [CartItem(id, q)];
      RemoveAppended(c[1..], id, q);
    }
  }

  /** Pressing + then - on the same product gives back the cart exactly, key
      order included. */
  lemma {:induction false} PlusThenMinusRestores(c: Cart, id: string)
    requires WellFormed(c)
    ensures UpdatedCart(UpdatedCart(c, id, 1), id, -1) == c
  {
    var n := Quantity(c, id);
    var plus := SetKey(c, id, n + 1);
    if id in Keys(c) {
      QuantityPositive(c, id);
      assert UpdatedCart(c, id, 1) == plus;
      assert UpdatedCart(plus, id, -1) == SetKey(plus, id, n);
      SetKeyTwice(c, id, n + 1, n);
      SetKeyToSame(c, id);
    } else {
      assert UpdatedCart(c, id, 1) == plus == c + [CartItem(id, 1)];
      assert UpdatedCart(plus, id, -1) == RemoveKey(plus, id);
      RemoveAppended(c, id, 1);
    }
  }

  lemma {:induction false} DistinctKeysCount(c: Cart)
    requires DistinctKeys(c)
    ensures |Keys(c)| == |c|
  {
    if c != [] {
      DistinctKeysCount(c[1..]);
    }
  }

  // ---------------------------------------------------------------------------
  // Totals.
  // ---------------------------------------------------------------------------

  /** `MOCK_PRODUCTS.find(p => p.id === id)`: the first product with that id. */
  function FindProduct(products: seq<Product>, id: string): (r: Option<Product>)
    ensures r.Some? ==> r.value in products && r.value.id == id
    ensures r.None? <==> forall p :: p in products ==> p.id != id
  {
    if products == [] then None
    else if products[0].id == id then Some(products[0])
    else FindProduct(products[1..], id)
  }

  /** With distinct ids the lookup finds the one product carrying the id. */
  lemma {:induction false} FindProductUnique(products: seq<Product>, p: Product)
    requires IdsDistinct(products) && p in products
    ensures FindProduct(products, p.id) == Some(p)
  {
    if products[0] != p {
      assert products[0].id != p.id by {
        var j :| 0 <= j < |products| && products[j] == p;
      }
      FindProductUnique(products[1..], p);
    }
  }

  /** `p?.price || 0`: the price of a product carrying `id`, and 0 for an id
      no product carries. */
  function PriceOf(products: seq<Product>, id: string): (r: int)
    ensures (forall p :: p in products ==> p.id != id) ==> r == 0
    ensures (exists p :: p in products && p.id == id) ==> exists p :: p in products && p.id == id && p.price == r
  {
    match FindProduct(products, id)
    case Some(p) => p.price
    case None => 0
  }

  /** `cartTotalItems`: the sum of the quantities. In a cart the handlers
      keep (all quantities positive) every entry adds at least one unit, so
      the count is positive exactly when the cart is non-empty, which is when
      the cart button shows. */
  function TotalItems(c: Cart): (n: int)
    ensures AllPositive(c) ==> n >= |c|
    ensures AllPositive(c) ==> (n > 0 <==> c != [])
  {
    if c == [] then 0
    else
      assert AllPositive(c) ==> AllPositive(c[1..]) by {
        assert forall x :: x in c[1..] ==> x in c;
      }
      c[0].quantity + TotalItems(c[1..])
  }

  /** `cartTotalPrice`: the sum of price times quantity. With no negative
      price in the catalogue and no negative quantity in the cart it is
      never negative. */
  function TotalPrice(c: Cart, products: seq<Product>): (total: int)
    ensures (forall p :: p in products ==> p.price >= 0) && (forall x :: x in c ==> x.quantity >= 0) ==> total >= 0
  {
    if c == [] then 0
    else
      assert forall x :: x in c[1..] ==> x in c;
      var price := PriceOf(products, c[0].productId);
      assert (forall p :: p in products ==> p.price >= 0) ==> price >= 0;
      price * c[0].quantity + TotalPrice(c[1..], products)
  }

  /** The delivery fee added to the amount shown in the cart drawer. */
  const DELIVERY_FEE: int := 25

  /** The "Total Pay" figure of the cart drawer. */
  function PayableTotal(c: Cart): int {
    TotalPrice(c, MOCK_PRODUCTS) + DELIVERY_FEE
  }

  lemma {:induction false} RemoveKeyItems(c: Cart, id: string)
    requires DistinctKeys(c)
    ensures TotalItems(RemoveKey(c, id)) == TotalItems(c) - Quantity(c, id)
  {
    if c != [] {
      RemoveKeyItems(c[1..], id);
      if c[0].productId == id {
        assert RemoveKey(c[1..], id) == c[1..];
      }
    }
  }

  lemma {:induction false} RemoveKeyPrice(c: Cart, id: string, products: seq<Product>)
    requires DistinctKeys(c)
    ensures TotalPrice(RemoveKey(c, id), products)
         == TotalPrice(c, products) - PriceOf(products, id) * Quantity(c, id)
  {
    if c != [] {
      RemoveKeyPrice(c[1..], id, products);
      if c[0].productId == id {
        assert RemoveKey(c[1..], id) == c[1..];
      } else {
        var r := RemoveKey(c, id);
        assert r[0] == c[0] && r[1..] == RemoveKey(c[1..], id);
      }
    }
  }

  lemma {:induction false} SetKeyItems(c: Cart, id: string, q: int)
    requires DistinctKeys(c)
    ensures TotalItems(SetKey(c, id, q)) == TotalItems(c) - Quantity(c, id) + q
  {
    if c == [] {
      assert SetKey(c, id, q) == [CartItem(id, q)];
    } else if c[0].productId == id {
      var r := SetKey(c, id, q);
      assert r[0] == CartItem(id, q) && r[1..] == c[1..];
    } else {
      SetKeyItems(c[1..], id, q);
      var r := SetKey(c, id, q);
      assert r[0] == c[0] && r[1..] == SetKey(c[1..], id, q);
    }
  }

  lemma {:induction false} SetKeyPrice(c: Cart, id: string, q: int, products: seq<Product>)
    requires DistinctKeys(c)
    ensures TotalPrice(SetKey(c, id, q), products)
         == TotalPrice(c, products) - PriceOf(products, id) * Quantity(c, id) + PriceOf(products, id) * q
  {
    var p := PriceOf(products, id);
    var r := SetKey(c, id, q);
    if c == [] {
      assert r == [CartItem(id, q)];
      assert TotalPrice(r, products) == p * q + TotalPrice(r[1..], products);
    } else if c[0].productId == id {
      assert r[0] == CartItem(id, q) && r[1..] == c[1..];
      assert TotalPrice(r, products) == p * q + TotalPrice(c[1..], products);
      assert TotalPrice(c, products) == p * c[0].quantity + TotalPrice(c[1..], products);
    } else {
      SetKeyPrice(c[1..], id, q, products);
      assert r[0] == c[0] && r[1..] == SetKey(c[1..], id, q);
    }
  }

  /** `updateCart` moves the item total by exactly the change in the
      product's quantity. */
  lemma {:induction false} UpdateCartItems(c: Cart, id: string, delta: int)
    requires DistinctKeys(c)
    ensures TotalItems(UpdatedCart(c, id, delta))
         == TotalItems(c) + NewQuantity(c, id, delta) - Quantity(c, id)
  {
    var q := Quantity(c, id) + delta;
    var r := UpdatedCart(c, id, delta);
    if q <= 0 {
      assert r == RemoveKey(c, id);
      RemoveKeyItems(c, id);
      assert NewQuantity(c, id, delta) == 0;
    } else {
      assert r == SetKey(c, id, q);
      SetKeyItems(c, id, q);
      assert NewQuantity(c, id, delta) == q;
    }
  }

  /** `updateCart` moves the price total by the product's price times the
      change in its quantity. */
  lemma {:induction false} UpdateCartPrice(c: Cart, id: string, delta: int, products: seq<Product>)
    requires DistinctKeys(c)
    ensures TotalPrice(UpdatedCart(c, id, delta), products)
         == TotalPrice(c, products) - PriceOf(products, id) * Quantity(c, id)
            + PriceOf(products, id) * NewQuantity(c, id, delta)
  {
    var q := Quantity(c, id) + delta;
    var r := UpdatedCart(c, id, delta);
    if q <= 0 {
      assert r == RemoveKey(c, id);
      RemoveKeyPrice(c, id, products);
      assert NewQuantity(c, id, delta) == 0;
    } else {
      assert r == SetKey(c, id, q);
      SetKeyPrice(c, id, q, products);
      assert NewQuantity(c, id, delta) == q;
    }
  }

  /** Two units of Fresh Milk cost 60; the drawer asks 85 with the fee. */
  lemma TwoMilkScenario()
    ensures TotalPrice([CartItem("p1", 2)], MOCK_PRODUCTS) == 60
    ensures PayableTotal([CartItem("p1", 2)]) == 85
  {
    ProductIdsDistinct();
    FindProductUnique(MOCK_PRODUCTS, MOCK_PRODUCTS[0]);
  }

  // ---------------------------------------------------------------------------
  // Order tracking.
  // ---------------------------------------------------------------------------

  /** The customer-side status vocabulary; it is not the shop's. */
  datatype TrackingStatus = Placed | Accepted | PickedUp | Delivered

  const TRACKING_STEPS: seq<TrackingStatus> := [Placed, Accepted, PickedUp, Delivered]

  /** `statuses.indexOf(status)`. */
  function StepIndex(s: TrackingStatus): (i: nat)
    ensures i < |TRACKING_STEPS| && TRACKING_STEPS[i] == s
  {
    match s
    case Placed => 0
    case Accepted => 1
    case PickedUp => 2
    case Delivered => 3
  }

  /** The status the six-second timer moves an order to: the next step of the
      list, and no change at the last one. */
  function Advanced(s: TrackingStatus): (r: TrackingStatus)
    ensures s != Delivered ==> StepIndex(r) == StepIndex(s) + 1
    ensures s == Delivered ==> r == Delivered
  {
    var i := StepIndex(s);
    if i < |TRACKING_STEPS| - 1 then TRACKING_STEPS[i + 1] else s
  }

  function AdvancedTimes(s: TrackingStatus, k: nat): TrackingStatus {
    if k == 0 then s else Advanced(AdvancedTimes(s, k - 1))
  }

  /** Starting from PLACED, k timer firings reach step min(k, 3): no step is
      skipped and DELIVERED is final. */
  lemma {:induction false} TrackingRun(k: nat)
    ensures AdvancedTimes(Placed, k) == TRACKING_STEPS[if k < 3 then k else 3]
  {
    if k > 0 {
      TrackingRun(k - 1);
    }
  }

  /** The width of the progress bar, in percent. */
  function ProgressPercent(s: TrackingStatus): (r: int)
    ensures r == 25 * (StepIndex(s) + 1)
  {
    if s == Placed then 25
    else if s == Accepted then 50
    else if s == PickedUp then 75
    else 100
  }

  /** Step dot `i` of the tracker is highlighted. */
  predicate StepLit(s: TrackingStatus, i: nat) {
    StepIndex(s) >= i
  }

  /** Advancing never switches a highlighted step off. */
  lemma AdvanceKeepsLit(s: TrackingStatus, i: nat)
    requires StepLit(s, i)
    ensures StepLit(Advanced(s), i)
  {
  }

  datatype Tab = Explore | History | Tracking

  /** The order the customer screen tracks. */
  datatype TrackedOrder = TrackedOrder(
    number: nat,
    items: nat,
    total: int,
    status: TrackingStatus,
    timestamp: string)

  /** The order `handlePlaceOrder` creates from `cart`. */
  function NewOrder(c: Cart, number: nat, timestamp: string): TrackedOrder {
    TrackedOrder(number, |c|, TotalPrice(c, MOCK_PRODUCTS), Placed, timestamp)
  }

  const ORDER_PREFIX: string := "ORD-"

  /** The order heading `ORD-<number>`: the prefix, then digits that read
      back as the order number. */
  function OrderLabel(o: TrackedOrder): (r: string)
    ensures |r| > |ORDER_PREFIX| && r[..|ORDER_PREFIX|] == ORDER_PREFIX
    ensures AllDigits(r[|ORDER_PREFIX|..]) && ParseDigits(r[|ORDER_PREFIX|..]) == o.number
  {
    ParseNatToString(o.number);
    var r := ORDER_PREFIX + NatToString(o.number);
    assert r[|ORDER_PREFIX|..] == NatToString(o.number);
    r
  }

  lemma FourDigits(n: nat)
    requires 1000 <= n <= 9999
    ensures |NatToString(n)| == 4
  {
    assert NatToString(n) == NatToString(n / 10) + [DigitChar(n % 10)];
    assert |NatToString(n / 10)| == 3 by {
      assert NatToString(n / 10) == NatToString(n / 100) + [DigitChar(n / 10 % 10)];
    }
  }

  /** The order placed from a cart the handlers keep: it starts at PLACED,
      counts the distinct products, is never negative and stores 25 less
      than the drawer's "Total Pay", and its heading is eight characters. */
  lemma PlacedOrderFacts(c: Cart, number: nat, timestamp: string)
    requires WellFormed(c) && 1000 <= number <= 9999
    ensures NewOrder(c, number, timestamp).status == Placed
    ensures NewOrder(c, number, timestamp).items == |Keys(c)|
    ensures 0 <= NewOrder(c, number, timestamp).total == PayableTotal(c) - DELIVERY_FEE
    ensures |OrderLabel(NewOrder(c, number, timestamp))| == 8
  {
    DistinctKeysCount(c);
    FourDigits(number);
    PricesPositive();
  }

  /** The order button stays in the drawer while items are removed, so an
      empty order can be placed: no items and a total of 0. */
  lemma EmptyOrderPossible(id: string, number: nat, timestamp: string)
    ensures UpdatedCart([CartItem(id, 1)], id, -1) == []
    ensures NewOrder([], number, timestamp).items == 0
    ensures NewOrder([], number, timestamp).total == 0
  {
  }

  // ---------------------------------------------------------------------------
  // The store listing.
  // ---------------------------------------------------------------------------

  datatype CategoryFilter = AllCategories | OnlyCategory(category: Category)

  predicate CategoryMatch(s: Store, cat: CategoryFilter) {
    cat == AllCategories || s.category == cat.category
  }

  /** The name, lower-cased, contains the lower-cased query, or the Tamil name
      contains the query as typed. */
  predicate SearchMatch(s: Store, query: string) {
    Contains(ToLower(s.name), ToLower(query)) || Contains(s.tamilName, query)
  }

  function ApprovedStores(stores: seq<Store>): (r: seq<Store>)
    ensures forall s :: s in r <==> s in stores && s.isApproved
  {
    if stores == [] then []
    else if stores[0].isApproved then [stores[0]] + ApprovedStores(stores[1..])
    else ApprovedStores(stores[1..])
  }

  function MatchingStores(stores: seq<Store>, cat: CategoryFilter, query: string): seq<Store> {
    if stores == [] then []
    else if CategoryMatch(stores[0], cat) && SearchMatch(stores[0], query)
    then [stores[0]] + MatchingStores(stores[1..], cat, query)
    else MatchingStores(stores[1..], cat, query)
  }

  lemma {:induction false} MatchingMembers(stores: seq<Store>, cat: CategoryFilter, query: string)
    ensures forall s :: s in MatchingStores(stores, cat, query) <==>
      s in stores && CategoryMatch(s, cat) && SearchMatch(s, query)
  {
    if stores != [] {
      MatchingMembers(stores[1..], cat, query);
      assert stores == [stores[0]] + stores[1..];
    }
  }

  /** `filteredStores`: a store is listed iff it is approved, in the selected
      category and matched by the query. */
  function FilteredStores(stores: seq<Store>, cat: CategoryFilter, query: string): (r: seq<Store>)
    ensures forall s :: s in r <==>
      s in stores && s.isApproved && CategoryMatch(s, cat) && SearchMatch(s, query)
  {
    MatchingMembers(ApprovedStores(stores), cat, query);
    MatchingStores(ApprovedStores(stores), cat, query)
  }

  /** The listing keeps the stores' order: it filters each part of a split
      list separately. */
  lemma {:induction false} FilteredStoresSplit(a: seq<Store>, b: seq<Store>, cat: CategoryFilter, query: string)
    ensures FilteredStores(a + b, cat, query) == FilteredStores(a, cat, query) + FilteredStores(b, cat, query)
  {
    ApprovedSplit(a, b);
    MatchingSplit(ApprovedStores(a), ApprovedStores(b), cat, query);
  }

  lemma {:induction false} ApprovedSplit(a: seq<Store>, b: seq<Store>)
    ensures ApprovedStores(a + b) == ApprovedStores(a) + ApprovedStores(b)
  {
    if a != [] {
      assert (a + b)[0] == a[0];
      assert (a + b)[1..] == a[1..] + b;
      ApprovedSplit(a[1..], b);
      if a[0].isApproved {
        assert ApprovedStores(a + b) == [a[0]] + ApprovedStores(a[1..] + b);
      } else {
        assert ApprovedStores(a + b) == ApprovedStores(a[1..] + b);
      }
    } else {
      assert a + b == b;
    }
  }

  lemma {:induction false} MatchingSplit(a: seq<Store>, b: seq<Store>, cat: CategoryFilter, query: string)
    ensures MatchingStores(a + b, cat, query) == MatchingStores(a, cat, query) + MatchingStores(b, cat, query)
  {
    if a != [] {
      assert (a + b)[0] == a[0];
      assert (a + b)[1..] == a[1..] + b;
      MatchingSplit(a[1..], b, cat, query);
      if CategoryMatch(a[0], cat) && SearchMatch(a[0], query) {
        assert MatchingStores(a + b, cat, query) == [a[0]] + MatchingStores(a[1..] + b, cat, query);
      } else {
        assert MatchingStores(a + b, cat, query) == MatchingStores(a[1..] + b, cat, query);
      }
    } else {
      assert a + b == b;
    }
  }

  /** With an empty query every approved store of the category is listed. */
  lemma EmptyQueryListsCategory(stores: seq<Store>, cat: CategoryFilter)
    ensures forall s :: s in FilteredStores(stores, cat, "") <==>
      s in stores && s.isApproved && CategoryMatch(s, cat)
  {
  }

  /** Store '4', awaiting approval, is never listed to customers. */
  lemma StoreFourNeverListed(cat: CategoryFilter, query: string)
    ensures forall s :: s in FilteredStores(MOCK_STORES, cat, query) ==> s.id != "4"
  {
    OnlyStoreFourUnapproved();
  }

  // ---------------------------------------------------------------------------
  // The screen's state and handlers.
  // ---------------------------------------------------------------------------

  class CustomerView {
    var activeTab: Tab
    var selectedCategory: CategoryFilter
    var searchQuery: string
    var cart: Cart
    var showCart: bool
    var activeOrder: Option<TrackedOrder>

    ghost predicate Valid()
      reads this
    {
      WellFormed(cart) && (activeOrder.Some? ==> 1000 <= activeOrder.value.number <= 9999)
    }

    constructor ()
      ensures Valid()
      ensures activeTab == Explore && selectedCategory == AllCategories && searchQuery == ""
      ensures cart == [] && !showCart && activeOrder == None
    {
      activeTab := Explore;
      selectedCategory := AllCategories;
      searchQuery := "";
      cart := [];
      showCart := false;
      activeOrder := None;
    }

    /** The stores the explore tab lists. */
    function Listing(): (r: seq<Store>)
      reads this
      ensures forall s :: s in r <==>
        s in MOCK_STORES && s.isApproved && CategoryMatch(s, selectedCategory) && SearchMatch(s, searchQuery)
    {
      FilteredStores(MOCK_STORES, selectedCategory, searchQuery)
    }

    method Search(query: string)
      modifies this
      ensures searchQuery == query
      ensures activeTab == old(activeTab) && selectedCategory == old(selectedCategory)
      ensures cart == old(cart) && showCart == old(showCart) && activeOrder == old(activeOrder)
    {
      searchQuery := query;
    }

    method SelectCategory(cat: CategoryFilter)
      modifies this
      ensures selectedCategory == cat
      ensures activeTab == old(activeTab) && searchQuery == old(searchQuery)
      ensures cart == old(cart) && showCart == old(showCart) && activeOrder == old(activeOrder)
    {
      selectedCategory := cat;
    }

    /** The tab pills; the TRACK pill is on screen only while an order exists. */
    method SelectTab(tab: Tab) returns (switched: bool)
      modifies this
      ensures switched == (tab != Tracking || old(activeOrder).Some?)
      ensures activeTab == if switched then tab else old(activeTab)
      ensures selectedCategory == old(selectedCategory) && searchQuery == old(searchQuery)
      ensures cart == old(cart) && showCart == old(showCart) && activeOrder == old(activeOrder)
    {
      switched := tab != Tracking || activeOrder.Some?;
      if switched {
        activeTab := tab;
      }
    }

    /** `updateCart(productId, delta)`. */
    method UpdateCart(productId: string, delta: int)
      requires Valid()
      modifies this
      ensures Valid()
      ensures cart == UpdatedCart(old(cart), productId, delta)
      ensures activeTab == old(activeTab) && selectedCategory == old(selectedCategory)
      ensures searchQuery == old(searchQuery) && showCart == old(showCart) && activeOrder == old(activeOrder)
    {
      UpdatePreservesWellFormed(cart, productId, delta);
      cart := UpdatedCart(cart, productId, delta);
    }

    /** The floating cart button: shown, and so pressable, only while the cart
        has items and the drawer is closed. */
    method OpenCart() returns (drawerOpened: bool)
      modifies this
      ensures drawerOpened == (TotalItems(old(cart)) > 0 && !old(showCart))
      ensures showCart == (old(showCart) || drawerOpened)
      ensures activeTab == old(activeTab) && selectedCategory == old(selectedCategory)
      ensures searchQuery == old(searchQuery) && cart == old(cart) && activeOrder == old(activeOrder)
    {
      drawerOpened := TotalItems(cart) > 0 && !showCart;
      if drawerOpened {
        showCart := true;
      }
    }

    method CloseCart()
      modifies this
      ensures !showCart
      ensures activeTab == old(activeTab) && selectedCategory == old(selectedCategory)
      ensures searchQuery == old(searchQuery) && cart == old(cart) && activeOrder == old(activeOrder)
    {
      showCart := false;
    }

    /** `handlePlaceOrder`, pressed in the open drawer; `number` stands for the
        random id in 1000..9999 and `timestamp` for the clock reading. */
    method PlaceOrder(number: nat, timestamp: string) returns (placed: bool)
      requires Valid() && 1000 <= number <= 9999
      modifies this
      ensures Valid()
      ensures placed == old(showCart)
      ensures placed ==> activeOrder == Some(NewOrder(old(cart), number, timestamp))
      ensures placed ==> cart == [] && !showCart && activeTab == Tracking
      ensures !placed ==>
        activeOrder == old(activeOrder) && cart == old(cart) && showCart == old(showCart) && activeTab == old(activeTab)
      ensures selectedCategory == old(selectedCategory) && searchQuery == old(searchQuery)
    {
      placed := showCart;
      if placed {
        activeOrder := Some(NewOrder(cart, number, timestamp));
        cart := [];
        showCart := false;
        activeTab := Tracking;
      }
    }

    /** One firing of the tracking timer, armed while an undelivered order
        is shown. */
    method AdvanceStatus() returns (advanced: bool)
      requires Valid()
      modifies this
      ensures Valid()
      ensures advanced == (old(activeOrder).Some? && old(activeOrder).value.status != Delivered)
      ensures advanced ==> activeOrder == Some(old(activeOrder).value.(status := Advanced(old(activeOrder).value.status)))
      ensures !advanced ==> activeOrder == old(activeOrder)
      ensures activeTab == old(activeTab) && selectedCategory == old(selectedCategory)
      ensures searchQuery == old(searchQuery) && cart == old(cart) && showCart == old(showCart)
    {
      advanced := activeOrder.Some? && activeOrder.value.status != Delivered;
      if advanced {
        var o := activeOrder.value;
        var i := StepIndex(o.status);
        if i < |TRACKING_STEPS| - 1 {
          activeOrder := Some(o.(status := TRACKING_STEPS[i + 1]));
        }
      }
    }
  }
}
