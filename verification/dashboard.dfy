/** The buyer dashboard's state (src/components/BuyerDashboard.tsx): the loaded
    catalogue and its price bound, and the cart together with the copy of it kept
    in the browser's local storage. */
module Dashboard {
  import opened Wrappers
  import opened Records
  import opened CartEngine
  import opened ProductFilter
  import opened PriceRange
  import opened Seqs

  /** `saved` is the cart last written under the buyer's local-storage key (`None`
      when nothing was ever written); the JSON round trip is taken to be exact. */
  datatype Dashboard = Dashboard(
    products: seq<Product>,
    cart: seq<CartItem>,
    saved: Option<seq<CartItem>>,
    maxPrice: int,
    priceRange: Range,
    loading: bool)

  /** The state before the mount effects run: no products, an empty cart, a bound
      of 10 and the range `[0, 10]`. */
  function Initial(saved: Option<seq<CartItem>>): (r: Dashboard)
    ensures r.products == [] && r.cart == [] && r.saved == saved && r.loading
    ensures r.maxPrice == 10 && r.priceRange == Range(0.0, r.maxPrice as real) && Separated(r.priceRange)
  {
    Dashboard([], [], saved, 10, Range(0.0, 10.0), true)
  }

  /** The dearest price in a non-empty list. */
  function MaxCents(ps: seq<Product>): (m: Cents)
    requires |ps| > 0
    ensures forall i :: 0 <= i < |ps| ==> ps[i].price <= m
    ensures exists i :: 0 <= i < |ps| && ps[i].price == m
  {
    if |ps| == 1 then ps[0].price
    else
      var rest := MaxCents(ps[1..]);
      assert forall i :: 1 <= i < |ps| ==> ps[i] == ps[1..][i - 1];
      if ps[0].price >= rest then ps[0].price else rest
  }

  /** `Math.ceil` of a cent amount read as dollars: the least whole number of
      dollars not below it. */
  function CeilDollars(c: Cents): (n: int)
    ensures c <= n * 100 < c + 100
  {
    -((-c) / 100)
  }

  /** Set the products, the bound to the ceiling of the dearest price and the
      range to `[0, bound]`. */
  function LoadProducts(d: Dashboard, ps: seq<Product>): (r: Dashboard)
    requires |ps| > 0
    ensures r.products == ps && !r.loading
    ensures r.cart == d.cart && r.saved == d.saved
    ensures forall i :: 0 <= i < |ps| ==> Dollars(ps[i].price) <= r.maxPrice as real
    ensures exists i :: 0 <= i < |ps| && r.maxPrice as real < Dollars(ps[i].price) + 1.0
    ensures r.priceRange == Range(0.0, r.maxPrice as real)
  {
    var m := MaxCents(ps);
    var bound := CeilDollars(m);
    assert Dollars(m) <= bound as real < Dollars(m) + 1.0;
    Dashboard(ps, d.cart, d.saved, bound, Range(0.0, bound as real), false)
  }

  /** `fetchProducts()`: the loaded list is always the demo catalogue, whose dearest
      price is 4.99, so the bound is 5 and the range `[0, 5]`; the cart is untouched. */
  function FetchProducts(d: Dashboard, now: string): (r: Dashboard)
    ensures r.products == Catalogue(now) && !r.loading
    ensures r.maxPrice == 5 && r.priceRange == Range(0.0, 5.0)
    ensures r.cart == d.cart && r.saved == d.saved
  {
    CataloguePrices(now);
    assert MaxCents(Catalogue(now)) == 499;
    LoadProducts(d, Catalogue(now))
  }

  /** After loading, the unfiltered view shows every product of the catalogue. */
  lemma LoadedShowsAll(d: Dashboard, now: string)
    ensures var r := FetchProducts(d, now);
            FilterProducts(r.products, [], "all", r.priceRange.lo, r.priceRange.hi) == Catalogue(now)
  {
    CataloguePrices(now);
    ShowsEverything(Catalogue(now), 0.0, 5.0);
  }

  /** The catalogue's category list is exactly `["all", "vegetables", "fruits"]`. */
  lemma CatalogueCategoryList(now: string)
    ensures Categories(Catalogue(now)) == ["all", Vegetables, Fruits]
  {
    CatalogueCategories(now);
    CatalogueCategoryOrder(now);
    TwoCategories(Catalogue(now), Vegetables, Fruits);
  }

  /** A list whose categories are only `v` and `f`, with `v` at positions 0 to 2 and
      `f` at position 3, has the category list `["all", v, f]`. */
  lemma TwoCategories(ps: seq<Product>, v: string, f: string)
    requires v != f && |ps| > 3
    requires forall i :: 0 <= i < |ps| ==> ps[i].category == v || ps[i].category == f
    requires ps[0].category == v && ps[1].category == v && ps[2].category == v && ps[3].category == f
    ensures Categories(ps) == ["all", v, f]
  {
    var cs := CategoryOf(ps);
    assert IndexOf(cs, v) == 0;
    assert IndexOf(cs, f) == 3 by {
      assert cs[0] == v && cs[1] == v && cs[2] == v && cs[3] == f;
    }
    assert forall x :: x in cs ==> x == v || x == f;
    TwoDistinct(Distinct(cs), cs, v, f);
  }

  /** The dashboard's copy of the cart and the stored copy agree. */
  predicate Synced(d: Dashboard)
  {
    d.saved == Some(d.cart)
  }

  /** Every cart mutation sets the cart and writes the same list to local storage. */
  function Store(d: Dashboard, cart: seq<CartItem>): (r: Dashboard)
    ensures Synced(r) && r.cart == cart
    ensures r.products == d.products && r.priceRange == d.priceRange && r.maxPrice == d.maxPrice
    ensures r.loading == d.loading
  {
    d.(cart := cart, saved := Some(cart))
  }

  /** `addToCart` on the dashboard: an id missing from the catalogue returns before
      anything is set or stored; otherwise the new cart is set and stored. */
  function Add(d: Dashboard, productId: string, buyerId: string, freshId: string, now: string): (r: Dashboard)
    ensures FindProduct(Catalogue(now), productId).None? ==> r == d
    ensures FindProduct(Catalogue(now), productId).Some? ==>
              Synced(r) && r.cart == AddToCart(Catalogue(now), d.cart, productId, buyerId, freshId)
    ensures r.products == d.products && r.priceRange == d.priceRange && r.maxPrice == d.maxPrice
    ensures r.loading == d.loading
  {
    if FindProduct(Catalogue(now), productId).None? then d
    else Store(d, AddToCart(Catalogue(now), d.cart, productId, buyerId, freshId))
  }

  /** `updateCartQuantity` on the dashboard: the new cart is set and stored, also when
      the update is a removal. */
  function Update(d: Dashboard, itemId: string, quantity: int): (r: Dashboard)
    ensures Synced(r) && r.cart == UpdateCartQuantity(d.cart, itemId, quantity)
    ensures r.products == d.products && r.priceRange == d.priceRange && r.maxPrice == d.maxPrice
    ensures r.loading == d.loading
  {
    Store(d, UpdateCartQuantity(d.cart, itemId, quantity))
  }

  /** `removeFromCart` on the dashboard: the filtered cart is set and stored. */
  function Remove(d: Dashboard, itemId: string): (r: Dashboard)
    ensures Synced(r) && r.cart == RemoveFromCart(d.cart, itemId)
    ensures r.products == d.products && r.priceRange == d.priceRange && r.maxPrice == d.maxPrice
    ensures r.loading == d.loading
  {
    Store(d, RemoveFromCart(d.cart, itemId))
  }

  /** Reloading from local storage gives back the cart on screen: either the two
      copies agree, or nothing was ever stored. */
  predicate ReloadStable(d: Dashboard)
  {
    d.saved.None? || Synced(d)
  }

  /** The mount effect leaves the dashboard reload-stable whatever was stored, and
      every later cart operation and reload keeps it so. */
  lemma ReloadStableAfterMount(saved: Option<seq<CartItem>>, d: Dashboard, productId: string,
                               buyerId: string, freshId: string, now: string, itemId: string, quantity: int)
    ensures ReloadStable(FetchCartItems(FetchProducts(Initial(saved), now)))
    ensures ReloadStable(d) ==> ReloadStable(Add(d, productId, buyerId, freshId, now))
    ensures ReloadStable(Update(d, itemId, quantity)) && ReloadStable(Remove(d, itemId))
    ensures ReloadStable(d) ==> ReloadStable(FetchCartItems(d))
  {
  }

  /** `fetchCartItems()`: when something is stored, it replaces the cart. This is
      also the `onOrderComplete` callback the checkout calls. */
  function FetchCartItems(d: Dashboard): (r: Dashboard)
    ensures d.saved.Some? ==> r.cart == d.saved.value
    ensures d.saved.None? ==> r == d
    ensures r.saved == d.saved && r.products == d.products
    ensures r.priceRange == d.priceRange && r.maxPrice == d.maxPrice && r.loading == d.loading
  {
    match d.saved
    case Some(c) => d.(cart := c)
    case None => d
  }

  /** After any cart mutation from a reload-stable state (every state reachable after
      mount is one), the reload that follows a successful checkout gives back the
      cart the mutation left. An add of an unknown id stores nothing, so it needs
      that premise; update and remove always store their result. The
      checkout's bulk delete touches only the remote cart table, and the lines the
      buyer just ordered stay in the dashboard's cart. */
  lemma ReloadAfterMutationKeepsCart(d: Dashboard, productId: string, buyerId: string,
                                     freshId: string, now: string, itemId: string, quantity: int)
    ensures ReloadStable(d) ==>
              FetchCartItems(Add(d, productId, buyerId, freshId, now)).cart
              == AddToCart(Catalogue(now), d.cart, productId, buyerId, freshId)
    ensures FetchCartItems(Update(d, itemId, quantity)).cart == UpdateCartQuantity(d.cart, itemId, quantity)
    ensures FetchCartItems(Remove(d, itemId)).cart == RemoveFromCart(d.cart, itemId)
  {
  }

  /** A cart saved during an earlier page load, valid for that load's catalogue, is
      valid for this load's catalogue too: the two differ only in their timestamps. */
  lemma RestoredCartStaysValid(cart: seq<CartItem>, earlier: string, now: string)
    ensures Valid(cart, Catalogue(earlier)) <==> Valid(cart, Catalogue(now))
  {
    ValidIgnoresOtherFields(cart, Catalogue(earlier), Catalogue(now));
  }

  /** Starting from an empty cart, the dashboard's operations keep the cart valid:
      one line per product, positive quantities, catalogue snapshots. */
  lemma OperationsKeepValid(d: Dashboard, productId: string, buyerId: string,
                            freshId: string, now: string, itemId: string, quantity: int)
    requires Valid(d.cart, Catalogue(now))
    ensures Valid(Add(d, productId, buyerId, freshId, now).cart, Catalogue(now))
    ensures Valid(Update(d, itemId, quantity).cart, Catalogue(now))
    ensures Valid(Remove(d, itemId).cart, Catalogue(now))
  {
    AddPreservesValid(Catalogue(now), d.cart, productId, buyerId, freshId);
    UpdatePreservesValid(Catalogue(now), d.cart, itemId, quantity);
    RemovePreservesValid(Catalogue(now), d.cart, itemId);
  }

  /** A cart operation the buyer can trigger from the dashboard or the cart panel. */
  datatype CartOp =
    | AddOp(productId: string, freshId: string)
    | UpdateOp(itemId: string, quantity: int)
    | RemoveOp(itemId: string)

  function Apply(d: Dashboard, op: CartOp, buyerId: string, now: string): Dashboard
  {
    match op
    case AddOp(productId, freshId) => Add(d, productId, buyerId, freshId, now)
    case UpdateOp(itemId, quantity) => Update(d, itemId, quantity)
    case RemoveOp(itemId) => Remove(d, itemId)
  }

  /** The dashboard after a run of cart operations, one after the other. */
  function Run(d: Dashboard, ops: seq<CartOp>, buyerId: string, now: string): Dashboard
    decreases |ops|
  {
    if |ops| == 0 then d else Run(Apply(d, ops[0], buyerId, now), ops[1..], buyerId, now)
  }

  /** Every add of the run is given a line id that no line of the cart holds at
      that moment. */
  predicate FreshIds(d: Dashboard, ops: seq<CartOp>, buyerId: string, now: string)
    decreases |ops|
  {
    || |ops| == 0
    || (&& (ops[0].AddOp? ==> FreshLineId(d.cart, ops[0].freshId))
        && FreshIds(Apply(d, ops[0], buyerId, now), ops[1..], buyerId, now))
  }

  /** The cart invariant together with distinct line ids. */
  predicate WellFormed(cart: seq<CartItem>, now: string)
  {
    Valid(cart, Catalogue(now)) && UniqueLineIds(cart)
  }

  /** Each operation keeps line ids distinct, an add provided its id is fresh. */
  lemma OperationsKeepLineIds(d: Dashboard, op: CartOp, buyerId: string, now: string)
    requires UniqueLineIds(d.cart)
    requires op.AddOp? ==> FreshLineId(d.cart, op.freshId)
    ensures UniqueLineIds(Apply(d, op, buyerId, now).cart)
  {
    match op
    case AddOp(productId, freshId) =>
      if FindProduct(Catalogue(now), productId).Some? {
        AddKeepsLineIds(Catalogue(now), d.cart, productId, buyerId, freshId);
      }
    case UpdateOp(itemId, quantity) => UpdateKeepsLineIds(d.cart, itemId, quantity);
    case RemoveOp(itemId) => RemoveKeepsLineIds(d.cart, itemId);
  }

  /** A run of cart operations from a well-formed cart, each add with a fresh line
      id, ends in a well-formed cart. */
  lemma {:induction false} RunKeepsWellFormed(d: Dashboard, ops: seq<CartOp>, buyerId: string, now: string)
    requires WellFormed(d.cart, now)
    requires FreshIds(d, ops, buyerId, now)
    ensures WellFormed(Run(d, ops, buyerId, now).cart, now)
    decreases |ops|
  {
    if |ops| > 0 {
      var next := Apply(d, ops[0], buyerId, now);
      OperationKeepsWellFormed(d, ops[0], buyerId, now);
      assert FreshIds(next, ops[1..], buyerId, now);
      RunKeepsWellFormed(next, ops[1..], buyerId, now);
      assert Run(d, ops, buyerId, now) == Run(next, ops[1..], buyerId, now);
    }
  }

  /** One operation from a well-formed cart, an add with a fresh line id, leaves a
      well-formed cart. */
  lemma OperationKeepsWellFormed(d: Dashboard, op: CartOp, buyerId: string, now: string)
    requires WellFormed(d.cart, now)
    requires op.AddOp? ==> FreshLineId(d.cart, op.freshId)
    ensures WellFormed(Apply(d, op, buyerId, now).cart, now)
  {
    OperationsKeepLineIds(d, op, buyerId, now);
    match op
    case AddOp(productId, freshId) => OperationsKeepValid(d, productId, buyerId, freshId, now, "", 0);
    case UpdateOp(itemId, quantity) => OperationsKeepValid(d, "", buyerId, "", now, itemId, quantity);
    case RemoveOp(itemId) => OperationsKeepValid(d, "", buyerId, "", now, itemId, 0);
  }

  /** The dashboard once mounted with nothing stored: the catalogue is loaded and
      the cart is empty. */
  function Mounted(now: string): (r: Dashboard)
    ensures r.cart == [] && r.saved.None? && r.products == Catalogue(now)
    ensures r.maxPrice == 5 && r.priceRange == Range(0.0, 5.0) && !r.loading
  {
    FetchCartItems(FetchProducts(Initial(None), now))
  }

  /** The freshly mounted dashboard's empty cart is well-formed. */
  lemma MountedWellFormed(now: string)
    ensures WellFormed(Mounted(now).cart, now)
  {
  }

  /** Every cart built from a fresh mount by a run of operations, each add with a
      fresh line id, is well-formed. */
  lemma MountedRunWellFormed(ops: seq<CartOp>, buyerId: string, now: string)
    requires FreshIds(Mounted(now), ops, buyerId, now)
    ensures WellFormed(Run(Mounted(now), ops, buyerId, now).cart, now)
  {
    MountedWellFormed(now);
    RunKeepsWellFormed(Mounted(now), ops, buyerId, now);
  }

  /** After any run of operations from a well-formed cart (a fresh mount gives
      one), setting a positive quantity on a line moves the total by the change in
      quantity times its price, and the count by the change in quantity. */
  lemma RunUpdateChangesSums(d: Dashboard, ops: seq<CartOp>, buyerId: string, now: string, k: nat, quantity: int)
    requires WellFormed(d.cart, now)
    requires FreshIds(d, ops, buyerId, now)
    requires k < |Run(d, ops, buyerId, now).cart|
    requires quantity > 0
    ensures var c := Run(d, ops, buyerId, now).cart;
            var r := Update(Run(d, ops, buyerId, now), c[k].id, quantity).cart;
            && CartTotal(r) == CartTotal(c) + (quantity - c[k].quantity) * UnitPrice(c[k])
            && CartCount(r) == CartCount(c) + (quantity - c[k].quantity)
  {
    RunKeepsWellFormed(d, ops, buyerId, now);
    UpdateChangesSums(Run(d, ops, buyerId, now).cart, k, quantity);
  }
}
