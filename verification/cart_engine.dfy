/** The buyer dashboard's cart operations (src/components/BuyerDashboard.tsx): pure
    transformations of the list of cart lines, and the two derived sums. */
module CartEngine {
  import opened Wrappers
  import opened Records
  import opened Seqs

  /** Position of the first product with id `id`, or `|ps|` when there is none. */
  function FirstIndex(ps: seq<Product>, id: string): (k: nat)
    ensures k <= |ps|
    ensures forall j :: 0 <= j < k ==> ps[j].id != id
    ensures k < |ps| ==> ps[k].id == id
  {
    if |ps| == 0 || ps[0].id == id then 0 else 1 + FirstIndex(ps[1..], id)
  }

  /** The catalogue lookup: the first product with that id, if any. */
  function FindProduct(ps: seq<Product>, id: string): (r: Option<Product>)
    ensures r.None? <==> forall i :: 0 <= i < |ps| ==> ps[i].id != id
    ensures r.Some? ==> r.value.id == id && r.value in ps
    ensures r.Some? ==> exists k :: 0 <= k < |ps| && r.value == ps[k] && forall j :: 0 <= j < k ==> ps[j].id != id
  {
    var k := FirstIndex(ps, id);
    if k < |ps| then Some(ps[k]) else None
  }

  /** With distinct ids, looking up a product's own id finds that product. */
  lemma FindUnique(ps: seq<Product>, i: nat)
    requires UniqueIds(ps)
    requires i < |ps|
    ensures FindProduct(ps, ps[i].id) == Some(ps[i])
  {
  }

  /** Some line of the cart is for product `productId`. */
  predicate InCart(cart: seq<CartItem>, productId: string)
  {
    exists i :: 0 <= i < |cart| && cart[i].productId == productId
  }

  /** At most one line per product. */
  predicate UniqueProducts(cart: seq<CartItem>)
  {
    forall i, j :: 0 <= i < j < |cart| ==> cart[i].productId != cart[j].productId
  }

  /** At most one line per line id. */
  predicate UniqueLineIds(cart: seq<CartItem>)
  {
    forall i, j :: 0 <= i < j < |cart| ==> cart[i].id != cart[j].id
  }

  /** The line carries a snapshot of its own product at the catalogue's current
      price. Only the id and the price are compared: a cart saved during an earlier
      page load holds snapshots with that load's timestamps. */
  predicate SnapshotCurrent(line: CartItem, catalogue: seq<Product>)
  {
    && line.product.Some?
    && line.product.value.id == line.productId
    && FindProduct(catalogue, line.productId).Some?
    && line.product.value.price == FindProduct(catalogue, line.productId).value.price
  }

  /** The invariant the dashboard's operations keep, starting from an empty cart:
      one line per product, every quantity at least 1, and every line carrying a
      snapshot of its product at the catalogue's price. */
  predicate Valid(cart: seq<CartItem>, catalogue: seq<Product>)
  {
    && UniqueProducts(cart)
    && (forall i :: 0 <= i < |cart| ==> cart[i].quantity >= 1)
    && (forall i :: 0 <= i < |cart| ==> SnapshotCurrent(cart[i], catalogue))
  }

  /** The line with its quantity raised by one. */
  function Bump(line: CartItem): CartItem
  {
    line.(quantity := line.quantity + 1)
  }

  /** Every line for product `productId` raised by one; the other lines as they are. */
  function BumpProduct(cart: seq<CartItem>, productId: string): (r: seq<CartItem>)
    ensures |r| == |cart|
    ensures forall i :: 0 <= i < |cart| ==>
              r[i] == if cart[i].productId == productId then Bump(cart[i]) else cart[i]
  {
    seq(|cart|, i requires 0 <= i < |cart| =>
      if cart[i].productId == productId then Bump(cart[i]) else cart[i])
  }

  /** `addToCart(productId)`. An id missing from the catalogue changes nothing; a
      product already in the cart has its line(s) raised by one; any other product
      gets a new line at the end with quantity 1, the buyer's id, the catalogue
      snapshot and `freshId` (the source uses a clock-based id). */
  function AddToCart(catalogue: seq<Product>, cart: seq<CartItem>, productId: string,
                     buyerId: string, freshId: string): (r: seq<CartItem>)
    ensures (forall i :: 0 <= i < |catalogue| ==> catalogue[i].id != productId) ==> r == cart
    ensures FindProduct(catalogue, productId).Some? && InCart(cart, productId) ==>
              && |r| == |cart|
              && (forall i :: 0 <= i < |cart| && cart[i].productId == productId ==>
                    r[i].quantity == cart[i].quantity + 1 && r[i] == cart[i].(quantity := r[i].quantity))
              && (forall i :: 0 <= i < |cart| && cart[i].productId != productId ==> r[i] == cart[i])
    ensures FindProduct(catalogue, productId).Some? && !InCart(cart, productId) ==>
              && |r| == |cart| + 1
              && r[..|cart|] == cart
              && r[|cart|] == CartItem(freshId, buyerId, productId, 1, FindProduct(catalogue, productId))
  {
    match FindProduct(catalogue, productId)
    case None => cart
    case Some(p) =>
      if InCart(cart, productId) then BumpProduct(cart, productId)
      else cart + [CartItem(freshId, buyerId, productId, 1, Some(p))]
  }

  /** The test `removeFromCart` keeps a line by: its id differs from `itemId`. */
  function OtherLine(itemId: string): CartItem -> bool
  {
    (line: CartItem) => line.id != itemId
  }

  /** `removeFromCart(itemId)`: drop every line with that line id. */
  function RemoveFromCart(cart: seq<CartItem>, itemId: string): (r: seq<CartItem>)
    ensures forall line :: line in r <==> line in cart && line.id != itemId
    ensures forall line :: multiset(r)[line] == if line.id != itemId then multiset(cart)[line] else 0
    ensures SubsequenceOf(r, cart)
    ensures (forall i :: 0 <= i < |cart| ==> cart[i].id != itemId) ==> r == cart
  {
    FilterAllKept(cart, OtherLine(itemId));
    FilterCounts(cart, OtherLine(itemId));
    Filter(cart, OtherLine(itemId))
  }

  /** Every line with line id `itemId` given the new quantity; the other lines as they are. */
  function SetQuantity(cart: seq<CartItem>, itemId: string, quantity: int): (r: seq<CartItem>)
    ensures |r| == |cart|
    ensures forall i :: 0 <= i < |cart| ==>
              r[i] == if cart[i].id == itemId then cart[i].(quantity := quantity) else cart[i]
  {
    seq(|cart|, i requires 0 <= i < |cart| =>
      if cart[i].id == itemId then cart[i].(quantity := quantity) else cart[i])
  }

  /** `updateCartQuantity(itemId, quantity)`: a quantity of 0 or less removes the
      line; any other quantity replaces the quantity of the lines with that id. */
  function UpdateCartQuantity(cart: seq<CartItem>, itemId: string, quantity: int): (r: seq<CartItem>)
    ensures quantity <= 0 ==> r == RemoveFromCart(cart, itemId)
    ensures quantity > 0 ==>
              && |r| == |cart|
              && (forall i :: 0 <= i < |cart| && cart[i].id == itemId ==> r[i] == cart[i].(quantity := quantity))
              && (forall i :: 0 <= i < |cart| && cart[i].id != itemId ==> r[i] == cart[i])
  {
    if quantity <= 0 then RemoveFromCart(cart, itemId) else SetQuantity(cart, itemId, quantity)
  }

  /** One line's contribution to the total: snapshot price (0 if missing) times quantity. */
  function LineTotal(line: CartItem): Cents
  {
    UnitPrice(line) * line.quantity
  }

  /** No line has a negative price or quantity. */
  predicate NonNegativeLines(cart: seq<CartItem>)
  {
    forall i :: 0 <= i < |cart| ==> UnitPrice(cart[i]) >= 0 && cart[i].quantity >= 0
  }

  /** Every line has quantity at least 1. */
  predicate PositiveQuantities(cart: seq<CartItem>)
  {
    forall i :: 0 <= i < |cart| ==> cart[i].quantity >= 1
  }

  /** `cartTotal`: the sum of the line totals. */
  function CartTotal(cart: seq<CartItem>): Cents
  {
    if |cart| == 0 then 0 else LineTotal(cart[0]) + CartTotal(cart[1..])
  }

  /** `cartCount`: the sum of the quantities. */
  function CartCount(cart: seq<CartItem>): int
  {
    if |cart| == 0 then 0 else cart[0].quantity + CartCount(cart[1..])
  }

  /** Both sums split over concatenation. */
  lemma {:induction false} SumsOfConcat(a: seq<CartItem>, b: seq<CartItem>)
    ensures CartTotal(a + b) == CartTotal(a) + CartTotal(b)
    ensures CartCount(a + b) == CartCount(a) + CartCount(b)
  {
    if |a| > 0 {
      assert (a + b)[1..] == a[1..] + b;
      SumsOfConcat(a[1..], b);
    } else {
      assert a + b == b;
    }
  }

  /** An empty cart has total and count 0; without negative prices or quantities
      the total is not negative; and with every quantity at least 1 the count is
      at least the number of lines. */
  lemma {:induction false} SumsBounds(cart: seq<CartItem>)
    ensures |cart| == 0 ==> CartTotal(cart) == 0 && CartCount(cart) == 0
    ensures NonNegativeLines(cart) ==> CartTotal(cart) >= 0
    ensures PositiveQuantities(cart) ==> CartCount(cart) >= |cart|
  {
    if |cart| > 0 {
      SumsBounds(cart[1..]);
      assert NonNegativeLines(cart) ==> NonNegativeLines(cart[1..]) && LineTotal(cart[0]) >= 0;
      assert PositiveQuantities(cart) ==> PositiveQuantities(cart[1..]);
    }
  }

  /** Both sums are the left-to-right `reduce` of the source: the sum over all lines
      but the last, plus the last line's share. */
  lemma SumsFoldLeft(cart: seq<CartItem>)
    requires |cart| > 0
    ensures CartTotal(cart) == CartTotal(cart[..|cart| - 1]) + LineTotal(cart[|cart| - 1])
    ensures CartCount(cart) == CartCount(cart[..|cart| - 1]) + cart[|cart| - 1].quantity
  {
    var n := |cart| - 1;
    assert cart == cart[..n] + [cart[n]];
    SumsOfConcat(cart[..n], [cart[n]]);
  }

  /** Replacing one line changes each sum by the difference of that line's share. */
  lemma {:induction false} SumsOfReplace(cart: seq<CartItem>, k: nat, line: CartItem)
    requires k < |cart|
    ensures CartTotal(cart[k := line]) == CartTotal(cart) - LineTotal(cart[k]) + LineTotal(line)
    ensures CartCount(cart[k := line]) == CartCount(cart) - cart[k].quantity + line.quantity
  {
    if k > 0 {
      assert cart[k := line][1..] == cart[1..][k - 1 := line];
      SumsOfReplace(cart[1..], k - 1, line);
    } else {
      assert cart[k := line][1..] == cart[1..];
    }
  }

  /** Removing one line lowers each sum by that line's share. */
  lemma {:induction false} SumsOfDelete(cart: seq<CartItem>, k: nat)
    requires k < |cart|
    ensures CartTotal(cart[..k] + cart[k + 1..]) == CartTotal(cart) - LineTotal(cart[k])
    ensures CartCount(cart[..k] + cart[k + 1..]) == CartCount(cart) - cart[k].quantity
  {
    if k == 0 {
      assert cart[..0] + cart[1..] == cart[1..];
    } else {
      var t := cart[1..];
      SumsOfDelete(t, k - 1);
      ConsSlices(cart, k);
      var rest := t[..k - 1] + t[k..];
      assert ([cart[0]] + rest)[1..] == rest;
      assert t[k - 1] == cart[k];
    }
  }

  /** Adding keeps the cart valid: in particular there is still at most one line per product. */
  lemma AddPreservesValid(catalogue: seq<Product>, cart: seq<CartItem>, productId: string,
                          buyerId: string, freshId: string)
    requires Valid(cart, catalogue)
    ensures Valid(AddToCart(catalogue, cart, productId, buyerId, freshId), catalogue)
  {
    var r := AddToCart(catalogue, cart, productId, buyerId, freshId);
    match FindProduct(catalogue, productId)
    case None =>
    case Some(p) =>
      if InCart(cart, productId) {
        SameLinesButQuantity(cart, r, catalogue);
      } else {
        assert SnapshotCurrent(r[|cart|], catalogue);
        forall i | 0 <= i < |cart| ensures r[i] == cart[i] {
          assert r[i] == r[..|cart|][i];
        }
      }
  }

  /** Changing quantities to values of at least 1, and nothing else, keeps a cart valid. */
  lemma SameLinesButQuantity(cart: seq<CartItem>, r: seq<CartItem>, catalogue: seq<Product>)
    requires Valid(cart, catalogue)
    requires |r| == |cart|
    requires forall i :: 0 <= i < |r| ==> r[i] == cart[i].(quantity := r[i].quantity) && r[i].quantity >= 1
    ensures Valid(r, catalogue)
  {
    forall i | 0 <= i < |r| ensures SnapshotCurrent(r[i], catalogue) {
      assert SnapshotCurrent(cart[i], catalogue);
    }
  }

  /** In a cart with one line per product, raising the lines of a product that is
      in the cart raises exactly one line. */
  lemma BumpIsOneReplace(cart: seq<CartItem>, productId: string) returns (k: nat)
    requires UniqueProducts(cart)
    requires InCart(cart, productId)
    ensures k < |cart| && cart[k].productId == productId
    ensures BumpProduct(cart, productId) == cart[k := Bump(cart[k])]
  {
    k :| k < |cart| && cart[k].productId == productId;
  }

  /** Adding a catalogue product to a valid cart raises the item count by one and
      the total by that product's price. */
  lemma AddRaisesSums(catalogue: seq<Product>, cart: seq<CartItem>, productId: string,
                      buyerId: string, freshId: string, p: Product)
    requires Valid(cart, catalogue)
    requires FindProduct(catalogue, productId) == Some(p)
    ensures CartCount(AddToCart(catalogue, cart, productId, buyerId, freshId)) == CartCount(cart) + 1
    ensures CartTotal(AddToCart(catalogue, cart, productId, buyerId, freshId)) == CartTotal(cart) + p.price
  {
    if InCart(cart, productId) {
      var k := BumpIsOneReplace(cart, productId);
      assert UnitPrice(cart[k]) == p.price;
      BumpRaisesSums(cart, k);
    } else {
      var line := CartItem(freshId, buyerId, productId, 1, Some(p));
      SumsOfConcat(cart, [line]);
      assert CartTotal([line]) == LineTotal(line) + CartTotal([]);
    }
  }

  /** Raising one line by one adds its price to the total and one to the count. */
  lemma BumpRaisesSums(cart: seq<CartItem>, k: nat)
    requires k < |cart|
    ensures CartTotal(cart[k := Bump(cart[k])]) == CartTotal(cart) + UnitPrice(cart[k])
    ensures CartCount(cart[k := Bump(cart[k])]) == CartCount(cart) + 1
  {
    SumsOfReplace(cart, k, Bump(cart[k]));
    assert LineTotal(Bump(cart[k])) == UnitPrice(cart[k]) * cart[k].quantity + UnitPrice(cart[k]);
  }

  /** Adding the same catalogue product twice to a cart that lacks it yields one new
      line, with quantity 2, and not two lines. */
  lemma AddTwiceMerges(catalogue: seq<Product>, cart: seq<CartItem>, productId: string,
                       buyerId: string, id1: string, id2: string, p: Product)
    requires FindProduct(catalogue, productId) == Some(p)
    requires !InCart(cart, productId)
    ensures var twice := AddToCart(catalogue, AddToCart(catalogue, cart, productId, buyerId, id1),
                                   productId, buyerId, id2);
            && |twice| == |cart| + 1
            && twice[..|cart|] == cart
            && twice[|cart|] == CartItem(id1, buyerId, productId, 2, Some(p))
  {
  }

  /** With distinct line ids, updating a line's quantity replaces just that line. */
  lemma UpdateIsOneReplace(cart: seq<CartItem>, k: nat, quantity: int)
    requires UniqueLineIds(cart)
    requires k < |cart|
    requires quantity > 0
    ensures UpdateCartQuantity(cart, cart[k].id, quantity) == cart[k := cart[k].(quantity := quantity)]
  {
  }

  /** With distinct line ids, setting a positive quantity on a line changes the
      total by the change in quantity times that line's price, and the count by the
      change in quantity. */
  lemma UpdateChangesSums(cart: seq<CartItem>, k: nat, quantity: int)
    requires UniqueLineIds(cart)
    requires k < |cart|
    requires quantity > 0
    ensures var r := UpdateCartQuantity(cart, cart[k].id, quantity);
            && CartTotal(r) == CartTotal(cart) + (quantity - cart[k].quantity) * UnitPrice(cart[k])
            && CartCount(r) == CartCount(cart) + (quantity - cart[k].quantity)
  {
    var line := cart[k].(quantity := quantity);
    UpdateIsOneReplace(cart, k, quantity);
    SumsOfReplace(cart, k, line);
    var price, before := UnitPrice(cart[k]), cart[k].quantity;
    assert LineTotal(line) == price * quantity;
    assert LineTotal(cart[k]) == price * before;
    assert price * quantity - price * before == (quantity - before) * price by {
      Distribute(price, quantity, before);
    }
  }

  /** With distinct line ids, asking for one more of a line adds its price to the
      total and one to the count. */
  lemma IncrementSums(cart: seq<CartItem>, k: nat)
    requires UniqueLineIds(cart)
    requires k < |cart|
    requires cart[k].quantity >= 0
    ensures var r := UpdateCartQuantity(cart, cart[k].id, cart[k].quantity + 1);
            CartTotal(r) == CartTotal(cart) + UnitPrice(cart[k]) && CartCount(r) == CartCount(cart) + 1
  {
    assert UpdateCartQuantity(cart, cart[k].id, cart[k].quantity + 1) == cart[k := Bump(cart[k])] by {
      UpdateIsOneReplace(cart, k, cart[k].quantity + 1);
    }
    BumpRaisesSums(cart, k);
  }

  /** With distinct line ids, asking for one less of a line of quantity at least 1
      takes its price from the total and one from the count: above 1 the line is
      lowered, at 1 it is removed. */
  lemma DecrementSums(cart: seq<CartItem>, k: nat)
    requires UniqueLineIds(cart)
    requires k < |cart|
    requires cart[k].quantity >= 1
    ensures var r := UpdateCartQuantity(cart, cart[k].id, cart[k].quantity - 1);
            CartTotal(r) == CartTotal(cart) - UnitPrice(cart[k]) && CartCount(r) == CartCount(cart) - 1
  {
    var q := cart[k].quantity;
    if q == 1 {
      assert UpdateCartQuantity(cart, cart[k].id, q - 1) == RemoveFromCart(cart, cart[k].id);
      assert LineTotal(cart[k]) == UnitPrice(cart[k]);
      RemoveOneLine(cart, k);
    } else {
      LowerSums(cart, k);
    }
  }

  /** Lowering a line of quantity above 1 by one, the quantity-above-1 half of `DecrementSums`. */
  lemma LowerSums(cart: seq<CartItem>, k: nat)
    requires UniqueLineIds(cart)
    requires k < |cart|
    requires cart[k].quantity > 1
    ensures var r := UpdateCartQuantity(cart, cart[k].id, cart[k].quantity - 1);
            CartTotal(r) == CartTotal(cart) - UnitPrice(cart[k]) && CartCount(r) == CartCount(cart) - 1
  {
    var line := cart[k].(quantity := cart[k].quantity - 1);
    assert UpdateCartQuantity(cart, cart[k].id, cart[k].quantity - 1) == cart[k := line] by {
      UpdateIsOneReplace(cart, k, cart[k].quantity - 1);
    }
    SumsOfReplace(cart, k, line);
    assert LineTotal(cart[k]) == LineTotal(line) + UnitPrice(cart[k]);
  }

  /** Setting a quantity keeps the cart valid. */
  lemma UpdatePreservesValid(catalogue: seq<Product>, cart: seq<CartItem>, itemId: string, quantity: int)
    requires Valid(cart, catalogue)
    ensures Valid(UpdateCartQuantity(cart, itemId, quantity), catalogue)
  {
    if quantity <= 0 {
      RemovePreservesValid(catalogue, cart, itemId);
    } else {
      SameLinesButQuantity(cart, UpdateCartQuantity(cart, itemId, quantity), catalogue);
    }
  }

  /** Removing lines keeps the cart valid. */
  lemma RemovePreservesValid(catalogue: seq<Product>, cart: seq<CartItem>, itemId: string)
    requires Valid(cart, catalogue)
    ensures Valid(RemoveFromCart(cart, itemId), catalogue)
  {
    SubsequenceKeepsValid(RemoveFromCart(cart, itemId), cart, catalogue);
  }

  /** No line of the cart has line id `freshId` yet. */
  predicate FreshLineId(cart: seq<CartItem>, freshId: string)
  {
    forall i :: 0 <= i < |cart| ==> cart[i].id != freshId
  }

  /** Adding keeps line ids distinct, provided the new line's id is not in use. */
  lemma AddKeepsLineIds(catalogue: seq<Product>, cart: seq<CartItem>, productId: string,
                        buyerId: string, freshId: string)
    requires UniqueLineIds(cart)
    requires FreshLineId(cart, freshId)
    ensures UniqueLineIds(AddToCart(catalogue, cart, productId, buyerId, freshId))
  {
    var r := AddToCart(catalogue, cart, productId, buyerId, freshId);
    if FindProduct(catalogue, productId).Some? && !InCart(cart, productId) {
      forall i | 0 <= i < |cart| ensures r[i] == cart[i] {
        assert r[i] == r[..|cart|][i];
      }
    }
  }

  /** Setting a quantity keeps line ids distinct. */
  lemma UpdateKeepsLineIds(cart: seq<CartItem>, itemId: string, quantity: int)
    requires UniqueLineIds(cart)
    ensures UniqueLineIds(UpdateCartQuantity(cart, itemId, quantity))
  {
    if quantity <= 0 {
      RemoveKeepsLineIds(cart, itemId);
    }
  }

  /** Removing lines keeps line ids distinct. */
  lemma RemoveKeepsLineIds(cart: seq<CartItem>, itemId: string)
    requires UniqueLineIds(cart)
    ensures UniqueLineIds(RemoveFromCart(cart, itemId))
  {
    SubsequenceKeepsLineIds(RemoveFromCart(cart, itemId), cart);
  }

  /** Any subsequence of a cart with distinct line ids has distinct line ids. */
  lemma {:induction false} SubsequenceKeepsLineIds(a: seq<CartItem>, b: seq<CartItem>)
    requires SubsequenceOf(a, b)
    requires UniqueLineIds(b)
    ensures UniqueLineIds(a)
    decreases |b|
  {
    if |a| > 0 {
      assert UniqueLineIds(b[1..]);
      if a[0] == b[0] && SubsequenceOf(a[1..], b[1..]) {
        SubsequenceKeepsLineIds(a[1..], b[1..]);
        SubsequenceMembers(a[1..], b[1..]);
        forall j | 0 < j < |a| ensures a[0].id != a[j].id {
          assert a[j] in a[1..];
          var m :| 0 <= m < |b[1..]| && b[1..][m] == a[j];
          assert b[m + 1] == a[j];
        }
      } else {
        SubsequenceKeepsLineIds(a, b[1..]);
      }
    }
  }

  /** Any subsequence of a valid cart is valid. */
  lemma {:induction false} SubsequenceKeepsValid(a: seq<CartItem>, b: seq<CartItem>, catalogue: seq<Product>)
    requires SubsequenceOf(a, b)
    requires Valid(b, catalogue)
    ensures Valid(a, catalogue)
    decreases |b|
  {
    if |a| > 0 {
      assert Valid(b[1..], catalogue);
      if a[0] == b[0] && SubsequenceOf(a[1..], b[1..]) {
        SubsequenceKeepsValid(a[1..], b[1..], catalogue);
        assert forall x :: x in a[1..] ==> x in b[1..] by {
          SubsequenceMembers(a[1..], b[1..]);
        }
        forall j | 0 < j < |a| ensures a[0].productId != a[j].productId {
          assert a[j] in a[1..];
          var m :| 0 <= m < |b[1..]| && b[1..][m] == a[j];
          assert b[m + 1] == a[j];
        }
      } else {
        SubsequenceKeepsValid(a, b[1..], catalogue);
      }
    }
  }

  /** With distinct line ids, removing a line drops exactly that line, keeps the
      order of the rest, and lowers the sums by that line's share. */
  lemma RemoveOneLine(cart: seq<CartItem>, k: nat)
    requires UniqueLineIds(cart)
    requires k < |cart|
    ensures RemoveFromCart(cart, cart[k].id) == cart[..k] + cart[k + 1..]
    ensures CartTotal(RemoveFromCart(cart, cart[k].id)) == CartTotal(cart) - LineTotal(cart[k])
    ensures CartCount(RemoveFromCart(cart, cart[k].id)) == CartCount(cart) - cart[k].quantity
  {
    FilterDropsOne(cart, OtherLine(cart[k].id), k);
    SumsOfDelete(cart, k);
  }

  /** Removing twice is the same as removing once. */
  lemma RemoveIdempotent(cart: seq<CartItem>, itemId: string)
    ensures RemoveFromCart(RemoveFromCart(cart, itemId), itemId) == RemoveFromCart(cart, itemId)
  {
    FilterIdempotent(cart, OtherLine(itemId));
  }

  /** Validity depends on the catalogue only through its ids and prices, in order. */
  lemma {:induction false} ValidIgnoresOtherFields(cart: seq<CartItem>, a: seq<Product>, b: seq<Product>)
    requires |a| == |b|
    requires forall i :: 0 <= i < |a| ==> a[i].id == b[i].id && a[i].price == b[i].price
    ensures Valid(cart, a) <==> Valid(cart, b)
  {
    forall id: string ensures FirstIndex(a, id) == FirstIndex(b, id) {
      SameIdsSameIndex(a, b, id);
    }
  }

  /** The first position of an id depends only on the ids. */
  lemma {:induction false} SameIdsSameIndex(a: seq<Product>, b: seq<Product>, id: string)
    requires |a| == |b|
    requires forall i :: 0 <= i < |a| ==> a[i].id == b[i].id
    ensures FirstIndex(a, id) == FirstIndex(b, id)
  {
    if |a| > 0 && a[0].id != id {
      SameIdsSameIndex(a[1..], b[1..], id);
    }
  }

  /** Multiplication distributes over subtraction. */
  lemma Distribute(a: int, b: int, c: int)
    ensures a * b - a * c == (b - c) * a
  {
  }
}
