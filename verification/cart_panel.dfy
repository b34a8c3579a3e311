/** The cart panel (src/components/Cart.tsx): the quantity buttons and the checkout
    workflow. Checkout validates its inputs, then issues three remote writes in a
    row (order, order items, bulk cart delete) and stops at the first failure
    without undoing earlier writes. What the remote store answers to each write is
    a parameter. */
module CartPanel {
  import opened Wrappers
  import opened Records
  import opened Text
  import opened CartEngine

  /** The panel's own state: the address and payment fields, whether the panel is
      shown, and the processing flag that disables the order button. */
  datatype Panel = Panel(deliveryAddress: string, paymentMethod: string, showCart: bool, isProcessing: bool)

  /** A freshly mounted panel: empty address, "cash" payment, not processing. */
  function InitialPanel(showCart: bool): Panel
  {
    Panel("", "cash", showCart, false)
  }

  /** The order row sent to the store; the store generates the id and timestamps. */
  datatype OrderDraft = OrderDraft(
    buyerId: string,
    totalAmount: Cents,
    status: string,
    deliveryAddress: string,
    paymentMethod: string)

  /** An order-item row sent to the store. */
  datatype OrderItemDraft = OrderItemDraft(
    orderId: string,
    productId: string,
    quantity: int,
    priceAtPurchase: Cents)

  /** A write that took effect in the remote store. */
  datatype Write =
    | InsertOrder(orderId: string, order: OrderDraft)
    | InsertItems(items: seq<OrderItemDraft>)
    | DeleteCart(buyerId: string)

  /** The store's answers: the new order's id or an error; then whether the items
      insert and the cart delete succeeded. */
  datatype Replies = Replies(order: Result<string, string>, items: Outcome<string>, deleteCart: Outcome<string>)

  /** Where a checkout attempt ended. */
  datatype Stop = NoAddress | EmptyCart | OrderFailed | ItemsFailed | DeleteFailed | Placed

  const AddressAlert: string := "Please enter a delivery address"
  const EmptyCartAlert: string := "Your cart is empty"
  const PlacedAlert: string := "Order placed successfully!"
  const FailedAlert: string := "Failed to place order. Please try again."

  /** The observable result of one checkout attempt: where it stopped, the writes
      that took effect (in order), the alerts shown, the panel afterwards, whether the
      processing flag was raised on the way, and how many times `onOrderComplete`
      was called. */
  datatype Run = Run(stop: Stop, writes: seq<Write>, alerts: seq<string>, panel: Panel,
                     raisedProcessing: bool, completions: nat)

  /** The order row: status "pending", the total the dashboard passed in, and the
      address exactly as typed (it is checked trimmed but stored untrimmed). */
  function OrderFor(buyerId: string, cartTotal: Cents, panel: Panel): (o: OrderDraft)
    ensures o.status == "pending" && o.totalAmount == cartTotal && o.buyerId == buyerId
    ensures o.deliveryAddress == panel.deliveryAddress && o.paymentMethod == panel.paymentMethod
  {
    OrderDraft(buyerId, cartTotal, "pending", panel.deliveryAddress, panel.paymentMethod)
  }

  /** One order item per cart line, in cart order, with the price frozen from the
      line's snapshot (0 when the snapshot is missing). */
  function BuildItems(cart: seq<CartItem>, orderId: string): (r: seq<OrderItemDraft>)
    ensures |r| == |cart|
    ensures forall i :: 0 <= i < |cart| ==>
              r[i] == OrderItemDraft(orderId, cart[i].productId, cart[i].quantity, UnitPrice(cart[i]))
  {
    seq(|cart|, i requires 0 <= i < |cart| =>
      OrderItemDraft(orderId, cart[i].productId, cart[i].quantity, UnitPrice(cart[i])))
  }

  /** The sum of price at purchase times quantity over some order items. */
  function ItemsTotal(items: seq<OrderItemDraft>): Cents
  {
    if |items| == 0 then 0 else items[0].priceAtPurchase * items[0].quantity + ItemsTotal(items[1..])
  }

  /** The items built from a cart add up to the cart's total. */
  lemma {:induction false} ItemsTotalIsCartTotal(cart: seq<CartItem>, orderId: string)
    ensures ItemsTotal(BuildItems(cart, orderId)) == CartTotal(cart)
  {
    if |cart| > 0 {
      assert BuildItems(cart, orderId)[1..] == BuildItems(cart[1..], orderId);
      ItemsTotalIsCartTotal(cart[1..], orderId);
    }
  }

  /** The `try` block of `handleCheckout()`, entered with the processing flag raised:
      the order insert, then the items insert, then the bulk cart delete, each only
      if the previous write succeeded, and nothing undone on a failure. The `finally`
      clause lowers the flag again. */
  function Submit(panel: Panel, cart: seq<CartItem>, cartTotal: Cents, buyerId: string,
                  replies: Replies): (r: Run)
    ensures r.raisedProcessing && !r.panel.isProcessing
    ensures r.stop == OrderFailed <==> replies.order.Failure?
    ensures r.stop == ItemsFailed <==> replies.order.Success? && replies.items.Fail?
    ensures r.stop == DeleteFailed <==>
              replies.order.Success? && replies.items.Pass? && replies.deleteCart.Fail?
    ensures r.stop == Placed <==>
              replies.order.Success? && replies.items.Pass? && replies.deleteCart.Pass?
    ensures |r.writes| == match r.stop
                         case OrderFailed => 0 case ItemsFailed => 1 case DeleteFailed => 2 case _ => 3
    ensures |r.writes| >= 1 ==>
              replies.order.Success? &&
              r.writes[0] == InsertOrder(replies.order.value, OrderFor(buyerId, cartTotal, panel))
    ensures |r.writes| >= 2 ==> r.writes[1] == InsertItems(BuildItems(cart, replies.order.value))
    ensures |r.writes| == 3 ==> r.writes[2] == DeleteCart(buyerId)
    ensures r.completions == if r.stop == Placed then 1 else 0
    ensures r.stop == Placed ==> r.panel.deliveryAddress == "" && !r.panel.showCart
    ensures r.stop != Placed ==>
              r.panel.deliveryAddress == panel.deliveryAddress && r.panel.showCart == panel.showCart
    ensures r.panel.paymentMethod == panel.paymentMethod
    ensures r.alerts == if r.stop == Placed then [PlacedAlert] else [FailedAlert]
  {
    var settled := panel.(isProcessing := false);
    match replies.order
    case Failure(_) => Run(OrderFailed, [], [FailedAlert], settled, true, 0)
    case Success(orderId) =>
      var order := InsertOrder(orderId, OrderFor(buyerId, cartTotal, panel));
      var items := InsertItems(BuildItems(cart, orderId));
      if replies.items.Fail? then
        Run(ItemsFailed, [order], [FailedAlert], settled, true, 0)
      else if replies.deleteCart.Fail? then
        Run(DeleteFailed, [order, items], [FailedAlert], settled, true, 0)
      else
        Run(Placed, [order, items, DeleteCart(buyerId)], [PlacedAlert],
            settled.(deliveryAddress := "", showCart := false), true, 1)
  }

  /** `handleCheckout()`. */
  function HandleCheckout(panel: Panel, cart: seq<CartItem>, cartTotal: Cents, buyerId: string,
                          replies: Replies): (r: Run)
    // validation: a blank address is reported first, then an empty cart; neither writes
    ensures r.stop == NoAddress <==> Trim(panel.deliveryAddress) == []
    ensures r.stop == EmptyCart <==> Trim(panel.deliveryAddress) != [] && |cart| == 0
    ensures r.stop == NoAddress || r.stop == EmptyCart ==>
              r.writes == [] && r.panel == panel && !r.raisedProcessing && r.completions == 0
    // once validation passes, the processing flag is raised and is down again at the end
    ensures r.raisedProcessing <==> r.stop != NoAddress && r.stop != EmptyCart
    ensures r.raisedProcessing ==> !r.panel.isProcessing
    // the writes run in order and stop at the first failure, with no rollback
    ensures r.stop == OrderFailed <==>
              Trim(panel.deliveryAddress) != [] && |cart| > 0 && replies.order.Failure?
    ensures r.stop == ItemsFailed <==>
              && Trim(panel.deliveryAddress) != [] && |cart| > 0
              && replies.order.Success? && replies.items.Fail?
    ensures r.stop == DeleteFailed <==>
              && Trim(panel.deliveryAddress) != [] && |cart| > 0
              && replies.order.Success? && replies.items.Pass? && replies.deleteCart.Fail?
    ensures r.stop == Placed <==>
              && Trim(panel.deliveryAddress) != [] && |cart| > 0
              && replies.order.Success? && replies.items.Pass? && replies.deleteCart.Pass?
    ensures |r.writes| == match r.stop
                         case NoAddress => 0 case EmptyCart => 0 case OrderFailed => 0
                         case ItemsFailed => 1 case DeleteFailed => 2 case Placed => 3
    ensures |r.writes| >= 1 ==>
              replies.order.Success? &&
              r.writes[0] == InsertOrder(replies.order.value, OrderFor(buyerId, cartTotal, panel))
    ensures |r.writes| >= 2 ==> r.writes[1] == InsertItems(BuildItems(cart, replies.order.value))
    ensures |r.writes| == 3 ==> r.writes[2] == DeleteCart(buyerId)
    // the success effects happen only after all three writes succeeded
    ensures r.completions == if r.stop == Placed then 1 else 0
    ensures r.stop == Placed ==> r.panel.deliveryAddress == "" && !r.panel.showCart
    ensures r.stop != Placed ==>
              r.panel.deliveryAddress == panel.deliveryAddress && r.panel.showCart == panel.showCart
    ensures r.panel.paymentMethod == panel.paymentMethod
    // exactly one alert, naming the outcome
    ensures r.alerts == match r.stop
                        case NoAddress => [AddressAlert] case EmptyCart => [EmptyCartAlert]
                        case Placed => [PlacedAlert] case _ => [FailedAlert]
  {
    TrimEmptyIffBlank(panel.deliveryAddress);
    if IsBlank(panel.deliveryAddress) then
      Run(NoAddress, [], [AddressAlert], panel, false, 0)
    else if |cart| == 0 then
      Run(EmptyCart, [], [EmptyCartAlert], panel, false, 0)
    else
      Submit(panel, cart, cartTotal, buyerId, replies)
  }

  /** When the total comes from the dashboard, a placed order's total equals the sum
      of price at purchase times quantity over the items written with it. */
  lemma OrderTotalMatchesItems(panel: Panel, cart: seq<CartItem>, buyerId: string, replies: Replies)
    ensures var r := HandleCheckout(panel, cart, CartTotal(cart), buyerId, replies);
            |r.writes| >= 2 ==> r.writes[0].order.totalAmount == ItemsTotal(r.writes[1].items)
  {
    if replies.order.Success? {
      ItemsTotalIsCartTotal(cart, replies.order.value);
    }
  }

  /** The example cart: two units at 2.99 and one at 1.49, worth 7.47. */
  function ExampleCart(p1: Product, p2: Product): (cart: seq<CartItem>)
    requires p1.price == 299 && p2.price == 149
    ensures |cart| == 2 && CartTotal(cart) == 747
  {
    var cart := [CartItem("a", "buyer", p1.id, 2, Some(p1)), CartItem("b", "buyer", p2.id, 1, Some(p2))];
    assert LineTotal(cart[0]) == 598 && LineTotal(cart[1]) == 149;
    assert CartTotal(cart[1..]) == 149 by {
      assert cart[1..][1..] == [];
    }
    cart
  }

  /** A checkout of the example cart that the store accepts writes an order of 7.47
      with two items priced 2.99 and 1.49, then deletes the buyer's remote cart. */
  lemma PlacedExample(p1: Product, p2: Product, address: string, replies: Replies)
    requires p1.price == 299 && p2.price == 149
    requires |address| > 0 && !IsJsSpace(address[0])
    requires replies.order == Success("order-1") && replies.items.Pass? && replies.deleteCart.Pass?
    ensures var cart := ExampleCart(p1, p2);
            var r := HandleCheckout(Panel(address, "cash", true, false), cart, CartTotal(cart), "buyer", replies);
            && r.stop == Placed
            && r.writes[0].order.totalAmount == 747
            && r.writes[1].items == [OrderItemDraft("order-1", p1.id, 2, 299), OrderItemDraft("order-1", p2.id, 1, 149)]
            && r.writes[2] == DeleteCart("buyer")
  {
  }

  /** The minus button asks for one less: at quantity 1 (or below) this removes the
      line, otherwise it lowers that line by one. */
  function PressMinus(cart: seq<CartItem>, i: nat): (r: seq<CartItem>)
    requires i < |cart|
    ensures cart[i].quantity <= 1 ==> r == RemoveFromCart(cart, cart[i].id)
    ensures cart[i].quantity > 1 ==> |r| == |cart| && r[i] == cart[i].(quantity := cart[i].quantity - 1)
    ensures cart[i].quantity > 1 ==> forall j :: 0 <= j < |cart| && cart[j].id != cart[i].id ==> r[j] == cart[j]
    ensures cart[i].quantity > 1 ==> forall j :: 0 <= j < |cart| && cart[j].id == cart[i].id ==>
              r[j] == cart[j].(quantity := cart[i].quantity - 1)
  {
    UpdateCartQuantity(cart, cart[i].id, cart[i].quantity - 1)
  }

  /** The plus button asks for one more. */
  function PressPlus(cart: seq<CartItem>, i: nat): (r: seq<CartItem>)
    requires i < |cart|
    ensures cart[i].quantity >= 0 ==> |r| == |cart| && r[i] == cart[i].(quantity := cart[i].quantity + 1)
    ensures cart[i].quantity >= 0 ==> forall j :: 0 <= j < |cart| && cart[j].id != cart[i].id ==> r[j] == cart[j]
    ensures cart[i].quantity >= 0 ==> forall j :: 0 <= j < |cart| && cart[j].id == cart[i].id ==>
              r[j] == cart[j].(quantity := cart[i].quantity + 1)
    ensures cart[i].quantity < 0 ==> r == RemoveFromCart(cart, cart[i].id)
  {
    UpdateCartQuantity(cart, cart[i].id, cart[i].quantity + 1)
  }

  /** With distinct line ids, plus and minus on a line move the total by exactly that
      line's price and the count by one; at quantity 1 minus removes the line, which
      takes away the same amounts. */
  lemma ButtonsMoveSumsByOne(cart: seq<CartItem>, i: nat)
    requires UniqueLineIds(cart)
    requires i < |cart|
    requires cart[i].quantity >= 1
    ensures CartTotal(PressPlus(cart, i)) == CartTotal(cart) + UnitPrice(cart[i])
    ensures CartCount(PressPlus(cart, i)) == CartCount(cart) + 1
    ensures CartTotal(PressMinus(cart, i)) == CartTotal(cart) - UnitPrice(cart[i])
    ensures CartCount(PressMinus(cart, i)) == CartCount(cart) - 1
  {
    IncrementSums(cart, i);
    DecrementSums(cart, i);
  }

  /** A freshly mounted panel has an empty address, so checkout refuses it before
      any write, whatever the cart and the store would answer. */
  lemma FreshPanelRefuses(showCart: bool, cart: seq<CartItem>, cartTotal: Cents, buyerId: string,
                          replies: Replies)
    ensures var r := HandleCheckout(InitialPanel(showCart), cart, cartTotal, buyerId, replies);
            r.stop == NoAddress && r.writes == [] && r.alerts == [AddressAlert]
  {
  }

  /** A placed order leaves the panel as a fresh, closed one, except that the chosen
      payment method is kept. */
  lemma PlacedResetsPanel(panel: Panel, cart: seq<CartItem>, cartTotal: Cents, buyerId: string,
                          replies: Replies)
    ensures var r := HandleCheckout(panel, cart, cartTotal, buyerId, replies);
            r.stop == Placed ==> r.panel == InitialPanel(false).(paymentMethod := panel.paymentMethod)
  {
  }
}
