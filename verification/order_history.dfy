/** The order-history view (src/components/OrderHistory.tsx): which stored orders
    are shown, which are expanded, and how a status is displayed. */
module OrderHistory {
  import opened Records
  import opened Seqs
  import opened Text

  /** What `fetchOrders` leaves behind: the buyer's orders and an items map. */
  datatype History = History(orders: seq<Order>, items: map<string, seq<OrderItem>>)

  function BelongsTo(buyerId: string): Order -> bool
  {
    (o: Order) => o.buyerId == buyerId
  }

  /** `fetchOrders()`: keep the stored orders of this buyer, in stored order, and map
      each of their ids to an empty item list. */
  function FetchOrders(stored: seq<Order>, buyerId: string): (h: History)
    ensures forall o :: o in h.orders <==> o in stored && o.buyerId == buyerId
    ensures forall o :: multiset(h.orders)[o] == if o.buyerId == buyerId then multiset(stored)[o] else 0
    ensures SubsequenceOf(h.orders, stored)
    ensures forall o :: o in h.orders ==> o.id in h.items && h.items[o.id] == []
  {
    FilterCounts(stored, BelongsTo(buyerId));
    var mine := Filter(stored, BelongsTo(buyerId));
    History(mine, map o | o in mine :: o.id := [])
  }

  /** The items recorded for an order, or none when the map has no entry for it. */
  function ItemsOf(h: History, orderId: string): seq<OrderItem>
  {
    if orderId in h.items then h.items[orderId] else []
  }

  /** The items panel of an order is drawn when the order is expanded and has items. */
  predicate ShowsItemsPanel(h: History, expanded: set<string>, o: Order)
  {
    o.id in expanded && |ItemsOf(h, o.id)| > 0
  }

  /** Every loaded order has an empty item list, so no items panel is ever drawn,
      whatever is expanded. */
  lemma ItemsPanelNeverShown(stored: seq<Order>, buyerId: string, expanded: set<string>)
    ensures var h := FetchOrders(stored, buyerId);
            forall o :: o in h.orders ==> !ShowsItemsPanel(h, expanded, o)
  {
  }

  /** `toggleOrderExpansion(orderId)`: flip the membership of that id. */
  function ToggleExpansion(expanded: set<string>, orderId: string): (r: set<string>)
    ensures orderId in r <==> orderId !in expanded
    ensures forall x :: x != orderId ==> (x in r <==> x in expanded)
  {
    if orderId in expanded then expanded - {orderId} else expanded + {orderId}
  }

  /** Toggling the same order twice restores the set. */
  lemma ToggleTwice(expanded: set<string>, orderId: string)
    ensures ToggleExpansion(ToggleExpansion(expanded, orderId), orderId) == expanded
  {
  }

  /** `getStatusColor(status)`: a badge style per known status, gray otherwise. */
  function StatusColor(status: string): string
  {
    match status
    case "pending" => "bg-yellow-100 text-yellow-800"
    case "confirmed" => "bg-blue-100 text-blue-800"
    case "delivered" => "bg-green-100 text-green-800"
    case "cancelled" => "bg-red-100 text-red-800"
    case _ => "bg-gray-100 text-gray-800"
  }

  /** The four statuses the view knows; any other string may be stored. */
  predicate KnownStatus(status: string)
  {
    status == "pending" || status == "confirmed" || status == "delivered" || status == "cancelled"
  }

  /** The four known statuses get four different styles, and the gray default is
      given exactly to the statuses the view does not know. */
  lemma StatusColorsDistinct(s: string, t: string)
    ensures KnownStatus(s) && KnownStatus(t) && s != t ==> StatusColor(s) != StatusColor(t)
    ensures StatusColor(s) == "bg-gray-100 text-gray-800" <==> !KnownStatus(s)
  {
  }

  datatype IconShape = Clock | CheckCircle | XCircle | PackageBox

  /** An icon: its shape and its colour class. */
  datatype Icon = Icon(shape: IconShape, color: string)

  /** `getStatusIcon(status)` */
  function StatusIcon(status: string): Icon
  {
    match status
    case "pending" => Icon(Clock, "text-yellow-600")
    case "confirmed" => Icon(CheckCircle, "text-green-600")
    case "delivered" => Icon(CheckCircle, "text-green-600")
    case "cancelled" => Icon(XCircle, "text-red-600")
    case _ => Icon(PackageBox, "text-gray-600")
  }

  /** "confirmed" and "delivered" share an icon; pending and cancelled each have
      their own; the package icon marks exactly the unknown statuses. */
  lemma StatusIcons(s: string)
    ensures StatusIcon("confirmed") == StatusIcon("delivered")
    ensures StatusIcon("pending") != StatusIcon("confirmed")
    ensures StatusIcon("cancelled") != StatusIcon("confirmed")
    ensures StatusIcon("pending") != StatusIcon("cancelled")
    ensures StatusIcon(s).shape == PackageBox <==> !KnownStatus(s)
  {
  }

  /** The order header's short id: the first eight characters of the order id. */
  function ShortId(orderId: string): (r: string)
    ensures |r| == if |orderId| < 8 then |orderId| else 8
    ensures r <= orderId
  {
    Prefix(orderId, 8)
  }
}
