/**
 * The buyer's tracking page: the signed-in buyer's orders, cancellation of a
 * pending order, and the status messages. The search box records an id but
 * never narrows the list.
 */
module TrackOrders {
  import opened Wrappers
  import opened Text
  import opened Seqs
  import opened Types

  datatype TrackView = TrackView(
    orders: seq<Order>,
    filteredOrders: seq<Order>,
    searchId: string,
    loading: bool,
    cancelLoading: bool,
    error: string)

  const InitialView := TrackView([], [], "", false, false, "")

  const FetchFailedMessage := "Failed to fetch orders. Please try again."

  function PlacedBy(name: string): Order -> bool {
    (o: Order) => o.buyerName == name
  }

  /** The fetched orders whose buyer name equals the signed-in name exactly, in fetched order. */
  function BuyerOrders(data: seq<Order>, name: string): (r: seq<Order>)
    ensures forall i :: 0 <= i < |r| ==> r[i] in data && r[i].buyerName == name
    ensures forall i :: 0 <= i < |data| && data[i].buyerName == name ==> data[i] in r
    ensures IsSubsequence(r, data)
    ensures KeepsCopies(r, data, PlacedBy(name))
  {
    FilterCopies(data, PlacedBy(name));
    var r := Filter(data, PlacedBy(name));
    assert forall i :: 0 <= i < |r| ==> PlacedBy(name)(r[i]);
    r
  }

  /** Every order on the page belongs to `name`. */
  ghost predicate OnlyBuyer(orders: seq<Order>, name: string) {
    forall i :: 0 <= i < |orders| ==> orders[i].buyerName == name
  }

  /** Loading the page: both lists become the buyer's orders; a failed request sets the message instead. */
  function FetchOrders(v: TrackView, name: string, data: Option<seq<Order>>): (r: TrackView)
    ensures !r.loading
    ensures data.Some? ==>
      && r.orders == BuyerOrders(data.value, name) && r.filteredOrders == r.orders
      && r.error == "" && OnlyBuyer(r.filteredOrders, name)
    ensures data.None? ==>
      r.orders == v.orders && r.filteredOrders == v.filteredOrders && r.error == FetchFailedMessage
    ensures r.searchId == v.searchId && r.cancelLoading == v.cancelLoading
  {
    match data
    case Some(all) =>
      var mine := BuyerOrders(all, name);
      v.(orders := mine, filteredOrders := mine, error := "", loading := false)
    case None => v.(error := FetchFailedMessage, loading := false)
  }

  /** Typing an id only records it; the displayed list is untouched. */
  function Search(v: TrackView, id: string): (r: TrackView)
    ensures r.searchId == id
    ensures r.filteredOrders == v.filteredOrders && r.orders == v.orders
    ensures r.(searchId := v.searchId) == v
  {
    v.(searchId := id)
  }

  /** The Cancel link appears only for an order whose status reads "pending" in any letter case. */
  predicate CanCancel(o: Order) {
    ToLower(o.status) == "pending"
  }

  function NotId(id: string): Order -> bool {
    (o: Order) => o.id != id
  }

  function WithoutId(orders: seq<Order>, id: string): (r: seq<Order>)
    ensures forall i :: 0 <= i < |r| ==> r[i] in orders && r[i].id != id
    ensures forall i :: 0 <= i < |orders| && orders[i].id != id ==> orders[i] in r
    ensures IsSubsequence(r, orders)
    ensures KeepsCopies(r, orders, NotId(id))
  {
    FilterCopies(orders, NotId(id));
    var r := Filter(orders, NotId(id));
    assert forall i :: 0 <= i < |r| ==> NotId(id)(r[i]);
    r
  }

  /**
   * Cancel. A declined confirmation does nothing. A confirmed cancel whose
   * DELETE succeeds removes the orders with that id from both lists; a
   * failed DELETE leaves them. The busy flag is cleared at the end.
   */
  function CancelOrder(v: TrackView, id: string, confirmed: bool, requestOk: bool): (r: TrackView)
    ensures !confirmed ==> r == v
    ensures confirmed && requestOk ==>
      r.orders == WithoutId(v.orders, id) && r.filteredOrders == WithoutId(v.filteredOrders, id)
    ensures confirmed && !requestOk ==> r.orders == v.orders && r.filteredOrders == v.filteredOrders
    ensures confirmed ==> !r.cancelLoading && r.searchId == v.searchId && r.error == v.error
    ensures r.(orders := v.orders, filteredOrders := v.filteredOrders, cancelLoading := v.cancelLoading) == v
  {
    if !confirmed then v
    else if requestOk then
      v.(orders := WithoutId(v.orders, id), filteredOrders := WithoutId(v.filteredOrders, id), cancelLoading := false)
    else v.(cancelLoading := false)
  }

  /** A cancel keeps the page scoped to the buyer and removes the cancelled id completely. */
  lemma CancelKeepsBuyerScope(v: TrackView, name: string, id: string, confirmed: bool, requestOk: bool)
    requires OnlyBuyer(v.filteredOrders, name)
    ensures OnlyBuyer(CancelOrder(v, id, confirmed, requestOk).filteredOrders, name)
    ensures confirmed && requestOk ==>
      forall i :: 0 <= i < |CancelOrder(v, id, confirmed, requestOk).filteredOrders| ==>
        CancelOrder(v, id, confirmed, requestOk).filteredOrders[i].id != id
  {
    var r := CancelOrder(v, id, confirmed, requestOk);
    forall i | 0 <= i < |r.filteredOrders|
      ensures r.filteredOrders[i].buyerName == name
    {
      var k :| 0 <= k < |v.filteredOrders| && v.filteredOrders[k] == r.filteredOrders[i];
    }
  }

  /** Cancelling the same order twice has the effect of cancelling it once. */
  lemma CancelTwiceIsCancelOnce(v: TrackView, id: string)
    ensures CancelOrder(CancelOrder(v, id, true, true), id, true, true) == CancelOrder(v, id, true, true)
  {
    FilterIdempotent(v.orders, NotId(id));
    FilterIdempotent(v.filteredOrders, NotId(id));
  }

  /** Right after a load the two lists agree, and cancels and searches keep them in agreement. */
  lemma ListsStayInStep(v: TrackView, id: string, confirmed: bool, requestOk: bool, typed: string)
    requires v.orders == v.filteredOrders
    ensures CancelOrder(v, id, confirmed, requestOk).orders == CancelOrder(v, id, confirmed, requestOk).filteredOrders
    ensures Search(v, typed).orders == Search(v, typed).filteredOrders
  {
  }

  const ReceivedMessage := "Order has been received."
  const ProcessingMessage := "Order is being processed for delivery."
  const DeliveredMessage := "Order has been delivered successfully."
  const UnavailableMessage := "Order status is currently unavailable."

  /** The line under each order, chosen from the lower-cased status. */
  function StatusMessage(status: string): (m: string)
    ensures m == ReceivedMessage <==> ToLower(status) == "pending"
    ensures m == ProcessingMessage <==> ToLower(status) == "in progress"
    ensures m == DeliveredMessage <==> ToLower(status) == "delivered"
    ensures m == UnavailableMessage <==> ToLower(status) !in ["pending", "in progress", "delivered"]
  {
    match ToLower(status)
    case "pending" => ReceivedMessage
    case "in progress" => ProcessingMessage
    case "delivered" => DeliveredMessage
    case _ => UnavailableMessage
  }

  /** The orders a buyer may cancel are exactly those whose message says the order was received. */
  lemma CancellableIffReceived(o: Order)
    ensures CanCancel(o) <==> StatusMessage(o.status) == ReceivedMessage
  {
  }
}
