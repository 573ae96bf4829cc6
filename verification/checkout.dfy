/**
 * The path from the order form to the order endpoint: Place Order posts the
 * whole form as JSON, with no status field, and the endpoint re-prices it.
 */
module Checkout {
  import opened Wrappers
  import opened Types
  import OrderForm
  import OrdersRoute

  /** One cart line as it appears in the posted JSON: its client price travels along. */
  function ToRequestLine(l: OrderForm.CartLine): OrdersRoute.RequestLine {
    OrdersRoute.RequestLine(l.productId, l.quantity, Some(l.price))
  }

  /** The JSON body `axios.post` sends for a form. */
  function ToRequest(f: OrderForm.Form): (req: OrdersRoute.OrderRequest)
    ensures req.items.Some? && |req.items.value| == |f.items|
    ensures forall i :: 0 <= i < |f.items| ==>
      req.items.value[i].productId == f.items[i].productId && req.items.value[i].quantity == f.items[i].quantity
    ensures req.buyerName == Some(f.buyerName) && req.buyerContact == Some(f.buyerContact)
    ensures req.deliveryAddress == Some(f.deliveryAddress)
    ensures forall i :: 0 <= i < |f.items| ==> req.items.value[i].clientPrice == Some(f.items[i].price)
    ensures req.status.None?
  {
    OrdersRoute.OrderRequest(Some(f.buyerName), Some(f.buyerContact), Some(f.deliveryAddress),
      Some(seq(|f.items|, i requires 0 <= i < |f.items| => ToRequestLine(f.items[i]))), None)
  }

  /** Whatever the form posts passes the endpoint's presence check. */
  lemma PostedFormPassesServerCheck(f: OrderForm.Form, isSignedIn: bool, requestOk: bool)
    requires OrderForm.Submit(f, isSignedIn, requestOk).posted.Some?
    ensures OrdersRoute.HasRequiredFields(ToRequest(OrderForm.Submit(f, isSignedIn, requestOk).posted.value))
  {
  }

  /**
   * A posted form whose products all resolve in the catalogue is stored as
   * "pending", with every line priced at the catalogue price times its
   * quantity, whatever prices the form carried.
   */
  lemma PostedFormStoredAtCataloguePrices(
    f: OrderForm.Form, store: seq<Order>, catalogue: OrdersRoute.Catalogue, failing: OrdersRoute.FailingLookups,
    newId: string, now: string)
    requires OrderForm.Submit(f, true, true).posted.Some?
    requires forall i :: 0 <= i < |f.items| ==> OrdersRoute.Resolves(f.items[i].productId, catalogue, failing)
    ensures
      var r := OrdersRoute.Post(store, ToRequest(f), catalogue, failing, newId, now, true);
      && r.response.Created?
      && r.response.order.status == DefaultStatus
      && |r.response.order.items| == |f.items|
      && forall i :: 0 <= i < |f.items| ==>
           r.response.order.items[i].totalPrice
             == catalogue[f.items[i].productId].price * f.items[i].quantity
  {
  }
}
