/**
 * The orders endpoint. POST checks that the buyer fields and the item list
 * are present, prices every line from the catalogue (ignoring any price the
 * client sent), and stores the order only after every line has been priced.
 * A lookup or a store call that throws is answered 500. GET returns the
 * stored orders, 404 when there are none, or 500 when the query throws.
 */
module OrdersRoute {
  import opened Wrappers
  import opened Types

  /** One requested line as posted; only `productId` and `quantity` are read. */
  datatype RequestLine = RequestLine(productId: string, quantity: int, clientPrice: Option<int>)

  /** The posted JSON body; an absent field is None. */
  datatype OrderRequest = OrderRequest(
    buyerName: Option<string>,
    buyerContact: Option<string>,
    deliveryAddress: Option<string>,
    items: Option<seq<RequestLine>>,
    status: Option<string>)

  /** The catalogue as seen by `findById`: the ids it returns a product for. */
  type Catalogue = map<string, Product>

  /**
   * The ids whose `findById` throws instead of answering (a string that is
   * not an ObjectId, or a failing database); checked before the catalogue.
   */
  type FailingLookups = set<string>

  /** A string field is truthy when it is present and not empty. */
  predicate Truthy(s: Option<string>) {
    s.Some? && s.value != ""
  }

  /** The presence check in front of pricing; an empty item list is an array, which is truthy. */
  predicate HasRequiredFields(req: OrderRequest) {
    Truthy(req.buyerName) && Truthy(req.buyerContact) && Truthy(req.deliveryAddress) && req.items.Some?
  }

  /** `findById(id)` answers with a product. */
  predicate Resolves(id: string, catalogue: Catalogue, failing: FailingLookups) {
    id !in failing && id in catalogue
  }

  predicate AllKnown(lines: seq<RequestLine>, catalogue: Catalogue, failing: FailingLookups) {
    forall i :: 0 <= i < |lines| ==> Resolves(lines[i].productId, catalogue, failing)
  }

  /**
   * The outcome of the pricing loop: every line priced, or the id it stopped
   * at, with `threw` telling a throwing lookup from a null answer.
   */
  datatype Pricing = Priced(items: seq<OrderItem>) | Stopped(productId: string, threw: bool)

  /** Prices the lines in order, stopping at the first product whose lookup throws or finds nothing. */
  function PriceLines(lines: seq<RequestLine>, catalogue: Catalogue, failing: FailingLookups): (r: Pricing)
    ensures r.Priced? <==> AllKnown(lines, catalogue, failing)
    ensures r.Priced? ==> |r.items| == |lines|
    ensures r.Priced? ==> forall i :: 0 <= i < |lines| ==>
      var p := catalogue[lines[i].productId];
      r.items[i] == OrderItem(lines[i].productId, p.name, lines[i].quantity, p.price * lines[i].quantity)
    ensures r.Stopped? ==>
      && !Resolves(r.productId, catalogue, failing)
      && (r.threw <==> r.productId in failing)
      && exists k :: 0 <= k < |lines| && lines[k].productId == r.productId && AllKnown(lines[..k], catalogue, failing)
    decreases |lines|
  {
    if |lines| == 0 then Priced([])
    else
      var line := lines[0];
      if !Resolves(line.productId, catalogue, failing) then
        assert AllKnown(lines[..0], catalogue, failing);
        Stopped(line.productId, line.productId in failing)
      else
        var p := catalogue[line.productId];
        var item := OrderItem(line.productId, p.name, line.quantity, p.price * line.quantity);
        match PriceLines(lines[1..], catalogue, failing)
        case Priced(rest) =>
          assert forall i :: 1 <= i < |lines| ==> lines[i] == lines[1..][i - 1];
          Priced([item] + rest)
        case Stopped(id, threw) =>
          var k :| 0 <= k < |lines[1..]| && lines[1..][k].productId == id && AllKnown(lines[1..][..k], catalogue, failing);
          assert lines[..k + 1] == [line] + lines[1..][..k];
          assert lines[k + 1].productId == id;
          Stopped(id, threw)
  }

  /** The first product that does not resolve is the one reported. */
  lemma PriceLinesReportsFirstUnknown(lines: seq<RequestLine>, catalogue: Catalogue, failing: FailingLookups, k: nat)
    requires k < |lines| && !Resolves(lines[k].productId, catalogue, failing) && AllKnown(lines[..k], catalogue, failing)
    ensures PriceLines(lines, catalogue, failing) == Stopped(lines[k].productId, lines[k].productId in failing)
  {
    var r := PriceLines(lines, catalogue, failing);
    var j :| 0 <= j < |lines| && lines[j].productId == r.productId && AllKnown(lines[..j], catalogue, failing);
  }

  /** Two requests that agree on product ids and quantities are priced identically, whatever prices they carry. */
  lemma {:induction false} PriceLinesIgnoresClientPrice(a: seq<RequestLine>, b: seq<RequestLine>, catalogue: Catalogue, failing: FailingLookups)
    requires |a| == |b|
    requires forall i :: 0 <= i < |a| ==> a[i].productId == b[i].productId && a[i].quantity == b[i].quantity
    ensures PriceLines(a, catalogue, failing) == PriceLines(b, catalogue, failing)
    decreases |a|
  {
    if |a| > 0 {
      PriceLinesIgnoresClientPrice(a[1..], b[1..], catalogue, failing);
    }
  }

  const MissingFieldsMessage := "Buyer details and items are required"
  const CreateFailedMessage := "Failed to create order"
  const NoOrdersMessage := "No orders found"
  const FetchFailedMessage := "Failed to fetch orders"

  function UnknownProductMessage(id: string): (m: string)
    ensures m != MissingFieldsMessage
  {
    var m := "Product with ID " + id + " does not exist";
    assert m[0] != MissingFieldsMessage[0];
    m
  }

  datatype PostResponse = Created(order: Order) | BadRequest(error: string) | ServerError(error: string) {
    function StatusCode(): int {
      match this
      case Created(_) => 200
      case BadRequest(_) => 400
      case ServerError(_) => 500
    }
  }

  /** The response and the order store after a POST. */
  datatype PostStep = PostStep(response: PostResponse, store: seq<Order>)

  /** The stored status: the client's, when it sent a non-empty one, otherwise "pending". */
  function CreatedStatus(requested: Option<string>): (s: string)
    ensures s != ""
    ensures Truthy(requested) ==> s == requested.value
    ensures !Truthy(requested) ==> s == DefaultStatus
  {
    if Truthy(requested) then requested.value else DefaultStatus
  }

  /**
   * POST /api/orders. `newId` and `now` are what the store assigns to a new
   * record; `failing` are the ids whose lookup throws; `storeOk` is whether
   * the store accepts the create. Every thrown error lands in the one catch,
   * which answers 500.
   */
  function Post(store: seq<Order>, req: OrderRequest, catalogue: Catalogue, failing: FailingLookups,
                newId: string, now: string, storeOk: bool): (r: PostStep)
    ensures r.response == BadRequest(MissingFieldsMessage) <==> !HasRequiredFields(req)
    ensures HasRequiredFields(req) && !AllKnown(req.items.value, catalogue, failing) ==>
      exists k :: 0 <= k < |req.items.value|
        && !Resolves(req.items.value[k].productId, catalogue, failing)
        && AllKnown(req.items.value[..k], catalogue, failing)
        && r.response == (if req.items.value[k].productId in failing then ServerError(CreateFailedMessage)
                          else BadRequest(UnknownProductMessage(req.items.value[k].productId)))
    ensures HasRequiredFields(req) && AllKnown(req.items.value, catalogue, failing) && !storeOk ==>
      r.response == ServerError(CreateFailedMessage)
    ensures r.response.Created? <==> HasRequiredFields(req) && AllKnown(req.items.value, catalogue, failing) && storeOk
    ensures r.response.ServerError? ==> r.response.error == CreateFailedMessage
    ensures r.response.Created? ==>
      var o := r.response.order;
      && r.store == store + [o]
      && o.id == newId && o.createdAt == now
      && o.buyerName == req.buyerName.value
      && o.buyerContact == req.buyerContact.value
      && o.deliveryAddress == req.deliveryAddress.value
      && o.status == CreatedStatus(req.status)
      && |o.items| == |req.items.value|
      && forall i :: 0 <= i < |o.items| ==>
           var line := req.items.value[i];
           o.items[i] == OrderItem(line.productId, catalogue[line.productId].name, line.quantity,
                                   catalogue[line.productId].price * line.quantity)
    ensures !r.response.Created? ==> r.store == store
  {
    if !HasRequiredFields(req) then PostStep(BadRequest(MissingFieldsMessage), store)
    else
      match PriceLines(req.items.value, catalogue, failing)
      case Stopped(id, threw) =>
        if threw then PostStep(ServerError(CreateFailedMessage), store)
        else PostStep(BadRequest(UnknownProductMessage(id)), store)
      case Priced(items) =>
        if !storeOk then PostStep(ServerError(CreateFailedMessage), store)
        else
          var o := Order(newId, req.buyerName.value, req.buyerContact.value, req.deliveryAddress.value,
                         items, CreatedStatus(req.status), now);
          PostStep(Created(o), store + [o])
  }

  /**
   * Only presence is checked: a malformed phone number and out-of-range
   * quantities are accepted, and so is an empty item list, which stores an
   * order with no lines.
   */
  lemma PostChecksPresenceOnly(store: seq<Order>, catalogue: Catalogue, failing: FailingLookups)
    requires Resolves("p1", catalogue, failing)
    ensures
      var req := OrderRequest(Some("Asha"), Some("not-a-phone"), Some("Market Road"),
                              Some([RequestLine("p1", 0, None), RequestLine("p1", 250, None)]), None);
      Post(store, req, catalogue, failing, "o1", "t0", true).response.Created?
    ensures
      var req := OrderRequest(Some("Asha"), Some("9876543210"), Some("Market Road"), Some([]), None);
      var r := Post(store, req, catalogue, failing, "o1", "t0", true);
      r.response.Created? && r.response.order.items == []
  {
  }

  /** Three units of a product priced 10 cost 30, even when the client claims a price of 1. */
  lemma PostPricingExample(store: seq<Order>)
    ensures
      var catalogue := map["P1" := Product("P1", "Tomatoes", 10)];
      var req := OrderRequest(Some("Asha"), Some("9876543210"), Some("Market Road"),
                              Some([RequestLine("P1", 3, Some(1))]), None);
      var r := Post(store, req, catalogue, {}, "o1", "t0", true);
      r.response.Created? && r.response.order.items == [OrderItem("P1", "Tomatoes", 3, 30)]
      && r.response.order.status == "pending"
  {
  }

  /** An id whose lookup throws is answered 500, not 400, even when a later line names an unknown product. */
  lemma PostLookupThrowsExample(store: seq<Order>)
    ensures
      var req := OrderRequest(Some("Asha"), Some("9876543210"), Some("Market Road"),
                              Some([RequestLine("bad-id", 1, None), RequestLine("P9", 1, None)]), None);
      Post(store, req, map[], {"bad-id"}, "o1", "t0", true).response == ServerError(CreateFailedMessage)
  {
  }

  /**
   * A product that does not resolve anywhere in the list rejects the whole
   * order and stores nothing: 400 when its lookup found nothing, 500 when it threw.
   */
  lemma PostIsAtomic(store: seq<Order>, req: OrderRequest, catalogue: Catalogue, failing: FailingLookups,
                     newId: string, now: string, storeOk: bool)
    requires HasRequiredFields(req)
    requires exists k :: 0 <= k < |req.items.value| && !Resolves(req.items.value[k].productId, catalogue, failing)
    ensures Post(store, req, catalogue, failing, newId, now, storeOk).store == store
    ensures Post(store, req, catalogue, failing, newId, now, storeOk).response.StatusCode() in {400, 500}
  {
  }

  datatype GetResponse = Orders(orders: seq<Order>) | NotFound(error: string) | FetchFailed(error: string) {
    function StatusCode(): int {
      match this
      case Orders(_) => 200
      case NotFound(_) => 404
      case FetchFailed(_) => 500
    }
  }

  /**
   * GET /api/orders: every stored order, 404 when the store is empty, 500
   * when the query throws (`findOk` false). The store is a sequence in
   * insertion order and the query returns it as it stands.
   */
  function Get(store: seq<Order>, findOk: bool): (r: GetResponse)
    ensures r.FetchFailed? <==> !findOk
    ensures r.FetchFailed? ==> r.error == FetchFailedMessage
    ensures r.NotFound? <==> findOk && |store| == 0
    ensures r.Orders? ==> r.orders == store
  {
    if !findOk then FetchFailed(FetchFailedMessage)
    else if |store| == 0 then NotFound(NoOrdersMessage) else Orders(store)
  }

  /** A successful POST is visible to the next successful GET, next to every earlier order. */
  lemma PostThenGet(store: seq<Order>, req: OrderRequest, catalogue: Catalogue, failing: FailingLookups,
                    newId: string, now: string)
    requires Post(store, req, catalogue, failing, newId, now, true).response.Created?
    ensures
      var step := Post(store, req, catalogue, failing, newId, now, true);
      Get(step.store, true) == Orders(store + [step.response.order])
  {
  }
}
