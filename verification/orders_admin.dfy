/**
 * The admin order console: a text search over buyer name and order id, an
 * exact status filter, fixed pages of five orders with clamped Previous and
 * Next, and the local update after an admin changes an order's status.
 */
module OrdersAdmin {
  import opened Wrappers
  import opened Text
  import opened Seqs
  import opened Types
  import OrdersRoute

  const OrdersPerPage := 5

  // ---------------------------------------------------------------- filtering

  /** Buyer name contains the term ignoring case, or the id contains it as typed. */
  predicate MatchesSearch(o: Order, term: string) {
    Contains(ToLower(o.buyerName), ToLower(term)) || Contains(o.id, term)
  }

  /** No status filter, or the status equals it exactly (case included). */
  predicate MatchesStatus(o: Order, statusFilter: string) {
    statusFilter == "" || o.status == statusFilter
  }

  function Shown(term: string, statusFilter: string): Order -> bool {
    (o: Order) => MatchesSearch(o, term) && MatchesStatus(o, statusFilter)
  }

  function FilteredOrders(orders: seq<Order>, term: string, statusFilter: string): (r: seq<Order>)
    ensures forall i :: 0 <= i < |r| ==>
      r[i] in orders && MatchesSearch(r[i], term) && MatchesStatus(r[i], statusFilter)
    ensures forall i :: 0 <= i < |orders| && MatchesSearch(orders[i], term) && MatchesStatus(orders[i], statusFilter) ==>
      orders[i] in r
    ensures IsSubsequence(r, orders)
    ensures KeepsCopies(r, orders, Shown(term, statusFilter))
  {
    FilterCopies(orders, Shown(term, statusFilter));
    var r := Filter(orders, Shown(term, statusFilter));
    assert forall i :: 0 <= i < |r| ==> Shown(term, statusFilter)(r[i]);
    r
  }

  /** With an empty search term and no status filter every order is listed, in order. */
  lemma EmptyFiltersShowAll(orders: seq<Order>)
    ensures FilteredOrders(orders, "", "") == orders
  {
    forall i | 0 <= i < |orders|
      ensures Shown("", "")(orders[i])
    {
      ContainsEmpty(ToLower(orders[i].buyerName));
    }
    FilterKeepsAll(orders, Shown("", ""));
  }

  /** An order created without a status is stored as "pending", which the "Pending" filter does not match. */
  lemma DefaultStatusMissedByPendingFilter(o: Order, term: string)
    requires o.status == OrdersRoute.CreatedStatus(None)
    ensures !MatchesStatus(o, "Pending")
    ensures FilteredOrders([o], term, "Pending") == []
  {
  }

  // ---------------------------------------------------------------- pagination

  /** `Math.ceil(n / 5)`. */
  function TotalPages(n: nat): (pages: nat)
    ensures pages * OrdersPerPage >= n
    ensures pages == 0 || (pages - 1) * OrdersPerPage < n
    ensures pages == 0 <==> n == 0
  {
    (n + OrdersPerPage - 1) / OrdersPerPage
  }

  function Min(a: int, b: int): int {
    if a < b then a else b
  }

  function Max(a: int, b: int): int {
    if a < b then b else a
  }

  /** `filtered.slice((page - 1) * 5, page * 5)`. */
  function PageOf(filtered: seq<Order>, page: int): (r: seq<Order>)
    ensures page >= 1 ==>
      && r == filtered[Min((page - 1) * OrdersPerPage, |filtered|)..Min(page * OrdersPerPage, |filtered|)]
      && |r| <= OrdersPerPage
  {
    Slice(filtered, (page - 1) * OrdersPerPage, page * OrdersPerPage)
  }

  /** A page from 1 on has orders exactly when it is no later than the last page. */
  lemma PageNonEmptyIff(filtered: seq<Order>, page: int)
    requires page >= 1
    ensures |PageOf(filtered, page)| > 0 <==> page <= TotalPages(|filtered|)
  {
  }

  /** Pages 1 to k laid end to end. */
  function PagesUpTo(filtered: seq<Order>, k: nat): seq<Order>
    decreases k
  {
    if k == 0 then [] else PagesUpTo(filtered, k - 1) + PageOf(filtered, k)
  }

  lemma {:induction false} PagesUpToIsPrefix(filtered: seq<Order>, k: nat)
    ensures PagesUpTo(filtered, k) == filtered[..Min(k * OrdersPerPage, |filtered|)]
    decreases k
  {
    if k > 0 {
      PagesUpToIsPrefix(filtered, k - 1);
      var a := Min((k - 1) * OrdersPerPage, |filtered|);
      var b := Min(k * OrdersPerPage, |filtered|);
      assert filtered[..a] + filtered[a..b] == filtered[..b];
    }
  }

  /** The pages 1..totalPages, read in turn, list every filtered order exactly once and in order. */
  lemma PagesCoverFiltered(filtered: seq<Order>)
    ensures PagesUpTo(filtered, TotalPages(|filtered|)) == filtered
  {
    PagesUpToIsPrefix(filtered, TotalPages(|filtered|));
  }

  /** Previous: `Math.max(page - 1, 1)`. */
  function PreviousPage(page: int): int {
    Max(page - 1, 1)
  }

  /** Next: `Math.min(page + 1, totalPages)`. */
  function NextPage(page: int, totalPages: int): int {
    Min(page + 1, totalPages)
  }

  /**
   * The controls only render while the current page has orders; from such a
   * page Previous and Next both land on a page in [1, totalPages] that has orders.
   */
  lemma NavigationStaysInRange(filtered: seq<Order>, page: int)
    requires page >= 1 && |PageOf(filtered, page)| > 0
    ensures var total := TotalPages(|filtered|);
      && 1 <= PreviousPage(page) <= total && |PageOf(filtered, PreviousPage(page))| > 0
      && 1 <= NextPage(page, total) <= total && |PageOf(filtered, NextPage(page, total))| > 0
      && PreviousPage(page) <= page <= NextPage(page, total)
  {
    PageNonEmptyIff(filtered, page);
    PageNonEmptyIff(filtered, PreviousPage(page));
    PageNonEmptyIff(filtered, NextPage(page, TotalPages(|filtered|)));
  }

  // ---------------------------------------------------------------- view state

  datatype AdminView = AdminView(
    orders: seq<Order>,
    searchTerm: string,
    statusFilter: string,
    currentPage: int,
    updatingOrderId: Option<string>,
    statusLoading: bool,
    loading: bool,
    error: bool)

  const InitialView := AdminView([], "", "", 1, None, false, false, false)

  function Filtered(v: AdminView): seq<Order> {
    FilteredOrders(v.orders, v.searchTerm, v.statusFilter)
  }

  /** The orders on the current page. */
  function Displayed(v: AdminView): (r: seq<Order>)
    ensures v.currentPage >= 1 ==> |r| <= OrdersPerPage
  {
    PageOf(Filtered(v), v.currentPage)
  }

  /** Previous/Next render only when the current page has orders. */
  predicate ControlsShown(v: AdminView) {
    |Displayed(v)| > 0
  }

  /** Typing in the search box stores the term and goes back to page 1. */
  function SetSearchTerm(v: AdminView, term: string): (r: AdminView)
    ensures r.searchTerm == term && r.currentPage == 1
    ensures r.(searchTerm := v.searchTerm, currentPage := v.currentPage) == v
  {
    v.(searchTerm := term, currentPage := 1)
  }

  /** Choosing a status stores it and goes back to page 1. */
  function SetStatusFilter(v: AdminView, status: string): (r: AdminView)
    ensures r.statusFilter == status && r.currentPage == 1
    ensures r.(statusFilter := v.statusFilter, currentPage := v.currentPage) == v
  {
    v.(statusFilter := status, currentPage := 1)
  }

  function ClickPrevious(v: AdminView): AdminView {
    v.(currentPage := PreviousPage(v.currentPage))
  }

  function ClickNext(v: AdminView): AdminView {
    v.(currentPage := NextPage(v.currentPage, TotalPages(|Filtered(v)|)))
  }

  /** The page number never drops below 1 under any of the page-changing events. */
  lemma PageStaysPositive(v: AdminView, term: string, status: string)
    requires v.currentPage >= 1
    ensures SetSearchTerm(v, term).currentPage >= 1
    ensures SetStatusFilter(v, status).currentPage >= 1
    ensures ClickPrevious(v).currentPage >= 1
    ensures ControlsShown(v) ==> ClickNext(v).currentPage >= 1 && ControlsShown(ClickNext(v))
  {
    if ControlsShown(v) {
      NavigationStaysInRange(Filtered(v), v.currentPage);
    }
  }

  /** Loading the list: the orders from a successful GET, otherwise the error flag. */
  function FetchOrders(v: AdminView, response: Option<OrdersRoute.GetResponse>): (r: AdminView)
    ensures !r.loading
    ensures (response.Some? && response.value.Orders?) ==> r.orders == response.value.orders && r.error == v.error
    ensures !(response.Some? && response.value.Orders?) ==> r.orders == v.orders && r.error
    ensures r.(orders := v.orders, error := v.error, loading := v.loading) == v
  {
    if response.Some? && response.value.Orders? then v.(orders := response.value.orders, loading := false)
    else v.(error := true, loading := false)
  }

  /**
   * With no orders stored, the GET answers 404 and the console shows its load
   * error, not an empty table; a query that throws (500) shows the same error.
   */
  lemma EmptyStoreShowsLoadError(v: AdminView, store: seq<Order>)
    ensures FetchOrders(v, Some(OrdersRoute.Get([], true))).error
    ensures FetchOrders(v, Some(OrdersRoute.Get(store, false))).error
    ensures FetchOrders(v, Some(OrdersRoute.Get(store, false))).orders == v.orders
  {
  }

  /**
   * Status drop-down. After a successful PUT only the status of the orders
   * with that id changes; a failed PUT changes nothing. Either way the
   * update marker is cleared and the error flag ends false.
   */
  function UpdateOrderStatus(v: AdminView, id: string, status: string, requestOk: bool): (r: AdminView)
    ensures r.updatingOrderId.None? && !r.statusLoading && !r.error
    ensures |r.orders| == |v.orders|
    ensures forall i :: 0 <= i < |v.orders| ==> r.orders[i].(status := v.orders[i].status) == v.orders[i]
    ensures forall i :: 0 <= i < |v.orders| ==>
      r.orders[i].status == (if requestOk && v.orders[i].id == id then status else v.orders[i].status)
    ensures r.searchTerm == v.searchTerm && r.statusFilter == v.statusFilter && r.currentPage == v.currentPage
    ensures r.loading == v.loading
  {
    var orders :=
      if requestOk then
        seq(|v.orders|, i requires 0 <= i < |v.orders| =>
          (if v.orders[i].id == id then v.orders[i].(status := status) else v.orders[i]))
      else v.orders;
    v.(orders := orders, updatingOrderId := None, statusLoading := false, error := false)
  }

  /** No transition rule exists: a delivered order can be set back to pending. */
  lemma StatusCanMoveBackwards(o: Order)
    requires o.status == "Delivered"
    ensures UpdateOrderStatus(InitialView.(orders := [o]), o.id, "Pending", true).orders[0].status == "Pending"
  {
  }

  /** With an empty search term, every order whose status equals the filter is listed. */
  lemma {:induction false} StatusFilterKeepsMatching(orders: seq<Order>, status: string)
    requires forall i :: 0 <= i < |orders| ==> orders[i].status == status
    ensures FilteredOrders(orders, "", status) == orders
  {
    forall i | 0 <= i < |orders|
      ensures Shown("", status)(orders[i])
    {
      ContainsEmpty(ToLower(orders[i].buyerName));
    }
    FilterKeepsAll(orders, Shown("", status));
  }

  /** Dropping the last order out of the filter leaves exactly the earlier ones listed. */
  lemma FilterDropsRelabelled(five: seq<Order>, moved: Order)
    requires forall i :: 0 <= i < |five| ==> five[i].status == "Pending"
    requires moved.status != "Pending"
    ensures FilteredOrders(five + [moved], "", "Pending") == five
  {
    FilterConcat(five, [moved], Shown("", "Pending"));
    StatusFilterKeepsMatching(five, "Pending");
    assert Filter([moved], Shown("", "Pending")) == [];
  }

  /** The scenario below: five pending orders and a sixth, filtered by "Pending", on page 2. */
  function StrandScenario(five: seq<Order>, last: Order): AdminView {
    InitialView.(orders := five + [last], statusFilter := "Pending", currentPage := 2)
  }

  lemma StrandScenarioShown(five: seq<Order>, last: Order)
    requires |five| == OrdersPerPage
    requires forall i :: 0 <= i < |five| ==> five[i].status == "Pending"
    requires last.status == "Pending"
    ensures ControlsShown(StrandScenario(five, last))
  {
    var v := StrandScenario(five, last);
    StatusFilterKeepsMatching(v.orders, "Pending");
    assert |Displayed(v)| == 1;
  }

  lemma StrandScenarioRelabel(five: seq<Order>, last: Order)
    requires forall i :: 0 <= i < |five| ==> five[i].id != last.id
    ensures UpdateOrderStatus(StrandScenario(five, last), last.id, "Delivered", true).orders
         == five + [last.(status := "Delivered")]
  {
  }

  /**
   * Under a status filter, re-labelling the only order on the last page empties
   * that page: the table and the Previous/Next controls disappear although
   * page 1 still holds five orders.
   */
  lemma UpdateCanStrandLastPage(five: seq<Order>, last: Order)
    requires |five| == OrdersPerPage
    requires forall i :: 0 <= i < |five| ==> five[i].status == "Pending" && five[i].id != last.id
    requires last.status == "Pending"
    ensures ControlsShown(StrandScenario(five, last))
    ensures !ControlsShown(UpdateOrderStatus(StrandScenario(five, last), last.id, "Delivered", true))
    ensures |Filtered(UpdateOrderStatus(StrandScenario(five, last), last.id, "Delivered", true))| == OrdersPerPage
  {
    StrandScenarioShown(five, last);
    StrandScenarioRelabel(five, last);
    var r := UpdateOrderStatus(StrandScenario(five, last), last.id, "Delivered", true);
    FilterDropsRelabelled(five, last.(status := "Delivered"));
    assert Filtered(r) == five;
    assert |Displayed(r)| == 0;
  }
}
