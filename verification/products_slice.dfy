/**
 * The product list store: one state record changed by the three outcomes of
 * the product fetch (started, succeeded with a payload, failed).
 */
module ProductsSlice {
  import opened Wrappers
  import opened Types

  datatype ProductState = ProductState(items: seq<Product>, loading: bool, error: Option<string>)

  const InitialState := ProductState([], false, None)

  const FetchFailedMessage := "Failed to fetch products"

  datatype FetchAction = Pending | Fulfilled(payload: seq<Product>) | Rejected

  function Reduce(s: ProductState, a: FetchAction): (r: ProductState)
    ensures a.Pending? ==> r.loading && r.error.None? && r.items == s.items
    ensures a.Fulfilled? ==> !r.loading && r.items == a.payload && r.error == s.error
    ensures a.Rejected? ==> !r.loading && r.error == Some(FetchFailedMessage) && r.items == s.items
  {
    match a
    case Pending => s.(loading := true, error := None)
    case Fulfilled(payload) => s.(loading := false, items := payload)
    case Rejected => s.(loading := false, error := Some(FetchFailedMessage))
  }

  /** The state after the actions in order, starting from `s`. */
  function Replay(s: ProductState, actions: seq<FetchAction>): ProductState
    decreases |actions|
  {
    if |actions| == 0 then s else Reduce(Replay(s, actions[..|actions| - 1]), actions[|actions| - 1])
  }

  /** Reference: the payload of the latest successful fetch, or `fallback` if none succeeded. */
  function LatestPayload(actions: seq<FetchAction>, fallback: seq<Product>): seq<Product>
    decreases |actions|
  {
    if |actions| == 0 then fallback
    else if actions[|actions| - 1].Fulfilled? then actions[|actions| - 1].payload
    else LatestPayload(actions[..|actions| - 1], fallback)
  }

  /** Reference: a failure was recorded and no fetch has started since. */
  predicate FailedSinceLastStart(actions: seq<FetchAction>, startedFailed: bool)
    decreases |actions|
  {
    if |actions| == 0 then startedFailed
    else if actions[|actions| - 1].Rejected? then true
    else if actions[|actions| - 1].Pending? then false
    else FailedSinceLastStart(actions[..|actions| - 1], startedFailed)
  }

  /**
   * From the initial state, after any run of fetch outcomes: the list is the
   * latest payload, the store is loading exactly when the last event was a
   * start, and it shows the error exactly when a failure came after the last start.
   */
  lemma {:induction false} ReplayFromInitial(actions: seq<FetchAction>)
    ensures Replay(InitialState, actions).items == LatestPayload(actions, [])
    ensures Replay(InitialState, actions).loading <==> |actions| > 0 && actions[|actions| - 1].Pending?
    ensures Replay(InitialState, actions).error ==
      (if FailedSinceLastStart(actions, false) then Some(FetchFailedMessage) else None)
    decreases |actions|
  {
    if |actions| > 0 {
      ReplayFromInitial(actions[..|actions| - 1]);
    }
  }

  /** A start followed by a success leaves the payload shown with no spinner and no error. */
  lemma PendingThenFulfilled(s: ProductState, payload: seq<Product>)
    ensures Reduce(Reduce(s, Pending), Fulfilled(payload)) == ProductState(payload, false, None)
  {
  }

  /** A failed fetch keeps the previous list on screen. */
  lemma RejectedKeepsItems(s: ProductState)
    ensures Replay(s, [Pending, Rejected]).items == s.items
  {
    assert [Pending, Rejected][..1] == [Pending];
    assert [Pending][..0] == [];
  }
}
