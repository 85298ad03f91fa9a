/** The order-submission reducer (`ordersSlice`): flags `loading` and
    `orderClaim`, the error text, the last order and an `orderId` that no
    case writes. `Reduce` is the reducer as a function of the state and the
    action; the class `OrdersState` is the Immer draft its case reducers
    assign field by field. */
module OrdersHistorySlice {
  import opened Types

  /** The texts the rejected cases fall back on when the payload is empty. */
  const CreateOrderFallback := "Failed to create order"
  const RetrieveOrderFallback := "Failed to retrieve order"

  datatype OrdersSnapshot = OrdersSnapshot(
    orderDetails: Option<Order>,
    loading: bool,
    orderClaim: bool,
    orderError: Option<string>,
    orderId: Option<string>)

  const InitialState := OrdersSnapshot(None, false, false, None, None)

  /** The actions the slice handles: `clearOrders` and the lifecycle of the
      two thunks. A rejected payload is `None` when the action carries none;
      `RetrieveFulfilled` carries the `orders` list of the response. */
  datatype OrdersAction =
    | Clear
    | FetchPending
    | FetchFulfilled(order: Order)
    | FetchRejected(payload: Option<string>)
    | RetrievePending
    | RetrieveFulfilled(orders: seq<Order>)
    | RetrieveRejected(payload: Option<string>)
  {
    predicate IsPending() { FetchPending? || RetrievePending? }
    predicate IsRejected() { FetchRejected? || RetrieveRejected? }
    /** Actions of `clearOrders` and `fetchOrders` only. */
    predicate IsCreateFlow() { Clear? || FetchPending? || FetchFulfilled? || FetchRejected? }
  }

  /** `(action.payload as string) || fallback`: the payload unless it is
      absent or empty. */
  function MessageOrFallback(payload: Option<string>, fallback: string): (r: string)
    ensures fallback != "" ==> r != ""
    ensures r == fallback || payload == Some(r)
    ensures payload.Some? && payload.value != "" ==> r == payload.value
  {
    if payload.Some? && payload.value != "" then payload.value else fallback
  }

  /** The slice reducer. */
  function Reduce(s: OrdersSnapshot, a: OrdersAction): (r: OrdersSnapshot)
    ensures r.orderId == s.orderId
    ensures r.loading <==> a.IsPending()
    ensures r.orderClaim <==> a.IsPending() || a.RetrieveFulfilled?
    ensures r.orderError.Some? <==> a.IsRejected()
    ensures r.orderError.Some? ==> r.orderError.value != ""
    ensures a.IsPending() || a.IsRejected() ==> r.orderDetails == s.orderDetails
  {
    match a
    case Clear =>
      s.(orderDetails := None, loading := false, orderClaim := false, orderError := None)
    case FetchPending =>
      s.(loading := true, orderClaim := true, orderError := None)
    case FetchFulfilled(order) =>
      s.(orderDetails := Some(order), loading := false, orderClaim := false, orderError := None)
    case FetchRejected(payload) =>
      s.(orderClaim := false, loading := false,
         orderError := Some(MessageOrFallback(payload, CreateOrderFallback)))
    case RetrievePending =>
      s.(orderClaim := true, loading := true, orderError := None)
    case RetrieveFulfilled(orders) =>
      s.(loading := false, orderClaim := true,
         orderDetails := if |orders| > 0 then Some(orders[0]) else None,
         orderError := None)
    case RetrieveRejected(payload) =>
      s.(orderClaim := false, loading := false,
         orderError := Some(MessageOrFallback(payload, RetrieveOrderFallback)))
  }

  /** The state after dispatching `actions` in order. */
  function Run(s: OrdersSnapshot, actions: seq<OrdersAction>): OrdersSnapshot
    decreases |actions|
  {
    if actions == [] then s else Run(Reduce(s, actions[0]), actions[1..])
  }

  /** `clearOrders` restores the initial values of every field but `orderId`,
      whatever the state, so applying it twice is applying it once. */
  lemma ClearOrdersResets(s: OrdersSnapshot)
    ensures Reduce(s, Clear) == InitialState.(orderId := s.orderId)
    ensures Reduce(Reduce(s, Clear), Clear) == Reduce(s, Clear)
  {
  }

  /** No action writes `orderId`. */
  lemma {:induction false} OrderIdNeverWritten(s: OrdersSnapshot, actions: seq<OrdersAction>)
    ensures Run(s, actions).orderId == s.orderId
    decreases |actions|
  {
    if actions != [] {
      OrderIdNeverWritten(Reduce(s, actions[0]), actions[1..]);
    }
  }

  /** From the initial state `orderId` stays absent. */
  lemma OrderIdStaysNull(actions: seq<OrdersAction>)
    ensures Run(InitialState, actions).orderId == None
  {
    OrderIdNeverWritten(InitialState, actions);
  }

  /** Using only `clearOrders` and `fetchOrders.*`, `loading == orderClaim`
      holds in every state reached from one where it holds. */
  lemma {:induction false} CreateFlowKeepsLoadingWithClaim(s: OrdersSnapshot, actions: seq<OrdersAction>)
    requires s.loading == s.orderClaim
    requires forall i :: 0 <= i < |actions| ==> actions[i].IsCreateFlow()
    ensures Run(s, actions).loading == Run(s, actions).orderClaim
    decreases |actions|
  {
    if actions != [] {
      CreateFlowKeepsLoadingWithClaim(Reduce(s, actions[0]), actions[1..]);
    }
  }

  /** `retrieveOrderByNumber.fulfilled` breaks that invariant: it clears
      `loading` but leaves `orderClaim` set. */
  lemma RetrieveBreaksLoadingWithClaim(o: Order)
    ensures var r := Run(InitialState, [RetrievePending, RetrieveFulfilled([o])]);
      !r.loading && r.orderClaim && r.orderDetails == Some(o)
  {
    var actions := [RetrievePending, RetrieveFulfilled([o])];
    var s1 := Reduce(InitialState, RetrievePending);
    assert actions[1..] == [RetrieveFulfilled([o])];
    assert Run(InitialState, actions) == Run(s1, [RetrieveFulfilled([o])]);
    assert Run(s1, [RetrieveFulfilled([o])]) == Reduce(s1, RetrieveFulfilled([o]));
  }

  /** The reducer reads the rejection's payload, not `error.message`: a
      rejection that carries no payload shows the fallback text. */
  lemma RejectionWithoutPayloadFallsBack(s: OrdersSnapshot)
    ensures Reduce(s, FetchRejected(None)).orderError == Some(CreateOrderFallback)
    ensures Reduce(s, RetrieveRejected(Some(""))).orderError == Some(RetrieveOrderFallback)
  {
  }

  /** The Immer draft of the slice state. */
  class OrdersState {
    var orderDetails: Option<Order>
    var loading: bool
    var orderClaim: bool
    var orderError: Option<string>
    var orderId: Option<string>

    function Snapshot(): OrdersSnapshot
      reads this
    {
      OrdersSnapshot(orderDetails, loading, orderClaim, orderError, orderId)
    }

    constructor ()
      ensures Snapshot() == InitialState
    {
      orderDetails := None;
      loading := false;
      orderClaim := false;
      orderError := None;
      orderId := None;
    }

    /** `selectOrders`, `selectquery`, `selectOrderError`. */
    function SelectOrders(): Option<Order> reads this { orderDetails }
    function SelectQuery(): bool reads this { orderClaim }
    function SelectOrderError(): Option<string> reads this { orderError }

    method ClearOrders()
      modifies this
      ensures orderDetails == None && !loading && !orderClaim && orderError == None
      ensures orderId == old(orderId)
    {
      orderDetails := None;
      loading := false;
      orderClaim := false;
      orderError := None;
    }

    method OnFetchPending()
      modifies this
      ensures loading && orderClaim && orderError == None
      ensures orderDetails == old(orderDetails) && orderId == old(orderId)
    {
      loading := true;
      orderClaim := true;
      orderError := None;
    }

    method OnFetchFulfilled(order: Order)
      modifies this
      ensures orderDetails == Some(order) && !loading && !orderClaim && orderError == None
      ensures orderId == old(orderId)
    {
      orderDetails := Some(order);
      loading := false;
      orderClaim := false;
      orderError := None;
    }

    method OnFetchRejected(payload: Option<string>)
      modifies this
      ensures !loading && !orderClaim
      ensures orderError == Some(if payload.Some? && payload.value != "" then payload.value else CreateOrderFallback)
      ensures orderDetails == old(orderDetails) && orderId == old(orderId)
    {
      orderClaim := false;
      loading := false;
      orderError := Some(MessageOrFallback(payload, CreateOrderFallback));
    }

    method OnRetrievePending()
      modifies this
      ensures loading && orderClaim && orderError == None
      ensures orderDetails == old(orderDetails) && orderId == old(orderId)
    {
      orderClaim := true;
      loading := true;
      orderError := None;
    }

    /** `action.payload.orders[0]`; an empty list yields `undefined`, which
        the model writes as `None`. */
    method OnRetrieveFulfilled(orders: seq<Order>)
      modifies this
      ensures !loading && orderClaim && orderError == None
      ensures orderDetails == if |orders| > 0 then Some(orders[0]) else None
      ensures orderId == old(orderId)
    {
      loading := false;
      orderClaim := true;
      orderDetails := if |orders| > 0 then Some(orders[0]) else None;
      orderError := None;
    }

    method OnRetrieveRejected(payload: Option<string>)
      modifies this
      ensures !loading && !orderClaim
      ensures orderError == Some(if payload.Some? && payload.value != "" then payload.value else RetrieveOrderFallback)
      ensures orderDetails == old(orderDetails) && orderId == old(orderId)
    {
      orderClaim := false;
      loading := false;
      orderError := Some(MessageOrFallback(payload, RetrieveOrderFallback));
    }

    /** The slice reducer: route the action to its case reducer. */
    method Dispatch(a: OrdersAction)
      modifies this
      ensures Snapshot() == Reduce(old(Snapshot()), a)
    {
      match a
      case Clear => ClearOrders();
      case FetchPending => OnFetchPending();
      case FetchFulfilled(order) => OnFetchFulfilled(order);
      case FetchRejected(payload) => OnFetchRejected(payload);
      case RetrievePending => OnRetrievePending();
      case RetrieveFulfilled(orders) => OnRetrieveFulfilled(orders);
      case RetrieveRejected(payload) => OnRetrieveRejected(payload);
    }
  }
}
