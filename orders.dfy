/**
 * The order ledger of the drive-through service, as values: the menu, an order,
 * the decoded reply of the language model, the HTTP outcome of a request, and
 * pure functions that say what placing, cancelling, dispatching a reply and
 * totalling do to a ledger state. The class in module Backend is proved against
 * these functions; module OrderProperties proves what they promise.
 */
module Orders {
  import opened Wrappers

  /** The fixed menu (ORDER_ITEMS). */
  const Menu: set<string> := {"burger", "fries", "drink"}

  /** Names of the two functions offered to the model. */
  const PlaceOrderFn: string := "place_order"
  const CancelOrderFn: string := "cancel_order"

  /** Details of the two 400 responses. */
  const NoValidItems: string := "No valid items in order."
  const NotUnderstood: string := "Could not understand request."

  /** A stored order: its identifier and its item quantities. */
  datatype Order = Order(orderId: int, items: map<string, int>)

  /**
   * The function arguments after JSON decoding; a key the model left out is None
   * (reading it raises a KeyError in the service).
   */
  datatype Args = Args(items: Option<map<string, int>>, orderId: Option<int>)

  /** The model's reply: either a function call, or any other finish reason. */
  datatype Reply =
    | NoFunctionCall
    | FunctionCall(name: string, args: Args)

  /** What a POST /orders request answers. */
  datatype Response =
    | OrderPlaced(order: Order)     // 200, "Order placed! Order #<id>", with the order
    | OrderCancelled(orderId: int)  // 200, "Order #<id> cancelled."
    | BadRequest(detail: string)    // 400
    | NotFound(orderId: int)        // 404, "Order #<id> not found."
    | MissingArgument(key: string)  // unhandled KeyError: 500
  {
    predicate IsError() {
      !(OrderPlaced? || OrderCancelled?)
    }

    /** The HTTP status code: 400 or above exactly for the failures. */
    function Status(): (code: int)
      ensures code >= 400 <==> IsError()
    {
      match this
      case OrderPlaced(_) => 200
      case OrderCancelled(_) => 200
      case BadRequest(_) => 400
      case NotFound(_) => 404
      case MissingArgument(_) => 500
    }
  }

  /** The ledger: the list of current orders and the next identifier. */
  datatype State = State(orders: seq<Order>, counter: int)

  /** The ledger at process start. */
  const Initial: State := State([], 1)

  /** Identifiers strictly increase in list order. */
  ghost predicate IdsIncreasing(os: seq<Order>) {
    forall i, j :: 0 <= i < j < |os| ==> os[i].orderId < os[j].orderId
  }

  /** Every identifier was handed out already: at least 1 and below the counter. */
  ghost predicate IdsIssued(os: seq<Order>, counter: int) {
    forall i :: 0 <= i < |os| ==> 1 <= os[i].orderId < counter
  }

  /** An order holds at least one item, each with a positive quantity. */
  ghost predicate WellFormed(items: map<string, int>) {
    items != map[] && forall k :: k in items ==> items[k] > 0
  }

  /** The ledger invariant that every reachable state keeps. */
  ghost predicate Valid(s: State) {
    && s.counter >= 1
    && IdsIncreasing(s.orders)
    && IdsIssued(s.orders, s.counter)
    && (forall i :: 0 <= i < |s.orders| ==> WellFormed(s.orders[i].items))
  }

  /** The identifiers of the current orders. */
  ghost function Ids(os: seq<Order>): set<int> {
    set i | 0 <= i < |os| :: os[i].orderId
  }

  ghost predicate HasPositive(items: map<string, int>) {
    exists k :: k in items && items[k] > 0
  }

  /** The filter applied to the requested items before an order is stored. */
  function KeepPositive(items: map<string, int>): (kept: map<string, int>)
    ensures forall k :: k in kept <==> k in items && items[k] > 0
    ensures forall k :: k in kept ==> kept[k] == items[k]
    ensures kept == map[] <==> !HasPositive(items)
  {
    var kept := map k | k in items && items[k] > 0 :: items[k];
    assert forall k :: k in items && items[k] > 0 ==> k in kept;
    kept
  }

  /** The first position holding an order with identifier `id`, if any. */
  function IndexOf(os: seq<Order>, id: int): (r: Option<nat>)
    ensures r.Some? ==> r.value < |os| && os[r.value].orderId == id
    ensures r.Some? ==> forall k :: 0 <= k < r.value ==> os[k].orderId != id
    ensures r.None? <==> id !in Ids(os)
    decreases |os|
  {
    if os == [] then None
    else if os[0].orderId == id then Some(0)
    else
      match IndexOf(os[1..], id)
      case None =>
        assert Ids(os) == {os[0].orderId} + Ids(os[1..]) by {
          forall x | x in Ids(os) ensures x in {os[0].orderId} + Ids(os[1..]) {
            var i :| 0 <= i < |os| && os[i].orderId == x;
            if i > 0 { assert os[1..][i - 1] == os[i]; }
          }
        }
        None
      case Some(i) => Some(i + 1)
  }

  /** Placing an order with the requested quantities. */
  function ApplyPlace(s: State, items: map<string, int>): (r: (State, Response))
    ensures r.1.OrderPlaced? <==> HasPositive(items)
    ensures !r.1.OrderPlaced? ==> r == (s, BadRequest(NoValidItems))
    ensures r.1.OrderPlaced? ==>
      && r.1.order.orderId == s.counter
      && r.0.orders == s.orders + [r.1.order]
      && r.0.counter == s.counter + 1
      && WellFormed(r.1.order.items)
      && r.1.order.items.Keys <= items.Keys
      && (forall k :: k in r.1.order.items ==> r.1.order.items[k] == items[k])
      && (forall k :: k in r.1.order.items <==> k in items && items[k] > 0)
      && r.1.order.items == KeepPositive(items)
  {
    var kept := KeepPositive(items);
    if kept == map[] then
      (s, BadRequest(NoValidItems))
    else
      var order := Order(s.counter, kept);
      (State(s.orders + [order], s.counter + 1), OrderPlaced(order))
  }

  /** Cancelling the first order whose identifier is `id`. */
  function ApplyCancel(s: State, id: int): (r: (State, Response))
    ensures r.1 == if id in Ids(s.orders) then OrderCancelled(id) else NotFound(id)
    ensures r.1.NotFound? ==> r.0 == s
    ensures r.0.counter == s.counter
    ensures r.1.OrderCancelled? ==> |r.0.orders| == |s.orders| - 1
  {
    match IndexOf(s.orders, id)
    case None => (s, NotFound(id))
    case Some(i) => (State(s.orders[..i] + s.orders[i + 1..], s.counter), OrderCancelled(id))
  }

  /** Applying the model's decoded reply to the ledger. */
  function Dispatch(s: State, reply: Reply): (r: (State, Response))
    ensures r.1.IsError() ==> r.0 == s
    ensures r.0.counter == (if r.1.OrderPlaced? then s.counter + 1 else s.counter)
    ensures reply.NoFunctionCall? ==> r == (s, BadRequest(NotUnderstood))
    ensures reply.FunctionCall? && reply.name != PlaceOrderFn && reply.name != CancelOrderFn ==>
      r == (s, BadRequest(NotUnderstood))
    ensures reply.FunctionCall? && reply.name == PlaceOrderFn ==>
      r == if reply.args.items.Some? then ApplyPlace(s, reply.args.items.value)
           else (s, MissingArgument("items"))
    ensures reply.FunctionCall? && reply.name == CancelOrderFn ==>
      r == if reply.args.orderId.Some? then ApplyCancel(s, reply.args.orderId.value)
           else (s, MissingArgument("order_id"))
  {
    match reply
    case NoFunctionCall => (s, BadRequest(NotUnderstood))
    case FunctionCall(name, args) =>
      if name == PlaceOrderFn then
        match args.items
        case None => (s, MissingArgument("items"))
        case Some(items) => ApplyPlace(s, items)
      else if name == CancelOrderFn then
        match args.orderId
        case None => (s, MissingArgument("order_id"))
        case Some(id) => ApplyCancel(s, id)
      else
        (s, BadRequest(NotUnderstood))
  }

  /** The state after the replies are dispatched one after another. */
  function Run(s: State, replies: seq<Reply>): State
    decreases |replies|
  {
    if replies == [] then s else Run(Dispatch(s, replies[0]).0, replies[1..])
  }

  /** How many of `item` an order holds. */
  function Qty(o: Order, item: string): int {
    if item in o.items then o.items[item] else 0
  }

  /** The quantity of `item` summed over a list of orders. */
  function SumQty(os: seq<Order>, item: string): int
    decreases |os|
  {
    if os == [] then 0 else SumQty(os[..|os| - 1], item) + Qty(os[|os| - 1], item)
  }

  /** Every stored item is on the menu. */
  ghost predicate OnMenu(os: seq<Order>) {
    forall i :: 0 <= i < |os| ==> os[i].items.Keys <= Menu
  }

  /** Every menu item with its summed quantity. */
  function TotalMap(os: seq<Order>): map<string, int> {
    map m | m in Menu :: SumQty(os, m)
  }

  /**
   * The answer of GET /orders/total: the per-item totals, or None when a stored
   * item is off the menu (the service then fails with a KeyError).
   */
  ghost function Totals(os: seq<Order>): (r: Option<map<string, int>>)
    ensures r.Some? <==> OnMenu(os)
    ensures r.Some? ==> r.value.Keys == Menu
  {
    if OnMenu(os) then Some(TotalMap(os)) else None
  }
}
