/**
 * The service's in-memory order store (the module-level `orders` list and
 * `order_counter`) as an object, with the endpoints that read it and the
 * place/cancel handler that changes it. Each method is proved against the
 * matching function of module Orders.
 */
module Backend {
  import opened Wrappers
  import opened Orders

  class Ledger {
    var orders: seq<Order>
    var counter: int

    /** The abstract value of the store. */
    function Snapshot(): State
      reads this
    {
      State(orders, counter)
    }

    ghost predicate Valid()
      reads this
    {
      Orders.Valid(Snapshot())
    }

    /** The store at process start: no orders, next identifier 1. */
    constructor ()
      ensures Valid()
      ensures Snapshot() == Initial
    {
      orders := [];
      counter := 1;
    }

    /** GET /orders: the current list, unchanged. */
    method GetOrders() returns (os: seq<Order>)
      ensures os == orders
      ensures Valid() ==> IdsIncreasing(os) && IdsIssued(os, counter)
    {
      os := orders;
    }

    /**
     * GET /orders/total: start every menu item at 0, then add every order's
     * quantities; an item off the menu fails the request.
     */
    method Total() returns (r: Option<map<string, int>>)
      ensures r == Totals(orders)
    {
      var total := map m | m in Menu :: 0;
      assert total == TotalMap(orders[..0]);
      var i := 0;
      while i < |orders|
        invariant 0 <= i <= |orders|
        invariant OnMenu(orders[..i])
        invariant total == TotalMap(orders[..i])
      {
        var items := orders[i].items;
        var pending := items.Keys;
        ghost var before := total;
        while pending != {}
          invariant pending <= items.Keys
          invariant items.Keys - pending <= Menu
          invariant total.Keys == Menu
          invariant forall m :: m in Menu ==>
            total[m] == before[m] + (if m in items && m !in pending then items[m] else 0)
          decreases pending
        {
          var item :| item in pending;
          if item !in total {
            assert !(orders[i].items.Keys <= Menu);
            return None;
          }
          total := total[item := total[item] + items[item]];
          pending := pending - {item};
        }
        assert orders[..i + 1][..i] == orders[..i];
        assert forall m :: m in Menu ==> total[m] == SumQty(orders[..i + 1], m);
        i := i + 1;
      }
      assert orders[..i] == orders;
      return Some(total);
    }

    /** The place_order branch: keep the positive quantities and append an order. */
    method Place(items: map<string, int>) returns (r: Response)
      requires Valid()
      modifies this
      ensures Valid()
      ensures (Snapshot(), r) == ApplyPlace(old(Snapshot()), items)
    {
      var kept := KeepPositive(items);
      if kept == map[] {
        return BadRequest(NoValidItems);
      }
      var order := Order(counter, kept);
      orders := orders + [order];
      counter := counter + 1;
      r := OrderPlaced(order);
    }

    /** The cancel_order branch: search for the order and pop it. */
    method Cancel(id: int) returns (r: Response)
      requires Valid()
      modifies this
      ensures Valid()
      ensures (Snapshot(), r) == ApplyCancel(old(Snapshot()), id)
    {
      var i := 0;
      while i < |orders|
        invariant 0 <= i <= |orders|
        invariant forall k :: 0 <= k < i ==> orders[k].orderId != id
      {
        if orders[i].orderId == id {
          orders := orders[..i] + orders[i + 1..];
          return OrderCancelled(id);
        }
        i := i + 1;
      }
      return NotFound(id);
    }

    /** POST /orders after the model replied: dispatch on the function called. */
    method Handle(reply: Reply) returns (r: Response)
      requires Valid()
      modifies this
      ensures Valid()
      ensures (Snapshot(), r) == Dispatch(old(Snapshot()), reply)
    {
      match reply
      case NoFunctionCall =>
        r := BadRequest(NotUnderstood);
      case FunctionCall(name, args) =>
        if name == PlaceOrderFn {
          match args.items
          case None => r := MissingArgument("items");
          case Some(items) => r := Place(items);
        } else if name == CancelOrderFn {
          match args.orderId
          case None => r := MissingArgument("order_id");
          case Some(id) => r := Cancel(id);
        } else {
          r := BadRequest(NotUnderstood);
        }
    }
  }
}
