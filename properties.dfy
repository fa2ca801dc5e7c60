/**
 * What the ledger promises across requests: the invariant every reply keeps,
 * identifiers that are never reused, cancellation that removes exactly one
 * order, and totals that always match the stored orders.
 */
module OrderProperties {
  import opened Wrappers
  import opened Orders

  /** The process starts in a valid ledger whose totals are all zero. */
  lemma InitialState()
    ensures Valid(Initial)
    ensures Totals(Initial.orders) == Some(map m | m in Menu :: 0)
  {
    var zeros := map m | m in Menu :: 0;
    assert TotalMap([]).Keys == zeros.Keys;
    assert forall m :: m in Menu ==> TotalMap([])[m] == zeros[m];
    assert TotalMap([]) == zeros;
    assert OnMenu([]);
  }

  /** Every reply, understood or not, keeps the ledger invariant. */
  lemma DispatchKeepsValid(s: State, reply: Reply)
    requires Valid(s)
    ensures Valid(Dispatch(s, reply).0)
  {
    var r := Dispatch(s, reply);
    if r.1.OrderCancelled? {
      var id := r.1.orderId;
      var i := IndexOf(s.orders, id).value;
      var os := s.orders[..i] + s.orders[i + 1..];
      assert r.0.orders == os;
      forall a, b | 0 <= a < b < |os| ensures os[a].orderId < os[b].orderId {
        var a' := if a < i then a else a + 1;
        var b' := if b < i then b else b + 1;
        assert os[a] == s.orders[a'] && os[b] == s.orders[b'];
      }
    }
  }

  /** Cancellation of an id that is present removes exactly that order and keeps the others in order. */
  lemma CancelRemovesExactly(s: State, k: nat)
    requires Valid(s)
    requires k < |s.orders|
    ensures ApplyCancel(s, s.orders[k].orderId)
         == (State(s.orders[..k] + s.orders[k + 1..], s.counter), OrderCancelled(s.orders[k].orderId))
  {
    assert s.orders[k].orderId in Ids(s.orders);
  }

  /** A successful cancel takes exactly the cancelled id out of the ledger. */
  lemma CancelDropsId(s: State, id: int)
    requires Valid(s)
    ensures Ids(ApplyCancel(s, id).0.orders) == Ids(s.orders) - {id}
  {
    var os := ApplyCancel(s, id).0.orders;
    if id in Ids(s.orders) {
      var k := IndexOf(s.orders, id).value;
      CancelRemovesExactly(s, k);
      forall x | x in Ids(s.orders) - {id} ensures x in Ids(os) {
        var j :| 0 <= j < |s.orders| && s.orders[j].orderId == x;
        if j < k { assert os[j] == s.orders[j]; } else { assert os[j - 1] == s.orders[j]; }
      }
      forall x | x in Ids(os) ensures x in Ids(s.orders) - {id} {
        var j :| 0 <= j < |os| && os[j].orderId == x;
        var j' := if j < k then j else j + 1;
        assert os[j] == s.orders[j'];
        if j < k {
          assert s.orders[j'].orderId < s.orders[k].orderId;
        } else {
          assert s.orders[k].orderId < s.orders[j'].orderId;
        }
      }
    }
  }

  /** Any sequence of replies keeps the invariant and never decreases the counter. */
  lemma {:induction false} RunKeepsValid(s: State, replies: seq<Reply>)
    requires Valid(s)
    ensures Valid(Run(s, replies))
    ensures Run(s, replies).counter >= s.counter
    decreases |replies|
  {
    if replies != [] {
      DispatchKeepsValid(s, replies[0]);
      RunKeepsValid(Dispatch(s, replies[0]).0, replies[1..]);
    }
  }

  /** One reply never brings back an identifier that was issued and is no longer present. */
  lemma DispatchNoReuse(s: State, reply: Reply, id: int)
    requires Valid(s)
    requires id < s.counter && id !in Ids(s.orders)
    ensures id < Dispatch(s, reply).0.counter
    ensures id !in Ids(Dispatch(s, reply).0.orders)
  {
    var r := Dispatch(s, reply);
    if r.1.OrderCancelled? {
      CancelDropsId(s, r.1.orderId);
    } else if r.1.OrderPlaced? {
      var os := r.0.orders;
      forall x | x in Ids(os) ensures x != id {
        var j :| 0 <= j < |os| && os[j].orderId == x;
        if j < |s.orders| { assert os[j] == s.orders[j]; }
      }
    }
  }

  /** An identifier that has been cancelled is never handed out again, whatever follows. */
  lemma {:induction false} CancelledIdNeverReused(s: State, replies: seq<Reply>, id: int)
    requires Valid(s)
    requires id < s.counter && id !in Ids(s.orders)
    ensures id !in Ids(Run(s, replies).orders)
    decreases |replies|
  {
    if replies != [] {
      DispatchNoReuse(s, replies[0], id);
      DispatchKeepsValid(s, replies[0]);
      CancelledIdNeverReused(Dispatch(s, replies[0]).0, replies[1..], id);
    }
  }

  /** Removing the order at position k subtracts exactly its quantity from the sum. */
  lemma {:induction false} SumQtyRemoveAt(os: seq<Order>, k: nat, item: string)
    requires k < |os|
    ensures SumQty(os[..k] + os[k + 1..], item) == SumQty(os, item) - Qty(os[k], item)
    decreases |os|
  {
    var rest := os[..k] + os[k + 1..];
    if k < |os| - 1 {
      var init := os[..|os| - 1];
      assert rest[..|rest| - 1] == init[..k] + init[k + 1..];
      assert rest[|rest| - 1] == os[|os| - 1];
      SumQtyRemoveAt(init, k, item);
    } else {
      assert rest == os[..|os| - 1];
    }
  }

  /** With positive quantities, a sum is never negative and is zero exactly when no order holds the item. */
  lemma {:induction false} SumQtyZeroIff(os: seq<Order>, item: string)
    requires forall i :: 0 <= i < |os| ==> WellFormed(os[i].items)
    ensures SumQty(os, item) >= 0
    ensures SumQty(os, item) == 0 <==> forall i :: 0 <= i < |os| ==> item !in os[i].items
    decreases |os|
  {
    if os != [] {
      var init := os[..|os| - 1];
      SumQtyZeroIff(init, item);
      if SumQty(os, item) == 0 {
        forall i | 0 <= i < |os| ensures item !in os[i].items {
          if i < |os| - 1 { assert os[i] == init[i]; }
        }
      } else {
        assert exists i :: 0 <= i < |os| && item in os[i].items by {
          if item !in os[|os| - 1].items {
            var i :| 0 <= i < |init| && item in init[i].items;
            assert os[i] == init[i];
          }
        }
      }
    }
  }

  /** Totals of a valid ledger are non-negative, and zero exactly for the items nobody ordered. */
  lemma TotalsMeaning(s: State, item: string)
    requires Valid(s) && OnMenu(s.orders)
    requires item in Menu
    ensures Totals(s.orders).Some?
    ensures Totals(s.orders).value.Keys == Menu
    ensures Totals(s.orders).value[item] >= 0
    ensures Totals(s.orders).value[item] == 0 <==> forall i :: 0 <= i < |s.orders| ==> item !in s.orders[i].items
  {
    SumQtyZeroIff(s.orders, item);
  }

  /** A placed order adds the positive requested quantities to the totals. */
  lemma TotalsAfterPlace(s: State, items: map<string, int>)
    requires OnMenu(s.orders)
    requires items.Keys <= Menu
    requires HasPositive(items)
    ensures var r := ApplyPlace(s, items);
      Totals(r.0.orders)
        == Some(map m | m in Menu :: TotalMap(s.orders)[m] + (if m in items && items[m] > 0 then items[m] else 0))
  {
    var r := ApplyPlace(s, items);
    var os := r.0.orders;
    assert os[..|os| - 1] == s.orders;
    assert forall i :: 0 <= i < |os| - 1 ==> os[i] == s.orders[i];
    var expected := map m | m in Menu :: TotalMap(s.orders)[m] + (if m in items && items[m] > 0 then items[m] else 0);
    assert TotalMap(os).Keys == expected.Keys;
    assert forall m :: m in Menu ==> TotalMap(os)[m] == expected[m];
    assert TotalMap(os) == expected;
  }

  /** A cancelled order's quantities leave the totals. */
  lemma TotalsAfterCancel(s: State, k: nat)
    requires Valid(s) && OnMenu(s.orders)
    requires k < |s.orders|
    ensures var after := ApplyCancel(s, s.orders[k].orderId).0;
      Totals(after.orders) == Some(map m | m in Menu :: TotalMap(s.orders)[m] - Qty(s.orders[k], m))
  {
    CancelRemovesExactly(s, k);
    var os := s.orders[..k] + s.orders[k + 1..];
    forall i | 0 <= i < |os| ensures os[i].items.Keys <= Menu {
      if i < k { assert os[i] == s.orders[i]; } else { assert os[i] == s.orders[i + 1]; }
    }
    forall m | m in Menu ensures SumQty(os, m) == SumQty(s.orders, m) - Qty(s.orders[k], m) {
      SumQtyRemoveAt(s.orders, k, m);
    }
    var expected := map m | m in Menu :: TotalMap(s.orders)[m] - Qty(s.orders[k], m);
    assert TotalMap(os).Keys == expected.Keys;
    assert forall m :: m in Menu ==> TotalMap(os)[m] == expected[m];
    assert TotalMap(os) == expected;
  }

  /** A reply the function schema admits: a place call names only menu items. */
  ghost predicate SchemaConforming(reply: Reply) {
    reply.FunctionCall? && reply.name == PlaceOrderFn && reply.args.items.Some? ==>
      reply.args.items.value.Keys <= Menu
  }

  /** While the model keeps to the schema, GET /orders/total never fails. */
  lemma {:induction false} TotalsNeverFail(s: State, replies: seq<Reply>)
    requires OnMenu(s.orders)
    requires forall i :: 0 <= i < |replies| ==> SchemaConforming(replies[i])
    ensures Totals(Run(s, replies).orders).Some?
    decreases |replies|
  {
    if replies != [] {
      var r := Dispatch(s, replies[0]);
      var os := r.0.orders;
      assert SchemaConforming(replies[0]);
      if r.1.OrderPlaced? {
        assert forall i :: 0 <= i < |os| - 1 ==> os[i] == s.orders[i];
      } else if r.1.OrderCancelled? {
        var k := IndexOf(s.orders, r.1.orderId).value;
        forall i | 0 <= i < |os| ensures os[i].items.Keys <= Menu {
          if i < k { assert os[i] == s.orders[i]; } else { assert os[i] == s.orders[i + 1]; }
        }
      }
      TotalsNeverFail(r.0, replies[1..]);
    }
  }

  /**
   * A worked request sequence from a fresh ledger: place two burgers and one
   * fries, cancel that order, cancel an order that never existed, and place an
   * order with zero quantities only.
   */
  lemma Walkthrough()
    ensures var order := Order(1, map["burger" := 2, "fries" := 1]);
      var place := FunctionCall(PlaceOrderFn, Args(Some(map["burger" := 2, "fries" := 1]), None));
      var s1 := Dispatch(Initial, place);
      && s1 == (State([order], 2), OrderPlaced(order))
      && Totals(s1.0.orders) == Some(map["burger" := 2, "fries" := 1, "drink" := 0])
      && Dispatch(s1.0, FunctionCall(CancelOrderFn, Args(None, Some(1)))) == (State([], 2), OrderCancelled(1))
      && Dispatch(Initial, FunctionCall(CancelOrderFn, Args(None, Some(99)))) == (Initial, NotFound(99))
      && Dispatch(Initial, FunctionCall(PlaceOrderFn, Args(Some(map["burger" := 0, "drink" := 0]), None)))
         == (Initial, BadRequest(NoValidItems))
  {
    var items := map["burger" := 2, "fries" := 1];
    assert KeepPositive(items).Keys == items.Keys;
    assert KeepPositive(items) == items;
    var order := Order(1, items);
    var s1 := State([order], 2);
    assert [order][..0] == [];
    assert forall m :: SumQty(s1.orders, m) == Qty(order, m);
    var expected := map["burger" := 2, "fries" := 1, "drink" := 0];
    assert TotalMap(s1.orders).Keys == expected.Keys;
    assert TotalMap(s1.orders)["drink"] == 0;
    assert TotalMap(s1.orders) == expected;
    assert s1.orders[0].items.Keys <= Menu;
    assert IndexOf(s1.orders, 1) == Some(0);
    assert [order][..0] + [order][1..] == [];
    assert !HasPositive(map["burger" := 0, "drink" := 0]);
    assert "burger" in KeepPositive(items);
    assert Initial.orders + [order] == [order];
  }
}
