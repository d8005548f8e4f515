/** The order tables: how a cart becomes order items, what an order is worth,
    and the units of stock that orders still in processing hold. */
module OrderBook {

  import opened Entities
  import opened Ledger

  /** The order items written for cart lines ls under order o: one per line,
      in cart order, with the line's quantity and the product's price now. */
  function Snapshot(ls: seq<CartLine>, p: map<int, Product>, o: nat): (r: seq<OrderLine>)
    requires Known(p, ls)
    ensures |r| == |ls|
  {
    if ls == [] then []
    else
      var l := ls[|ls| - 1];
      Snapshot(ls[..|ls| - 1], p, o) + [OrderLine(o, l.product, l.quantity, p[l.product].price)]
  }

  /** Item k of the snapshot is cart line k under order o, at the product's price. */
  lemma {:induction false} SnapshotAt(ls: seq<CartLine>, p: map<int, Product>, o: nat)
    requires Known(p, ls)
    ensures forall k :: 0 <= k < |ls| ==>
      Snapshot(ls, p, o)[k] == OrderLine(o, ls[k].product, ls[k].quantity, p[ls[k].product].price)
  {
    if ls != [] {
      SnapshotAt(ls[..|ls| - 1], p, o);
    }
  }

  /** The amount the order loop adds up: each line's quantity at its product's current price. */
  function Total(ls: seq<CartLine>, p: map<int, Product>): int
    requires Known(p, ls)
  {
    if ls == [] then 0
    else
      var l := ls[|ls| - 1];
      Total(ls[..|ls| - 1], p) + p[l.product].price * l.quantity
  }

  /** What the items of order o are worth at their snapshot prices. */
  function OrderSum(items: seq<OrderLine>, o: nat): int
  {
    if items == [] then 0
    else
      var it := items[|items| - 1];
      OrderSum(items[..|items| - 1], o) + (if it.order == o then it.price * it.quantity else 0)
  }

  /** The items of order o, in the order they were written (the repository's
      findAllByOrder, whose order the database chooses). */
  function ItemsOf(items: seq<OrderLine>, o: nat): (r: seq<OrderLine>)
    ensures forall it :: it in r ==> it in items
  {
    if items == [] then []
    else
      var it := items[|items| - 1];
      ItemsOf(items[..|items| - 1], o) + (if it.order == o then [it] else [])
  }

  /** Every item belongs to one of the orders. */
  ghost predicate Owned(items: seq<OrderLine>, orders: seq<Order>)
  {
    forall i :: 0 <= i < |items| ==> items[i].order < |orders|
  }

  /** The units of product pid held by orders still in processing. */
  function Reserved(items: seq<OrderLine>, orders: seq<Order>, pid: int): int
    requires Owned(items, orders)
  {
    if items == [] then 0
    else
      var it := items[|items| - 1];
      Reserved(items[..|items| - 1], orders, pid)
        + (if it.product == pid && orders[it.order].status == Processing then it.quantity else 0)
  }

  /** The new order's items hold exactly the units its cart lines asked for. */
  lemma {:induction false} SnapshotQty(ls: seq<CartLine>, p: map<int, Product>, o: nat, pid: int)
    requires Known(p, ls)
    ensures ItemQty(Snapshot(ls, p, o), pid) == CartQty(ls, pid)
  {
    if ls != [] {
      var s := Snapshot(ls, p, o);
      assert s[..|s| - 1] == Snapshot(ls[..|ls| - 1], p, o);
      SnapshotQty(ls[..|ls| - 1], p, o, pid);
    }
  }

  /** The total the order loop computes is the worth of the items it writes. */
  lemma {:induction false} SnapshotSum(ls: seq<CartLine>, p: map<int, Product>, o: nat)
    requires Known(p, ls)
    ensures OrderSum(Snapshot(ls, p, o), o) == Total(ls, p)
  {
    if ls != [] {
      var s := Snapshot(ls, p, o);
      assert s[..|s| - 1] == Snapshot(ls[..|ls| - 1], p, o);
      SnapshotSum(ls[..|ls| - 1], p, o);
    }
  }

  /** The new order's items are all its items. */
  lemma {:induction false} ItemsOfSnapshot(ls: seq<CartLine>, p: map<int, Product>, o: nat)
    requires Known(p, ls)
    ensures ItemsOf(Snapshot(ls, p, o), o) == Snapshot(ls, p, o)
  {
    if ls != [] {
      var s := Snapshot(ls, p, o);
      assert s[..|s| - 1] == Snapshot(ls[..|ls| - 1], p, o);
      ItemsOfSnapshot(ls[..|ls| - 1], p, o);
    }
  }

  lemma {:induction false} OrderSumAppend(a: seq<OrderLine>, b: seq<OrderLine>, o: nat)
    ensures OrderSum(a + b, o) == OrderSum(a, o) + OrderSum(b, o)
  {
    if b != [] {
      assert (a + b)[..|a + b| - 1] == a + b[..|b| - 1];
      OrderSumAppend(a, b[..|b| - 1], o);
    } else {
      assert a + b == a;
    }
  }

  /** An order with no items in the table is worth nothing. */
  lemma {:induction false} OrderSumNone(items: seq<OrderLine>, o: nat)
    requires forall i :: 0 <= i < |items| ==> items[i].order != o
    ensures OrderSum(items, o) == 0
  {
    if items != [] {
      OrderSumNone(items[..|items| - 1], o);
    }
  }

  lemma {:induction false} ItemsOfAppend(a: seq<OrderLine>, b: seq<OrderLine>, o: nat)
    ensures ItemsOf(a + b, o) == ItemsOf(a, o) + ItemsOf(b, o)
  {
    if b != [] {
      assert (a + b)[..|a + b| - 1] == a + b[..|b| - 1];
      ItemsOfAppend(a, b[..|b| - 1], o);
    } else {
      assert a + b == a;
    }
  }

  lemma {:induction false} ItemsOfNone(items: seq<OrderLine>, o: nat)
    requires forall i :: 0 <= i < |items| ==> items[i].order != o
    ensures ItemsOf(items, o) == []
  {
    if items != [] {
      ItemsOfNone(items[..|items| - 1], o);
    }
  }

  /** ItemsOf keeps items of the table only. */
  lemma {:induction false} ItemsOfMembers(items: seq<OrderLine>, o: nat)
    ensures forall it :: it in ItemsOf(items, o) ==> it in items && it.order == o
  {
    if items != [] {
      ItemsOfMembers(items[..|items| - 1], o);
      assert items == items[..|items| - 1] + [items[|items| - 1]];
    }
  }

  /** ItemsOf keeps exactly the items of order o. */
  lemma {:induction false} ItemsOfExactly(items: seq<OrderLine>, o: nat)
    ensures forall it :: it in ItemsOf(items, o) <==> it in items && it.order == o
  {
    if items != [] {
      ItemsOfExactly(items[..|items| - 1], o);
      assert items == items[..|items| - 1] + [items[|items| - 1]];
    }
  }

  /** Cancelling right after ordering restores the catalogue exactly. */
  lemma RoundTrip(p: map<int, Product>, ls: seq<CartLine>, o: nat)
    requires Known(p, ls)
    ensures KnownItems(Withdraw(p, ls), Snapshot(ls, p, o))
    ensures Restock(Withdraw(p, ls), Snapshot(ls, p, o)) == p
  {
    var w := Withdraw(p, ls);
    var s := Snapshot(ls, p, o);
    SnapshotAt(ls, p, o);
    assert KnownItems(w, s) by {
      forall it | it in s
        ensures it.product in w
      {
        var k :| 0 <= k < |s| && s[k] == it;
      }
    }
    var r := Restock(w, s);
    forall pid | pid in p
      ensures r[pid] == p[pid]
    {
      WithdrawKeepsCatalogue(p, ls, pid);
      RestockKeepsCatalogue(w, s, pid);
      WithdrawAt(p, ls, pid);
      RestockAt(w, s, pid);
      SnapshotQty(ls, p, o, pid);
    }
  }

  /** The items a cancel restocks for a just-placed order are exactly its
      snapshot, so the cancel undoes the order's withdrawal. */
  lemma PlaceThenCancel(p: map<int, Product>, items: seq<OrderLine>, orders: seq<Order>, ls: seq<CartLine>)
    requires Owned(items, orders) && Known(p, ls)
    ensures ItemsOf(items + Snapshot(ls, p, |orders|), |orders|) == Snapshot(ls, p, |orders|)
    ensures KnownItems(Withdraw(p, ls), Snapshot(ls, p, |orders|))
    ensures Restock(Withdraw(p, ls), Snapshot(ls, p, |orders|)) == p
  {
    ItemsOfAppend(items, Snapshot(ls, p, |orders|), |orders|);
    ItemsOfNone(items, |orders|);
    ItemsOfSnapshot(ls, p, |orders|);
    RoundTrip(p, ls, |orders|);
  }

  lemma {:induction false} ReservedAppend(a: seq<OrderLine>, b: seq<OrderLine>, orders: seq<Order>, pid: int)
    requires Owned(a, orders) && Owned(b, orders)
    ensures Owned(a + b, orders)
    ensures Reserved(a + b, orders, pid) == Reserved(a, orders, pid) + Reserved(b, orders, pid)
  {
    if b != [] {
      assert (a + b)[..|a + b| - 1] == a + b[..|b| - 1];
      ReservedAppend(a, b[..|b| - 1], orders, pid);
    } else {
      assert a + b == a;
    }
  }

  /** Appending a new order changes nothing that the existing items hold. */
  lemma {:induction false} ReservedNewOrder(items: seq<OrderLine>, orders: seq<Order>, x: Order, pid: int)
    requires Owned(items, orders)
    ensures Owned(items, orders + [x])
    ensures Reserved(items, orders + [x], pid) == Reserved(items, orders, pid)
  {
    if items != [] {
      ReservedNewOrder(items[..|items| - 1], orders, x, pid);
    }
  }

  /** Items of a single order in processing hold all their units. */
  lemma {:induction false} ReservedProcessing(items: seq<OrderLine>, orders: seq<Order>, o: nat, pid: int)
    requires o < |orders| && orders[o].status == Processing
    requires forall i :: 0 <= i < |items| ==> items[i].order == o
    ensures Owned(items, orders)
    ensures Reserved(items, orders, pid) == ItemQty(items, pid)
  {
    if items != [] {
      ReservedProcessing(items[..|items| - 1], orders, o, pid);
    }
  }

  /** Cancelling order o releases exactly the units its items held. */
  lemma {:induction false} ReservedCancel(items: seq<OrderLine>, orders: seq<Order>, o: nat, pid: int)
    requires Owned(items, orders) && o < |orders| && orders[o].status == Processing
    ensures Owned(items, orders[o := orders[o].(status := Cancelled)])
    ensures Reserved(items, orders[o := orders[o].(status := Cancelled)], pid)
            == Reserved(items, orders, pid) - ItemQty(ItemsOf(items, o), pid)
  {
    if items != [] {
      var front := items[..|items| - 1];
      ReservedCancel(front, orders, o, pid);
      var it := items[|items| - 1];
      if it.order == o {
        assert ItemsOf(items, o) == ItemsOf(front, o) + [it];
        assert (ItemsOf(front, o) + [it])[..|ItemsOf(front, o) + [it]| - 1] == ItemsOf(front, o);
      } else {
        assert ItemsOf(items, o) == ItemsOf(front, o) + [];
        assert ItemsOf(front, o) + [] == ItemsOf(front, o);
      }
    }
  }
}
