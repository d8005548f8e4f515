/** Product stock as the order paths change it: taken out line by line when an
    order is placed, put back item by item when it is cancelled. */
module Ledger {

  import opened Entities

  /** Every cart line names a product of the catalogue. */
  ghost predicate Known(p: map<int, Product>, ls: seq<CartLine>)
  {
    forall i :: 0 <= i < |ls| ==> ls[i].product in p
  }

  /** Every order item names a product of the catalogue. */
  ghost predicate KnownItems(p: map<int, Product>, items: seq<OrderLine>)
  {
    forall it :: it in items ==> it.product in p
  }

  /** No product has negative stock. */
  ghost predicate NonNegative(p: map<int, Product>)
  {
    forall pid :: pid in p ==> p[pid].stock >= 0
  }

  /** No two lines name the same product. */
  ghost predicate Distinct(ls: seq<CartLine>)
  {
    forall i, j :: 0 <= i < j < |ls| ==> ls[i].product != ls[j].product
  }

  /** The stock check of the cart and order paths: the line asks for no more than there is. */
  predicate Fits(p: map<int, Product>, l: CartLine)
    requires l.product in p
  {
    l.quantity <= p[l.product].stock
  }

  /** The position of the first line, in cart order, that asks for more than its product's stock. */
  function FirstShortage(ls: seq<CartLine>, p: map<int, Product>): (r: Option<nat>)
    requires Known(p, ls)
    ensures r.Some? ==> r.value < |ls| && !Fits(p, ls[r.value])
    ensures r.Some? ==> forall j :: 0 <= j < r.value ==> Fits(p, ls[j])
    ensures r.None? <==> forall j :: 0 <= j < |ls| ==> Fits(p, ls[j])
  {
    if ls == [] then None
    else if !Fits(p, ls[0]) then Some(0)
    else match FirstShortage(ls[1..], p)
      case None => None
      case Some(k) => Some(k + 1)
  }

  /** The units of product pid the lines ask for. */
  function CartQty(ls: seq<CartLine>, pid: int): int
  {
    if ls == [] then 0
    else CartQty(ls[..|ls| - 1], pid) + (if ls[|ls| - 1].product == pid then ls[|ls| - 1].quantity else 0)
  }

  /** The units of product pid the order items hold. */
  function ItemQty(items: seq<OrderLine>, pid: int): int
  {
    if items == [] then 0
    else ItemQty(items[..|items| - 1], pid) + (if items[|items| - 1].product == pid then items[|items| - 1].quantity else 0)
  }

  /** The catalogue after each line's quantity has been taken off its product's
      current stock, line after line. */
  function Withdraw(p: map<int, Product>, ls: seq<CartLine>): (r: map<int, Product>)
    requires Known(p, ls)
    ensures r.Keys == p.Keys
  {
    if ls == [] then p
    else
      var q := Withdraw(p, ls[..|ls| - 1]);
      var l := ls[|ls| - 1];
      q[l.product := q[l.product].(stock := q[l.product].stock - l.quantity)]
  }

  /** The catalogue after each item's quantity has been added back to its product's stock. */
  function Restock(p: map<int, Product>, items: seq<OrderLine>): (r: map<int, Product>)
    requires KnownItems(p, items)
    ensures r.Keys == p.Keys
  {
    if items == [] then p
    else
      var q := Restock(p, items[..|items| - 1]);
      var it := items[|items| - 1];
      q[it.product := q[it.product].(stock := q[it.product].stock + it.quantity)]
  }

  /** Taking stock off changes no product's name or price. */
  lemma {:induction false} WithdrawKeepsCatalogue(p: map<int, Product>, ls: seq<CartLine>, pid: int)
    requires Known(p, ls) && pid in p
    ensures Withdraw(p, ls)[pid].name == p[pid].name && Withdraw(p, ls)[pid].price == p[pid].price
  {
    if ls != [] {
      WithdrawKeepsCatalogue(p, ls[..|ls| - 1], pid);
    }
  }

  /** Putting stock back changes no product's name or price. */
  lemma {:induction false} RestockKeepsCatalogue(p: map<int, Product>, items: seq<OrderLine>, pid: int)
    requires KnownItems(p, items) && pid in p
    ensures Restock(p, items)[pid].name == p[pid].name && Restock(p, items)[pid].price == p[pid].price
  {
    if items != [] {
      RestockKeepsCatalogue(p, items[..|items| - 1], pid);
    }
  }

  /** Placing an order takes off each product exactly the units its lines ask for. */
  lemma {:induction false} WithdrawAt(p: map<int, Product>, ls: seq<CartLine>, pid: int)
    requires Known(p, ls) && pid in p
    ensures Withdraw(p, ls)[pid].stock == p[pid].stock - CartQty(ls, pid)
  {
    if ls != [] {
      WithdrawAt(p, ls[..|ls| - 1], pid);
    }
  }

  /** Cancelling puts back on each product exactly the units its items hold. */
  lemma {:induction false} RestockAt(p: map<int, Product>, items: seq<OrderLine>, pid: int)
    requires KnownItems(p, items) && pid in p
    ensures Restock(p, items)[pid].stock == p[pid].stock + ItemQty(items, pid)
  {
    if items != [] {
      RestockAt(p, items[..|items| - 1], pid);
    }
  }

  /** With one line per product, the units asked of pid are those of its line, or none. */
  lemma {:induction false} CartQtyDistinct(ls: seq<CartLine>, pid: int)
    requires Distinct(ls)
    ensures (forall k :: 0 <= k < |ls| ==> ls[k].product != pid) ==> CartQty(ls, pid) == 0
    ensures forall k :: 0 <= k < |ls| && ls[k].product == pid ==> CartQty(ls, pid) == ls[k].quantity
  {
    if ls != [] {
      var n := |ls| - 1;
      var front := ls[..n];
      assert Distinct(front) by {
        forall i, j | 0 <= i < j < |front|
          ensures front[i].product != front[j].product
        {
          assert front[i] == ls[i] && front[j] == ls[j];
        }
      }
      CartQtyDistinct(front, pid);
      forall k | 0 <= k < |ls| && ls[k].product == pid
        ensures CartQty(ls, pid) == ls[k].quantity
      {
        if k < n {
          assert front[k] == ls[k];
          assert ls[n].product != pid;
        } else {
          assert forall i :: 0 <= i < |front| ==> front[i].product != pid by {
            forall i | 0 <= i < |front|
              ensures front[i].product != pid
            {
              assert front[i] == ls[i];
            }
          }
        }
      }
      if forall k :: 0 <= k < |ls| ==> ls[k].product != pid {
        assert forall i :: 0 <= i < |front| ==> front[i].product != pid by {
          forall i | 0 <= i < |front|
            ensures front[i].product != pid
          {
            assert front[i] == ls[i];
          }
        }
      }
    }
  }

  /** One line per product and every line within stock: taking the lines off
      leaves no product with negative stock. */
  lemma WithdrawNonNegative(p: map<int, Product>, ls: seq<CartLine>)
    requires Known(p, ls) && NonNegative(p) && Distinct(ls)
    requires forall j :: 0 <= j < |ls| ==> Fits(p, ls[j])
    ensures NonNegative(Withdraw(p, ls))
  {
    forall pid | pid in Withdraw(p, ls)
      ensures Withdraw(p, ls)[pid].stock >= 0
    {
      WithdrawAt(p, ls, pid);
      CartQtyDistinct(ls, pid);
      if k :| 0 <= k < |ls| && ls[k].product == pid {
        assert Fits(p, ls[k]);
      }
    }
  }

  /** The same, when the lines are known to pass the order's stock check. */
  lemma WithdrawNonNegativeIfFits(p: map<int, Product>, ls: seq<CartLine>)
    requires Known(p, ls) && Distinct(ls)
    ensures NonNegative(p) && FirstShortage(ls, p).None? ==> NonNegative(Withdraw(p, ls))
  {
    if NonNegative(p) && FirstShortage(ls, p).None? {
      WithdrawNonNegative(p, ls);
    }
  }

  lemma {:induction false} ItemQtyNonNegative(items: seq<OrderLine>, pid: int)
    requires forall i :: 0 <= i < |items| ==> items[i].quantity >= 0
    ensures ItemQty(items, pid) >= 0
  {
    if items != [] {
      ItemQtyNonNegative(items[..|items| - 1], pid);
    }
  }

  /** Putting back non-negative quantities leaves no product with negative stock. */
  lemma RestockNonNegative(p: map<int, Product>, items: seq<OrderLine>)
    requires KnownItems(p, items) && NonNegative(p)
    requires forall i :: 0 <= i < |items| ==> items[i].quantity >= 0
    ensures NonNegative(Restock(p, items))
  {
    forall pid | pid in Restock(p, items)
      ensures Restock(p, items)[pid].stock >= 0
    {
      RestockAt(p, items, pid);
      ItemQtyNonNegative(items, pid);
    }
  }
}
