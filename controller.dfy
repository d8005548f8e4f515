/** The shop controller: accounts and the session's current user, the cart,
    placing an order from the cart, and cancelling an order. */
module Controller {

  import opened Entities
  import opened Codes
  import opened Accounts
  import opened CartTable
  import opened Ledger
  import opened OrderBook

  /** Cart rows are well formed, have ids below the next free id and name known products. */
  ghost predicate CartOk(cart: seq<CartLine>, nextCartId: int, products: map<int, Product>)
  {
    WellFormed(cart) && forall l :: l in cart ==> l.id < nextCartId && l.product in products
  }

  /** Order items belong to existing orders and name known products, and each
      order's total is what its items are worth. */
  ghost predicate OrdersOk(products: map<int, Product>, orders: seq<Order>, items: seq<OrderLine>)
  {
    && Owned(items, orders)
    && KnownItems(products, items)
    && forall o :: 0 <= o < |orders| ==> orders[o].total == OrderSum(items, o)
  }

  /** Stock on the shelf plus stock held by orders in processing is the supply of each product. */
  ghost predicate Conserved(products: map<int, Product>, orders: seq<Order>, items: seq<OrderLine>, supply: map<int, int>)
  {
    && Owned(items, orders)
    && supply.Keys == products.Keys
    && forall pid :: pid in products ==> products[pid].stock + Reserved(items, orders, pid) == supply[pid]
  }

  /** Every invariant of the shop's tables. */
  ghost predicate TablesOk(products: map<int, Product>, cart: seq<CartLine>, nextCartId: int,
                           orders: seq<Order>, items: seq<OrderLine>, supply: map<int, int>)
  {
    && CartOk(cart, nextCartId, products)
    && OrdersOk(products, orders, items)
    && Conserved(products, orders, items, supply)
  }

  /** What holds while clients send only positive quantities: every quantity in
      the cart and in orders is positive, and no product has negative stock. */
  ghost predicate GuardOk(products: map<int, Product>, cart: seq<CartLine>, items: seq<OrderLine>)
  {
    && NonNegative(products)
    && (forall l :: l in cart ==> l.quantity >= 1)
    && (forall i :: 0 <= i < |items| ==> items[i].quantity >= 1)
  }

  /** Placing an order for user u from tables that satisfy every invariant:
      the new tables satisfy them too, and stock stays non-negative. */
  lemma Commit(p: map<int, Product>, c: seq<CartLine>, next: int, orders: seq<Order>,
               items: seq<OrderLine>, supply: map<int, int>, u: nat, address: string)
    requires TablesOk(p, c, next, orders, items, supply)
    ensures Known(p, LinesOf(c, u))
    ensures var ls := LinesOf(c, u);
            TablesOk(Withdraw(p, ls), OthersLines(c, u), next,
                     orders + [Order(u, Processing, address, Total(ls, p))],
                     items + Snapshot(ls, p, |orders|), supply)
    ensures var ls := LinesOf(c, u);
            NonNegative(p) && FirstShortage(ls, p).None? ==> NonNegative(Withdraw(p, ls))
    ensures var ls := LinesOf(c, u);
            GuardOk(p, c, items) && FirstShortage(ls, p).None? ==>
              GuardOk(Withdraw(p, ls), OthersLines(c, u), items + Snapshot(ls, p, |orders|))
  {
    var ls := LinesOf(c, u);
    CommitKeepsCart(c, next, p, u);
    CommitKeepsOrders(p, orders, items, ls, u, address);
    CommitConserves(p, orders, items, supply, ls, Order(u, Processing, address, Total(ls, p)));
    LinesOfDistinct(c, u);
    WithdrawNonNegativeIfFits(p, ls);
    CommitKeepsGuard(p, c, items, u);
    var all := items + Snapshot(ls, p, |orders|);
    assert (forall l :: l in c ==> l.quantity >= 1) && (forall i :: 0 <= i < |items| ==> items[i].quantity >= 1) ==>
             forall i :: 0 <= i < |all| ==> all[i].quantity >= 1;
    OthersLinesMembers(c, u);
  }

  /** A new cart row for a product the user has no row for, under the next
      free id, keeps the tables' invariants; so does a positive quantity the guards. */
  lemma CartAppended(p: map<int, Product>, c: seq<CartLine>, next: int, orders: seq<Order>,
                     items: seq<OrderLine>, supply: map<int, int>, x: CartLine)
    requires TablesOk(p, c, next, orders, items, supply)
    requires x.id == next && x.product in p
    requires forall l :: l in c ==> l.user != x.user || l.product != x.product
    ensures TablesOk(p, c + [x], next + 1, orders, items, supply)
    ensures GuardOk(p, c, items) && x.quantity >= 1 ==> GuardOk(p, c + [x], items)
  {
    WellFormedSnoc(c, x);
  }

  /** Changing the quantity of one cart row keeps the tables' invariants; a
      positive quantity keeps the guards. */
  lemma CartRequantified(p: map<int, Product>, c: seq<CartLine>, next: int, orders: seq<Order>,
                         items: seq<OrderLine>, supply: map<int, int>, k: nat, q: int)
    requires TablesOk(p, c, next, orders, items, supply) && k < |c|
    ensures TablesOk(p, c[k := c[k].(quantity := q)], next, orders, items, supply)
    ensures GuardOk(p, c, items) && q >= 1 ==> GuardOk(p, c[k := c[k].(quantity := q)], items)
  {
    var d := c[k := c[k].(quantity := q)];
    forall l | l in d
      ensures l.id < next && l.product in p && (GuardOk(p, c, items) && q >= 1 ==> l.quantity >= 1)
    {
      var j :| 0 <= j < |d| && d[j] == l;
      assert c[j] in c;
    }
  }

  /** Commit, stated for tables already known to be the placed order's. */
  lemma PlacedTables(p: map<int, Product>, c: seq<CartLine>, next: int, orders: seq<Order>,
               items: seq<OrderLine>, supply: map<int, int>, u: nat, address: string,
               p': map<int, Product>, c': seq<CartLine>, orders': seq<Order>, items': seq<OrderLine>)
    requires TablesOk(p, c, next, orders, items, supply)
    requires Known(p, LinesOf(c, u))
    requires p' == Withdraw(p, LinesOf(c, u)) && c' == OthersLines(c, u)
    requires orders' == orders + [Order(u, Processing, address, Total(LinesOf(c, u), p))]
    requires items' == items + Snapshot(LinesOf(c, u), p, |orders|)
    requires FirstShortage(LinesOf(c, u), p).None?
    ensures TablesOk(p', c', next, orders', items', supply)
    ensures NonNegative(p) ==> NonNegative(p')
    ensures GuardOk(p, c, items) ==> GuardOk(p', c', items')
  {
    Commit(p, c, next, orders, items, supply, u, address);
  }

  /** The order write loop has handled the first i lines: the stock is the
      catalogue less those lines, their items follow the earlier items, and
      their rows are gone from the cart. */
  ghost predicate Written(p: map<int, Product>, c: seq<CartLine>, items: seq<OrderLine>, ls: seq<CartLine>,
                          i: nat, oid: nat, q: map<int, Product>, written: seq<OrderLine>, rest: seq<CartLine>)
  {
    && Known(p, ls) && i <= |ls|
    && q == Withdraw(p, ls[..i])
    && written == items + Snapshot(ls[..i], p, oid)
    && rest == Drop(c, IdSet(ls[..i]))
  }

  /** One turn of the order write loop: writing line i (its item at the
      current price, its stock, its cart row) extends the handled prefix. */
  lemma WriteStep(p: map<int, Product>, c: seq<CartLine>, items: seq<OrderLine>, ls: seq<CartLine>, i: nat, oid: nat,
                  q: map<int, Product>, written: seq<OrderLine>, rest: seq<CartLine>)
    requires Written(p, c, items, ls, i, oid, q, written, rest) && i < |ls|
    ensures ls[i].product in q
    ensures Written(p, c, items, ls, i + 1, oid,
                    q[ls[i].product := q[ls[i].product].(stock := q[ls[i].product].stock - ls[i].quantity)],
                    written + [OrderLine(oid, ls[i].product, ls[i].quantity, q[ls[i].product].price)],
                    Drop(rest, {ls[i].id}))
  {
    var l := ls[i];
    assert ls[..i + 1] == ls[..i] + [l];
    assert ls[..i + 1][..i] == ls[..i];
    assert IdSet(ls[..i + 1]) == IdSet(ls[..i]) + {l.id};
    assert ls[i] in ls[..i + 1];
    WithdrawKeepsCatalogue(p, ls[..i], l.product);
    DropDrop(c, IdSet(ls[..i]), {l.id});
  }

  /** After an order is placed, the cart holds the other users' rows, still well formed. */
  lemma CommitKeepsCart(c: seq<CartLine>, next: int, p: map<int, Product>, u: nat)
    requires CartOk(c, next, p)
    ensures Known(p, LinesOf(c, u))
    ensures CartOk(OthersLines(c, u), next, Withdraw(p, LinesOf(c, u)))
  {
    var ls := LinesOf(c, u);
    assert Known(p, ls) by {
      forall i | 0 <= i < |ls|
        ensures ls[i].product in p
      {
        assert ls[i] in ls;
      }
    }
    DropOwnLines(c, u);
    DropWellFormed(c, IdSet(ls));
    OthersLinesMembers(c, u);
  }

  /** Placing an order keeps every order's total equal to the worth of its items. */
  lemma CommitKeepsOrders(p: map<int, Product>, orders: seq<Order>, items: seq<OrderLine>,
                          ls: seq<CartLine>, u: nat, address: string)
    requires OrdersOk(p, orders, items) && Known(p, ls)
    ensures OrdersOk(Withdraw(p, ls), orders + [Order(u, Processing, address, Total(ls, p))],
                     items + Snapshot(ls, p, |orders|))
  {
    var oid := |orders|;
    var snap := Snapshot(ls, p, oid);
    SnapshotAt(ls, p, oid);
    var os := orders + [Order(u, Processing, address, Total(ls, p))];
    var all := items + snap;
    forall i | 0 <= i < |all|
      ensures all[i].order < |os| && all[i].product in Withdraw(p, ls)
    {
      if i < |items| {
        assert all[i] == items[i];
      } else {
        assert all[i] == snap[i - |items|];
      }
    }
    forall o | 0 <= o < |os|
      ensures os[o].total == OrderSum(all, o)
    {
      OrderSumAppend(items, snap, o);
      if o < oid {
        OrderSumNone(snap, o);
        assert os[o] == orders[o];
      } else {
        OrderSumNone(items, oid);
        SnapshotSum(ls, p, oid);
      }
    }
  }

  /** CancelKeeps and CancelKeepsGuard, stated for tables already known to be
      the cancelled order's. */
  lemma CancelledTables(p: map<int, Product>, c: seq<CartLine>, next: int, orders: seq<Order>,
                  items: seq<OrderLine>, supply: map<int, int>, o: nat,
                  p': map<int, Product>, orders': seq<Order>)
    requires TablesOk(p, c, next, orders, items, supply)
    requires o < |orders| && orders[o].status == Processing
    requires KnownItems(p, ItemsOf(items, o))
    requires p' == Restock(p, ItemsOf(items, o))
    requires orders' == orders[o := orders[o].(status := Cancelled)]
    ensures TablesOk(p', c, next, orders', items, supply)
    ensures NonNegative(p) && (forall it :: it in items && it.order == o ==> it.quantity >= 0) ==> NonNegative(p')
    ensures GuardOk(p, c, items) ==> GuardOk(p', c, items)
  {
    CancelKeeps(p, orders, items, supply, c, next, o);
    CancelKeepsGuard(p, items, o);
  }

  /** Placing an order moves units from the shelf into an order in processing: supply is unchanged. */
  lemma CommitConserves(p: map<int, Product>, orders: seq<Order>, items: seq<OrderLine>,
                        supply: map<int, int>, ls: seq<CartLine>, x: Order)
    requires Conserved(p, orders, items, supply) && Known(p, ls) && x.status == Processing
    ensures Conserved(Withdraw(p, ls), orders + [x], items + Snapshot(ls, p, |orders|), supply)
  {
    var oid := |orders|;
    var snap := Snapshot(ls, p, oid);
    SnapshotAt(ls, p, oid);
    var os := orders + [x];
    var w := Withdraw(p, ls);
    forall pid | pid in w
      ensures Owned(items + snap, os)
      ensures w[pid].stock + Reserved(items + snap, os, pid) == supply[pid]
    {
      ReservedNewOrder(items, orders, x, pid);
      ReservedProcessing(snap, os, oid, pid);
      ReservedAppend(items, snap, os, pid);
      SnapshotQty(ls, p, oid, pid);
      WithdrawAt(p, ls, pid);
    }
    if w.Keys == {} {
      ReservedNewOrder(items, orders, x, 0);
      ReservedProcessing(snap, os, oid, 0);
      ReservedAppend(items, snap, os, 0);
    }
  }

  /** Cancelling an order in processing keeps every table invariant, and supply. */
  lemma CancelKeeps(p: map<int, Product>, orders: seq<Order>, items: seq<OrderLine>, supply: map<int, int>,
                    c: seq<CartLine>, next: int, o: nat)
    requires OrdersOk(p, orders, items) && Conserved(p, orders, items, supply) && CartOk(c, next, p)
    requires o < |orders| && orders[o].status == Processing
    ensures KnownItems(p, ItemsOf(items, o))
    ensures CartOk(c, next, Restock(p, ItemsOf(items, o)))
    ensures OrdersOk(Restock(p, ItemsOf(items, o)), orders[o := orders[o].(status := Cancelled)], items)
    ensures Conserved(Restock(p, ItemsOf(items, o)), orders[o := orders[o].(status := Cancelled)], items, supply)
  {
    var mine := ItemsOf(items, o);
    ItemsOfMembers(items, o);
    assert KnownItems(p, mine) by {
      forall i | 0 <= i < |mine|
        ensures mine[i].product in p
      {
        assert mine[i] in mine;
        var j :| 0 <= j < |items| && items[j] == mine[i];
      }
    }
    var r := Restock(p, mine);
    var os := orders[o := orders[o].(status := Cancelled)];
    forall pid | pid in r
      ensures Owned(items, os)
      ensures r[pid].stock + Reserved(items, os, pid) == supply[pid]
    {
      ReservedCancel(items, orders, o, pid);
      RestockAt(p, mine, pid);
    }
  }

  /** Placing an order from a cart of positive quantities writes positive order items. */
  lemma CommitKeepsGuard(p: map<int, Product>, c: seq<CartLine>, items: seq<OrderLine>, u: nat)
    requires Known(p, LinesOf(c, u))
    ensures (forall l :: l in c ==> l.quantity >= 1) && (forall i :: 0 <= i < |items| ==> items[i].quantity >= 1) ==>
      forall o: nat :: var all := items + Snapshot(LinesOf(c, u), p, o);
        forall i :: 0 <= i < |all| ==> all[i].quantity >= 1
  {
    var ls := LinesOf(c, u);
    if (forall l :: l in c ==> l.quantity >= 1) && (forall i :: 0 <= i < |items| ==> items[i].quantity >= 1) {
      forall o: nat, i | 0 <= i < |items + Snapshot(ls, p, o)|
        ensures (items + Snapshot(ls, p, o))[i].quantity >= 1
      {
        var all := items + Snapshot(ls, p, o);
        SnapshotAt(ls, p, o);
        if i >= |items| {
          assert all[i] == Snapshot(ls, p, o)[i - |items|];
          assert ls[i - |items|] in ls;
        } else {
          assert all[i] == items[i];
        }
      }
    }
  }

  /** Cancelling an order whose items hold positive quantities keeps stock non-negative. */
  lemma CancelKeepsGuard(p: map<int, Product>, items: seq<OrderLine>, o: nat)
    requires KnownItems(p, ItemsOf(items, o))
    ensures NonNegative(p) && (forall it :: it in items && it.order == o ==> it.quantity >= 0) ==>
              NonNegative(Restock(p, ItemsOf(items, o)))
    ensures NonNegative(p) && (forall i :: 0 <= i < |items| ==> items[i].quantity >= 1) ==>
              NonNegative(Restock(p, ItemsOf(items, o)))
  {
    var mine := ItemsOf(items, o);
    ItemsOfExactly(items, o);
    if NonNegative(p) && forall it :: it in items && it.order == o ==> it.quantity >= 0 {
      assert forall i :: 0 <= i < |mine| ==> mine[i].quantity >= 0 by {
        forall i | 0 <= i < |mine|
          ensures mine[i].quantity >= 0
        {
          assert mine[i] in mine;
        }
      }
      RestockNonNegative(p, mine);
    }
    if NonNegative(p) && forall i :: 0 <= i < |items| ==> items[i].quantity >= 1 {
      assert forall i :: 0 <= i < |mine| ==> mine[i].quantity >= 0 by {
        forall i | 0 <= i < |mine|
          ensures mine[i].quantity >= 0
        {
          assert mine[i] in mine;
          var j :| 0 <= j < |items| && items[j] == mine[i];
        }
      }
      RestockNonNegative(p, mine);
    }
  }

  class ShopController {
    var users: seq<User>
    var currentUser: Option<nat>
    var products: map<int, Product>
    var cart: seq<CartLine>
    var nextCartId: int
    var orders: seq<Order>
    var orderItems: seq<OrderLine>
    /** Units of each product in the shop: on the shelf plus held by orders in processing. */
    ghost var supply: map<int, int>

    ghost predicate Valid()
      reads this
    {
      && (currentUser.Some? ==> currentUser.value < |users|)
      && UniqueAccounts(users)
      && TablesOk(products, cart, nextCartId, orders, orderItems, supply)
    }

    /** The client's guards hold: every quantity in the cart and in orders is
        positive, and no product has negative stock. */
    ghost predicate Guarded()
      reads this
    {
      GuardOk(products, cart, orderItems)
    }

    /** A shop over a given catalogue, with no users, carts or orders. */
    constructor (catalog: map<int, Product>)
      ensures Valid()
      ensures products == catalog && users == [] && currentUser == None
      ensures cart == [] && nextCartId == 0 && orders == [] && orderItems == []
      ensures supply == map pid | pid in catalog :: catalog[pid].stock
    {
      users := [];
      currentUser := None;
      products := catalog;
      cart := [];
      nextCartId := 0;
      orders := [];
      orderItems := [];
      supply := map pid | pid in catalog :: catalog[pid].stock;
    }

    // ---------------- accounts and session ----------------

    method Register(login: string, password: string, email: string) returns (code: Code)
      requires Valid()
      modifies this`users
      ensures Valid()
      ensures FindByLogin(old(users), login).Some? ==> code == ErrorLogin && unchanged(this)
      ensures FindByLogin(old(users), login).None? && EmailTaken(old(users), email) ==>
                code == ErrorEmail && unchanged(this)
      ensures FindByLogin(old(users), login).None? && !EmailTaken(old(users), email) ==>
                code == Good && users == old(users) + [User(login, password, email)]
    {
      if FindByLogin(users, login).Some? {
        return ErrorLogin;
      }
      if EmailTaken(users, email) {
        return ErrorEmail;
      }
      RegisterKeepsUnique(users, User(login, password, email));
      users := users + [User(login, password, email)];
      code := Good;
    }

    method Login(login: string, password: string) returns (code: Code)
      requires Valid()
      modifies this`currentUser
      ensures Valid()
      ensures var k := FindByLogin(users, login);
              if k.Some? && users[k.value].password == password
              then code == Auth && currentUser == k
              else code == NoAuth && currentUser == old(currentUser)
    {
      var k := FindByLogin(users, login);
      if k.Some? && users[k.value].password == password {
        currentUser := k;
        return Auth;
      }
      code := NoAuth;
    }

    method GetCurrentUser() returns (code: Code)
      requires Valid()
      ensures currentUser.None? ==> code == NullUser
      ensures currentUser.Some? ==>
                code == (if users[currentUser.value].login == "admin" then Admin else RegularUser)
    {
      if currentUser.None? {
        return NullUser;
      }
      if users[currentUser.value].login == "admin" {
        return Admin;
      }
      code := RegularUser;
    }

    method Logout() returns (code: Code)
      requires Valid()
      modifies this`currentUser
      ensures Valid()
      ensures code == DeAuth && currentUser == None
    {
      currentUser := None;
      code := DeAuth;
    }

    method ChangePassword(oldPassword: string, newPassword: string, confirmPassword: string) returns (code: Code)
      requires Valid() && currentUser.Some?
      modifies this`users
      ensures Valid()
      ensures var u := currentUser.value;
              if old(users)[u].password != oldPassword then code == WrongOldPassword && users == old(users)
              else if newPassword != confirmPassword then code == PasswordMismatch && users == old(users)
              else code == PasswordChanged && users == old(users)[u := old(users)[u].(password := newPassword)]
    {
      var u := currentUser.value;
      if users[u].password != oldPassword {
        return WrongOldPassword;
      }
      if newPassword != confirmPassword {
        return PasswordMismatch;
      }
      NewPasswordKeepsUnique(users, u, newPassword);
      users := users[u := users[u].(password := newPassword)];
      code := PasswordChanged;
    }

    // ---------------- cart ----------------

    method AddToCart(productId: int, quantity: int) returns (code: Code)
      requires Valid()
      modifies this`cart, this`nextCartId
      ensures Valid()
      ensures old(currentUser).None? ==> code == ErrorAuth && unchanged(this)
      ensures currentUser.Some? && productId !in products ==> code == ErrorProduct && unchanged(this)
      ensures currentUser.Some? && productId in products ==>
                var u, stock := currentUser.value, products[productId].stock;
                match FindLine(old(cart), u, productId)
                case None =>
                  if stock < quantity then code == ErrorStock && unchanged(this)
                  else code == Good && nextCartId == old(nextCartId) + 1
                       && cart == old(cart) + [CartLine(old(nextCartId), u, productId, quantity)]
                case Some(k) =>
                  var merged := old(cart)[k].quantity + quantity;
                  if stock < quantity || stock < merged then code == ErrorStock && unchanged(this)
                  else code == Good && nextCartId == old(nextCartId)
                       && cart == old(cart)[k := old(cart)[k].(quantity := merged)]
      ensures old(Guarded()) && quantity >= 1 ==> Guarded()
    {
      if currentUser.None? {
        return ErrorAuth;
      }
      var u := currentUser.value;
      if productId !in products {
        return ErrorProduct;
      }
      var product := products[productId];
      if product.stock < quantity {
        return ErrorStock;
      }
      var existing := FindLine(cart, u, productId);
      if existing.Some? {
        var k := existing.value;
        var merged := cart[k].quantity + quantity;
        if product.stock < merged {
          return ErrorStock;
        }
        CartRequantified(products, cart, nextCartId, orders, orderItems, supply, k, merged);
        cart := cart[k := cart[k].(quantity := merged)];
      } else {
        var line := CartLine(nextCartId, u, productId, quantity);
        CartAppended(products, cart, nextCartId, orders, orderItems, supply, line);
        cart := cart + [line];
        nextCartId := nextCartId + 1;
      }
      code := Good;
    }

    method UpdateCartItem(cartItemId: int, quantity: int) returns (code: Code)
      requires Valid() && (currentUser.Some? || FindById(cart, cartItemId).None?)
      modifies this`cart
      ensures Valid()
      ensures match FindById(old(cart), cartItemId)
              case None => code == Error && cart == old(cart)
              case Some(k) =>
                if old(cart)[k].user != currentUser.value then code == Error && cart == old(cart)
                else if products[old(cart)[k].product].stock < quantity then code == ErrorStock && cart == old(cart)
                else code == Good && cart == old(cart)[k := old(cart)[k].(quantity := quantity)]
      ensures old(Guarded()) && quantity >= 1 ==> Guarded()
    {
      var found := FindById(cart, cartItemId);
      if found.None? || cart[found.value].user != currentUser.value {
        return Error;
      }
      var k := found.value;
      assert cart[k] in cart;
      if products[cart[k].product].stock < quantity {
        return ErrorStock;
      }
      CartRequantified(products, cart, nextCartId, orders, orderItems, supply, k, quantity);
      cart := cart[k := cart[k].(quantity := quantity)];
      code := Good;
    }

    method DeleteFromCart(cartItemId: int) returns (code: Code)
      requires Valid() && (currentUser.Some? || FindById(cart, cartItemId).None?)
      modifies this`cart
      ensures Valid()
      ensures match FindById(old(cart), cartItemId)
              case None => code == Error && cart == old(cart)
              case Some(k) =>
                if old(cart)[k].user != currentUser.value then code == Error && cart == old(cart)
                else code == Good && cart == old(cart)[..k] + old(cart)[k + 1..]
      ensures old(Guarded()) ==> Guarded()
    {
      var found := FindById(cart, cartItemId);
      if found.None? || cart[found.value].user != currentUser.value {
        return Error;
      }
      DropOne(cart, found.value);
      DropWellFormed(cart, {cartItemId});
      DropMembers(cart, {cartItemId});
      cart := Drop(cart, {cartItemId});
      code := Good;
    }

    // ---------------- orders ----------------

    method CreateOrder(address: string) returns (code: Code)
      requires Valid()
      modifies this`products, this`cart, this`orders, this`orderItems
      ensures Valid()
      ensures currentUser.None? ==> code == ErrorAuth && unchanged(this)
      ensures currentUser.Some? && LinesOf(old(cart), currentUser.value) == [] ==>
                code == ErrorEmpty && unchanged(this)
      ensures currentUser.Some? && LinesOf(old(cart), currentUser.value) != [] ==>
                var u := currentUser.value;
                var lines := LinesOf(old(cart), u);
                var miss := FirstShortage(lines, old(products));
                if miss.Some? then
                  code == ErrorStockOf(old(products)[lines[miss.value].product].name) && unchanged(this)
                else
                  && code == Good
                  && orders == old(orders) + [Order(u, Processing, address, Total(lines, old(products)))]
                  && orderItems == old(orderItems) + Snapshot(lines, old(products), |old(orders)|)
                  && products == Withdraw(old(products), lines)
                  && cart == OthersLines(old(cart), u)
      ensures NonNegative(old(products)) ==> NonNegative(products)
      ensures old(Guarded()) ==> Guarded()
    {
      if currentUser.None? {
        return ErrorAuth;
      }
      var u := currentUser.value;
      var lines := LinesOf(cart, u);
      if lines == [] {
        return ErrorEmpty;
      }
      assert Known(products, lines) by {
        CommitKeepsCart(cart, nextCartId, products, u);
      }
      var miss := FindShortage(lines);
      if miss.Some? {
        return ErrorStockOf(products[lines[miss.value].product].name);
      }
      PlaceOrder(u, lines, address);
      code := Good;
    }

    /** The writing half of createOrder, once every line has passed the stock
        check: the order row, one item per line at the current price, the stock
        taken off and the user's cart emptied. */
    method PlaceOrder(u: nat, lines: seq<CartLine>, address: string)
      requires Valid() && lines == LinesOf(cart, u) && Known(products, lines)
      requires FirstShortage(lines, products).None?
      modifies this`products, this`cart, this`orders, this`orderItems
      ensures Valid()
      ensures orders == old(orders) + [Order(u, Processing, address, Total(lines, old(products)))]
      ensures orderItems == old(orderItems) + Snapshot(lines, old(products), |old(orders)|)
      ensures products == Withdraw(old(products), lines)
      ensures cart == OthersLines(old(cart), u)
      ensures NonNegative(old(products)) ==> NonNegative(products)
      ensures old(Guarded()) ==> Guarded()
    {
      var total := AddUpTotal(lines);
      var oid := |orders|;
      ghost var p0, c0, o0, i0 := products, cart, orders, orderItems;
      orders := orders + [Order(u, Processing, address, total)];
      WriteOrderItems(lines, oid);
      assert cart == OthersLines(c0, u) by {
        DropOwnLines(c0, u);
      }
      PlacedTables(p0, c0, nextCartId, o0, i0, supply, u, address, products, cart, orders, orderItems);
    }

    /** The stock check of createOrder, run over every line before anything is
        written: the first line, in cart order, that asks for more than its
        product's stock. */
    method FindShortage(lines: seq<CartLine>) returns (miss: Option<nat>)
      requires Known(products, lines)
      ensures miss == FirstShortage(lines, products)
    {
      var i := 0;
      while i < |lines|
        invariant 0 <= i <= |lines|
        invariant forall j :: 0 <= j < i ==> Fits(products, lines[j])
      {
        var l := lines[i];
        if products[l.product].stock < l.quantity {
          return Some(i);
        }
        i := i + 1;
      }
      miss := None;
    }

    /** The order total: each line's quantity at its product's current price. */
    method AddUpTotal(lines: seq<CartLine>) returns (total: int)
      requires Known(products, lines)
      ensures total == Total(lines, products)
    {
      total := 0;
      var i := 0;
      while i < |lines|
        invariant 0 <= i <= |lines|
        invariant total == Total(lines[..i], products)
      {
        var l := lines[i];
        assert lines[..i + 1][..i] == lines[..i];
        total := total + products[l.product].price * l.quantity;
        i := i + 1;
      }
      assert lines[..|lines|] == lines;
    }

    /** The write loop of createOrder: for each line, an order item with the
        product's price, the stock taken off, and the cart row deleted. */
    method WriteOrderItems(lines: seq<CartLine>, oid: nat)
      requires Known(products, lines)
      modifies this`products, this`cart, this`orderItems
      ensures products == Withdraw(old(products), lines)
      ensures orderItems == old(orderItems) + Snapshot(lines, old(products), oid)
      ensures cart == Drop(old(cart), IdSet(lines))
    {
      ghost var p0, c0, w0 := products, cart, orderItems;
      assert IdSet(lines[..0]) == {};
      DropNone(c0, {});
      var i := 0;
      while i < |lines|
        invariant Written(p0, c0, w0, lines, i, oid, products, orderItems, cart)
      {
        WriteStep(p0, c0, w0, lines, i, oid, products, orderItems, cart);
        var l := lines[i];
        products, orderItems, cart :=
          products[l.product := products[l.product].(stock := products[l.product].stock - l.quantity)],
          orderItems + [OrderLine(oid, l.product, l.quantity, products[l.product].price)],
          Drop(cart, {l.id});
        i := i + 1;
      }
      assert lines[..|lines|] == lines;
    }

    method GetOrder(orderId: int) returns (r: Option<Order>)
      requires Valid() && (currentUser.Some? || !(0 <= orderId < |orders|))
      ensures r.Some? <==> 0 <= orderId < |orders| && orders[orderId].user == currentUser.value
      ensures r.Some? ==> r.value == orders[orderId]
    {
      if !(0 <= orderId < |orders|) || orders[orderId].user != currentUser.value {
        return None;
      }
      r := Some(orders[orderId]);
    }

    method GetOrderItems(orderId: int) returns (r: Option<seq<OrderLine>>)
      requires Valid() && (currentUser.Some? || !(0 <= orderId < |orders|))
      ensures r.Some? <==> 0 <= orderId < |orders| && orders[orderId].user == currentUser.value
      ensures r.Some? ==> r.value == ItemsOf(orderItems, orderId)
      ensures r.Some? ==> forall it :: it in r.value <==> it in orderItems && it.order == orderId
    {
      if !(0 <= orderId < |orders|) || orders[orderId].user != currentUser.value {
        return None;
      }
      var items := ItemsOf(orderItems, orderId);
      ItemsOfExactly(orderItems, orderId);
      r := Some(items);
    }

    method CancelOrder(orderId: int) returns (code: Code)
      requires Valid() && (currentUser.Some? || !(0 <= orderId < |orders|))
      modifies this`products, this`orders
      ensures Valid()
      ensures !(0 <= orderId < |old(orders)|) || old(orders)[orderId].user != currentUser.value ==>
                code == Error && unchanged(this)
      ensures 0 <= orderId < |old(orders)| && old(orders)[orderId].user == currentUser.value ==>
                if old(orders)[orderId].status != Processing then code == ErrorStatus && unchanged(this)
                else
                  && code == Good
                  && orders == old(orders)[orderId := old(orders)[orderId].(status := Cancelled)]
                  && products == Restock(old(products), ItemsOf(orderItems, orderId))
      ensures NonNegative(old(products)) && 0 <= orderId
              && (forall it :: it in orderItems && it.order == orderId ==> it.quantity >= 0) ==>
                NonNegative(products)
      ensures old(Guarded()) ==> Guarded()
    {
      if !(0 <= orderId < |orders|) || orders[orderId].user != currentUser.value {
        return Error;
      }
      if orders[orderId].status != Processing {
        return ErrorStatus;
      }
      var items := ItemsOf(orderItems, orderId);
      assert KnownItems(products, items) by {
        CancelKeeps(products, orders, orderItems, supply, cart, nextCartId, orderId);
      }
      ghost var p0, o0 := products, orders;
      RestockItems(items);
      orders := orders[orderId := orders[orderId].(status := Cancelled)];
      CancelledTables(p0, cart, nextCartId, o0, orderItems, supply, orderId, products, orders);
      code := Good;
    }

    /** The loop of cancelOrder: each item's quantity added back to its product's stock. */
    method RestockItems(items: seq<OrderLine>)
      requires KnownItems(products, items)
      modifies this`products
      ensures products == Restock(old(products), items)
    {
      var i := 0;
      while i < |items|
        invariant 0 <= i <= |items|
        invariant products == Restock(old(products), items[..i])
      {
        var it := items[i];
        assert items[..i + 1][..i] == items[..i];
        products := products[it.product := products[it.product].(stock := products[it.product].stock + it.quantity)];
        i := i + 1;
      }
      assert items[..|items|] == items;
    }
  }
}
