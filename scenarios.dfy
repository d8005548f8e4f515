/** Client-side sequences of requests to one shop, as the web pages issue
    them: placing an order and cancelling it, and cancelling twice. */
module Scenarios {

  import opened Entities
  import opened Codes
  import opened CartTable
  import opened Ledger
  import opened OrderBook
  import opened Controller

  /** A user whose whole cart is in stock places an order and cancels it at
      once: both requests succeed, the new order ends up cancelled, and every
      product's stock is back where it started. */
  method OrderThenCancel(shop: ShopController, address: string) returns (placed: Code, cancelled: Code)
    requires shop.Valid() && shop.currentUser.Some?
    requires LinesOf(shop.cart, shop.currentUser.value) != []
    requires FirstShortage(LinesOf(shop.cart, shop.currentUser.value), shop.products).None?
    modifies shop
    ensures placed == Good && cancelled == Good
    ensures shop.products == old(shop.products)
    ensures |shop.orders| == |old(shop.orders)| + 1 && shop.orders[|old(shop.orders)|].status == Cancelled
  {
    var u := shop.currentUser.value;
    var oid := |shop.orders|;
    ghost var p0, i0, o0, lines := shop.products, shop.orderItems, shop.orders, LinesOf(shop.cart, u);
    assert Known(p0, lines) by {
      CommitKeepsCart(shop.cart, shop.nextCartId, p0, u);
    }
    PlaceThenCancel(p0, i0, o0, lines);
    placed := shop.CreateOrder(address);
    assert placed == Good;
    assert shop.orders == o0 + [Order(u, Processing, address, Total(lines, p0))];
    assert shop.products == Withdraw(p0, lines) && shop.orderItems == i0 + Snapshot(lines, p0, oid);
    cancelled := shop.CancelOrder(oid);
  }

  /** Cancelling the same order twice: once the first request succeeds, the
      order is no longer in processing and the second gets ERRORSTATUS and
      changes nothing; a first request that fails makes the second fail the
      same way. */
  method CancelTwice(shop: ShopController, orderId: int) returns (first: Code, second: Code)
    requires shop.Valid() && (shop.currentUser.Some? || !(0 <= orderId < |shop.orders|))
    modifies shop
    ensures shop.Valid()
    ensures first == Good ==> second == ErrorStatus
    ensures first != Good ==> second == first
  {
    first := shop.CancelOrder(orderId);
    second := shop.CancelOrder(orderId);
  }

  /** The server takes any quantity the stock check lets through, and
      `stock < quantity` lets every negative quantity through. One user, with
      product 1 out of stock, adds -5 of it and orders, which raises the stock
      to 5; adds 5 and orders again, which brings it back to 0; then cancels
      the first order, which puts the -5 back and leaves the stock at -5.
      Every request answers as a success. */
  method NegativeStock() returns (codes: seq<Code>, stock: int)
    ensures codes == [Good, Auth, Good, Good, Good, Good, Good]
    ensures stock == -5
  {
    var shop, setup := OpenShop();
    var ordered := OrderTwice(shop);
    var cancelled := CancelFirst(shop);
    codes := setup + ordered + [cancelled];
    stock := shop.products[1].stock;
  }

  /** A shop selling one product, out of stock, with one user logged in. */
  method OpenShop() returns (shop: ShopController, codes: seq<Code>)
    ensures fresh(shop) && codes == [Good, Auth]
    ensures shop.Valid() && shop.currentUser == Some(0)
    ensures shop.products == map[1 := Product("film", 10, 0)]
    ensures shop.cart == [] && shop.nextCartId == 0 && shop.orders == [] && shop.orderItems == []
  {
    shop := new ShopController(map[1 := Product("film", 10, 0)]);
    var registered := shop.Register("a", "pw", "a@mail");
    var loggedIn := shop.Login("a", "pw");
    codes := [registered, loggedIn];
  }

  /** The two orders: the first of -5 units, the second of 5. */
  method OrderTwice(shop: ShopController) returns (codes: seq<Code>)
    requires shop.Valid() && shop.currentUser == Some(0)
    requires shop.products == map[1 := Product("film", 10, 0)]
    requires shop.cart == [] && shop.nextCartId == 0 && shop.orders == [] && shop.orderItems == []
    modifies shop
    ensures codes == [Good, Good, Good, Good]
    ensures shop.Valid() && shop.currentUser == Some(0)
    ensures shop.products == map[1 := Product("film", 10, 0)]
    ensures |shop.orders| == 2 && shop.orders[0].user == 0 && shop.orders[0].status == Processing
    ensures shop.orderItems == [OrderLine(0, 1, -5, 10), OrderLine(1, 1, 5, 10)]
  {
    var first := AddAndOrder(shop, 0, -5, 0, 5, []);
    var second := AddAndOrder(shop, 1, 5, 5, 0, [OrderLine(0, 1, -5, 10)]);
    codes := first + second;
  }

  /** With an empty cart and product 1 at stock `before`, adding `q` of it and
      ordering succeeds whenever q <= before, and leaves the stock at `after`. */
  method AddAndOrder(shop: ShopController, id: int, q: int, before: int, after: int, items: seq<OrderLine>)
      returns (codes: seq<Code>)
    requires shop.Valid() && shop.currentUser == Some(0)
    requires q <= before && after == before - q
    requires shop.products == map[1 := Product("film", 10, before)]
    requires shop.cart == [] && shop.nextCartId == id && shop.orderItems == items
    modifies shop
    ensures codes == [Good, Good]
    ensures shop.Valid() && shop.currentUser == Some(0)
    ensures shop.products == map[1 := Product("film", 10, after)]
    ensures shop.cart == [] && shop.nextCartId == id + 1
    ensures shop.orders == old(shop.orders) + [Order(0, Processing, "street", 10 * q)]
    ensures shop.orderItems == items + [OrderLine(|old(shop.orders)|, 1, q, 10)]
  {
    var added := AddOne(shop, id, q, before);
    var placed := OrderOne(shop, CartLine(id, 0, 1, q), before);
    codes := [added, placed];
  }

  /** With an empty cart, adding q of product 1 at stock `before` (q <= before)
      creates the cart's only row, under the next id. */
  method AddOne(shop: ShopController, id: int, q: int, before: int) returns (code: Code)
    requires shop.Valid() && shop.currentUser == Some(0) && q <= before
    requires shop.products == map[1 := Product("film", 10, before)]
    requires shop.cart == [] && shop.nextCartId == id
    modifies shop
    ensures code == Good
    ensures shop.Valid() && shop.currentUser == Some(0)
    ensures shop.products == old(shop.products) && shop.orders == old(shop.orders)
    ensures shop.orderItems == old(shop.orderItems)
    ensures shop.cart == [CartLine(id, 0, 1, q)] && shop.nextCartId == id + 1
  {
    code := shop.AddToCart(1, q);
  }

  /** Ordering a cart whose only row is user 0's line for product 1, within stock. */
  method OrderOne(shop: ShopController, line: CartLine, before: int) returns (code: Code)
    requires shop.Valid() && shop.currentUser == Some(0)
    requires line.user == 0 && line.product == 1 && line.quantity <= before
    requires shop.products == map[1 := Product("film", 10, before)]
    requires shop.cart == [line]
    modifies shop
    ensures code == Good
    ensures shop.Valid() && shop.currentUser == Some(0)
    ensures shop.products == map[1 := Product("film", 10, before - line.quantity)]
    ensures shop.cart == [] && shop.nextCartId == old(shop.nextCartId)
    ensures shop.orders == old(shop.orders) + [Order(0, Processing, "street", 10 * line.quantity)]
    ensures shop.orderItems == old(shop.orderItems) + [OrderLine(|old(shop.orders)|, 1, line.quantity, 10)]
  {
    OneLine(line, before, |shop.orders|);
    code := shop.CreateOrder("street");
  }

  /** The tables an order of a single cart line produces. */
  lemma OneLine(line: CartLine, before: int, o: nat)
    requires line.user == 0 && line.product == 1 && line.quantity <= before
    ensures LinesOf([line], 0) == [line] && OthersLines([line], 0) == []
    ensures FirstShortage([line], map[1 := Product("film", 10, before)]) == None
    ensures Withdraw(map[1 := Product("film", 10, before)], [line])
              == map[1 := Product("film", 10, before - line.quantity)]
    ensures Snapshot([line], map[1 := Product("film", 10, before)], o) == [OrderLine(o, 1, line.quantity, 10)]
    ensures Total([line], map[1 := Product("film", 10, before)]) == 10 * line.quantity
  {
    assert [line][..0] == [];
  }

  /** Cancelling the first order puts its -5 units back on an empty shelf. */
  method CancelFirst(shop: ShopController) returns (code: Code)
    requires shop.Valid() && shop.currentUser == Some(0)
    requires shop.products == map[1 := Product("film", 10, 0)]
    requires |shop.orders| == 2 && shop.orders[0].user == 0 && shop.orders[0].status == Processing
    requires shop.orderItems == [OrderLine(0, 1, -5, 10), OrderLine(1, 1, 5, 10)]
    modifies shop
    ensures code == Good
    ensures shop.products == map[1 := Product("film", 10, -5)]
  {
    FirstOrderItems();
    code := shop.CancelOrder(0);
  }

  /** The items of order 0, and what putting them back does to an empty shelf. */
  lemma FirstOrderItems()
    ensures ItemsOf([OrderLine(0, 1, -5, 10), OrderLine(1, 1, 5, 10)], 0) == [OrderLine(0, 1, -5, 10)]
    ensures Restock(map[1 := Product("film", 10, 0)], [OrderLine(0, 1, -5, 10)]) == map[1 := Product("film", 10, -5)]
  {
    var items := [OrderLine(0, 1, -5, 10), OrderLine(1, 1, 5, 10)];
    assert items[..1] == [OrderLine(0, 1, -5, 10)] && items[..1][..0] == [];
    assert [OrderLine(0, 1, -5, 10)][..0] == [];
  }
}
