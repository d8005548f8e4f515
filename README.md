# FilmBase shop core, modelled in Dafny

FilmBase is a film shop: a Spring controller (`ShopController`) behind a React
client. This project models the controller's shopping core:

- accounts and the session's current user: register, login, logout,
  current-user and change-password;
- the cart: add a product (merging with an existing row), change a row's
  quantity, delete a row;
- placing an order from the whole cart;
- reading an order and its items, restricted to the owner;
- cancelling an order in processing, which puts its stock back.

The JPA tables become fields of one class, `Controller.ShopController`:
- `users` is a `seq<User>`, and a user's id is its index.
- `products` is a `map<int, Product>` keyed by product id.
- `cart` is a `seq<CartLine>` kept in ascending id order. `findAllByUser`
  promises no order, and the model fixes this one (see "## Left out").
- `orders` is a `seq<Order>`, and an order's id is its index.
- `orderItems` is an append-only `seq<OrderLine>`.

Each controller operation is a method that changes those fields in place. The
loops of `createOrder` and `cancelOrder` are `while` loops proved against
value-level specification functions:
- `Ledger.Withdraw` and `Ledger.Restock` give the stock after placing and after cancelling.
- `OrderBook.Snapshot` gives the order items written.
- `OrderBook.Total` gives the order total.
- `CartTable.LinesOf`, `CartTable.OthersLines` and `CartTable.Drop` give the cart rows.

The properties of the shop are stated about those functions and as invariants
the class keeps (`ShopController.Valid`):
- Cart rows are well formed: ids increase, and no user has two rows for one product.
- Every order's total is the worth of its items at their recorded prices.
- Conservation: stock on the shelf plus units held by orders in processing stays
  constant per product. This is tracked through a ghost `supply` map.

Replies are modelled as a datatype `Codes.Code`:
- `Codes.Text` holds the exact strings the controller returns.
- `Codes.Parse` reads a reply the way the client does (`Cart.js`, `Orders.js`,
  `AccountSettings.js`). It compares exactly, strips the `ERRORSTOCK_` prefix to
  get a product name, and reads the digit before the full stop in account messages.
- Every reply reads back as its outcome.

Modelling choices:
- Prices and totals are integers in minor units. The source keeps them as `double`.
- Integers are unbounded. The source's `int` stock and quantities could wrap at
  32 bits, and the model does not capture that.
- Row ids are positions or counters, not database-generated keys.

### What the server checks and what it does not

- **Quantities.** The server checks only `stock < quantity`. It never checks that a
  quantity is positive, so zero and negative quantities pass. Only the client refuses
  an update below 1 (`Cart.js:59-61`).
  - The contracts of `AddToCart`, `UpdateCartItem`, `CreateOrder` and `CancelOrder`
    cover any integer quantity.
  - The facts that hold while every quantity is positive are stated through the
    `Guarded` predicate. One of them is that stock never goes negative.
  - Without that guard the server can drive stock negative (see "## Findings").
- **Delivery address.** The server accepts any address string, as the model does.
  A request with no address at all is not modelled (see "## Left out").
- **Locking.** `createOrder` first checks every line, then writes line by line,
  with no locking. The model is sequential. Because the check loop finishes before
  anything is written, a failed check changes nothing.
- **Current user.** `updateCartItem`, `deleteFromCart`, `getOrder`, `getOrderItems`
  and `cancelOrder` read the current user's id without a null check once the row
  is found, so a call with no user logged in throws unless the row is missing.
  - The model states this as a precondition: a current user, or a missing row.
  - `changePassword` reads the current user unconditionally, so it requires one.

## Model

Source paths are relative to the repository root. A `None` result stands for the source's `null`.

| member | source | states |
|---|---|---|
| Controller.ShopController.constructor | FilmBase/src/main/java/com/example/filmbase/controllers/ShopController.java:23-47 | a shop over a catalogue starts with no users, carts, orders or session, the first cart row id 0, and satisfies every table invariant |
| Controller.ShopController.Register | FilmBase/src/main/java/com/example/filmbase/controllers/ShopController.java:51-61 | a taken login gives ERRORLOGIN; otherwise a taken e-mail gives ERROREMAIL; both leave the users unchanged, in that order; otherwise the user is appended and logins and e-mails stay unique |
| Controller.ShopController.Login | FilmBase/src/main/java/com/example/filmbase/controllers/ShopController.java:63-74 | the session becomes the user with that login exactly when the password matches (AUTH); otherwise NOAUTH with the session unchanged |
| Controller.ShopController.GetCurrentUser | FilmBase/src/main/java/com/example/filmbase/controllers/ShopController.java:76-81 | NULL without a session, ADMIN for the login "admin", USER otherwise |
| Controller.ShopController.Logout | FilmBase/src/main/java/com/example/filmbase/controllers/ShopController.java:83-92 | the session is cleared and DEAUTH returned |
| Controller.ShopController.ChangePassword | FilmBase/src/main/java/com/example/filmbase/controllers/ShopController.java:441-454 | wrong old password gives code 2, then a mismatched confirmation gives code 3, both changing nothing; otherwise only the current user's password is replaced (code 1) |
| Controller.ShopController.AddToCart | FilmBase/src/main/java/com/example/filmbase/controllers/ShopController.java:213-262 | no session gives ERRORAUTH, an unknown product ERRORPRODUCT, a quantity above stock ERRORSTOCK, an existing row whose merged quantity exceeds stock ERRORSTOCK, all changing nothing; otherwise the existing row's quantity grows by the amount or a new row with the next id is appended; invariants kept, guards kept for a positive amount |
| Controller.ShopController.UpdateCartItem | FilmBase/src/main/java/com/example/filmbase/controllers/ShopController.java:264-278 | a missing row or another user's row gives ERROR, a quantity above stock ERRORSTOCK, changing nothing; otherwise exactly that row's quantity is set |
| Controller.ShopController.DeleteFromCart | FilmBase/src/main/java/com/example/filmbase/controllers/ShopController.java:280-300 | a missing row or another user's row gives ERROR and changes nothing; otherwise exactly that row is removed from the cart |
| Controller.ShopController.CreateOrder | FilmBase/src/main/java/com/example/filmbase/controllers/ShopController.java:304-363 | ERRORAUTH without a session, ERROREMPTY for an empty cart, ERRORSTOCK_ plus the name of the first line in cart order that exceeds stock, all changing nothing; otherwise one order in processing with the cart's total, one item per line at the current price, each product's stock lowered by its lines, the user's cart emptied and other carts untouched; invariants kept and stock stays non-negative |
| Controller.ShopController.PlaceOrder | FilmBase/src/main/java/com/example/filmbase/controllers/ShopController.java:318-362 | once every line has passed the check, the order row, its items, the withdrawn stock and the emptied cart are exactly those of the specification functions, and every invariant holds afterwards |
| Controller.ShopController.FindShortage | FilmBase/src/main/java/com/example/filmbase/controllers/ShopController.java:312-316 | the check loop finds the first line that asks for more than its product's stock, or none |
| Controller.ShopController.AddUpTotal | FilmBase/src/main/java/com/example/filmbase/controllers/ShopController.java:325-329 | the total loop sums price times quantity over the lines |
| Controller.ShopController.WriteOrderItems | FilmBase/src/main/java/com/example/filmbase/controllers/ShopController.java:334-349 | the write loop appends the snapshot items, withdraws the lines' stock and deletes exactly the lines' cart rows |
| Controller.ShopController.GetOrder | FilmBase/src/main/java/com/example/filmbase/controllers/ShopController.java:370-377 | the order is returned exactly when it exists and belongs to the current user |
| Controller.ShopController.GetOrderItems | FilmBase/src/main/java/com/example/filmbase/controllers/ShopController.java:379-386 | items are returned exactly when the order exists and is the user's, and they are the order's items in the order they were written (`ItemsOf`), so exactly the table's items of that order |
| Controller.ShopController.CancelOrder | FilmBase/src/main/java/com/example/filmbase/controllers/ShopController.java:388-421 | a missing or foreign order gives ERROR, a status other than processing ERRORSTATUS, changing nothing; otherwise the order becomes cancelled and each of its items' quantity goes back to stock; invariants and supply kept |
| Controller.ShopController.RestockItems | FilmBase/src/main/java/com/example/filmbase/controllers/ShopController.java:399-404 | the restock loop adds each item's quantity back to its product |
| Controller.Commit | FilmBase/src/main/java/com/example/filmbase/controllers/ShopController.java:304-363 | placing an order from tables satisfying every invariant yields tables satisfying them, with stock non-negative when the check passed |
| Controller.PlacedTables | FilmBase/src/main/java/com/example/filmbase/controllers/ShopController.java:318-362 | the same, for tables given as equal to the placed order's |
| Controller.CommitKeepsCart | FilmBase/src/main/java/com/example/filmbase/controllers/ShopController.java:346-348 | after the commit the remaining cart rows are well formed and all name known products |
| Controller.CommitKeepsOrders | FilmBase/src/main/java/com/example/filmbase/controllers/ShopController.java:319-349 | after the commit every order's total, the new one included, equals the worth of its items |
| Controller.CommitConserves | FilmBase/src/main/java/com/example/filmbase/controllers/ShopController.java:334-349 | stock on the shelf plus units held by orders in processing is unchanged by placing an order |
| Controller.CommitKeepsGuard | FilmBase/src/main/java/com/example/filmbase/controllers/ShopController.java:334-349 | positive cart quantities give positive order item quantities |
| Controller.CancelKeeps | FilmBase/src/main/java/com/example/filmbase/controllers/ShopController.java:397-406 | cancelling an order in processing keeps every table invariant and the supply |
| Controller.CancelledTables | FilmBase/src/main/java/com/example/filmbase/controllers/ShopController.java:397-406 | the same, for tables given as equal to the cancelled order's |
| Controller.CancelKeepsGuard | FilmBase/src/main/java/com/example/filmbase/controllers/ShopController.java:399-404 | restocking an order's non-negative items keeps stock non-negative |
| Controller.CartAppended | FilmBase/src/main/java/com/example/filmbase/controllers/ShopController.java:244-248 | a new row with the next id for a product the user has no row for keeps the invariants |
| Controller.CartRequantified | FilmBase/src/main/java/com/example/filmbase/controllers/ShopController.java:224-231 | changing one row's quantity keeps the invariants, and a positive quantity keeps the guards |
| Controller.WriteStep | FilmBase/src/main/java/com/example/filmbase/controllers/ShopController.java:334-349 | one turn of the write loop extends the loop invariant by one line |
| Scenarios.OrderThenCancel | FilmBase/src/main/java/com/example/filmbase/controllers/ShopController.java:304-421 | ordering a cart that passes the check and then cancelling that order both succeed, and the catalogue returns exactly to what it was |
| Scenarios.CancelTwice | FilmBase/src/main/java/com/example/filmbase/controllers/ShopController.java:388-406 | a second cancel of an order just cancelled answers ERRORSTATUS; a first cancel that fails fails the same way again |
| Scenarios.NegativeStock | FilmBase/src/main/java/com/example/filmbase/controllers/ShopController.java:213-421 | one user adds -5 of an out-of-stock product and orders, adds 5 and orders, then cancels the first order: every request succeeds and the stock ends at -5 |
| Scenarios.AddAndOrder | FilmBase/src/main/java/com/example/filmbase/controllers/ShopController.java:213-363 | for the fixed one-product shop of `NegativeStock` (product 1 at price 10, user 0 logged in, address "street"), with an empty cart, adding a quantity that passes the stock check and ordering it succeeds, writes one order and one item at the current price, and lowers the stock by that quantity |
| Accounts.FindByLogin | FilmBase/src/main/java/com/example/filmbase/repositories/UserRepository.java:9 | the user found has that login, and none is found exactly when no user has it |
| Accounts.FindByLoginUnique | FilmBase/src/main/java/com/example/filmbase/repositories/UserRepository.java:9 | with unique logins the lookup finds exactly the user with that login |
| Accounts.RegisterKeepsUnique | FilmBase/src/main/java/com/example/filmbase/controllers/ShopController.java:53-59 | a registration that passed both checks keeps logins and e-mails unique |
| Accounts.NewPasswordKeepsUnique | FilmBase/src/main/java/com/example/filmbase/controllers/ShopController.java:451-452 | a password change keeps logins and e-mails unique |
| CartTable.FindLine | FilmBase/src/main/java/com/example/filmbase/repositories/CartItemRepository.java:13 | the row found is the user's row for the product, and none is found exactly when there is no such row |
| CartTable.FindById | FilmBase/src/main/java/com/example/filmbase/repositories/CartItemRepository.java:14 | the row found has the id, and none is found exactly when no row has it |
| CartTable.LinesOfMembers | FilmBase/src/main/java/com/example/filmbase/repositories/CartItemRepository.java:15 | a user's rows are exactly the cart rows owned by the user |
| CartTable.OthersLinesMembers | FilmBase/src/main/java/com/example/filmbase/controllers/ShopController.java:346-348 | what remains after the commit is exactly the rows of other users |
| CartTable.DropMembers | FilmBase/src/main/java/com/example/filmbase/controllers/ShopController.java:298 | deleting by ids keeps exactly the rows whose id is not among them |
| CartTable.DropOne | FilmBase/src/main/java/com/example/filmbase/controllers/ShopController.java:298 | deleting by one row's id removes that row and nothing else |
| CartTable.DropOwnLines | FilmBase/src/main/java/com/example/filmbase/controllers/ShopController.java:334-349 | deleting every row of the user's cart leaves exactly the other users' rows |
| CartTable.DropDrop | FilmBase/src/main/java/com/example/filmbase/controllers/ShopController.java:334-349 | deleting rows one after another equals deleting them together |
| CartTable.WellFormedSnoc | FilmBase/src/main/java/com/example/filmbase/controllers/ShopController.java:244-248 | appending a row with a fresh id and a fresh (user, product) pair keeps the cart well formed |
| CartTable.LinesOfDistinct | FilmBase/src/main/java/com/example/filmbase/controllers/ShopController.java:224-231 | because addToCart merges, a user's cart names each product at most once |
| Ledger.FirstShortage | FilmBase/src/main/java/com/example/filmbase/controllers/ShopController.java:312-316 | the position found exceeds stock and every earlier line fits; there is none exactly when every line fits |
| Ledger.WithdrawAt | FilmBase/src/main/java/com/example/filmbase/controllers/ShopController.java:343-345 | placing an order lowers each product's stock by exactly the units its lines ask for |
| Ledger.RestockAt | FilmBase/src/main/java/com/example/filmbase/controllers/ShopController.java:399-404 | cancelling raises each product's stock by exactly the units its items hold |
| Ledger.WithdrawKeepsCatalogue | FilmBase/src/main/java/com/example/filmbase/controllers/ShopController.java:343-345 | taking stock off changes no product's name or price |
| Ledger.RestockKeepsCatalogue | FilmBase/src/main/java/com/example/filmbase/controllers/ShopController.java:399-404 | putting stock back changes no product's name or price |
| Ledger.CartQtyDistinct | FilmBase/src/main/java/com/example/filmbase/controllers/ShopController.java:224-231 | with one row per product, the units asked of a product are its row's |
| Ledger.WithdrawNonNegative | FilmBase/src/main/java/com/example/filmbase/controllers/ShopController.java:312-345 | when every line fits, withdrawing leaves no product with negative stock |
| Ledger.RestockNonNegative | FilmBase/src/main/java/com/example/filmbase/controllers/ShopController.java:399-404 | restocking non-negative quantities leaves no product with negative stock |
| OrderBook.SnapshotAt | FilmBase/src/main/java/com/example/filmbase/controllers/ShopController.java:335-340 | item k of the new order is cart line k with the product's price at ordering time |
| OrderBook.SnapshotQty | FilmBase/src/main/java/com/example/filmbase/controllers/ShopController.java:335-340 | the new order's items hold exactly the units its lines asked for |
| OrderBook.SnapshotSum | FilmBase/src/main/java/com/example/filmbase/controllers/ShopController.java:325-340 | the order total equals the sum of price times quantity over the items written |
| OrderBook.ItemsOfExactly | FilmBase/src/main/java/com/example/filmbase/repositories/OrderItemRepository.java:12 | an order's items are exactly the table's items belonging to it |
| OrderBook.ItemsOfSnapshot | FilmBase/src/main/java/com/example/filmbase/controllers/ShopController.java:334-349 | the items an order lists are those written when it was placed |
| OrderBook.RoundTrip | FilmBase/src/main/java/com/example/filmbase/controllers/ShopController.java:399-404 | restocking an order's snapshot after withdrawing its lines gives back the catalogue exactly |
| OrderBook.PlaceThenCancel | FilmBase/src/main/java/com/example/filmbase/controllers/ShopController.java:397-404 | for a just-placed order, the items the cancel looks up are its snapshot, so the cancel undoes the withdrawal |
| OrderBook.ReservedCancel | FilmBase/src/main/java/com/example/filmbase/controllers/ShopController.java:406 | cancelling releases exactly the units the order's items held |
| OrderBook.ReservedNewOrder | FilmBase/src/main/java/com/example/filmbase/controllers/ShopController.java:319-331 | a new order changes no units held by existing items |
| Codes.ParseText | filmbase-frontend/src/components/Cart.js:129-142 | every reply string reads back, under the client's parsing, as the outcome it reports: the cart and order codes by exact comparison, the product name after ERRORSTOCK_, and the account messages by their leading digit (AccountSettings.js:116-125) |
| Codes.TextInjective | FilmBase/src/main/java/com/example/filmbase/controllers/ShopController.java:213-454 | no two outcomes share a reply string |
| Entities.LabelInjective | FilmBase/src/main/java/com/example/filmbase/entities/Order.java:33 | distinct statuses are stored under distinct labels, so comparing the `Status` value, as `CancelOrder` does, decides the same as the label comparison at ShopController.java:394 |

## Left out

- Kafka events and the Redis session keys that login writes and logout deletes (ShopController.java:69-70, 86-88) are left out. The controller never reads those keys; the `currentUser` field alone decides the session. The Redis product-list cache belongs to the catalogue paths, which are not modelled.
- The JPA persistence layer is modelled as in-memory tables. Transactions and failures of the store are left out.
- Concurrency is left out. Every operation is one atomic step of a sequential machine.
- Money uses integer minor units instead of `double`, so floating-point rounding of totals is left out.
- Stock and quantities are unbounded integers, so 32-bit `int` overflow is left out.
- Order dates are a clock read, and they are left out.
- `getMyOrders` is left out. It differs from the owner filter of `GetOrder` only by its date ordering.
- `getCart`, `getAccount` and `updateAccount` are left out. They are read or profile operations outside the cart-to-order path.
- Register's handling of an id sent in the request body is left out. The model always creates a new row.
- The admin product and category CRUD and the React UI are left out.
- The CartItem and OrderItem entity classes are not part of this model. Their fields are taken from the controller's use of them.
- Controller.ShopController.UpdateCartItem, Controller.ShopController.DeleteFromCart, Controller.ShopController.GetOrder, Controller.ShopController.GetOrderItems, Controller.ShopController.CancelOrder: a call without a session on an existing row is excluded by the precondition, because the source dereferences a null user there.
- Controller.ShopController.ChangePassword: requires a session, because the source dereferences the current user unconditionally.
- A user's cart rows and an order's items are listed in id order, the order they were written. `findAllByUser` and `findAllByOrder` promise no order, so the database may list them differently. The order decides which product `ERRORSTOCK_` names when several lines are short, and the order in which order items are written.
- A request with no delivery address is left out. The column is not nullable (Order.java:35-36), so `orderRepository.save` fails before anything is written; like other store failures, this is not modelled.
- Scenarios.OrderThenCancel: does not restate the cart and order-item tables after the cancel. The cart is left as the order emptied it, and the items stay in the table.

## Findings

| source | as written | input that shows it | evidently intended | confidence | as-written member | corrected member |
|---|---|---|---|---|---|---|
| FilmBase/src/main/java/com/example/filmbase/controllers/ShopController.java:220 | the stock check `stock < quantity` lets any negative quantity into the cart, and an order of it raises stock; cancelling that order later lowers stock below zero | product stock 0: add -5, order, add 5, order, cancel the first order; stock ends at -5 | stock never goes negative, as the client's positive-quantity guards ensure | not executed | Scenarios.NegativeStock | Controller.CancelKeepsGuard |

`Controller.ShopController.CancelOrder` models the code as written, and
`Scenarios.NegativeStock` runs the sequence against it. The intended property is
the guard:
- With every cart and item quantity positive (`Guarded`), no operation leaves
  stock negative (`Controller.CancelKeepsGuard`, `Controller.CommitKeepsGuard`).
- `AddToCart`, `UpdateCartItem`, `DeleteFromCart`, `CreateOrder` and
  `CancelOrder`, the operations that change the cart, orders or stock, keep
  `Guarded` (for a positive quantity where they take one), and their `ensures`
  say so.
