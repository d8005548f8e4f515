/** The rows of the shop's tables, as values. Prices and totals are integer
    minor units (the source keeps them as doubles). */
module Entities {

  datatype Option<T> = None | Some(value: T)

  /** Order status; the source stores these as Russian labels. */
  datatype Status = Processing | Shipped | Delivered | Cancelled

  /** The label the source stores in the order row for each status. */
  function Label(s: Status): string
  {
    match s
    case Processing => "В обработке"
    case Shipped => "Отправлен"
    case Delivered => "Доставлен"
    case Cancelled => "Отменен"
  }

  /** Distinct statuses are stored as distinct labels, so reading a label
      back identifies the status. */
  lemma LabelInjective(a: Status, b: Status)
    requires Label(a) == Label(b)
    ensures a == b
  {
  }

  datatype User = User(login: string, password: string, email: string)

  datatype Product = Product(name: string, price: int, stock: int)

  /** A cart row: owner (a user id), product id and the requested quantity. */
  datatype CartLine = CartLine(id: int, user: nat, product: int, quantity: int)

  datatype Order = Order(user: nat, status: Status, address: string, total: int)

  /** An order row: the order it belongs to, and the quantity and the price
      of the product at the moment the order was placed. */
  datatype OrderLine = OrderLine(order: nat, product: int, quantity: int, price: int)
}
