/** The data shapes the cart works on: a line item, a coupon, the customer
    reference and the cart record itself. Fields the cart never reads are
    omitted. */
module Api {

  datatype Option<+T> = None | Some(value: T)

  /** Which catalogue a line comes from; `(id, kind)` identifies a line. */
  datatype ItemType = Product | Menu

  /** One line of the cart. `price` is the unit price captured when the line
      was added; `quantity` is whatever the last update put there. */
  datatype CartItem = CartItem(id: int, kind: ItemType, name: string, price: real, quantity: int)

  datatype DiscountType = Percentage | Fixed

  /** A coupon as the cart sees it. For `Percentage` the value is on a
      0..100 scale; for `Fixed` it is an amount of money. */
  datatype Coupon = Coupon(id: int, code: string, description: string,
                           discountType: DiscountType, discountValue: real)

  /** The customer attached to an order; the cart stores it without looking inside. */
  datatype User = User(userId: int, username: string, phone: string, email: string)

  /** The cart record held by the store. */
  datatype Cart = Cart(items: seq<CartItem>, customer: Option<User>, coupon: Option<Coupon>,
                       pointsToUse: int, notes: string)
}
