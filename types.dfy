/** The records the pages exchange with the API, with the fields the two
    pages read or build. */
module Types {

  datatype ShippingInfo = ShippingInfo(
    address: string,
    city: string,
    state: string,
    country: string,
    pinCode: string)

  /** One line of an order. Prices are JavaScript numbers, taken here as
      exact reals; the quantity is a whole number. */
  datatype OrderItem = OrderItem(
    name: string,
    photo: string,
    price: real,
    quantity: int,
    productId: string,
    id: string)

  /** The owner of an order as the order embeds it. */
  datatype OrderUser = OrderUser(name: string, id: string)

  datatype Order = Order(
    shippingInfo: ShippingInfo,
    status: string,
    subtotal: real,
    discount: real,
    shippingCharges: real,
    tax: real,
    total: real,
    orderItems: seq<OrderItem>,
    user: OrderUser,
    id: string)

  /** A user account: what the login page sends and what the client's
      auth state holds. */
  datatype User = User(
    name: string,
    email: string,
    photo: string,
    gender: string,
    role: string,
    dob: string,
    id: string)
}
