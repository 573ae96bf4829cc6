/**
 * The two stored entities. Identifiers are opaque strings, prices and
 * quantities are whole numbers, and `status` is free text: nothing in the
 * system restricts it to a fixed set of values.
 */
module Types {

  /** A catalogue entry. */
  datatype Product = Product(id: string, name: string, price: int)

  /** A priced order line: `name` and `totalPrice` are copied from the catalogue when the order is created. */
  datatype OrderItem = OrderItem(productId: string, name: string, quantity: int, totalPrice: int)

  /** A stored order; `id` and `createdAt` are assigned by the store. */
  datatype Order = Order(
    id: string,
    buyerName: string,
    buyerContact: string,
    deliveryAddress: string,
    items: seq<OrderItem>,
    status: string,
    createdAt: string)

  /** The status the server gives an order whose request names none. */
  const DefaultStatus := "pending"
}
