/** The `orders` and `order_items` entities. An order's items are kept
    inside the order row (the one-to-many relation, loaded eagerly). Money
    is in cents. */
module OrderEntity {
  import opened Common

  datatype OrderStatus = Pending | Processing | Shipped | Delivered | Cancelled

  /** The column default of `status`, which a new order keeps. */
  const DefaultOrderStatus: OrderStatus := Pending

  /** One order line: a snapshot of the product's name and price at order time. */
  datatype OrderItem = OrderItem(
    id: int,
    orderId: int,
    productId: int,
    productName: string,
    price: int,
    quantity: int,
    productImage: Option<string>,
    sellerName: Option<string>)

  datatype Order = Order(
    id: int,
    userId: int,
    items: seq<OrderItem>,
    totalAmount: int,
    shippingCost: int,
    subtotal: int,
    status: OrderStatus,
    shippingAddress: Option<string>,
    phone: Option<string>,
    notes: Option<string>,
    createdAt: int)
}
