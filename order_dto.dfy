/** The body of `POST /orders` and its class-validator constraints. A
    required property that is absent, or not of the decorated type, is
    `None`; an optional string property is `None` when absent. Money is in
    cents. */
module OrderDto {
  import opened Common

  datatype CreateOrderItemDto = CreateOrderItemDto(
    productId: Option<int>,
    productName: Option<string>,
    price: Option<int>,
    quantity: Option<int>,
    productImage: Option<string>,
    sellerName: Option<string>)

  datatype CreateOrderDto = CreateOrderDto(
    items: Option<seq<CreateOrderItemDto>>,
    totalAmount: Option<int>,
    subtotal: Option<int>,
    shippingCost: Option<int>,
    shippingAddress: Option<string>,
    phone: Option<string>,
    notes: Option<string>)

  /** A line is valid when its product id, price and quantity are numbers
      and its product name a non-empty string; no range is imposed on the
      numbers, and image and seller name may be absent. */
  predicate ValidItem(i: CreateOrderItemDto) {
    && i.productId.Some?
    && i.productName.Some? && i.productName.value != ""
    && i.price.Some?
    && i.quantity.Some?
  }

  predicate ValidItems(lines: seq<CreateOrderItemDto>) {
    forall k :: 0 <= k < |lines| ==> ValidItem(lines[k])
  }

  /** An order is valid when `items` is an array of valid lines (possibly
      empty) and the three amounts are numbers; they are not reconciled. */
  predicate ValidOrder(d: CreateOrderDto) {
    && d.items.Some? && ValidItems(d.items.value)
    && d.totalAmount.Some? && d.subtotal.Some? && d.shippingCost.Some?
  }

  /** A line with a zero or negative quantity or price passes validation. */
  lemma NonPositiveLineIsValid(productId: int, name: string, price: int, quantity: int)
    requires name != "" && price <= 0 && quantity <= 0
    ensures ValidItem(CreateOrderItemDto(Some(productId), Some(name), Some(price), Some(quantity), None, None))
  {
  }

  /** An order with no lines, or whose total disagrees with subtotal plus
      shipping, passes validation. */
  lemma UnreconciledEmptyOrderIsValid(total: int, subtotal: int, shipping: int)
    requires total != subtotal + shipping
    ensures ValidOrder(CreateOrderDto(Some([]), Some(total), Some(subtotal), Some(shipping), None, None, None))
  {
  }

  /** A line without a product name, or with an empty one, is rejected. */
  lemma NamelessLineIsInvalid(i: CreateOrderItemDto)
    requires i.productName.None? || i.productName == Some("")
    ensures !ValidItem(i)
  {
  }
}
