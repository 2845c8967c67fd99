/** The shopping cart kept in the browser: the items the product list page
    writes into the `cart` storage entry, and the cart page that edits them,
    totals them and turns them into an order request. Money is in cents. */
module Cart {
  import opened Common
  import OrderDto

  datatype Seller = Seller(id: int, firstName: string, lastName: string)

  /** One cart line, as stored in the `cart` entry. */
  datatype CartItem = CartItem(
    id: int,
    productId: int,
    name: string,
    description: string,
    price: int,
    quantity: int,
    mainImage: Option<string>,
    seller: Seller)

  /** `SHIPPING_COST` (7.00). */
  const ShippingCostCents := 700

  /** The shipping address the page sends until it has a form for it. */
  const PlaceholderAddress := "Adresse à définir"

  /** The `cart` entry of the browser's storage: absent, or the items last
      written (a JSON round trip is taken to give back the same items). */
  class SavedCart {
    var entry: Option<seq<CartItem>>

    constructor (entry: Option<seq<CartItem>>)
      ensures this.entry == entry
    {
      this.entry := entry;
    }
  }

  // ---------------------------------------------------------------------
  // Cart edits and totals

  /** The cart with every item of id `itemId` given quantity `q`: same
      length and order, and nothing but those quantities changes. */
  function WithQuantity(cart: seq<CartItem>, itemId: int, q: int): (r: seq<CartItem>)
    ensures |r| == |cart|
    ensures forall i :: 0 <= i < |cart| ==> r[i].(quantity := cart[i].quantity) == cart[i]
    ensures forall i :: 0 <= i < |cart| ==> r[i].quantity == (if cart[i].id == itemId then q else cart[i].quantity)
  {
    if cart == [] then []
    else
      var head := if cart[0].id == itemId then cart[0].(quantity := q) else cart[0];
      [head] + WithQuantity(cart[1..], itemId, q)
  }

  /** The cart without the items of id `itemId`. */
  function Without(cart: seq<CartItem>, itemId: int): (r: seq<CartItem>)
    ensures |r| <= |cart|
    ensures forall x :: x in r <==> x in cart && x.id != itemId
  {
    if cart == [] then []
    else if cart[0].id == itemId then Without(cart[1..], itemId)
    else [cart[0]] + Without(cart[1..], itemId)
  }

  /** Removal keeps the remaining items in their order: it acts on each
      part of a cart separately. */
  lemma {:induction false} WithoutAppend(a: seq<CartItem>, b: seq<CartItem>, itemId: int)
    ensures Without(a + b, itemId) == Without(a, itemId) + Without(b, itemId)
  {
    if a != [] {
      assert (a + b)[1..] == a[1..] + b;
      WithoutAppend(a[1..], b, itemId);
    } else {
      assert a + b == b;
    }
  }

  /** Removing an id no item has leaves the cart as it is. */
  lemma {:induction false} WithoutAbsent(cart: seq<CartItem>, itemId: int)
    requires forall i :: 0 <= i < |cart| ==> cart[i].id != itemId
    ensures Without(cart, itemId) == cart
  {
    if cart != [] {
      WithoutAbsent(cart[1..], itemId);
    }
  }

  /** `calculateSubtotal`: the sum of price times quantity. */
  function Subtotal(cart: seq<CartItem>): int {
    if cart == [] then 0 else cart[0].price * cart[0].quantity + Subtotal(cart[1..])
  }

  /** `calculateTotal`: the subtotal plus shipping. */
  function Total(cart: seq<CartItem>): int {
    Subtotal(cart) + ShippingCostCents
  }

  lemma {:induction false} SubtotalAppend(a: seq<CartItem>, b: seq<CartItem>)
    ensures Subtotal(a + b) == Subtotal(a) + Subtotal(b)
  {
    if a != [] {
      assert (a + b)[1..] == a[1..] + b;
      SubtotalAppend(a[1..], b);
    } else {
      assert a + b == b;
    }
  }

  predicate UniqueIds(cart: seq<CartItem>) {
    forall i, j :: 0 <= i < j < |cart| ==> cart[i].id != cart[j].id
  }

  /** With distinct item ids, changing the quantity of item `k` moves the
      subtotal by its price times the change. */
  lemma {:induction false} SubtotalWithQuantity(cart: seq<CartItem>, k: int, q: int)
    requires UniqueIds(cart) && 0 <= k < |cart|
    ensures Subtotal(WithQuantity(cart, cart[k].id, q))
         == Subtotal(cart) + cart[k].price * (q - cart[k].quantity)
  {
    var id := cart[k].id;
    var r := WithQuantity(cart, id, q);
    assert r[1..] == WithQuantity(cart[1..], id, q);
    assert Subtotal(r) == r[0].price * r[0].quantity + Subtotal(r[1..]);
    if k == 0 {
      assert forall i :: 0 <= i < |cart[1..]| ==> cart[1..][i].id != id by {
        forall i | 0 <= i < |cart[1..]| ensures cart[1..][i].id != id {
          assert cart[1..][i] == cart[i + 1];
        }
      }
      WithQuantityAbsent(cart[1..], id, q);
      Distribute(cart[0].price, q, cart[0].quantity);
    } else {
      assert cart[1..][k - 1] == cart[k];
      assert cart[0].id != id;
      assert r[0] == cart[0];
      SubtotalWithQuantity(cart[1..], k - 1, q);
    }
  }

  lemma Distribute(p: int, a: int, b: int)
    ensures p * a == p * b + p * (a - b)
  {
  }

  lemma {:induction false} WithQuantityAbsent(cart: seq<CartItem>, itemId: int, q: int)
    requires forall i :: 0 <= i < |cart| ==> cart[i].id != itemId
    ensures WithQuantity(cart, itemId, q) == cart
  {
    if cart != [] {
      WithQuantityAbsent(cart[1..], itemId, q);
    }
  }

  // ---------------------------------------------------------------------
  // The order request built at checkout

  /** The request line for one cart item; the seller name is first and last
      name joined by a space, and an absent image stays absent. */
  function OrderLine(item: CartItem): (l: OrderDto.CreateOrderItemDto)
    ensures l.productId == Some(item.productId) && l.productName == Some(item.name)
    ensures l.price == Some(item.price) && l.quantity == Some(item.quantity)
    ensures l.productImage == item.mainImage
    ensures l.sellerName == Some(item.seller.firstName + " " + item.seller.lastName)
  {
    OrderDto.CreateOrderItemDto(
      Some(item.productId), Some(item.name), Some(item.price), Some(item.quantity),
      item.mainImage, Some(item.seller.firstName + " " + item.seller.lastName))
  }

  /** One request line per cart item, in order. */
  function OrderLines(cart: seq<CartItem>): (ls: seq<OrderDto.CreateOrderItemDto>)
    ensures |ls| == |cart|
    ensures forall i :: 0 <= i < |cart| ==> ls[i] == OrderLine(cart[i])
  {
    if cart == [] then [] else [OrderLine(cart[0])] + OrderLines(cart[1..])
  }

  /** The body `handleCheckout` posts: the cart's lines, its subtotal, the
      fixed shipping cost and their sum, the placeholder address, the stored
      phone number or the empty string, and empty notes. */
  function OrderPayload(cart: seq<CartItem>, userPhone: Option<string>): (d: OrderDto.CreateOrderDto)
    ensures d.items == Some(OrderLines(cart))
    ensures d.subtotal == Some(Subtotal(cart)) && d.shippingCost == Some(ShippingCostCents)
    ensures d.totalAmount == Some(d.subtotal.value + d.shippingCost.value)
    ensures d.shippingAddress == Some(PlaceholderAddress) && d.notes == Some("")
    ensures d.phone == Some(userPhone.GetOr(""))
  {
    OrderDto.CreateOrderDto(
      Some(OrderLines(cart)), Some(Total(cart)), Some(Subtotal(cart)), Some(ShippingCostCents),
      Some(PlaceholderAddress),
      Some(if userPhone.Some? && userPhone.value != "" then userPhone.value else ""),
      Some(""))
  }

  /** The sum of price times quantity over request lines. */
  function LinesSubtotal(ls: seq<OrderDto.CreateOrderItemDto>): int
    requires forall i :: 0 <= i < |ls| ==> ls[i].price.Some? && ls[i].quantity.Some?
  {
    if ls == [] then 0 else ls[0].price.value * ls[0].quantity.value + LinesSubtotal(ls[1..])
  }

  /** The server accepts the request exactly when every cart item has a
      non-empty name; the posted subtotal is the one of its lines, and the
      posted total is subtotal plus shipping. */
  lemma {:induction false} PayloadValidity(cart: seq<CartItem>, userPhone: Option<string>)
    ensures OrderDto.ValidOrder(OrderPayload(cart, userPhone)) <==> forall i :: 0 <= i < |cart| ==> cart[i].name != ""
    ensures LinesSubtotal(OrderLines(cart)) == Subtotal(cart)
  {
    if cart != [] {
      PayloadValidity(cart[1..], userPhone);
      assert OrderLines(cart)[1..] == OrderLines(cart[1..]);
      assert forall i :: 1 <= i < |cart| ==> cart[1..][i - 1] == cart[i];
    }
  }

  // ---------------------------------------------------------------------
  // The cart page

  class CartPage {
    var cart: seq<CartItem>
    var loading: bool
    var orderSuccess: bool
    const saved: SavedCart

    constructor (saved: SavedCart)
      ensures this.saved == saved && cart == [] && !loading && !orderSuccess
    {
      this.saved := saved;
      cart := [];
      loading := false;
      orderSuccess := false;
    }

    /** `loadCart`: adopt the stored items when there are any. */
    method LoadCart()
      modifies this
      ensures saved.entry.Some? ==> cart == saved.entry.value
      ensures saved.entry.None? ==> cart == old(cart)
      ensures loading == old(loading) && orderSuccess == old(orderSuccess)
    {
      if saved.entry.Some? {
        cart := saved.entry.value;
      }
    }

    /** `updateQuantity`: ignored below 1; otherwise the items of that id
        take the new quantity and the cart is stored. */
    method UpdateQuantity(itemId: int, q: int)
      modifies this, saved
      ensures q < 1 ==> cart == old(cart) && saved.entry == old(saved.entry)
      ensures q >= 1 ==> cart == WithQuantity(old(cart), itemId, q) && saved.entry == Some(cart)
      ensures loading == old(loading) && orderSuccess == old(orderSuccess)
    {
      if q < 1 {
        return;
      }
      cart := WithQuantity(cart, itemId, q);
      saved.entry := Some(cart);
    }

    /** `removeItem`: drop the items of that id and store the cart. */
    method RemoveItem(itemId: int)
      modifies this, saved
      ensures cart == Without(old(cart), itemId) && saved.entry == Some(cart)
      ensures loading == old(loading) && orderSuccess == old(orderSuccess)
    {
      cart := Without(cart, itemId);
      saved.entry := Some(cart);
    }

    /** `clearCart`: empty the cart and delete the stored entry. */
    method ClearCart()
      modifies this, saved
      ensures cart == [] && saved.entry.None?
      ensures loading == old(loading) && orderSuccess == old(orderSuccess)
    {
      cart := [];
      saved.entry := None;
    }

    /** `handleCheckout`, with the stored token and phone number and whether
        the server accepted the order as parameters. `sent` is the posted
        body, if any; `toLogin` says the page sent the user to log in. An
        empty cart sends nothing and changes nothing; without a token the
        user is sent to log in; the cart is cleared only after a successful
        response, and kept on failure. */
    method Checkout(token: Option<string>, userPhone: Option<string>, responseOk: bool)
      returns (sent: Option<OrderDto.CreateOrderDto>, toLogin: bool)
      modifies this, saved
      ensures old(cart) == [] ==>
                && sent.None? && !toLogin && cart == old(cart) && saved.entry == old(saved.entry)
                && loading == old(loading) && orderSuccess == old(orderSuccess)
      ensures old(cart) != [] ==> !loading
      ensures old(cart) != [] && (token.None? || token.value == "") ==>
                && sent.None? && toLogin && cart == old(cart) && saved.entry == old(saved.entry)
                && orderSuccess == old(orderSuccess)
      ensures old(cart) != [] && token.Some? && token.value != "" ==>
                && !toLogin && sent == Some(OrderPayload(old(cart), userPhone))
                && (responseOk ==> orderSuccess && cart == [] && saved.entry.None?)
                && (!responseOk ==> cart == old(cart) && saved.entry == old(saved.entry)
                                    && orderSuccess == old(orderSuccess))
    {
      sent, toLogin := None, false;
      if |cart| == 0 {
        return;
      }
      loading := true;
      if token.None? || token.value == "" {
        toLogin := true;
        loading := false;
        return;
      }
      sent := Some(OrderPayload(cart, userPhone));
      if responseOk {
        orderSuccess := true;
        ClearCart();
      }
      loading := false;
    }
  }
}
