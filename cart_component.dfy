// The React cart panel: its total, the order request it builds, and what
// happens to the cart after the answer.

module CartComponent {
  import opened Common
  import opened ClientCart

  /** The `orderDetails` object the panel posts. */
  datatype OrderDetails = OrderDetails(shopId: Id, items: seq<CartLine>, totalAmount: int)

  /**
   * `handleCheckout`'s request: none for an empty cart; otherwise the shop of
   * the first item, every item as a line in cart order, and the panel's total.
   */
  function OrderDetailsFor(cart: seq<CartItem>): (r: Option<OrderDetails>)
    ensures r.None? <==> cart == []
    ensures r.Some? ==> r.value.shopId == cart[0].shopId
    ensures r.Some? ==> r.value.items == CheckoutLines(cart)
    ensures r.Some? ==> r.value.totalAmount == CartTotal(cart)
  {
    if |cart| == 0 then None
    else Some(OrderDetails(cart[0].shopId, CheckoutLines(cart), CartTotal(cart)))
  }

  /** The items of the request name each cart item's product and quantity, position by position. */
  lemma OrderLinesFollowCart(cart: seq<CartItem>, i: nat)
    requires i < |cart|
    ensures OrderDetailsFor(cart).value.items[i] == CartLine(cart[i].id, cart[i].quantity)
  {
  }

  /**
   * Only the first item's shop is sent: a cart holding products of two shops
   * is posted as one order of the first shop.
   */
  lemma MixedShopCartNamesFirstShop(cart: seq<CartItem>, i: nat)
    requires 0 < i < |cart| && cart[i].shopId != cart[0].shopId
    ensures OrderDetailsFor(cart).value.shopId != cart[i].shopId
  {
  }

  /** The order's total is what the cart's lines add up to, however the cart is split. */
  lemma OrderTotalSplits(a: seq<CartItem>, b: seq<CartItem>)
    requires a != []
    ensures OrderDetailsFor(a + b).value.totalAmount == CartTotal(a) + CartTotal(b)
  {
    SumAppend(a, b, LineTotal);
  }

  /**
   * The cart after the answer: once the order is placed, nothing is left to
   * order and the total shown is 0; after a failure, the panel would post the
   * same order again.
   */
  function CartAfterSubmit(cart: seq<CartItem>, ok: bool): (r: seq<CartItem>)
    ensures ok ==> OrderDetailsFor(r).None? && CartTotal(r) == 0 && CartCount(r) == 0
    ensures !ok ==> OrderDetailsFor(r) == OrderDetailsFor(cart) && CartTotal(r) == CartTotal(cart)
  {
    if ok then [] else cart
  }
}
