/** The cart page (src/pages/CartPage.jsx): the cart total and line
    subtotals, the − and + buttons, and the two ways into the checkout. */
module CartPage {
  import opened Wrappers
  import opened Js
  import opened CartEngine
  import opened Checkout

  /** The context's `cart` value: an array, or something that is not one. */
  datatype CartValue = ArrayValue(items: seq<Item>) | NotArray

  /** `safeCart`: a non-array cart is treated as empty. */
  function SafeCart(v: CartValue): (r: seq<Item>)
    ensures v.NotArray? ==> r == []
    ensures v.ArrayValue? ==> r == v.items
  {
    match v
    case ArrayValue(items) => items
    case NotArray => []
  }

  /** `Number(item.price || 0) * Number(item.quantity || 1)`; unlike the
      checkout, `qty` is not consulted. */
  function LineSubtotal(item: Item): int {
    NumberOr(item.price, 0) * NumberOr(item.quantity, 1)
  }

  /** `total`: the `reduce` of the line subtotals from 0. */
  function CartTotal(cart: seq<Item>): (r: int)
    ensures cart == [] ==> r == 0
    ensures |cart| == 1 ==> r == LineSubtotal(cart[0])
  {
    if cart == [] then 0 else CartTotal(cart[..|cart| - 1]) + LineSubtotal(cart[|cart| - 1])
  }

  /** The subtotals shown next to each line. */
  function Subtotals(cart: seq<Item>): (r: seq<int>)
    ensures |r| == |cart|
    ensures forall i :: 0 <= i < |cart| ==> r[i] == LineSubtotal(cart[i])
  {
    if cart == [] then [] else Subtotals(cart[..|cart| - 1]) + [LineSubtotal(cart[|cart| - 1])]
  }

  function Sum(xs: seq<int>): int {
    if xs == [] then 0 else Sum(xs[..|xs| - 1]) + xs[|xs| - 1]
  }

  /** The total shown is the sum of the subtotals shown; an empty cart totals 0. */
  lemma {:induction false} TotalIsSumOfSubtotals(cart: seq<Item>)
    ensures CartTotal(cart) == Sum(Subtotals(cart))
    ensures cart == [] ==> CartTotal(cart) == 0
  {
    if cart != [] {
      var s := Subtotals(cart);
      assert s[..|s| - 1] == Subtotals(cart[..|cart| - 1]);
      TotalIsSumOfSubtotals(cart[..|cart| - 1]);
    }
  }

  /** On entries whose quantity is present and not 0, as the cart engine
      stores them, the cart page and the checkout compute the same total. */
  lemma {:induction false} CartTotalMatchesCheckout(cart: seq<Item>)
    requires forall i :: 0 <= i < |cart| ==> cart[i].quantity.Some? && cart[i].quantity.value != 0
    ensures CartTotal(cart) == FinalTotal(cart)
  {
    if cart != [] {
      CartTotalMatchesCheckout(cart[..|cart| - 1]);
    }
  }

  /** A cart entry whose quantity is 0 shows a subtotal for one piece here,
      while the checkout falls back to its `qty`. */
  lemma ZeroQuantityDiffers(item: Item)
    requires item.quantity == Some(0) && item.qty == Some(3) && item.price == Some(10)
    ensures CartTotal([item]) == 10 && FinalTotal([item]) == 30
  {
    assert [item][..0] == [];
  }

  /** The − button: `updateQuantity(item.productId, item.quantity - 1)`. */
  method Decrease(cart: Cart, i: nat, ok: bool)
    requires cart.Valid() && i < |cart.items|
    modifies cart
    ensures cart.Valid() && cart.user == old(cart.user) && cart.loading == old(cart.loading)
    ensures var e := old(cart.items[i]);
            cart.items == Updated(old(cart.items), e.productId, e.quantity.value - 1) &&
            cart.mirror == Some(cart.items) &&
            cart.trace == old(cart.trace) + [MirrorSaved(cart.items)] +
                          (if cart.user.Some? then [Remote(PutCart(e.productId, e.quantity.value - 1), ok)] else [])
  {
    var e := cart.items[i];
    cart.UpdateQuantity(e.productId, e.quantity.value - 1, ok);
  }

  /** The + button: `updateQuantity(item.productId, item.quantity + 1)`. */
  method Increase(cart: Cart, i: nat, ok: bool)
    requires cart.Valid() && i < |cart.items|
    modifies cart
    ensures cart.Valid() && cart.user == old(cart.user) && cart.loading == old(cart.loading)
    ensures var e := old(cart.items[i]);
            cart.items == Updated(old(cart.items), e.productId, e.quantity.value + 1) &&
            cart.mirror == Some(cart.items) &&
            cart.trace == old(cart.trace) + [MirrorSaved(cart.items)] +
                          (if cart.user.Some? then [Remote(PutCart(e.productId, e.quantity.value + 1), ok)] else [])
  {
    var e := cart.items[i];
    cart.UpdateQuantity(e.productId, e.quantity.value + 1, ok);
  }

  /** Pressing − on the only entry for a product, at quantity 1, leaves the
      cart as it was: the clamp wins and nothing is removed. */
  lemma DecreaseAtOneKeeps(cart: seq<Item>, i: nat)
    requires Positive(cart) && i < |cart| && cart[i].quantity == Some(1)
    requires forall j :: 0 <= j < |cart| && j != i ==> cart[j].productId != cart[i].productId
    ensures Updated(cart, cart[i].productId, 0) == cart
  {
    UpdatedRemovesNothing(cart, cart[i].productId, 0);
    ClampedOnlyEntry(cart, i, 0);
    assert cart[i].(quantity := Some(Max(1, 0))) == cart[i];
  }

  /** The navigation state given to the checkout. */
  datatype CheckoutEntry = CheckoutEntry(buyNowItem: Option<Item>, cart: Option<seq<Item>>)

  /** Buy Now on one line: that item alone, the cart untouched. */
  function BuyNow(item: Item): (s: CheckoutEntry)
    ensures forall cart :: ItemsToShow(s.buyNowItem, cart) == [item]
  {
    CheckoutEntry(Some(item), None)
  }

  /** Proceed to Checkout: no buy-now item, so the checkout shows the whole cart. */
  function ProceedToCheckout(v: CartValue): (s: CheckoutEntry)
    ensures forall cart :: ItemsToShow(s.buyNowItem, cart) == cart
    ensures s.cart == Some(SafeCart(v))
  {
    CheckoutEntry(None, Some(SafeCart(v)))
  }
}
