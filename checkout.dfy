/** The checkout page (src/pages/Checkout.jsx): which items are being bought,
    their total, the billing form and the hand-off to the payment page. */
module Checkout {
  import opened Wrappers
  import opened Js
  import opened CartEngine

  /** `itemsToShow`: the buy-now item alone when one was handed over, else the whole cart. */
  function ItemsToShow(buyNow: Option<Item>, cart: seq<Item>): (r: seq<Item>)
    ensures buyNow.Some? ==> r == [buyNow.value]
    ensures buyNow.None? ==> r == cart
  {
    match buyNow
    case Some(item) => [item]
    case None => cart
  }

  /** `Number(item.quantity) || Number(item.qty) || 1`. */
  function LineQuantity(item: Item): int {
    NumberOr(item.quantity, NumberOr(item.qty, 1))
  }

  /** `(Number(item.price) || 0) * LineQuantity(item)`. */
  function LineAmount(item: Item): int {
    NumberOr(item.price, 0) * LineQuantity(item)
  }

  /** `finalTotal`: the left-to-right `reduce` of the line amounts from 0. */
  function FinalTotal(items: seq<Item>): (r: int)
    ensures items == [] ==> r == 0
    ensures |items| == 1 ==> r == LineAmount(items[0])
  {
    if items == [] then 0 else FinalTotal(items[..|items| - 1]) + LineAmount(items[|items| - 1])
  }

  lemma {:induction false} FinalTotalAppend(a: seq<Item>, b: seq<Item>)
    ensures FinalTotal(a + b) == FinalTotal(a) + FinalTotal(b)
  {
    if b == [] {
      assert a + b == a;
    } else {
      var n := |b| - 1;
      assert (a + b)[..|a + b| - 1] == a + b[..n];
      assert (a + b)[|a + b| - 1] == b[n];
      FinalTotalAppend(a, b[..n]);
    }
  }

  /** The total of the buy-now selection is that item's line amount. */
  lemma BuyNowTotal(item: Item, cart: seq<Item>)
    ensures FinalTotal(ItemsToShow(Some(item), cart)) == LineAmount(item)
  {
    assert [item][..0] == [];
  }

  /** The worked example: 100 x 2 plus 50 x 1 is 250, whichever of
      `quantity` or `qty` carries the count. */
  lemma FinalTotalExample()
    ensures FinalTotal([
      Item(None, None, None, None, Some(100), None, None, Some(2)),
      Item(None, None, None, None, Some(50), None, Some(1), None)]) == 250
  {
    var a := Item(None, None, None, None, Some(100), None, None, Some(2));
    var b := Item(None, None, None, None, Some(50), None, Some(1), None);
    assert [a, b][..1] == [a];
    assert [a][..0] == [];
  }

  /** Prices, quantities and qty values that are never negative give a total
      that is never negative (a negative quantity would count, since only 0
      and absence fall back to the default). */
  lemma {:induction false} FinalTotalNonNegative(items: seq<Item>)
    requires forall i :: 0 <= i < |items| ==> items[i].price.GetOr(0) >= 0
    requires forall i :: 0 <= i < |items| ==> items[i].quantity.GetOr(0) >= 0 && items[i].qty.GetOr(0) >= 0
    ensures FinalTotal(items) >= 0
  {
    if items != [] {
      var last := items[|items| - 1];
      FinalTotalNonNegative(items[..|items| - 1]);
      assert LineQuantity(last) >= 0;
      assert NumberOr(last.price, 0) >= 0;
    }
  }

  // ---------------------------------------------------------------------
  // The billing form

  datatype Form = Form(
    name: string, email: string, phone: string, address: string,
    city: string, state: string, pincode: string)

  datatype Field = Name | Email | Phone | Address | City | State | Pincode

  const EmptyForm := Form("", "", "", "", "", "", "")

  /** The form's values in the order `for (let key in form)` visits them. */
  function Values(f: Form): (r: seq<string>)
    ensures |r| == 7
  {
    [f.name, f.email, f.phone, f.address, f.city, f.state, f.pincode]
  }

  /** Every field is non-empty; only emptiness counts, so "  " is accepted. */
  predicate Complete(f: Form)
    ensures Complete(f) <==>
      f.name != "" && f.email != "" && f.phone != "" && f.address != "" &&
      f.city != "" && f.state != "" && f.pincode != ""
  {
    var v := Values(f);
    assert v[0] == f.name && v[1] == f.email && v[2] == f.phone && v[3] == f.address &&
      v[4] == f.city && v[5] == f.state && v[6] == f.pincode;
    forall i :: 0 <= i < |v| ==> v[i] != ""
  }

  /** `handleChange`: one field takes the typed value. */
  function WithField(f: Form, field: Field, v: string): (r: Form)
    ensures field == Name ==> r == f.(name := v)
    ensures field == Email ==> r == f.(email := v)
    ensures field == Phone ==> r == f.(phone := v)
    ensures field == Address ==> r == f.(address := v)
    ensures field == City ==> r == f.(city := v)
    ensures field == State ==> r == f.(state := v)
    ensures field == Pincode ==> r == f.(pincode := v)
  {
    match field
    case Name => f.(name := v)
    case Email => f.(email := v)
    case Phone => f.(phone := v)
    case Address => f.(address := v)
    case City => f.(city := v)
    case State => f.(state := v)
    case Pincode => f.(pincode := v)
  }

  /** The form state of the checkout page. */
  class BillingForm {
    var form: Form

    constructor ()
      ensures form == EmptyForm
    {
      form := EmptyForm;
    }

    /** The prefill effect: with a user, `name` and `email` become the user's
        (or ""), and the other five fields are left alone. */
    method Prefill(user: Option<User>)
      modifies this
      ensures user.None? ==> form == old(form)
      ensures user.Some? ==>
                form == old(form).(name := TextOr(user.value.name, ""),
                                   email := TextOr(user.value.email, ""))
    {
      if user.Some? {
        form := form.(name := TextOr(user.value.name, ""), email := TextOr(user.value.email, ""));
      }
    }

    /** `handleChange`. */
    method Change(field: Field, v: string)
      modifies this
      ensures form == WithField(old(form), field, v)
    {
      form := WithField(form, field, v);
    }
  }

  // ---------------------------------------------------------------------
  // placeOrder

  /** The navigation state handed to the payment page. */
  datatype Handoff = Handoff(customer: Form, items: seq<Item>, totalAmount: int)

  /** What `placeOrder` does: an error notice (no navigation), or navigation to /payment. */
  datatype Step = FillAllFields | ToPayment(state: Handoff)

  /** `placeOrder`: checks the fields in order and stops at the first empty
      one; otherwise hands on the form, the items and their total unchanged. */
  method PlaceOrder(form: Form, items: seq<Item>) returns (step: Step)
    ensures step == FillAllFields <==> !Complete(form)
    ensures step.ToPayment? ==> step.state == Handoff(form, items, FinalTotal(items))
  {
    var values := Values(form);
    var i := 0;
    while i < |values|
      invariant 0 <= i <= |values|
      invariant forall j :: 0 <= j < i ==> values[j] != ""
    {
      if values[i] == "" {
        return FillAllFields;
      }
      i := i + 1;
    }
    return ToPayment(Handoff(form, items, FinalTotal(items)));
  }

  /** The Proceed button: reads the cart, never changes it (`clearCart` is not called). */
  method Proceed(cart: Cart, buyNow: Option<Item>, page: BillingForm) returns (step: Step)
    requires cart.Valid()
    ensures step == FillAllFields <==> !Complete(page.form)
    ensures step.ToPayment? ==>
              step.state.items == ItemsToShow(buyNow, cart.items) &&
              step.state.totalAmount == FinalTotal(step.state.items) &&
              step.state.customer == page.form
    ensures unchanged(cart)
  {
    step := PlaceOrder(page.form, ItemsToShow(buyNow, cart.items));
  }
}
