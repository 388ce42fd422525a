/** The cart engine of the storefront (src/pages/CartContext.jsx): an ordered
    sequence of cart entries, a copy of it under the "cart" key of the
    browser's local storage (the mirror), and best-effort calls to the remote
    cart service whose failures are only logged. */
module CartEngine {
  import opened Wrappers
  import opened Js

  /** A cart entry or a product handed to `addToCart`. `id` is the catalogue
      `_id`; `qty` is the field the product page sets; `quantity` is the
      field the cart engine counts. */
  datatype Item = Item(
    productId: Option<string>,
    id: Option<string>,
    name: Option<string>,
    img: Option<string>,
    price: Option<int>,
    size: Option<string>,
    qty: Option<int>,
    quantity: Option<int>)

  /** The signed-in user as kept under the "user" key of local storage. */
  datatype User = User(name: Option<string>, email: Option<string>, token: Option<string>)

  /** `user?.token` is truthy. */
  predicate HasToken(user: Option<User>) {
    user.Some? && Present(user.value.token)
  }

  /** Every entry carries a quantity, so that `totalItems` is a number. */
  predicate WellFormed(cart: seq<Item>) {
    forall i :: 0 <= i < |cart| ==> cart[i].quantity.Some?
  }

  /** Every entry has a quantity of at least 1. */
  predicate Positive(cart: seq<Item>) {
    forall i :: 0 <= i < |cart| ==> cart[i].quantity.Some? && cart[i].quantity.value >= 1
  }

  // ---------------------------------------------------------------------
  // addToCart

  /** `itemToAdd`: the product with `productId` taken from `_id` when it has none. */
  function Normalized(p: Item): (r: Item)
    ensures Present(r.productId) <==> Present(p.productId) || Present(p.id)
    ensures r.(productId := p.productId) == p
  {
    if !Present(p.productId) && Present(p.id) then p.(productId := p.id) else p
  }

  /** The guard of `addToCart`: the normalised item has a product id. */
  predicate Resolvable(p: Item) {
    Present(Normalized(p).productId)
  }

  /** Some entry has exactly this `productId` (absent matches absent, as `===` on undefined does). */
  predicate HasKey(cart: seq<Item>, key: Option<string>) {
    exists i :: 0 <= i < |cart| && cart[i].productId == key
  }

  /** `Array.prototype.find` on `productId`: the first matching index. */
  function FindEntry(cart: seq<Item>, key: Option<string>): (r: Option<nat>)
    ensures r.Some? ==> r.value < |cart| && cart[r.value].productId == key
    ensures r.Some? ==> forall j :: 0 <= j < r.value ==> cart[j].productId != key
    ensures r.None? <==> !HasKey(cart, key)
  {
    if cart == [] then None
    else if cart[0].productId == key then Some(0)
    else
      match FindEntry(cart[1..], key)
      case Some(i) => Some(i + 1)
      case None =>
        assert forall j :: 1 <= j < |cart| ==> cart[j] == cart[1..][j - 1];
        None
  }

  /** `product.quantity || 1`: what a repeated add adds to the entry. */
  function MergeDelta(p: Item): int {
    NumberOr(p.quantity, 1)
  }

  /** Entry `i` with its quantity raised by `d`, every other entry as it was. */
  function Bumped(cart: seq<Item>, i: nat, d: int): (r: seq<Item>)
    requires WellFormed(cart) && i < |cart|
    ensures WellFormed(r) && |r| == |cart|
    ensures r[i] == cart[i].(quantity := Some(cart[i].quantity.value + d))
    ensures forall j :: 0 <= j < |cart| && j != i ==> r[j] == cart[j]
  {
    cart[i := cart[i].(quantity := Some(cart[i].quantity.value + d))]
  }

  /** The cart after `addToCart(p)`. The lookup and the pushed entry use the
      product as given, not the normalised item: a product that has only an
      `_id` is stored without a `productId`. */
  function Added(cart: seq<Item>, p: Item): (r: seq<Item>)
    requires WellFormed(cart)
    ensures WellFormed(r)
    ensures !Resolvable(p) ==> r == cart
    ensures Resolvable(p) && !HasKey(cart, p.productId) ==>
              r == cart + [p.(quantity := Some(1))]
    ensures Resolvable(p) && HasKey(cart, p.productId) ==>
              r == Bumped(cart, FindEntry(cart, p.productId).value, MergeDelta(p))
  {
    if !Resolvable(p) then cart
    else
      match FindEntry(cart, p.productId)
      case None => cart + [p.(quantity := Some(1))]
      case Some(i) => Bumped(cart, i, MergeDelta(p))
  }

  // ---------------------------------------------------------------------
  // totalItems

  /** `cart.reduce((total, item) => total + item.quantity, 0)`. */
  function SumQuantities(cart: seq<Item>): (r: int)
    requires WellFormed(cart)
    ensures cart == [] ==> r == 0
    ensures |cart| == 1 ==> r == cart[0].quantity.value
  {
    if cart == [] then 0
    else SumQuantities(cart[..|cart| - 1]) + cart[|cart| - 1].quantity.value
  }

  lemma {:induction false} SumQuantitiesAppend(a: seq<Item>, b: seq<Item>)
    requires WellFormed(a) && WellFormed(b)
    ensures WellFormed(a + b)
    ensures SumQuantities(a + b) == SumQuantities(a) + SumQuantities(b)
  {
    if b == [] {
      assert a + b == a;
    } else {
      var n := |b| - 1;
      assert (a + b)[..|a + b| - 1] == a + b[..n];
      assert (a + b)[|a + b| - 1] == b[n];
      SumQuantitiesAppend(a, b[..n]);
    }
  }

  /** Raising one entry's quantity by `d` raises the total by `d`. */
  lemma {:induction false} BumpedTotal(cart: seq<Item>, i: nat, d: int)
    requires WellFormed(cart) && i < |cart|
    ensures SumQuantities(Bumped(cart, i, d)) == SumQuantities(cart) + d
  {
    var n := |cart| - 1;
    var b := Bumped(cart, i, d);
    if i == n {
      assert b[..n] == cart[..n];
    } else {
      BumpedTotal(cart[..n], i, d);
      assert b[..n] == Bumped(cart[..n], i, d);
    }
  }

  /** The total of a cart whose quantities are never negative is never negative. */
  lemma {:induction false} SumQuantitiesNonNegative(cart: seq<Item>)
    requires WellFormed(cart)
    requires forall i :: 0 <= i < |cart| ==> cart[i].quantity.value >= 0
    ensures SumQuantities(cart) >= 0
  {
    if cart != [] {
      SumQuantitiesNonNegative(cart[..|cart| - 1]);
    }
  }

  /** With every quantity at least 1, the total is at least the number of entries. */
  lemma {:induction false} SumQuantitiesAtLeastCount(cart: seq<Item>)
    requires Positive(cart)
    ensures SumQuantities(cart) >= |cart|
  {
    if cart != [] {
      SumQuantitiesAtLeastCount(cart[..|cart| - 1]);
    }
  }

  /** `addToCart` raises `totalItems` by 1 for a new product and by
      `product.quantity || 1` for one already in the cart; an unresolvable
      product changes nothing. */
  lemma AddedTotal(cart: seq<Item>, p: Item)
    requires WellFormed(cart)
    ensures SumQuantities(Added(cart, p)) ==
            SumQuantities(cart) +
            (if !Resolvable(p) then 0
             else if HasKey(cart, p.productId) then MergeDelta(p)
             else 1)
  {
    if Resolvable(p) {
      if !HasKey(cart, p.productId) {
        var e := p.(quantity := Some(1));
        assert [e][..0] == [];
        SumQuantitiesAppend(cart, [e]);
      } else {
        BumpedTotal(cart, FindEntry(cart, p.productId).value, MergeDelta(p));
      }
    }
  }

  /** Two products that carry only an `_id` end up in ONE entry: the second
      add finds the first entry (both lack a `productId`) and raises its
      quantity, so the second product is not stored at all. */
  lemma IdOnlyProductsShareOneEntry(a: Item, b: Item)
    requires a.productId.None? && b.productId.None? && b.quantity.None?
    requires Present(a.id) && Present(b.id) && a.id != b.id
    ensures Added(Added([], a), b) == [a.(quantity := Some(2))]
  {
    assert HasKey([a.(quantity := Some(1))], None) by {
      assert [a.(quantity := Some(1))][0].productId == None;
    }
  }

  // ---------------------------------------------------------------------
  // updateQuantity

  function Max(a: int, b: int): int { if a >= b then a else b }

  /** The `.map` step of `updateQuantity`: entries with the product id get
      quantity `Math.max(1, n)`, all others stay as they are. */
  function Clamped(cart: seq<Item>, pid: Option<string>, n: int): (r: seq<Item>)
    ensures |r| == |cart|
    ensures forall i :: 0 <= i < |cart| && cart[i].productId == pid ==>
              r[i] == cart[i].(quantity := Some(Max(1, n)))
    ensures forall i :: 0 <= i < |cart| && cart[i].productId != pid ==> r[i] == cart[i]
  {
    if cart == [] then []
    else
      [if cart[0].productId == pid then cart[0].(quantity := Some(Max(1, n))) else cart[0]]
      + Clamped(cart[1..], pid, n)
  }

  /** The `.filter((i) => i.quantity > 0)` step: keeps the entries with a
      positive quantity, in order. */
  function KeepPositive(cart: seq<Item>): (r: seq<Item>)
    requires WellFormed(cart)
    ensures WellFormed(r) && |r| <= |cart|
    ensures forall i :: 0 <= i < |r| ==> r[i].quantity.value > 0 && r[i] in cart
  {
    if cart == [] then []
    else if cart[0].quantity.value > 0 then [cart[0]] + KeepPositive(cart[1..])
    else KeepPositive(cart[1..])
  }

  /** The cart after `updateQuantity(pid, n)`. */
  function Updated(cart: seq<Item>, pid: Option<string>, n: int): (r: seq<Item>)
    requires WellFormed(cart)
    ensures Positive(r) && |r| <= |cart|
    ensures forall i :: 0 <= i < |r| ==> r[i] in Clamped(cart, pid, n)
  {
    var c := Clamped(cart, pid, n);
    assert WellFormed(c);
    KeepPositive(c)
  }

  lemma {:induction false} KeepPositiveNoop(cart: seq<Item>)
    requires Positive(cart)
    ensures KeepPositive(cart) == cart
  {
    if cart != [] {
      KeepPositiveNoop(cart[1..]);
    }
  }

  /** On a cart of positive quantities `updateQuantity` never removes an entry:
      the clamp to 1 makes the filter vacuous. The matching entries get
      quantity `max(1, n)` and all others, and the order, are unchanged. */
  lemma UpdatedRemovesNothing(cart: seq<Item>, pid: Option<string>, n: int)
    requires Positive(cart)
    ensures Updated(cart, pid, n) == Clamped(cart, pid, n)
    ensures |Updated(cart, pid, n)| == |cart|
  {
    var c := Clamped(cart, pid, n);
    assert Positive(c);
    KeepPositiveNoop(c);
  }

  /** Off a positive cart the filter does act: any other entry whose quantity
      is not positive (a repeated add with a negative `product.quantity` can
      leave one) is dropped by the next update of any product. */
  lemma UpdatedDropsNonPositive(cart: seq<Item>, pid: Option<string>, n: int, i: nat)
    requires WellFormed(cart) && i < |cart|
    requires cart[i].productId != pid && cart[i].quantity.value <= 0
    ensures cart[i] !in Updated(cart, pid, n)
  {
    var c := Clamped(cart, pid, n);
    assert WellFormed(c);
  }

  /** A repeated add with a negative `product.quantity` lowers the entry, even below 1. */
  lemma AddedNegativeDelta(cart: seq<Item>, p: Item)
    requires WellFormed(cart) && Resolvable(p) && HasKey(cart, p.productId)
    requires p.quantity.Some? && p.quantity.value < 0
    ensures var i := FindEntry(cart, p.productId).value;
            Added(cart, p)[i].quantity.value == cart[i].quantity.value + p.quantity.value
  {
  }

  /** Whatever the other entries hold, every entry with the product id
      survives `updateQuantity`, with quantity `max(1, n)`. */
  lemma {:induction false} UpdatedKeepsTarget(cart: seq<Item>, pid: Option<string>, n: int, i: nat)
    requires WellFormed(cart) && i < |cart| && cart[i].productId == pid
    ensures cart[i].(quantity := Some(Max(1, n))) in Updated(cart, pid, n)
  {
    var c := Clamped(cart, pid, n);
    assert c == [c[0]] + Clamped(cart[1..], pid, n);
    if i == 0 {
      assert KeepPositive(c)[0] == c[0];
    } else {
      UpdatedKeepsTarget(cart[1..], pid, n, i - 1);
      assert cart[1..][i - 1] == cart[i];
      assert c[1..] == Clamped(cart[1..], pid, n);
    }
  }

  /** When only entry `i` has its product id, the `.map` step changes that entry alone. */
  lemma ClampedOnlyEntry(cart: seq<Item>, i: nat, n: int)
    requires i < |cart|
    requires forall j :: 0 <= j < |cart| && j != i ==> cart[j].productId != cart[i].productId
    ensures Clamped(cart, cart[i].productId, n) == cart[i := cart[i].(quantity := Some(Max(1, n)))]
  {
    var c := Clamped(cart, cart[i].productId, n);
    var d := cart[i := cart[i].(quantity := Some(Max(1, n)))];
    forall j | 0 <= j < |cart|
      ensures c[j] == d[j]
    {
      if j != i {
        assert cart[j].productId != cart[i].productId;
      }
    }
  }

  /** On the only entry with that id, the `.map` step to one more than its
      quantity (at least 1) is `Bumped` by one. */
  lemma ClampedIncrement(cart: seq<Item>, i: nat)
    requires WellFormed(cart) && i < |cart| && cart[i].quantity.value >= 1
    requires forall j :: 0 <= j < |cart| && j != i ==> cart[j].productId != cart[i].productId
    ensures Clamped(cart, cart[i].productId, cart[i].quantity.value + 1) == Bumped(cart, i, 1)
  {
    var pid, q := cart[i].productId, cart[i].quantity.value;
    var c, b := Clamped(cart, pid, q + 1), Bumped(cart, i, 1);
    forall j | 0 <= j < |cart|
      ensures c[j] == b[j]
    {
      if j != i {
        assert cart[j].productId != pid;
      }
    }
  }

  /** The + button on the only entry with that id is `Bumped` by one. */
  lemma UpdatedIsBumped(cart: seq<Item>, i: nat)
    requires Positive(cart) && i < |cart|
    requires forall j :: 0 <= j < |cart| && j != i ==> cart[j].productId != cart[i].productId
    ensures Updated(cart, cart[i].productId, cart[i].quantity.value + 1) == Bumped(cart, i, 1)
  {
    UpdatedRemovesNothing(cart, cart[i].productId, cart[i].quantity.value + 1);
    ClampedIncrement(cart, i);
  }

  /** The + button: raising the quantity of the only entry with that id by one
      raises `totalItems` by one. */
  lemma UpdatedIncrement(cart: seq<Item>, i: nat)
    requires Positive(cart) && i < |cart|
    requires forall j :: 0 <= j < |cart| && j != i ==> cart[j].productId != cart[i].productId
    ensures SumQuantities(Updated(cart, cart[i].productId, cart[i].quantity.value + 1)) ==
            SumQuantities(cart) + 1
  {
    UpdatedIsBumped(cart, i);
    BumpedTotal(cart, i, 1);
  }

  // ---------------------------------------------------------------------
  // removeFromCart

  /** `cart.filter((i) => i.productId !== pid)`. */
  function Removed(cart: seq<Item>, pid: Option<string>): (r: seq<Item>)
    ensures |r| <= |cart|
    ensures forall i :: 0 <= i < |r| ==> r[i].productId != pid && r[i] in cart
  {
    if cart == [] then []
    else if cart[0].productId == pid then Removed(cart[1..], pid)
    else [cart[0]] + Removed(cart[1..], pid)
  }

  /** Every entry with another product id is kept. */
  lemma {:induction false} RemovedKeepsOthers(cart: seq<Item>, pid: Option<string>, e: Item)
    requires e in cart && e.productId != pid
    ensures e in Removed(cart, pid)
  {
    if cart[0] != e {
      RemovedKeepsOthers(cart[1..], pid, e);
    }
  }

  /** Removal works piecewise, so the kept entries stay in their original order. */
  lemma {:induction false} RemovedAppend(a: seq<Item>, b: seq<Item>, pid: Option<string>)
    ensures Removed(a + b, pid) == Removed(a, pid) + Removed(b, pid)
  {
    if a == [] {
      assert a + b == b;
    } else {
      assert (a + b)[0] == a[0];
      assert (a + b)[1..] == a[1..] + b;
      RemovedAppend(a[1..], b, pid);
    }
  }

  // ---------------------------------------------------------------------
  // Distinct product ids

  /** No two entries share a `productId`. */
  predicate DistinctKeys(cart: seq<Item>) {
    forall i, j :: 0 <= i < j < |cart| ==> cart[i].productId != cart[j].productId
  }

  /** In a cart of distinct ids every entry is the only one with its id, as
      the increment and decrement lemmas require. */
  lemma DistinctKeysUnique(cart: seq<Item>, i: nat)
    requires DistinctKeys(cart) && i < |cart|
    ensures forall j :: 0 <= j < |cart| && j != i ==> cart[j].productId != cart[i].productId
  {
    forall j | 0 <= j < |cart| && j != i
      ensures cart[j].productId != cart[i].productId
    {
      if j < i {
        assert cart[j].productId != cart[i].productId;
      } else {
        assert cart[i].productId != cart[j].productId;
      }
    }
  }

  lemma DistinctTail(cart: seq<Item>)
    requires DistinctKeys(cart) && cart != []
    ensures DistinctKeys(cart[1..])
    ensures forall e :: e in cart[1..] ==> e.productId != cart[0].productId
  {
    forall e | e in cart[1..]
      ensures e.productId != cart[0].productId
    {
      var k :| 0 <= k < |cart[1..]| && cart[1..][k] == e;
      assert cart[k + 1] == e;
    }
  }

  lemma DistinctCons(x: Item, rest: seq<Item>)
    requires DistinctKeys(rest)
    requires forall e :: e in rest ==> e.productId != x.productId
    ensures DistinctKeys([x] + rest)
  {
    var c := [x] + rest;
    forall i, j | 0 <= i < j < |c|
      ensures c[i].productId != c[j].productId
    {
      if i == 0 {
        assert c[j] == rest[j - 1] && rest[j - 1] in rest;
      } else {
        assert c[i] == rest[i - 1] && c[j] == rest[j - 1];
      }
    }
  }

  /** The `.filter` step of `updateQuantity` keeps ids distinct. */
  lemma {:induction false} KeepPositiveDistinct(cart: seq<Item>)
    requires WellFormed(cart) && DistinctKeys(cart)
    ensures DistinctKeys(KeepPositive(cart))
  {
    if cart != [] {
      var rest := cart[1..];
      DistinctTail(cart);
      KeepPositiveDistinct(rest);
      if cart[0].quantity.value > 0 {
        var kept := KeepPositive(rest);
        forall e | e in kept
          ensures e.productId != cart[0].productId
        {
          var k :| 0 <= k < |kept| && kept[k] == e;
          assert e in rest;
        }
        DistinctCons(cart[0], kept);
      }
    }
  }

  /** `addToCart` keeps ids distinct: a new id is pushed only when no entry has it. */
  lemma AddedKeepsDistinct(cart: seq<Item>, p: Item)
    requires WellFormed(cart) && DistinctKeys(cart)
    ensures DistinctKeys(Added(cart, p))
  {
    var r := Added(cart, p);
    if Resolvable(p) && !HasKey(cart, p.productId) {
      forall i, j | 0 <= i < j < |r|
        ensures r[i].productId != r[j].productId
      {
        if j == |cart| {
          assert r[i] == cart[i];
        }
      }
    }
  }

  /** `updateQuantity` keeps ids distinct: the map step keeps every id and
      the filter step only drops entries. */
  lemma UpdatedKeepsDistinct(cart: seq<Item>, pid: Option<string>, n: int)
    requires WellFormed(cart) && DistinctKeys(cart)
    ensures DistinctKeys(Updated(cart, pid, n))
  {
    var c := Clamped(cart, pid, n);
    assert forall i :: 0 <= i < |c| ==> c[i].productId == cart[i].productId;
    assert WellFormed(c);
    KeepPositiveDistinct(c);
  }

  /** `removeFromCart` keeps ids distinct. */
  lemma {:induction false} RemovedKeepsDistinct(cart: seq<Item>, pid: Option<string>)
    requires DistinctKeys(cart)
    ensures DistinctKeys(Removed(cart, pid))
  {
    if cart != [] {
      var rest := cart[1..];
      DistinctTail(cart);
      RemovedKeepsDistinct(rest, pid);
      if cart[0].productId != pid {
        var kept := Removed(rest, pid);
        forall e | e in kept
          ensures e.productId != cart[0].productId
        {
          var k :| 0 <= k < |kept| && kept[k] == e;
          assert e in rest;
        }
        DistinctCons(cart[0], kept);
      }
    }
  }

  // ---------------------------------------------------------------------
  // The stateful engine

  /** A remote cart-service call. */
  datatype Call =
    | GetCart
    | PostCart(item: Item)
    | PutCart(productId: Option<string>, quantity: int)
    | DeleteCart(productId: Option<string>)
    | DeleteAll

  /** What the engine did outside its own memory, in order. */
  datatype Event =
    | MirrorSaved(items: seq<Item>)
    | MirrorRemoved
    | Remote(call: Call, ok: bool)

  /** The outcome of `GET /api/cart`: the response's `items` field, or a failure. */
  datatype Fetch = Fetched(items: Option<seq<Item>>) | FetchFailed

  class Cart {
    var items: seq<Item>
    var mirror: Option<seq<Item>>
    var loading: bool
    var user: Option<User>
    ghost var trace: seq<Event>

    ghost predicate Valid()
      reads this
    {
      WellFormed(items) && (mirror.Some? ==> WellFormed(mirror.value))
    }

    /** The provider starts with an empty cart, loading, and the user found in storage. */
    constructor (storedUser: Option<User>, stored: Option<seq<Item>>)
      requires stored.Some? ==> WellFormed(stored.value)
      ensures Valid()
      ensures items == [] && mirror == stored && loading && user == storedUser && trace == []
    {
      items := [];
      mirror := stored;
      loading := true;
      user := storedUser;
      trace := [];
    }

    /** `totalItems`. */
    function TotalItems(): (n: int)
      reads this
      requires Valid()
      ensures items == [] ==> n == 0
    {
      SumQuantities(items)
    }

    /** `fetchCart`: without a token nothing is loaded; on success the cart and
        the mirror become the fetched items (or []); on failure the cart
        becomes the mirror when one is stored, else stays as it is. */
    method Load(fetch: Fetch)
      requires Valid()
      requires fetch.Fetched? && fetch.items.Some? ==> WellFormed(fetch.items.value)
      modifies this
      ensures Valid() && !loading && user == old(user)
      ensures !HasToken(user) ==>
                items == old(items) && mirror == old(mirror) && trace == old(trace)
      ensures HasToken(user) && fetch.Fetched? ==>
                items == fetch.items.GetOr([]) && mirror == Some(items) &&
                trace == old(trace) + [Remote(GetCart, true), MirrorSaved(items)]
      ensures HasToken(user) && fetch.FetchFailed? ==>
                items == (if old(mirror).Some? then old(mirror).value else old(items)) &&
                mirror == old(mirror) &&
                trace == old(trace) + [Remote(GetCart, false)]
    {
      if !HasToken(user) {
        loading := false;
        return;
      }
      match fetch {
        case Fetched(got) =>
          trace := trace + [Remote(GetCart, true)];
          items := got.GetOr([]);
          mirror := Some(items);
          trace := trace + [MirrorSaved(items)];
        case FetchFailed =>
          trace := trace + [Remote(GetCart, false)];
          if mirror.Some? {
            items := mirror.value;
          }
      }
      loading := false;
    }

    /** `addToCart(product)`; `ok` is the outcome of the best-effort sync,
        which changes nothing but the record of the call. */
    method AddToCart(p: Item, ok: bool)
      requires Valid()
      modifies this
      ensures Valid() && user == old(user) && loading == old(loading)
      ensures !Resolvable(p) ==>
                items == old(items) && mirror == old(mirror) && trace == old(trace)
      ensures Resolvable(p) ==>
                items == Added(old(items), p) && mirror == Some(items) &&
                trace == old(trace) + [MirrorSaved(items)] +
                         (if HasToken(user) then [Remote(PostCart(p), ok)] else [])
      ensures DistinctKeys(old(items)) ==> DistinctKeys(items)
    {
      if !Resolvable(p) {
        return;
      }
      if DistinctKeys(items) {
        AddedKeepsDistinct(items, p);
      }
      var updated := Added(items, p);
      items := updated;
      mirror := Some(updated);
      trace := trace + [MirrorSaved(updated)];
      if HasToken(user) {
        trace := trace + [Remote(PostCart(p), ok)];
      }
    }

    /** `updateQuantity(pid, n)`: the remote call carries the unclamped `n`
        and is only attempted when a user is present (`user.token` throws otherwise). */
    method UpdateQuantity(pid: Option<string>, n: int, ok: bool)
      requires Valid()
      modifies this
      ensures Valid() && user == old(user) && loading == old(loading)
      ensures items == Updated(old(items), pid, n) && mirror == Some(items)
      ensures trace == old(trace) + [MirrorSaved(items)] +
                       (if user.Some? then [Remote(PutCart(pid, n), ok)] else [])
      ensures DistinctKeys(old(items)) ==> DistinctKeys(items)
    {
      if DistinctKeys(items) {
        UpdatedKeepsDistinct(items, pid, n);
      }
      var updated := Updated(items, pid, n);
      items := updated;
      mirror := Some(updated);
      trace := trace + [MirrorSaved(updated)];
      if user.Some? {
        trace := trace + [Remote(PutCart(pid, n), ok)];
      }
    }

    /** `removeFromCart(pid)`. */
    method RemoveFromCart(pid: Option<string>, ok: bool)
      requires Valid()
      modifies this
      ensures Valid() && user == old(user) && loading == old(loading)
      ensures items == Removed(old(items), pid) && mirror == Some(items)
      ensures trace == old(trace) + [MirrorSaved(items)] +
                       (if user.Some? then [Remote(DeleteCart(pid), ok)] else [])
      ensures DistinctKeys(old(items)) ==> DistinctKeys(items)
    {
      if DistinctKeys(items) {
        RemovedKeepsDistinct(items, pid);
      }
      var updated := Removed(items, pid);
      assert WellFormed(updated);
      items := updated;
      mirror := Some(updated);
      trace := trace + [MirrorSaved(updated)];
      if user.Some? {
        trace := trace + [Remote(DeleteCart(pid), ok)];
      }
    }

    /** `clearCart()`: empties the cart and deletes the mirror key. */
    method ClearCart(ok: bool)
      requires Valid()
      modifies this
      ensures Valid() && user == old(user) && loading == old(loading)
      ensures items == [] && mirror.None?
      ensures trace == old(trace) + [MirrorRemoved] +
                       (if user.Some? then [Remote(DeleteAll, ok)] else [])
    {
      items := [];
      mirror := None;
      trace := trace + [MirrorRemoved];
      if user.Some? {
        trace := trace + [Remote(DeleteAll, ok)];
      }
    }
  }
}
