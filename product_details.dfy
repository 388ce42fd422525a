/** The product page (src/pages/productDetails.jsx): the normalised product,
    the selected size, and the Add to Cart and Buy Now buttons with their
    two guards. */
module ProductDetails {
  import opened Wrappers
  import opened Js
  import opened CartEngine

  /** The body of `GET /api/products/:id`, as far as the page uses it. */
  datatype ProductData = ProductData(
    id: Option<string>, altId: Option<string>, name: Option<string>, images: seq<string>,
    price: Option<int>, offerPrice: Option<int>, stock: Option<int>)

  /** The product after normalisation: `id` is its `_id`, now always a string. */
  datatype Product = Product(
    id: string, name: Option<string>, images: seq<string>,
    price: Option<int>, offerPrice: Option<int>, stock: Option<int>)

  /** `_id: res.data._id || res.data.id || id`. */
  function Normalize(data: ProductData, routeId: string): (p: Product)
    ensures Present(data.id) ==> p.id == data.id.value
    ensures !Present(data.id) && Present(data.altId) ==> p.id == data.altId.value
    ensures !Present(data.id) && !Present(data.altId) ==> p.id == routeId
    ensures routeId != "" ==> p.id != ""
    ensures p.name == data.name && p.images == data.images && p.price == data.price
    ensures p.offerPrice == data.offerPrice && p.stock == data.stock
  {
    Product(TextOr(data.id, TextOr(data.altId, routeId)), data.name, data.images,
            data.price, data.offerPrice, data.stock)
  }

  datatype Refusal = OutOfStock | NoSize

  /** `product.stock <= 0`: an absent stock compares false and lets the product through. */
  predicate SoldOut(p: Product) {
    p.stock.Some? && p.stock.value <= 0
  }

  /** `product.offerPrice || product.price`. */
  function UnitPrice(p: Product): (r: Option<int>)
    ensures p.offerPrice.Some? && p.offerPrice.value != 0 ==> r == p.offerPrice
    ensures p.offerPrice.None? || p.offerPrice.value == 0 ==> r == p.price
  {
    if p.offerPrice.Some? && p.offerPrice.value != 0 then p.offerPrice else p.price
  }

  /** `product.images?.[0]`. */
  function FirstImage(images: seq<string>): Option<string> {
    if images == [] then None else Some(images[0])
  }

  /** The two guards, in order (stock before size), and the item both buttons build. */
  function Attempt(p: Product, size: string): (r: Result<Item, Refusal>)
    ensures r == Failure(OutOfStock) <==> SoldOut(p)
    ensures r == Failure(NoSize) <==> !SoldOut(p) && size == ""
    ensures r.Success? ==>
              r.value.productId == Some(p.id) && r.value.id.None? &&
              r.value.name == p.name && r.value.img == FirstImage(p.images) &&
              r.value.price == UnitPrice(p) && r.value.size == Some(size) &&
              r.value.qty == Some(1) && r.value.quantity.None?
  {
    if SoldOut(p) then Failure(OutOfStock)
    else if size == "" then Failure(NoSize)
    else Success(Item(Some(p.id), None, p.name, FirstImage(p.images), UnitPrice(p), Some(size), Some(1), None))
  }

  /** An item built on this page always reaches the cart (its id is set), and
      adds exactly one piece: the engine ignores `qty` and adds 1 whether the
      product is new or already in the cart. */
  lemma PageItemAddsOne(cart: seq<Item>, p: Product, size: string)
    requires WellFormed(cart) && p.id != ""
    requires Attempt(p, size).Success?
    ensures Resolvable(Attempt(p, size).value)
    ensures SumQuantities(Added(cart, Attempt(p, size).value)) == SumQuantities(cart) + 1
  {
    var item := Attempt(p, size).value;
    AddedTotal(cart, item);
  }

  /** The page's state: the loaded product and the selected size. */
  class ProductPage {
    var product: Option<Product>
    var loading: bool
    var selectedSize: string
    var mainImage: Option<string>

    constructor ()
      ensures product.None? && loading && selectedSize == "" && mainImage.None?
    {
      product := None;
      loading := true;
      selectedSize := "";
      mainImage := None;
    }

    /** `fetchProduct`: `fetched` is the response body, None when the request failed. */
    method Loaded(routeId: string, fetched: Option<ProductData>)
      modifies this
      ensures !loading && selectedSize == old(selectedSize)
      ensures fetched.Some? ==>
                product == Some(Normalize(fetched.value, routeId)) &&
                mainImage == FirstImage(fetched.value.images)
      ensures fetched.None? ==> product == old(product) && mainImage == old(mainImage)
    {
      if fetched.Some? {
        var normalized := Normalize(fetched.value, routeId);
        product := Some(normalized);
        mainImage := FirstImage(normalized.images);
      }
      loading := false;
    }

    method SelectSize(size: string)
      modifies this
      ensures selectedSize == size && product == old(product) && loading == old(loading)
      ensures mainImage == old(mainImage)
    {
      selectedSize := size;
    }

    /** `handleAddToCart`: a refused attempt leaves the cart alone; otherwise
        the built item goes to `addToCart`. */
    method HandleAddToCart(cart: Cart, ok: bool) returns (refusal: Option<Refusal>)
      requires product.Some? && cart.Valid()
      modifies cart
      ensures cart.Valid()
      ensures Attempt(product.value, selectedSize).Failure? ==>
                refusal == Some(Attempt(product.value, selectedSize).error) && unchanged(cart)
      ensures Attempt(product.value, selectedSize).Success? ==>
                var item := Attempt(product.value, selectedSize).value;
                refusal.None? &&
                cart.user == old(cart.user) && cart.loading == old(cart.loading) &&
                cart.items == Added(old(cart.items), item) &&
                (Resolvable(item) ==>
                   cart.mirror == Some(cart.items) &&
                   cart.trace == old(cart.trace) + [MirrorSaved(cart.items)] +
                                 (if HasToken(cart.user) then [Remote(PostCart(item), ok)] else [])) &&
                (!Resolvable(item) ==> cart.mirror == old(cart.mirror) && cart.trace == old(cart.trace))
    {
      match Attempt(product.value, selectedSize) {
        case Failure(e) =>
          refusal := Some(e);
        case Success(item) =>
          cart.AddToCart(item, ok);
          refusal := None;
      }
    }

    /** `handleBuyNow`: the same guards and item; the item goes to the
        checkout as the buy-now item and the cart is not touched. */
    method HandleBuyNow() returns (r: Result<Item, Refusal>)
      requires product.Some?
      ensures r == Attempt(product.value, selectedSize)
    {
      r := Attempt(product.value, selectedSize);
    }
  }
}
