# Storefront cart and checkout, modelled in Dafny

This project models the shopping-cart and checkout flow of a React shoe
storefront. It also models the pages that feed that flow and the admin lists
beside it.

- **Cart engine** (`CartEngine`, cart_engine.dfy). An ordered sequence of cart entries. Beside it:
  - the mirror, the copy kept under the `"cart"` key of the browser's local storage;
  - best-effort calls to the remote cart service, whose failures are only logged.

  `add`, `updateQuantity`, `removeFromCart` and `clearCart` are methods of the class `Cart`. Each is proved against pure functions on sequences (`Added`, `Updated`, `Removed`). The lemmas cover those functions and `totalItems`. A ghost trace records the order of the mirror writes and the remote calls.
- **Checkout** (`Checkout`). Which items are shown, their total, and the billing form. `placeOrder` is a loop over the seven form fields. It stops at the first empty one, or else hands the form, the items and the total to the payment page.
- **Payment page** (`Payment`). The confirm button and the gateway path. Network outcomes are parameters. Each handler returns the sequence of effects it produces (requests, notices, navigation). The proofs show:
  - each press of the confirm button posts at most one order;
  - the success page is only reached after a successful post of that order;
  - a "Paid" order is only posted after its payment was verified.
- **Cart page** (`CartPage`). The total and line subtotals, the − and + buttons, and the two ways into the checkout.
- **Product page** (`ProductDetails`). The `_id` normalisation, the out-of-stock and size guards, and the item handed to the cart or to the checkout.
- **Product grid** (`ProductCard`). The search filter, the "two per featured brand" selection, and the wishlist login guard.
- **Admin product list** (`AdminProducts`). Brand normalisation, the edit buffer, save and delete. Grouping by brand is a loop proved against first-appearance keys and per-brand member lists.
- **Add product** (`AddProduct`). The required fields, the payload (the brand trimmed and lower-cased, the description split into non-empty lines), and the reset after success.
- **Admin order list** (`OrderList`). The status change with its `updating` flag, and the six-character short id.
- **Home slider** (`Home`). The wrap-around slide index and the track offset.

Two shared modules support these:
- `Wrappers` holds `Option` and `Result`.
- `Js` holds the JavaScript behaviour the pages rely on: truthiness defaults (`x || d`), ASCII `toLowerCase` / `toUpperCase`, `trim`, `includes`, `slice(-n)`, `split` and `join`.

Prices and quantities are integers. A value the source may leave `undefined`
is an `Option`.

### Behaviour worth knowing

- `updateQuantity` with a quantity of 0 or less does not remove the entry it targets. The map step sets that entry to `max(1, n)` before the filter step runs. On a cart whose quantities are all positive the filter therefore removes nothing (`CartEngine.UpdatedRemovesNothing`, `CartPage.DecreaseAtOneKeeps`). The filter does remove any other entry whose quantity is 0 or less (`CartEngine.UpdatedDropsNonPositive`). `addToCart` can leave such an entry: a repeated add with a negative `product.quantity` lowers the entry by that amount (`CartEngine.AddedNegativeDelta`).
- A repeated add increases the entry by `product.quantity || 1`. The lookup uses the product's own `productId`, not the `_id` fallback. A product with only an `_id` is stored without a `productId`, and two such products share one entry (`CartEngine.IdOnlyProductsShareOneEntry`).
- Without a token the cart is not loaded at all, and the mirror is not read. After a failed fetch with no mirror, the cart stays as it was.
- No page clears the cart after an order is placed. The checkout reads the cart and leaves it unchanged (`Checkout.Proceed`).
- The billing check rejects only empty fields. A field holding only spaces passes.
- On the gateway path, a failed order POST after a verified payment shows the same "verification failed" notice as a failed verification.
- The admin table's grouping reduces into `{}`. A brand that normalises to a name `{}` inherits, such as " Constructor ", finds a truthy member instead of a group, and the `push` on it throws (`AdminProducts.GroupByBrand`, `AdminProducts.NormalizeConstructor`).

## Model

| member | source | states |
|---|---|---|
| Js.NumberOr | src/pages/Checkout.jsx:23-24 | `Number(x) \|\| d`: the value when present and non-zero, else the default |
| Js.TrimLowerCommute | src/components/admin/productList.jsx:20 | trimming then lower-casing gives the same string as lower-casing then trimming, so both brand normalisations agree |
| Js.Split | src/components/admin/AddProduct.jsx:46 | `split` yields at least one piece and no piece contains the separator |
| Js.JoinSplit | src/components/admin/AddProduct.jsx:46 | joining the pieces of a split with the separator gives the original string |
| CartEngine.Normalized | src/pages/CartContext.jsx:62-65 | `itemToAdd` has a truthy `productId` iff the product has a truthy `productId` or `_id`; nothing else changes |
| CartEngine.FindEntry | src/pages/CartContext.jsx:73-75 | `find` returns the first entry with that `productId`, and nothing iff no entry has it |
| CartEngine.Bumped | src/pages/CartContext.jsx:77-78 | `existing.quantity += d`: the entry's quantity grows by `d`; the length and every other entry are unchanged |
| CartEngine.Added | src/pages/CartContext.jsx:60-81 | an unresolvable product leaves the cart unchanged. A new `productId` appends the product once with quantity 1. A present one raises the first match by `product.quantity \|\| 1` and leaves the length unchanged |
| CartEngine.AddedTotal | src/pages/CartContext.jsx:72-81 | `addToCart` raises `totalItems` by 1 for a new product, by `product.quantity \|\| 1` for a present one, and by 0 for an unresolvable one |
| CartEngine.IdOnlyProductsShareOneEntry | src/pages/CartContext.jsx:63-80 | two different products that carry only an `_id` end up as one entry with quantity 2 |
| CartEngine.AddedNegativeDelta | src/pages/CartContext.jsx:77-78 | a negative `product.quantity` lowers the present entry by that amount; nothing clamps it |
| CartEngine.SumQuantities | src/pages/CartContext.jsx:146 | `totalItems` of an empty cart is 0, and of a one-entry cart that entry's quantity |
| CartEngine.SumQuantitiesAppend | src/pages/CartContext.jsx:146 | `totalItems` of a concatenation is the sum of the two totals |
| CartEngine.BumpedTotal | src/pages/CartContext.jsx:146 | raising one entry's quantity by `d` raises `totalItems` by `d` |
| CartEngine.SumQuantitiesNonNegative | src/pages/CartContext.jsx:146 | with no negative quantity, `totalItems` is never negative |
| CartEngine.SumQuantitiesAtLeastCount | src/pages/CartContext.jsx:146 | with every quantity at least 1, `totalItems` is at least the number of entries |
| CartEngine.Clamped | src/pages/CartContext.jsx:91-96 | the map step: entries with the id get quantity `max(1, n)`; every other entry is unchanged, in place |
| CartEngine.KeepPositive | src/pages/CartContext.jsx:97 | the filter step keeps only entries of positive quantity, each taken from the cart |
| CartEngine.KeepPositiveNoop | src/pages/CartContext.jsx:97 | on a cart of positive quantities the filter keeps everything |
| CartEngine.Updated | src/pages/CartContext.jsx:90-97 | after `updateQuantity` every entry has a quantity of at least 1 and is an entry of the mapped cart; the cart never grows |
| CartEngine.UpdatedDropsNonPositive | src/pages/CartContext.jsx:91-97 | an entry of another product whose quantity is 0 or less is removed by the filter step |
| CartEngine.UpdatedRemovesNothing | src/pages/CartContext.jsx:90-97 | on a cart of positive quantities `updateQuantity` removes no entry, for any `n`, including 0 and negative `n` |
| CartEngine.UpdatedKeepsTarget | src/pages/CartContext.jsx:90-97 | every entry with the id survives the update, with quantity `max(1, n)` |
| CartEngine.ClampedOnlyEntry | src/pages/CartContext.jsx:91-96 | when one entry alone has the id, the update changes that entry alone |
| CartEngine.ClampedIncrement | src/pages/CartContext.jsx:91-96 | for the only entry with the id, mapping to one more than its quantity (at least 1) is the same as raising that entry by one |
| CartEngine.UpdatedIsBumped | src/pages/CartContext.jsx:90-97 | the + button on the only entry with that id raises that entry by one and changes nothing else |
| CartEngine.UpdatedIncrement | src/pages/CartContext.jsx:90-97 | raising the only entry of a product by one raises `totalItems` by one |
| CartEngine.Removed | src/pages/CartContext.jsx:116 | the result holds no entry with the id, and only entries of the cart |
| CartEngine.RemovedKeepsOthers | src/pages/CartContext.jsx:116 | every entry with another id is kept |
| CartEngine.RemovedAppend | src/pages/CartContext.jsx:116 | removal works piecewise, so the kept entries stay in their order |
| CartEngine.DistinctKeysUnique | src/pages/CartContext.jsx:73-78 | in a cart of distinct ids no other entry shares an entry's id |
| CartEngine.KeepPositiveDistinct | src/pages/CartContext.jsx:97 | the filter step keeps the ids distinct |
| CartEngine.AddedKeepsDistinct | src/pages/CartContext.jsx:72-81 | `addToCart` keeps the ids of a cart distinct: a present id is raised in place, a new one appended once |
| CartEngine.UpdatedKeepsDistinct | src/pages/CartContext.jsx:90-97 | `updateQuantity` keeps the ids of a cart distinct |
| CartEngine.RemovedKeepsDistinct | src/pages/CartContext.jsx:116 | `removeFromCart` keeps the ids of a cart distinct |
| CartEngine.Cart.constructor | src/pages/CartContext.jsx:8-16 | an empty cart, loading, the stored user and the stored mirror |
| CartEngine.Cart.TotalItems | src/pages/CartContext.jsx:146 | `totalItems` of an empty cart is 0 |
| CartEngine.Cart.Load | src/pages/CartContext.jsx:19-40 | no token: nothing changes but `loading`. Success: the cart and the mirror become `items \|\| []`. Failure: the cart becomes the mirror if one is stored |
| CartEngine.Cart.AddToCart | src/pages/CartContext.jsx:46-87 | the cart and the mirror become `Added`. The mirror is written before the sync, which is attempted only with a token. A failed sync changes nothing |
| CartEngine.Cart.UpdateQuantity | src/pages/CartContext.jsx:90-112 | the cart and the mirror become `Updated`. The PUT carries the unclamped quantity and is attempted only with a user |
| CartEngine.Cart.RemoveFromCart | src/pages/CartContext.jsx:115-129 | the cart and the mirror become `Removed`, then the DELETE is attempted |
| CartEngine.Cart.ClearCart | src/pages/CartContext.jsx:132-144 | the cart becomes empty and the mirror key is deleted, then the remote clear is attempted |
| Checkout.ItemsToShow | src/pages/Checkout.jsx:14-15 | a buy-now item alone when one was passed, else the whole cart |
| Checkout.FinalTotal | src/pages/Checkout.jsx:18-28 | the total of no items is 0, and of one item that line's price times its count |
| Checkout.FinalTotalAppend | src/pages/Checkout.jsx:18-28 | the total of a concatenation is the sum of the totals |
| Checkout.BuyNowTotal | src/pages/Checkout.jsx:14-28 | with a buy-now item the total is that line's amount, whatever the cart holds |
| Checkout.FinalTotalExample | src/pages/Checkout.jsx:18-28 | 100 × 2 plus 50 × 1 totals 250 whether `quantity` or `qty` carries the count |
| Checkout.FinalTotalNonNegative | src/pages/Checkout.jsx:18-28 | no negative price, quantity or qty gives a non-negative total |
| Checkout.BillingForm.constructor | src/pages/Checkout.jsx:31-39 | all seven fields start empty |
| Checkout.WithField | src/pages/Checkout.jsx:52-53 | `{...form, [name]: value}`: the named field takes the value and the six others are kept |
| Checkout.Complete | src/pages/Checkout.jsx:57-59 | the form passes iff each of name, email, phone, address, city, state and pincode is non-empty |
| Checkout.BillingForm.Prefill | src/pages/Checkout.jsx:42-50 | with a user, name and email become the user's (or ""); the other fields are kept |
| Checkout.BillingForm.Change | src/pages/Checkout.jsx:52-53 | only the named field takes the typed value |
| Checkout.PlaceOrder | src/pages/Checkout.jsx:56-69 | the order is refused iff some field is empty; otherwise the form, the items and their total are handed on |
| Checkout.Proceed | src/pages/Checkout.jsx:56-69 | the payment page gets the items shown and their total; the cart is not changed |
| Payment.DeferredOrder | src/pages/PaymentPage.jsx:102-112 | the posted order carries the chosen method, status Pending, and no transaction id or date |
| Payment.PaidOrder | src/pages/PaymentPage.jsx:54-64 | the posted order is Online and Paid, with the gateway payment id and the current date |
| Payment.HandleOnlinePayment | src/pages/PaymentPage.jsx:21-92 | the gateway order is created first. At most one order is posted, and only after verification. Navigation happens iff creation, payment, verification and post all succeed |
| Payment.HandleConfirmPayment | src/pages/PaymentPage.jsx:94-126 | no method: only the "select a method" notice. Another method than Online: exactly one Pending order is posted; on success the effects are the post, the "order placed" notice and the navigation with that order, on failure the post and the failure notice. Online: the gateway order is created first; every post is the Paid order, and one is made iff the gateway order was created, the user paid and verification succeeded; navigation happens iff that post also succeeds |
| Payment.PaymentPage | src/pages/PaymentPage.jsx:12-18 | without a customer or items the page redirects to the checkout and posts nothing; one press of the confirm button posts at most one order |
| CartPage.SafeCart | src/pages/CartPage.jsx:12 | a cart value that is not an array is treated as empty |
| CartPage.CartTotal | src/pages/CartPage.jsx:14-22 | the total of an empty cart is 0, and of one line that line's subtotal |
| CartPage.Subtotals | src/pages/CartPage.jsx:70-72 | one subtotal per line, `price \|\| 0` times `quantity \|\| 1` |
| CartPage.TotalIsSumOfSubtotals | src/pages/CartPage.jsx:14-22 | the total shown is the sum of the subtotals shown; an empty cart totals 0 |
| CartPage.CartTotalMatchesCheckout | src/pages/CartPage.jsx:14-22 | when every quantity is present and non-zero, the cart page and the checkout compute the same total |
| CartPage.ZeroQuantityDiffers | src/pages/CartPage.jsx:18 | a zero quantity counts as 1 here, but the checkout falls back to `qty` |
| CartPage.Decrease | src/pages/CartPage.jsx:81-83 | the − button runs `updateQuantity` with the quantity minus one: the cart becomes `Updated`, the mirror is written, and the PUT with that quantity is sent only with a user; the user and `loading` are kept |
| CartPage.Increase | src/pages/CartPage.jsx:90-92 | the + button runs `updateQuantity` with the quantity plus one: the cart becomes `Updated`, the mirror is written, and the PUT with that quantity is sent only with a user; the user and `loading` are kept |
| CartPage.DecreaseAtOneKeeps | src/pages/CartPage.jsx:81-83 | − at quantity 1 on the only entry of a product leaves the cart unchanged |
| CartPage.BuyNow | src/pages/CartPage.jsx:33-35 | the checkout shows that item alone, whatever the cart holds |
| CartPage.ProceedToCheckout | src/pages/CartPage.jsx:131 | the checkout shows the whole cart |
| ProductDetails.Normalize | src/pages/productDetails.jsx:24-27 | `_id` is the body's `_id`, else its `id`, else the route id; the other fields are kept |
| ProductDetails.UnitPrice | src/pages/productDetails.jsx:58 | the offer price when present and non-zero, else the price |
| ProductDetails.Attempt | src/pages/productDetails.jsx:50-61 | refused as out of stock iff the stock is present and ≤ 0, checked before the size. Otherwise refused iff no size is chosen. Otherwise the cart item has quantity 1 |
| ProductDetails.PageItemAddsOne | src/pages/productDetails.jsx:54-64 | the page's item is resolvable and adding it raises `totalItems` by exactly one |
| ProductDetails.ProductPage.constructor | src/pages/productDetails.jsx:12-15 | no product, loading, no size and no main image |
| ProductDetails.ProductPage.Loaded | src/pages/productDetails.jsx:18-39 | a fetched product is normalised and its first image becomes the main image; loading ends either way |
| ProductDetails.ProductPage.SelectSize | src/pages/productDetails.jsx:14 | only the selected size changes |
| ProductDetails.ProductPage.HandleAddToCart | src/pages/productDetails.jsx:50-66 | a refusal leaves the cart object wholly unchanged. Otherwise the item goes to `addToCart`: the cart becomes `Added`, and for an item with an id the mirror is written, then the POST is sent only with a token; the user and `loading` are kept |
| ProductDetails.ProductPage.HandleBuyNow | src/pages/productDetails.jsx:69-84 | the same guards and the same item, without touching the cart |
| ProductCard.Filter | src/components/ProductCard.jsx:51-54 | `filter` keeps only elements of the list that satisfy the test, never more than the list holds |
| ProductCard.FilterComplete | src/components/ProductCard.jsx:51-54 | `filter` keeps every element that satisfies the test |
| ProductCard.FilterAppend | src/components/ProductCard.jsx:51-54 | `filter` works piecewise, so the kept elements stay in their order |
| ProductCard.FilterEmpty | src/components/ProductCard.jsx:51-54 | `filter` gives nothing iff no element passes the test |
| ProductCard.SearchResults | src/components/ProductCard.jsx:49-55 | every product shown is a product of the list that matches the query |
| ProductCard.SearchResultsExact | src/components/ProductCard.jsx:49-55 | a product is shown iff its name, or its truthy brand, lower-cased contains the lower-cased query |
| ProductCard.SearchResultsAppend | src/components/ProductCard.jsx:51-54 | the search keeps the products in their order |
| ProductCard.BrandMatches | src/components/ProductCard.jsx:59-64 | every product kept has a string brand that, lower-cased and trimmed, contains the key |
| ProductCard.BrandMatchesComplete | src/components/ProductCard.jsx:59-64 | every product whose string brand contains the key is kept |
| ProductCard.Take | src/components/ProductCard.jsx:65 | `slice(0, 2)` is a prefix of at most two elements, all of a shorter list |
| ProductCard.BrandPicks | src/components/ProductCard.jsx:57-66 | no brand keys pick nothing, and each key contributes at most two products |
| ProductCard.BrandPicksOne | src/components/ProductCard.jsx:59-65 | one brand contributes the first two of its matching products in list order, or all of them when there are fewer |
| ProductCard.BrandPicksAppend | src/components/ProductCard.jsx:57-66 | `flatMap` works brand by brand: the picks for two brand lists are the picks of each, in order |
| ProductCard.BrandPicksNone | src/components/ProductCard.jsx:57-66 | nothing is picked iff no brand matches any product |
| ProductCard.BrandPicksEmpty | src/components/ProductCard.jsx:57-68 | nothing is picked iff no product carries any of the brands, which is when the whole list is shown |
| ProductCard.BrandPicksBounded | src/components/ProductCard.jsx:57-66 | at most two products per featured brand, each a product of the list that carries one of the brands |
| ProductCard.GroupedShows | src/components/ProductCard.jsx:46-69 | an empty list shows nothing. With a query, exactly the matching products. Without one: the whole list when no product carries a featured brand; otherwise exactly the brand picks, at most 14, each a product of the list carrying a featured brand |
| ProductCard.Grouped | src/components/ProductCard.jsx:46-69 | an empty list shows nothing, and only products of the list are shown |
| ProductCard.AddToWishlist | src/components/ProductCard.jsx:23-43 | without a user only "login first" is shown and nothing is sent; with one, one POST and its notice |
| AdminProducts.NormalizeBrand | src/components/admin/productList.jsx:20 | never empty. It is the trimmed, lower-cased brand, or "unknown" when the brand is missing or blank |
| AdminProducts.NormalizeBrandIdempotent | src/components/admin/productList.jsx:18-21 | normalising a normalised brand changes nothing |
| AdminProducts.NormalizeAll | src/components/admin/productList.jsx:18-21 | every product keeps all fields but the brand, which is normalised |
| AdminProducts.NormalizeAllIdempotent | src/components/admin/productList.jsx:18-21 | normalising a loaded list again changes nothing |
| AdminProducts.EditsOf | src/components/admin/productList.jsx:36-40 | the edit buffer holds exactly the price, offer price and stock |
| AdminProducts.WithField | src/components/admin/productList.jsx:43-46 | the typed text replaces only the named field of the buffer |
| AdminProducts.Merge | src/components/admin/productList.jsx:56 | each field in the buffer, even an undefined one, overrides the product's; nothing else changes |
| AdminProducts.MergeOwnEdits | src/components/admin/productList.jsx:34-41 | saving an untouched buffer gives the product back |
| AdminProducts.MergeIdempotent | src/components/admin/productList.jsx:56 | saving the same buffer twice is saving it once |
| AdminProducts.SaveAll | src/components/admin/productList.jsx:54-58 | products with the id take the edits; the others are unchanged, in place |
| AdminProducts.SaveOwnEditsKeepsList | src/components/admin/productList.jsx:54-58 | saving a row's untouched buffer leaves the list unchanged when the id is that row's alone |
| AdminProducts.Without | src/components/admin/productList.jsx:71 | no product with the id remains, and only products of the list |
| AdminProducts.WithoutKeepsOthers | src/components/admin/productList.jsx:71 | every product with another id is kept |
| AdminProducts.WithoutAppend | src/components/admin/productList.jsx:71 | the remaining products keep their order |
| AdminProducts.GroupKey | src/components/admin/productList.jsx:83 | the group key is never empty |
| AdminProducts.Members | src/components/admin/productList.jsx:82-87 | a group holds only products of the list with that key |
| AdminProducts.MembersExact | src/components/admin/productList.jsx:82-87 | a product is in group k iff it is in the list and its key is k, so it is in exactly one group |
| AdminProducts.MembersAppend | src/components/admin/productList.jsx:82-87 | each group keeps the list order |
| AdminProducts.MembersOfAbsentKey | src/components/admin/productList.jsx:84 | a key not yet seen has no products |
| AdminProducts.BrandKeysExact | src/components/admin/productList.jsx:82-87 | the keys are distinct and are exactly the keys of the list's products |
| AdminProducts.SizeSumSnoc | src/components/admin/productList.jsx:85 | one more product adds one to exactly one group |
| AdminProducts.GroupSizesSum | src/components/admin/productList.jsx:82-87 | the group sizes add up to the number of products |
| AdminProducts.MembersSnoc | src/components/admin/productList.jsx:85 | a pushed product joins the group of its own key and no other |
| AdminProducts.BrandKeysSnoc | src/components/admin/productList.jsx:84 | a product adds its key at the end only when the key is new |
| AdminProducts.GroupPush | src/components/admin/productList.jsx:84-85 | one reduce step: a new key is added with an empty group, then the product is pushed onto its key's group, and the groups stay those of the products seen so far |
| AdminProducts.GroupWith | src/components/admin/productList.jsx:82-87 | the reduce loop, with the inherited names a parameter: it stops at the first product whose key is listed, else it yields exactly the keys and groups of the list |
| AdminProducts.GroupByBrand | src/components/admin/productList.jsx:82-87 | the reduce throws iff some product's key is a name every object inherits (`constructor`, `__proto__`, `toString`, ...); otherwise it yields the keys in first-appearance order, and for each key the products with that key in list order |
| AdminProducts.InheritedBrandThrows | src/components/admin/productList.jsx:18-21 | a loaded product whose brand normalises to an inherited name makes the grouping throw |
| AdminProducts.TrimConstructor | src/components/admin/productList.jsx:20 | `" Constructor ".trim()` is `"Constructor"` |
| AdminProducts.LowerConstructor | src/components/admin/productList.jsx:20 | `"Constructor".toLowerCase()` is `"constructor"` |
| AdminProducts.NormalizeConstructor | src/components/admin/productList.jsx:20 | the brand `" Constructor "` normalises to `"constructor"` |
| AdminProducts.ConstructorIsInherited | src/components/admin/productList.jsx:84 | `"constructor"` is a name `{}` inherits, so `acc["constructor"]` is already truthy |
| AdminProducts.ProductManager.constructor | src/components/admin/productList.jsx:6-9 | no products, loading, no row in edit mode, an empty buffer |
| AdminProducts.ProductManager.Load | src/components/admin/productList.jsx:11-32 | the list becomes `items \|\| data` with brands normalised; a failure keeps the list; loading ends either way |
| AdminProducts.ProductManager.HandleEdit | src/components/admin/productList.jsx:34-41 | edit mode names the product and the buffer is its three editable fields |
| AdminProducts.ProductManager.HandleChange | src/components/admin/productList.jsx:43-46 | only the buffer changes |
| AdminProducts.ProductManager.HandleSave | src/components/admin/productList.jsx:48-65 | success merges the buffer into the products with the id and leaves edit mode; failure changes nothing |
| AdminProducts.ProductManager.HandleDelete | src/components/admin/productList.jsx:67-77 | a declined confirmation sends nothing and changes nothing; success removes every product with the id |
| AddProduct.WithInput | src/components/admin/AddProduct.jsx:20-22 | the typed value replaces the named input only |
| AddProduct.DescriptionLines | src/components/admin/AddProduct.jsx:46 | no description line is empty or contains a line break |
| AddProduct.FlattenSplit | src/components/admin/AddProduct.jsx:46 | the split pieces laid end to end are the text without separators |
| AddProduct.FlattenNonEmpty | src/components/admin/AddProduct.jsx:46 | dropping empty pieces loses no character |
| AddProduct.DescriptionKeepsText | src/components/admin/AddProduct.jsx:46 | the lines sent hold every character of the description but the line breaks, in order |
| AddProduct.PayloadOf | src/components/admin/AddProduct.jsx:43-48 | the payload keeps the typed fields, with the brand trimmed and lower-cased, the description as lines, and the images |
| AddProduct.PayloadBrandNormal | src/components/admin/AddProduct.jsx:45 | the brand sent has no surrounding white space and no capital letter |
| AddProduct.AddProductPage.constructor | src/components/admin/AddProduct.jsx:6-17 | blank inputs, no images, not loading |
| AddProduct.AddProductPage.HandleChange | src/components/admin/AddProduct.jsx:20-22 | only the named input changes |
| AddProduct.AddProductPage.HandleImageUpload | src/components/admin/AddProduct.jsx:25-29 | the chosen files' URLs replace the images |
| AddProduct.AddProductPage.HandleSubmit | src/components/admin/AddProduct.jsx:32-70 | submit proceeds iff name, brand, category and price are all non-empty: a missing one sends nothing and shows the notice. Otherwise the payload is posted; success resets all seven inputs and the images, failure keeps them. Loading ends false on every path |
| OrderList.WithStatus | src/components/admin/OrderList.jsx:35-39 | orders with the id take the new status; all others and all other fields are unchanged |
| OrderList.WithStatusLastWins | src/components/admin/OrderList.jsx:35-39 | of two changes to one order the later wins |
| OrderList.WithStatusCommutes | src/components/admin/OrderList.jsx:35-39 | changes to different orders commute |
| OrderList.WithStatusSame | src/components/admin/OrderList.jsx:35-39 | setting the status an order already has changes nothing |
| OrderList.ShortId | src/components/admin/OrderList.jsx:71 | six characters (all of a shorter id), none of them lower case |
| OrderList.ShortIdOfSuffix | src/components/admin/OrderList.jsx:71 | ids that end in the same six characters show the same short id |
| OrderList.ShortIdIdempotent | src/components/admin/OrderList.jsx:71 | shortening a short id changes nothing |
| OrderList.OrderBoard.constructor | src/components/admin/OrderList.jsx:7-9 | no orders, loading, nothing updating |
| OrderList.OrderBoard.Load | src/components/admin/OrderList.jsx:11-24 | the orders become `orders \|\| []`; a failure keeps them; loading ends |
| OrderList.OrderBoard.HandleStatusChange | src/components/admin/OrderList.jsx:26-48 | the PUT is sent while `updating` names the order. Success applies `WithStatus` and failure keeps the orders. `updating` is cleared after either |
| Home.JsRem | src/pages/Home.jsx:26 | JavaScript's `%`: the remainder has the dividend's sign |
| Home.Next | src/pages/Home.jsx:25-27 | from slide -1 or above the next index is a valid slide: one more, or 0 after the last |
| Home.Prev | src/pages/Home.jsx:29-31 | from slide -2 or above the previous index is a valid slide: one less, or the last before 0 |
| Home.ArrowsStayInRange | src/pages/Home.jsx:25-31 | from a valid slide both arrows give a valid slide, wrapping at either end |
| Home.PrevUndoesNext | src/pages/Home.jsx:25-31 | the two arrows undo each other |
| Home.NextThreeTimes | src/pages/Home.jsx:25-27 | three forward steps return to the start |
| Home.PrevOfNegative | src/pages/Home.jsx:30 | from -3 the previous-arrow formula gives -1, outside the range; the page never reaches a negative index, since the slider starts at 0 and both arrows keep it in range |
| Home.RunStaysInRange | src/pages/Home.jsx:25-31 | from a valid slide no sequence of presses leaves the range |
| Home.Offset | src/pages/Home.jsx:21 | for a non-negative index and slide width the track offset is never positive |
| Home.OffsetStep | src/pages/Home.jsx:21 | neighbouring slides are one width apart |
| Home.Slider.constructor | src/pages/Home.jsx:6 | the slider starts at slide 0 |
| Home.Slider.GoToSlide | src/pages/Home.jsx:18-23 | a mounted track moves to the slide's offset and the index is not changed |
| Home.Slider.NextSlide | src/pages/Home.jsx:25-27 | the index moves to the next slide and the track follows |
| Home.Slider.PrevSlide | src/pages/Home.jsx:29-31 | the index moves to the previous slide and the track follows |

## Left out

- HTTP calls are not modelled as such. Each request is a parameter giving its outcome, plus the response body where the page reads one. Authorization headers, URLs and the `console` logging are not modelled.
- The payment gateway's browser SDK is left out. Its outcome is a parameter: whether the gateway order was created, and the reply of the payment handler if the user paid.
- Local storage and JSON serialisation are left out. The mirror is the sequence itself, so a value that does not survive `JSON.stringify` is not modelled.
- React rendering, hooks, effects scheduling, animation, `toast` styling, routing and the DOM are left out. A navigation is a returned value or a route datatype.
- The auto-advance timer and the window resize listener of the home slider are left out: they only call `nextSlide` / `goToSlide` at times the clock decides.
- Floating-point prices and `toLocaleString` formatting are left out. Amounts are integers.
- Case mapping and white space are ASCII only. Unicode case folding and the full `trim` white-space set are not modelled.
- NaN arithmetic is not modelled. A cart entry without a `quantity` would make `totalItems` NaN; the cart invariant requires every entry to carry one.
- CartEngine.Cart.AddToCart: `existing.quantity +=` mutates, in place, an entry object shared with the previous cart state. The model replaces the entry by value and does not model that aliasing.
- CartEngine.Cart.TotalItems: its own contract states only the empty case. The other properties of the total are the `SumQuantities` lemmas.
- Payment.PaymentPage: repeated presses of the confirm button are not modelled. The button has no disabled or loading guard, so two presses post two orders; the model promises at most one order per press.
- ProductCard.Grouped: in search mode a product whose `name` is missing or not a string makes `p.name.toLowerCase()` throw, and so does a brand that is truthy but not a string. The model gives every product a string name, and treats a non-string brand as not matching. A `null` product list is not modelled.
- AdminProducts.NormalizeBrand: a non-string brand makes `trim` throw during the fetch. Brands are modelled as strings or absent.
- AdminProducts.GroupByBrand: `Object.keys` lists integer-like keys first, in numeric order. The model keeps first-appearance order for every key.
- ProductDetails.SoldOut: a `null` stock compares as 0 in `stock <= 0`. The model treats an absent stock as not sold out and does not model `null` separately.
- Text typed into the admin number inputs stays text (`Typed`). Parsing it as a number is the server's business.
- Navbar, authentication, the order history, the wishlist page and the other display-only pages are not part of this model.
