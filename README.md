# E-commerce API core in Dafny

This project models the business core of a small Express/Mongoose e-commerce
backend. It models a store made of four collections: a product catalog, one
cart per user, orders, and reviews. Each controller action is one atomic step
over that store.

- **Carts**: get-or-create, add with merge-or-append behind a stock guard,
  set-quantity where a value of at most 0 deletes the entry, filter-remove, and
  clear.
- **Checkout**: guards run in order (empty cart, stock, payment). On success
  the order lines are a snapshot of the cart, every product's stock is
  decremented, and the cart is emptied.
- **Pricing**: 10% tax; shipping is free strictly above 100 and costs 10
  otherwise.
- **Cancellation**: a status guard, then stock is restored.
- **Order read access**: the owner or an admin may read an order.
- **Review gating**: the product must exist, the user must have bought it, and
  they may review it only once. Update is owner-only and keeps old values for
  falsy fields. Delete is allowed for the owner or an admin.
- **Rating aggregation**: the mean rounded half-up to one decimal, plus the
  review count. Both are reset to 0 when no review is left.
- **Validators**: the Product schema with its defaults and the `trim` setter,
  the Joi validators for registration and product bodies, the ObjectId route
  parameter, and the pagination query.

Layout, one module per file:

- `common.dfy`: ids, `Option`/`Result`, and the failure kinds with their HTTP
  statuses.
- `catalog.dfy`: `models/Product.js`.
- `carts.dfy`: the pure cart transformations of `controllers/cartController.js`.
- `orders.dfy`: the pure parts of `controllers/orderController.js`, plus the
  stock-check loop.
- `reviews.dfy`: `models/Review.js` and the review merge.
- `shop.dfy`: the `Store` class, with one method per controller action. Its
  `map`/`seq` fields are reassigned in place, and each method's `ensures`
  gives the whole new state.
- `validation.dfy`: `middleware/validationMiddleware.js`, written as a small Joi
  object-schema interpreter.
- `validators.dfy`: `utils/validators.js`.

Money, prices and ratings are `real`, so the arithmetic is exact. Stock and
quantities are `int`. Document ids are natural numbers. A fresh id for a
created order or review is supplied by the caller. The payment gateway's
answer is a parameter (`PaymentIntent`).

Three behaviours of the code differ from what a reader would expect, and the
model follows the code:

- **Cancelling an order twice.** Cancellation is presumably meant to be
  allowed only while an order is Processing, with Cancelled as a final state.
  The code blocks only Shipped and Delivered
  (`controllers/orderController.js:166`).
  So an already Cancelled order passes the guard again and its stock is
  restored a second time. `Shop.Store.CancelOrder` and `Orders.RestoreTwice`
  state this.
- **Deleting a review.** `deleteReview` calls `deleteOne()`
  (`controllers/reviewController.js:130`), and the recompute hook is registered
  on `'remove'` (`models/Review.js:60-62`). So deleting a review leaves the
  product's rating and count as they were, and `Shop.Store.DeleteReview`
  promises that products are unchanged.
- **Saving a review.** `updateReview` saves the document, which fires the
  `'save'` hook. So an update recomputes the rating just as a create does.

## Model

| member | source | states |
|---|---|---|
| Catalog.Trim | models/Product.js:7 | the stored name has no white space at either end and is no longer than the input |
| Catalog.TrimRemovesOnlyEndSpace | models/Product.js:7 | the trimmed name is a contiguous slice of the input, and everything cut off on either side is white space |
| Catalog.TrimKeepsTrimmed | models/Product.js:7 | a name with no white space at its ends is stored unchanged |
| Catalog.TrimIdempotent | models/Product.js:7 | trimming twice is the same as trimming once |
| Catalog.ValidProduct | models/Product.js:4-37 | a stored product has a trimmed name of 1..100 characters, a description of 1..2000, a price of at least 0, one of the six categories, a stock of at least 0 and a rating in [0, 5] |
| Catalog.CreateProduct | models/Product.js:3-45 | creation succeeds exactly when the trimmed name is 1..100 long, the description is 1..2000 long, the price is at least 0, the category is one of the six, and any given stock is at least 0; a created product is valid, has the trimmed name and the given fields, and defaults stock to 0, rating to 0, numReviews to 0 and featured to false; otherwise the result is a validation error |
| Carts.FindIndex | controllers/cartController.js:50-52 | the result is the first entry for the product, or -1 exactly when no entry has it |
| Carts.AddItem | controllers/cartController.js:50-58 | an absent product is appended as one new entry at the end; a present product keeps the length and adds the quantity to its first entry only; unique entries stay unique |
| Carts.AddItemQuantities | controllers/cartController.js:54-58 | the product's total quantity grows by exactly the requested amount, and every other product's total is unchanged |
| Carts.AddItemKeepsCount | controllers/cartController.js:54-58 | the number of entries grows by one only when the product was absent, and afterwards the product is in the cart |
| Carts.SetQuantity | controllers/cartController.js:98-102 | a quantity of at most 0 splices out exactly entry k and shifts the rest; otherwise only entry k gets the new quantity; unique entries stay unique |
| Carts.SetQuantityQuantities | controllers/cartController.js:98-102 | with unique entries, the edited product's total becomes the new quantity, or 0 once removed; every other total is unchanged |
| Carts.RemoveProduct | controllers/cartController.js:129-131 | exactly the entries of other products survive; it is a no-op when the product is absent |
| Carts.RemoveProductConcat | controllers/cartController.js:129-131 | the filter distributes over concatenation, so the survivors keep their original order |
| Carts.RemoveProductQuantities | controllers/cartController.js:129-131 | the removed product's total becomes 0 and every other total is unchanged |
| Carts.RemoveProductKeepsUnique | controllers/cartController.js:129-131 | removal keeps one entry per product |
| Orders.Available | controllers/orderController.js:21 | a cart line passes the stock guard when its product resolves and its stock is at least the line's quantity |
| Orders.CheckStock | controllers/orderController.js:20-27 | returns None exactly when every line's product exists with enough stock; otherwise returns the first line that fails |
| Carts.CartTotal | controllers/cartController.js:12 | an empty cart totals 0; with non-negative prices and quantities the total is non-negative (the `calculateTotal` body is not part of this model, see Left out) |
| Orders.ItemsPrice | controllers/orderController.js:29-31 | the `reduce` starts from 0 for an empty cart, and is non-negative when prices and quantities are |
| Orders.CartTotalIsItemsPrice | controllers/orderController.js:29-31 | while every product resolves, the cart total equals the checkout's Σ price × quantity |
| Orders.PriceOrder | controllers/orderController.js:32-34 | tax is one tenth of itemsPrice; shipping is 0 exactly when itemsPrice exceeds 100, and 10 otherwise; the total is the sum of the three |
| Orders.PricingExamples | controllers/orderController.js:29-34 | 2 × 50 costs 100 + 10 + 10 = 120 (100 does not ship free), and 2 × 60 costs 120 + 12 + 0 = 132 |
| Orders.Snapshot | controllers/orderController.js:56-61 | one order line per cart line, in order, with the product's current name and price copied |
| Orders.SnapshotQuantities | controllers/orderController.js:56-61 | projecting the order lines back to (product, quantity) gives the cart |
| Orders.SnapshotTotal | controllers/orderController.js:56-61 | the stored itemsPrice equals Σ price × quantity over the stored order lines |
| Orders.Quantities | controllers/orderController.js:177-181 | one (product, quantity) pair per order line, in order |
| Orders.Decrement | controllers/orderController.js:83-87 | the catalog after the decrement loop has the same products, and only their stock differs; `DecrementExact` gives the exact stock |
| Orders.Restore | controllers/orderController.js:177-181 | the catalog after the restore loop has the same products, and only their stock differs |
| Orders.DecrementExtend | controllers/orderController.js:83-87 | one more loop turn lowers that line's product by its quantity; a missing product is skipped |
| Orders.DecrementExact | controllers/orderController.js:83-87 | with unique cart entries, a purchased product's stock drops by exactly its line's quantity, and a product not in the cart keeps its stock |
| Orders.DecrementKeepsStockNonNegative | controllers/orderController.js:20-27 | the stock guard plus unique entries keep every stock at least 0 after the decrement |
| Orders.RestoreExtend | controllers/orderController.js:177-181 | one more loop turn raises that line's product by its quantity; a missing product is skipped |
| Orders.RestoreUndoesDecrement | controllers/orderController.js:177-181 | cancelling right after checkout returns every product's stock to its old value |
| Orders.RestoreTwice | controllers/orderController.js:166-181 | a second cancellation restores the quantities once more |
| Orders.Cancellable | controllers/orderController.js:166 | the guard passes exactly for Processing and Cancelled |
| Orders.GetOrderById | controllers/orderController.js:125-137 | returns the order exactly when it exists and the caller owns it or is an admin; otherwise OrderNotFound or NotAuthorized |
| Reviews.FindReview | controllers/reviewController.js:81 | returns a position holding the id, or -1 exactly when no review has it |
| Reviews.ValidReview | models/Review.js:14-24 | a stored review has a rating in [1, 5] and a non-empty comment of at most 500 characters |
| Reviews.UniqueReviews | models/Review.js:29 | no two reviews share an id, and no two share a (product, user) pair, as the unique index demands |
| Reviews.HasPurchased | controllers/reviewController.js:19-30 | the purchase check holds exactly when some paid order of the user has a line for the product |
| Reviews.HasReviewed | controllers/reviewController.js:33-43 | the duplicate check holds exactly when some stored review has this product and user |
| Reviews.NewReview | models/Review.js:14-24 | creation succeeds exactly when a rating in [1, 5] and a comment of 1..500 characters are given; the review carries the given fields |
| Reviews.MergeUpdate | controllers/reviewController.js:97-98 | an absent or falsy (0, "") field keeps its old value, a truthy one replaces it, and id, product and user are unchanged |
| Reviews.MergeUpdateIdempotent | controllers/reviewController.js:97-98 | applying the same update twice is the same as applying it once |
| Reviews.MergeFalsyKeepsValid | controllers/reviewController.js:97-100 | a valid review stays valid when every truthy value given is itself within the schema |
| Reviews.ReviewCount | models/Review.js:32-41 | the `$sum: 1` count is at most the number of reviews, and is 0 exactly when no review is of the product |
| Reviews.RatingSum | models/Review.js:32-41 | the sum behind `$avg` is 0 when the product has no review |
| Reviews.RatingSumBounds | models/Review.js:14-19 | over valid reviews, the rating sum lies between 1 × count and 5 × count |
| Reviews.RoundToTenth | models/Review.js:45 | the result lies on the one-decimal grid, within (x - 0.05, x + 0.05] |
| Reviews.RoundToTenthWithin | models/Review.js:45 | rounding a value in [lo, hi], with lo and hi whole numbers, stays in [lo, hi] |
| Reviews.Aggregate | models/Review.js:31-54 | numReviews is the product's review count; the rating lies on the one-decimal grid; with no review it is 0, otherwise it lies in (mean - 0.05, mean + 0.05], which singles out the mean rounded half-up to a tenth |
| Reviews.AggregateInRange | models/Review.js:43-52 | over valid reviews the resulting rating lies in [0, 5], and in [1, 5] once any review exists |
| Reviews.AggregateAfterAppend | models/Review.js:33-38 | a new review adds one to its own product's count and its rating to that product's sum, and changes no other product |
| Reviews.UniqueAfterAppend | controllers/reviewController.js:33-50 | the already-reviewed guard and a fresh id keep (product, user) and ids unique |
| Reviews.UniqueAfterReplace | controllers/reviewController.js:97-100 | rewriting rating and comment in place keeps both keys unique |
| Reviews.UniqueAfterRemove | controllers/reviewController.js:130 | deleting a review keeps both keys unique |
| Shop.Store.Valid | models/Review.js:14-29 | the store invariant every action keeps: each cart holds one entry per product, reviews are unique by id and by (product, user), and every review meets the schema; products are deliberately not in it, because `findByIdAndUpdate` does not run the schema validators |
| Shop.Store.GetCart | controllers/cartController.js:4-21 | a user without a cart gets an empty one and nothing else changes; an existing cart is reported with its total |
| Shop.Store.AddToCart | controllers/cartController.js:23-73 | an unknown product gives 404 and a stock below the requested quantity gives 400, both with state unchanged; otherwise the user's cart, created if missing, becomes the merge-or-append result |
| Shop.Store.UpdateCartItem | controllers/cartController.js:75-116 | a missing cart or entry gives 404 with state unchanged; otherwise the cart becomes the set-quantity result on that entry |
| Shop.Store.RemoveFromCart | controllers/cartController.js:118-145 | a missing cart gives 404 with state unchanged; otherwise the cart becomes the filter result |
| Shop.Store.ClearCart | controllers/cartController.js:147-169 | a missing cart gives 404 with state unchanged; otherwise the cart has no items and a total of 0, whatever it held before, so clearing twice is clearing once |
| Shop.Store.CreateOrder | controllers/orderController.js:6-101 | checks an empty or missing cart, then the first failing line, then a failed payment, and each failure changes nothing; on success it stores one order (snapshot lines, the pricing, paid, Processing), decrements each product by its cart quantity, empties the cart, and keeps stock at least 0 |
| Shop.Store.DecrementStock | controllers/orderController.js:83-87 | the loop leaves the catalog equal to `Decrement` of the old catalog and changes nothing else |
| Shop.Store.RestoreStock | controllers/orderController.js:177-181 | the loop leaves the catalog equal to `Restore` of the old catalog and changes nothing else |
| Shop.Store.CancelOrder | controllers/orderController.js:148-190 | an unknown order gives 404, another user 403, and Shipped or Delivered 400, each changing nothing; otherwise the status becomes Cancelled and every line's quantity goes back into stock |
| Shop.Store.CalculateAverageRating | models/Review.js:31-54 | writes the aggregate into the given product and into no other product; the written rating lies in [0, 5] |
| Shop.Store.CreateReview | controllers/reviewController.js:5-61 | checks for an unknown product (404), then no paid order containing it (403), then an existing review by the user (400); a review the schema rejects is not stored; otherwise exactly one review is appended and its product's rating is recomputed |
| Shop.Store.UpdateReview | controllers/reviewController.js:79-110 | an unknown review gives 404 and a non-author 403, both with state unchanged; otherwise the merged review replaces the old one in place (unless the schema rejects it) and its product is recomputed |
| Shop.Store.DeleteReview | controllers/reviewController.js:112-139 | an unknown review gives 404, and a caller who is neither the author nor an admin gets 403; otherwise exactly that review is removed and products are unchanged |
| Validation.ValidateRegister | middleware/validationMiddleware.js:3-18 | next() is reached exactly when the body has only name, email and password, the name is 2..50 long, the email is a non-empty string the email check accepts, and the password is at least 6 long |
| Validation.ProductAcceptsSound | middleware/validationMiddleware.js:21-31 | a body the product schema accepts meets every field condition |
| Validation.ProductAcceptsComplete | middleware/validationMiddleware.js:21-31 | a body with only known keys that meets every field condition is accepted |
| Validation.ValidateProduct | middleware/validationMiddleware.js:20-39 | next() is reached exactly when the body has only known keys, the name is 3..100 long, the description is 10..2000 long, price and stock are numbers in [0, 2^53 - 1] (Joi refuses unsafe numbers by default), the category is one of the six, brand if given is non-empty, and images if given is a list of non-empty strings |
| Validation.ValidatedProductIsCreatable | middleware/validationMiddleware.js:22-28 | a validated body has the price, stock, category and description bounds of the Product schema |
| Validators.HexRunIff | utils/validators.js:6 | the anchored pattern `[0-9a-fA-F]{n}` matches exactly the strings of n hexadecimal digits |
| Validators.IdParam | utils/validators.js:6 | an id is accepted exactly when it has 24 characters, all of them hexadecimal digits |
| Validators.Pagination | utils/validators.js:8-11 | the query is accepted exactly when it has no key other than page and limit, page is an integer in [1, 2^53 - 1], and limit is an integer in [1, 100]; the defaults are 1 and 10 |

## Left out

- The payment call: the gateway's answer is a parameter, and the conversion of the total to minor units (`Math.round(totalPrice * 100)`) is not modelled.
- Floating point: money and ratings are exact reals, so the model does not show JavaScript's binary rounding in sums, in `* 0.1`, or in the mean.
- `models/Cart.js` and `models/Order.js` are not part of this model.
  - `Carts.CartTotal`: `calculateTotal` is assumed to be Σ price × quantity. It assumes that a line whose product has left the catalog adds 0.
  - `getCart` reports the total without storing it.
  - Any Order schema validation is not modelled.
- Persistence, `populate`, sorting by `createdAt`, the `getMyOrders` and `getProductReviews` listings, timestamps, `paidAt`, `paymentMethod` and the payment status/time fields: these are database plumbing and read-only listings. Each action is one atomic step.
- The fire-and-forget timing of the post-save hook: the recompute is taken as finishing within the same step.
- Concurrency: two checkouts racing between the stock check and the decrement are not modelled. The model is sequential.
- `Shop.Store.CreateOrder`: does not model the order-schema checks of `Order.create`, because that schema is not part of this model. Products are not kept valid by the store either: `findByIdAndUpdate` does not run validators. The preservation of stock at least 0 is therefore proved conditionally.
- The `images`, `brand` and `sku` product fields: they carry no constraint. The text index and the reviews virtual are also left out.
- Id comparison: ids are compared as canonical values, while the controllers compare `item.product.toString()` (lower-case hex) with the raw request string (controllers/cartController.js:50-52, 87-89, 129-131). A request id written in upper-case hex is still found by `Product.findById`, but then `findIndex` misses the existing entry, so `addToCart` appends a second entry for the same product, and `updateCartItem` and `removeFromCart` miss it too. The model does not capture this. Its one-entry-per-product invariant (`Shop.Store.Valid`) holds only for canonical ids, and the conditional stock-at-least-0 result of `Shop.Store.CreateOrder` and `Orders.DecrementKeepsStockNonNegative` rests on that invariant.
- Stock and quantities are integers here, while the source stores them as JavaScript Numbers. The Product schema has no integer rule, `validateProduct` accepts a stock such as 2.5, and `addToCart` takes an unchecked `quantity` (controllers/cartController.js:25). The model has no place for fractional stock or quantities. `Validation.ValidateProduct` still accepts a fractional stock, but `Catalog.CreateProduct` and the store cannot hold one.
- Mongoose and Joi type casting: string inputs converted to numbers, and ObjectId casting errors. Ids are natural numbers, and numeric fields arrive as numbers.
- `Validators.Pagination`: does not model Joi's conversion of numeric strings in a query, so a query value must already be a number.
- `Validation.ValidateRegister`: the email syntax check is an opaque parameter, not Joi's email grammar.
- String lengths count Unicode scalar values, where JavaScript counts UTF-16 code units. The two differ only for characters outside the Basic Multilingual Plane.
- `controllers/authController.js` (JWT signing, bcrypt), `utils/seed.js`, `utils/helpers.js` (currency formatting), and the route files: these are foreign libraries, process-level scripts and wiring, with no core logic.
- Error messages and the JSON envelope: failures are modelled by kind and HTTP status only.
