# Artisan's Corner storefront core, modelled in Dafny

Artisan's Corner is a marketplace for handmade crafts. It has a React/Redux
storefront and an Express/Mongoose back end that takes payments through
Razorpay. This project models the part of it that makes decisions:

- **Payment routes.** Creating a gateway order, verifying a payment
  signature and acknowledging a webhook, each with the HTTP status it ends in.
- **Product document.** The defaults of the schema and
  `calculateAverageRating`.
- **Redux stores.** The four slices (cart, product, order and auth). Each
  is a class whose methods are the reducer cases.
- **Pages.** The catalogue (categories, filter, stable sort, search URL),
  the cart summary and its buttons, the checkout form, the product detail
  page (quantity selector, gallery, stars), and the sign-in and registration
  forms with their shared effect.
- **Header and footer.** The header's cart badge, search box and account
  menu. The routes the footer builds from link labels.
- **Theme context.** Decoding and persisting the dark mode, the toggle, the
  palette and the `useTheme` guard.

Modules follow the source files, one each, plus `Wrappers` (an `Option`
type) and `Text` (the JavaScript string operations the core uses: `trim`,
the `\s` class, ASCII `toLowerCase` and `includes`).

Collaborators that cannot be seen are parameters:

- the HMAC-SHA256 hex digest;
- `JSON.stringify` of the webhook body;
- `encodeURIComponent`;
- the gateway's `orders.create`, which returns `None` when it throws;
- the process environment;
- what `localStorage` held at start-up.

Tax and ratings are exact `real`s. The rounding of `toFixed(0)` and
`Math.round` is stated explicitly.

## Model

| member | source | states |
|---|---|---|
| Text.TrimStart | frontend/src/components/Header.js:25 | what `trim` drops at the front is all white space, and what remains is a suffix starting with a non-space |
| Text.TrimEnd | frontend/src/components/Header.js:25 | what is dropped at the back is all white space, and what remains is a prefix ending with a non-space |
| Text.Trim | frontend/src/components/Header.js:25 | the result is `s` with its white-space ends removed: it is the slice of `s` after the leading white space, only white space follows it, and it is empty or starts and ends with a non-space |
| Text.TrimStartAllWhitespace | frontend/src/pages/ProductListPage.js:50 | a string that is all white space trims to nothing at the front |
| Text.TrimEmptyIff | frontend/src/pages/ProductListPage.js:50 | `trim()` is empty exactly when the string is all white space |
| Text.TrimIdentity | frontend/src/components/Header.js:25 | a string with no surrounding white space trims to itself |
| Text.TrimIdempotent | frontend/src/components/Header.js:25 | trimming twice equals trimming once |
| Text.LowerChar | frontend/src/pages/ProductListPage.js:29-30 | a capital 'A'-'Z' becomes its own small letter, the same distance from 'a', and every other character is kept |
| Text.Lower | frontend/src/pages/ProductListPage.js:29-30 | `toLowerCase` keeps the length, lowers each character and leaves no upper case |
| Text.LowerIdempotent | frontend/src/pages/ProductListPage.js:29-30 | lowering twice equals lowering once |
| Text.LowerKeepsWhitespace | frontend/src/components/Footer.js:160 | lowering neither creates nor removes white space |
| Text.IncludesIff | frontend/src/pages/ProductListPage.js:29-30 | `includes` holds exactly when the needle occurs at some position |
| Text.IncludesEmpty | frontend/src/pages/ProductListPage.js:29-30 | every string includes the empty search term |
| PaymentRoutes.AmountValid | backend/routes/paymentRoutes.js:26 | the amount check; its meaning is stated by CreateOrder's 400 clause and by InvalidAmountIgnoresGateway and TinyAmountReachesGatewayAsZero |
| PaymentRoutes.MathRound | backend/routes/paymentRoutes.js:38 | `Math.round` gives the integer within half of `x`, halves rounding up |
| PaymentRoutes.ToPaise | backend/routes/paymentRoutes.js:38 | the paise sent are `amount * 100` rounded to the nearest integer |
| PaymentRoutes.CreateOrder | backend/routes/paymentRoutes.js:23-59 | a missing, zero or negative amount ends in 400 'Invalid amount' and the gateway is never called; an unconfigured gateway then gives 503; otherwise the gateway is called once with the rounded paise, the currency ('INR' by default) and the user id; success sends its id, amount and currency with `keyId`; any gateway failure gives 500 'Error creating payment order' |
| PaymentRoutes.InvalidAmountIgnoresGateway | backend/routes/paymentRoutes.js:26-34 | the amount check comes before the configuration check: with an invalid amount the gateway's state makes no difference |
| PaymentRoutes.TinyAmountReachesGatewayAsZero | backend/routes/paymentRoutes.js:26-38 | a positive amount of 0.004 passes validation and is sent to the gateway as 0 paise |
| PaymentRoutes.HasAllParameters | backend/routes/paymentRoutes.js:67 | the three parameters are truthy; VerifyPayment's 400 clause and MissingParametersIgnoreHmac state what follows from it |
| PaymentRoutes.SigningInput | backend/routes/paymentRoutes.js:74 | the signed message is the order id, one '\|', then the payment id |
| PaymentRoutes.VerifyPayment | backend/routes/paymentRoutes.js:64-96 | a falsy parameter gives 400 'Missing payment verification parameters'; the response is sent (verified, both ids, the success message) exactly when the HMAC of the signing input under the key secret equals the signature; every other outcome is 500 'Error verifying payment' |
| PaymentRoutes.MissingParametersIgnoreHmac | backend/routes/paymentRoutes.js:67-70 | with a parameter missing the outcome does not depend on the digest function: no HMAC is computed |
| PaymentRoutes.GenuineSignatureVerifies | backend/routes/paymentRoutes.js:74-86 | the genuine signature of an order and payment verifies and echoes both ids |
| PaymentRoutes.ForgedSignatureEndsIn500 | backend/routes/paymentRoutes.js:87-95 | a wrong signature is refused with 500, never with the 400 set inside the `try` |
| PaymentRoutes.SigningInputInjective | backend/routes/paymentRoutes.js:74 | when the order id holds no '\|', the signing input determines both ids |
| PaymentRoutes.SigningInputAmbiguous | backend/routes/paymentRoutes.js:74 | without that restriction ('a\|b', 'c') and ('a', 'b\|c') are signed as the same message |
| PaymentRoutes.Classify | backend/routes/paymentRoutes.js:131-141 | 'payment.captured' and 'payment.failed' take their own branches; any other event is unhandled under its own name |
| PaymentRoutes.HandleWebhook | backend/routes/paymentRoutes.js:117-152 | the webhook always sends 200 or 400; without a webhook secret it sends 400 with the fault's message; 200 `{received: true}` exactly when the signature header equals the HMAC of the serialised body under the webhook secret and the branch's logging does not throw; a mismatch sends 400 'Webhook Error: Invalid webhook signature'; a correctly signed captured or failed event without a payment entity sends 400 with the message of the exception its logging line throws |
| PaymentRoutes.UnknownEventAcknowledged | backend/routes/paymentRoutes.js:139-143 | a correctly signed event of an unknown kind is still acknowledged with 200 |
| ProductModel.RatingSum | backend/models/productModel.js:60 | the reduce over the ratings; RatingSumBounds bounds it and AverageRating divides it |
| ProductModel.MinRating | backend/models/productModel.js:60 | the least star rating of a non-empty review list is one of its ratings and at most every one |
| ProductModel.MaxRating | backend/models/productModel.js:60 | the greatest star rating is one of the ratings and at least every one |
| ProductModel.RatingSumBounds | backend/models/productModel.js:60 | the sum of n ratings lies between n times the least and n times the greatest |
| ProductModel.AverageRating | backend/models/productModel.js:60-61 | the average of a non-empty review list lies between its least and greatest rating |
| ProductModel.UniformAverage | backend/models/productModel.js:60-61 | when every review gives the same rating, the average is that rating |
| ProductModel.ProductDocument.constructor | backend/models/productModel.js:11-47 | the required strings are stored; rating, numReviews, price and countInStock default to 0 |
| ProductModel.ProductDocument.CalculateAverageRating | backend/models/productModel.js:55-64 | no reviews gives rating 0 and count 0; otherwise the rating is the sum over the count and lies between the least and greatest rating; nothing else changes; running it again changes nothing |
| CartSlice.Subtotal | frontend/src/store/slices/cartSlice.js:29 | the cart's price times quantity summed; SubtotalAppend, SubtotalIncrement, SubtotalRemove and SubtotalSetQty state how each reducer changes it |
| CartSlice.AddItem | frontend/src/store/slices/cartSlice.js:17-27 | the addToCart list update; AddNewAppends, AddExistingIncrements, AddIgnoresPayloadQty, AddKeepsIdsUnique and AddRaisesSubtotalByOnePrice state what it does |
| CartSlice.IncrementQty | frontend/src/store/slices/cartSlice.js:22-24 | the length is kept; exactly the items with the id get one more unit |
| CartSlice.SetQty | frontend/src/store/slices/cartSlice.js:39-41 | the length is kept; exactly the items with the id get the new quantity, which has no lower bound |
| CartSlice.RemoveId | frontend/src/store/slices/cartSlice.js:33 | the result holds exactly the items whose id differs |
| CartSlice.SubtotalAppend | frontend/src/store/slices/cartSlice.js:29 | the subtotal of a concatenation is the sum of the subtotals |
| CartSlice.NoPriceOfAbsentId | frontend/src/store/slices/cartSlice.js:19 | an absent id carries no price and no line total |
| CartSlice.RemoveIdIdle | frontend/src/store/slices/cartSlice.js:33 | removing an absent id changes nothing |
| CartSlice.SubtotalIncrement | frontend/src/store/slices/cartSlice.js:22-29 | raising an id's items by one raises the subtotal by their prices |
| CartSlice.SubtotalRemove | frontend/src/store/slices/cartSlice.js:33-34 | removing an id lowers the subtotal by that id's line totals |
| CartSlice.SubtotalSetQty | frontend/src/store/slices/cartSlice.js:39-42 | setting an id's quantity changes the subtotal by the new minus the old line totals |
| CartSlice.PriceOfUniqueId | frontend/src/store/slices/cartSlice.js:19 | with unique ids, the id at k carries exactly that item's price and line total |
| CartSlice.AddNewAppends | frontend/src/store/slices/cartSlice.js:25-27 | a new id is appended once, at the end, with quantity 1 |
| CartSlice.AddExistingIncrements | frontend/src/store/slices/cartSlice.js:19-24 | an id already present keeps the length; only that item gains one unit |
| CartSlice.AddIgnoresPayloadQty | frontend/src/store/slices/cartSlice.js:21-27 | the `qty` the payload carries plays no part |
| CartSlice.AddKeepsIdsUnique | frontend/src/store/slices/cartSlice.js:19-27 | adding keeps the ids unique |
| CartSlice.AddRaisesSubtotalByOnePrice | frontend/src/store/slices/cartSlice.js:19-29 | adding raises the subtotal by one unit of price: the payload's price for a new id, or the stored price for an id already present |
| CartSlice.RemoveIdAppend | frontend/src/store/slices/cartSlice.js:33 | filtering distributes over concatenation, so the kept items stay in their order |
| CartSlice.RemoveUniqueItem | frontend/src/store/slices/cartSlice.js:33 | with unique ids, removing the id at k takes out exactly that item and keeps the rest in order |
| CartSlice.RemoveKeepsIdsUnique | frontend/src/store/slices/cartSlice.js:33 | removing keeps the ids unique |
| CartSlice.SetQtyKeepsIdsUnique | frontend/src/store/slices/cartSlice.js:39-41 | updating a quantity keeps the ids unique |
| CartSlice.CartState.constructor | frontend/src/store/slices/cartSlice.js:4-11 | the saved items or none; `total` is their subtotal; the saved address or `{}`; the saved method or 'Razorpay' |
| CartSlice.CartState.AddToCart | frontend/src/store/slices/cartSlice.js:17-31 | the items become AddItem of the old items; `total` is up to date and rises by one unit of price; unique ids stay unique; the address and method are kept |
| CartSlice.CartState.RemoveFromCart | frontend/src/store/slices/cartSlice.js:32-36 | the items lose every line with the id; `total` is up to date and falls by that id's line totals |
| CartSlice.CartState.UpdateQuantity | frontend/src/store/slices/cartSlice.js:37-44 | the items with the id take the new quantity; `total` is up to date; unique ids stay unique |
| CartSlice.CartState.ShadowedClearCart | frontend/src/store/slices/cartSlice.js:45-49 | the first `clearCart` would have emptied the items and zeroed `total` |
| CartSlice.CartState.ClearCart | frontend/src/store/slices/cartSlice.js:58-61 | the effective `clearCart` empties the items but leaves `total`, which is then up to date only if it was 0 |
| CartSlice.CartState.SaveShippingAddress | frontend/src/store/slices/cartSlice.js:50-53 | only the address changes |
| CartSlice.CartState.SavePaymentMethod | frontend/src/store/slices/cartSlice.js:54-57 | only the payment method changes |
| ProductSlice.FindIndex | frontend/src/store/slices/productSlice.js:168 | -1 exactly when no product has the id; otherwise the first index holding it |
| ProductSlice.ReplaceFirst | frontend/src/store/slices/productSlice.js:168-171 | the update after findIndex; ReplaceFirstChangesOnlyFirstMatch, ReplaceAbsentIdle and ReplaceFirstIdempotent state what it does |
| ProductSlice.RemoveProduct | frontend/src/store/slices/productSlice.js:187 | keeps exactly the products whose id differs |
| ProductSlice.ReplaceFirstChangesOnlyFirstMatch | frontend/src/store/slices/productSlice.js:168-171 | the payload replaces only the first product with its id; the length and every other position are kept |
| ProductSlice.FirstMatchIsFound | frontend/src/store/slices/productSlice.js:168 | the first index holding an id is the one `findIndex` returns |
| ProductSlice.ReplaceAbsentIdle | frontend/src/store/slices/productSlice.js:169 | an id that is not listed leaves the list unchanged |
| ProductSlice.ReplaceFirstIdempotent | frontend/src/store/slices/productSlice.js:168-171 | storing the same payload twice equals storing it once |
| ProductSlice.RemoveProductIdempotent | frontend/src/store/slices/productSlice.js:187 | deleting an id twice equals deleting it once |
| ProductSlice.RemoveProductAppend | frontend/src/store/slices/productSlice.js:187 | filtering distributes over concatenation, so the kept products stay in order |
| ProductSlice.CreateThenDelete | frontend/src/store/slices/productSlice.js:152-188 | deleting a just-created product removes it along with every other copy of its id |
| ProductSlice.RemoveAbsentIdle | frontend/src/store/slices/productSlice.js:187 | deleting an id that is not listed changes nothing |
| ProductSlice.ProductState.constructor | frontend/src/store/slices/productSlice.js:6-15 | no products, no product, page 1 of 1, all flags clear |
| ProductSlice.ProductState.Reset | frontend/src/store/slices/productSlice.js:111-116 | the four status fields are cleared; products, product, page and pages are kept |
| ProductSlice.ProductState.Pending | frontend/src/store/slices/productSlice.js:120-122 | every pending case sets only `isLoading`; an earlier error or success stays |
| ProductSlice.ProductState.Rejected | frontend/src/store/slices/productSlice.js:131-135 | every rejected case sets the error flag and the message and keeps the data |
| ProductSlice.ProductState.GetProductsFulfilled | frontend/src/store/slices/productSlice.js:123-130 | products, page and pages come from the payload |
| ProductSlice.ProductState.GetProductFulfilled | frontend/src/store/slices/productSlice.js:139-143 | the viewed product is the payload |
| ProductSlice.ProductState.CreateProductFulfilled | frontend/src/store/slices/productSlice.js:152-156 | the payload is appended and the length grows by one |
| ProductSlice.ProductState.UpdateProductFulfilled | frontend/src/store/slices/productSlice.js:165-175 | the first listed product with the id is replaced and the length is kept; the viewed product is replaced when its id matches |
| ProductSlice.ProductState.DeleteProductFulfilled | frontend/src/store/slices/productSlice.js:184-188 | every product with the id is filtered out |
| ProductSlice.ProductState.AddReviewFulfilled | frontend/src/store/slices/productSlice.js:197-207 | the same replacement as an update, the viewed product first |
| OrderSlice.OrderState.constructor | frontend/src/store/slices/orderSlice.js:6-13 | no orders, no order, all flags clear |
| OrderSlice.OrderState.Reset | frontend/src/store/slices/orderSlice.js:121-126 | flags and message cleared; `order` and `orders` kept |
| OrderSlice.OrderState.Pending | frontend/src/store/slices/orderSlice.js:130-132 | every pending case sets only `isLoading` |
| OrderSlice.OrderState.Rejected | frontend/src/store/slices/orderSlice.js:138-142 | every rejected case sets the error and message and keeps `order` and `orders` |
| OrderSlice.OrderState.OrderFulfilled | frontend/src/store/slices/orderSlice.js:133-137 | createOrder, getOrderById and updateOrderToPaid fulfilled set `order` to the payload; `orders` kept |
| OrderSlice.OrderState.GetUserOrdersFulfilled | frontend/src/store/slices/orderSlice.js:146-150 | `orders` is the payload; `order` kept |
| OrderSlice.OrderState.GatewayStepFulfilled | frontend/src/store/slices/orderSlice.js:185-200 | the two gateway steps change only flags; the payload is dropped |
| AuthSlice.AuthState.constructor | frontend/src/store/slices/authSlice.js:7-15 | the saved user or null; all flags clear |
| AuthSlice.AuthState.Reset | frontend/src/store/slices/authSlice.js:91-96 | the four status fields are cleared; `user` is untouched |
| AuthSlice.AuthState.Pending | frontend/src/store/slices/authSlice.js:100-102 | every pending case sets only `isLoading` |
| AuthSlice.AuthState.UserFulfilled | frontend/src/store/slices/authSlice.js:103-107 | register, login and both profile calls fulfilled make the payload the user |
| AuthSlice.AuthState.CredentialsRejected | frontend/src/store/slices/authSlice.js:108-113 | register and login rejected also set `user` to null |
| AuthSlice.AuthState.ProfileRejected | frontend/src/store/slices/authSlice.js:139-143 | profile calls rejected keep the user |
| AuthSlice.AuthState.LogoutFulfilled | frontend/src/store/slices/authSlice.js:128-130 | logout clears the user and no flag |
| ProductListPage.FirstIndexIn | frontend/src/pages/ProductListPage.js:24 | the position of the first occurrence of a listed value |
| ProductListPage.Dedup | frontend/src/pages/ProductListPage.js:24 | `new Set` over a list: each value once, every listed value present, ordered by first occurrence |
| ProductListPage.FirstIndexInPrefix | frontend/src/pages/ProductListPage.js:24 | appending a value moves no earlier first occurrence |
| ProductListPage.Categories | frontend/src/pages/ProductListPage.js:24 | 'all' first, then each product category exactly once, in order of first appearance |
| ProductListPage.CategoryAllRepeats | frontend/src/pages/ProductListPage.js:24 | a category named 'all' appears twice in the list |
| ProductListPage.FilterProducts | frontend/src/pages/ProductListPage.js:27-33 | keeps exactly the products whose name or description contains the term, ignoring case, in the chosen category or any for 'all' |
| ProductListPage.FilterProductsSingle | frontend/src/pages/ProductListPage.js:27-33 | one product is kept exactly when it matches the term and the category |
| ProductListPage.FilterProductsAppend | frontend/src/pages/ProductListPage.js:27-33 | filtering distributes over concatenation, so the kept products stay in their order |
| ProductListPage.FilterProductsCounts | frontend/src/pages/ProductListPage.js:27-33 | a kept product appears as often as in the catalogue, any other not at all |
| ProductListPage.NoFilterKeepsAll | frontend/src/pages/ProductListPage.js:29-32 | an empty term with 'all' keeps the whole list in order |
| ProductListPage.SortOrderOf | frontend/src/pages/ProductListPage.js:35-45 | 'price-low', 'price-high' and 'rating' pick their orders, and every other value sorts by name |
| ProductListPage.StrLeTotal | frontend/src/pages/ProductListPage.js:44 | any two names are comparable |
| ProductListPage.StrLeTransitive | frontend/src/pages/ProductListPage.js:44 | name order is transitive |
| ProductListPage.LeTotal | frontend/src/pages/ProductListPage.js:34-46 | any two products are comparable under each order |
| ProductListPage.LeTransitive | frontend/src/pages/ProductListPage.js:34-46 | each comparator is transitive |
| ProductListPage.Insert | frontend/src/pages/ProductListPage.js:34 | inserting adds exactly one element |
| ProductListPage.InsertSorted | frontend/src/pages/ProductListPage.js:34 | inserting into a sorted list keeps it sorted |
| ProductListPage.Sort | frontend/src/pages/ProductListPage.js:34-46 | the result is sorted and a permutation of the input |
| ProductListPage.InsertKeepsTies | frontend/src/pages/ProductListPage.js:34 | inserting a product into a sorted list puts it behind every product it ties with, and keeps the other ties in their order |
| ProductListPage.SortStable | frontend/src/pages/ProductListPage.js:34-46 | the sort is stable: for every product, the products whose comparison with it is 0 both ways come out in the order they had in the input |
| ProductListPage.FilteredProducts | frontend/src/pages/ProductListPage.js:27-46 | the shown list is a permutation of FilterProducts' output, whose order and multiplicities the three filter lemmas pin, sorted by the chosen order |
| ProductListPage.SortKeys | frontend/src/pages/ProductListPage.js:35-45 | 'price-low' lists non-decreasing prices, 'price-high' non-increasing prices, 'rating' non-increasing ratings, and any other value names in order |
| ProductListPage.SearchParamFor | frontend/src/pages/ProductListPage.js:50-54 | no parameter for a term that is all white space; otherwise the untrimmed term |
| ProductListPage.ProductListView.constructor | frontend/src/pages/ProductListPage.js:14-16 | the search box starts from the URL's `search` or ''; category 'all'; sort 'name' |
| ProductListPage.ProductListView.HandleSearch | frontend/src/pages/ProductListPage.js:48-55 | the URL parameter becomes SearchParamFor of the typed term; nothing else changes |
| ProductListPage.ProductListView.ClearFilters | frontend/src/pages/ProductListPage.js:62-67 | term '', category 'all', sort 'name', no URL parameter |
| ProductListPage.ClearedShowsAll | frontend/src/pages/ProductListPage.js:62-67 | after clearing, the page lists the whole catalogue sorted by name |
| CartPage.Decremented | frontend/src/pages/CartPage.js:75 | `Math.max(1, qty - 1)` is at least 1, and is qty - 1 exactly when qty > 1 |
| CartPage.DecrementAction | frontend/src/pages/CartPage.js:75-76 | the minus button dispatches nothing at quantity 1, otherwise an update to a quantity of at least 1 |
| CartPage.IncrementAction | frontend/src/pages/CartPage.js:91 | the plus button asks for one more with no stock limit |
| CartPage.RemoveAction | frontend/src/pages/CartPage.js:104 | the trash button removes the line's id |
| CartPage.ButtonsKeepQuantitiesPositive | frontend/src/pages/CartPage.js:75-104 | from quantities of at least 1, no button takes a line below 1 |
| CartPage.ToFixed0 | frontend/src/pages/CartPage.js:141-148 | `toFixed(0)` gives the integer within half, ties away from zero |
| CartPage.SummaryOf | frontend/src/pages/CartPage.js:135-148 | the summary shows the stored total, shipping 50, the tax as 18% of it rounded to the nearest integer and the total as 1.18 times it plus 50 rounded likewise, a tie going away from zero in both |
| CartPage.ToFixed0ShiftsByInteger | frontend/src/pages/CartPage.js:141-148 | for non-negative amounts, rounding commutes with adding an integer |
| CartPage.SummaryAddsUp | frontend/src/pages/CartPage.js:135-148 | for a non-negative subtotal the printed lines add up to the printed total |
| CartPage.SummaryMismatchBelowZero | frontend/src/pages/CartPage.js:141-148 | at a subtotal of -25 the lines print tax -5 and total 21, which do not add up |
| CartPage.CartView | frontend/src/pages/CartPage.js:25-148 | an empty cart shows no summary, so a stale `total` is never printed there |
| CartPage.SeededOrderAgainstSummary | backend/data/seeder.js:109-147 | the seeded order's items price 1197 follows from 2 × 299 + 599; the storefront's formula prints tax 215 and total 1462, not the seeded 100 and 1297 |
| CheckoutPage.OrElse | frontend/src/pages/CheckoutPage.js:12-15 | `value \|\| fallback` falls back for an absent or empty value |
| CheckoutPage.InitialForm | frontend/src/pages/CheckoutPage.js:11-16 | the form starts from the saved address; the country defaults to 'India' and is never empty |
| CheckoutPage.WithField | frontend/src/pages/CheckoutPage.js:18-23 | the named field takes the value and every other field is kept |
| CheckoutPage.AsAddress | frontend/src/pages/CheckoutPage.js:27 | the saved address carries all four form fields |
| CheckoutPage.ReopenAfterSubmit | frontend/src/pages/CheckoutPage.js:11-30 | reopening after a submit shows the same form, except that an emptied country returns as 'India' |
| CheckoutPage.CheckoutForm.constructor | frontend/src/pages/CheckoutPage.js:11-16 | the form is InitialForm of the saved address |
| CheckoutPage.CheckoutForm.HandleChange | frontend/src/pages/CheckoutPage.js:18-23 | one field changes |
| CheckoutPage.CheckoutForm.HandleSubmit | frontend/src/pages/CheckoutPage.js:25-30 | the cart saves exactly the form as its address and 'Razorpay' as its method; items and total are kept |
| CheckoutPage.CheckoutView | frontend/src/pages/CheckoutPage.js:32-150 | an empty cart renders no form; otherwise each line shows price times quantity beside the summary of `total` |
| CheckoutPage.LinesAddUpToSubtotal | frontend/src/pages/CheckoutPage.js:131-138 | the printed lines add up to the cart's subtotal |
| ProductDetailPage.Incremented | frontend/src/pages/ProductDetailPage.js:142 | `Math.min(countInStock, quantity + 1)` is at most the stock and at most one more |
| ProductDetailPage.QuantityStaysInStock | frontend/src/pages/ProductDetailPage.js:124-142 | with stock on hand, the selector stays between 1 and the stock |
| ProductDetailPage.OutOfStockQuantity | frontend/src/pages/ProductDetailPage.js:124-142 | out of stock, plus sets 0 and minus brings it back to 1 |
| ProductDetailPage.ProductImages | frontend/src/pages/ProductDetailPage.js:32 | the gallery is the product's images when there are any, else its one image |
| ProductDetailPage.ShowsThumbnails | frontend/src/pages/ProductDetailPage.js:72 | the thumbnail condition; ThumbnailsNeedTwoImages states it in terms of the product |
| ProductDetailPage.AddDisabled | frontend/src/pages/ProductDetailPage.js:163 | the add button is disabled exactly when the stock is 0 |
| ProductDetailPage.ThumbnailsNeedTwoImages | frontend/src/pages/ProductDetailPage.js:72 | thumbnails show exactly when there are at least two images |
| ProductDetailPage.Stars | frontend/src/pages/ProductDetailPage.js:104-106 | five stars, star i filled exactly when i < rating |
| ProductDetailPage.StarsFilledFirst | frontend/src/pages/ProductDetailPage.js:105 | the filled stars come first |
| ProductDetailPage.StarsRoundUp | frontend/src/pages/ProductDetailPage.js:105 | a rating of 4.5 fills five stars and 4.0 fills four |
| ProductDetailPage.ProductDetailView.constructor | frontend/src/pages/ProductDetailPage.js:16-17 | quantity 1, first image |
| ProductDetailPage.ProductDetailView.Decrement | frontend/src/pages/ProductDetailPage.js:124 | the quantity becomes `Math.max(1, quantity - 1)` |
| ProductDetailPage.ProductDetailView.Increment | frontend/src/pages/ProductDetailPage.js:142 | the quantity becomes `Math.min(countInStock, quantity + 1)` |
| ProductDetailPage.ProductDetailView.SelectImage | frontend/src/pages/ProductDetailPage.js:77 | the selected image becomes the clicked index |
| ProductDetailPage.ProductDetailView.HandleAddToCart | frontend/src/pages/ProductDetailPage.js:23-29 | nothing happens without a product; with one, the cart changes as if one unit was added, whatever the quantity chosen |
| LoginPage.LoginForm.constructor | frontend/src/pages/LoginPage.js:9-12 | both fields start empty |
| LoginPage.LoginForm.HandleChange | frontend/src/pages/LoginPage.js:36-41 | the named field takes the value |
| LoginPage.LoginForm.HandleSubmit | frontend/src/pages/LoginPage.js:43-57 | an empty field gives 'Please fill in all fields'; otherwise login is dispatched with exactly the two fields |
| LoginPage.RunAuthEffect | frontend/src/pages/LoginPage.js:24-34 | the stored error is toasted, a success or a signed-in user navigates home, and `reset` always follows; the user is kept |
| RegisterPage.RegisterForm.constructor | frontend/src/pages/RegisterPage.js:9-14 | all four fields start empty |
| RegisterPage.RegisterForm.HandleChange | frontend/src/pages/RegisterPage.js:37-42 | the named field takes the value and the others are kept |
| RegisterPage.RegisterForm.HandleSubmit | frontend/src/pages/RegisterPage.js:44-60 | checks in order: an empty field, then differing passwords, then a password shorter than 6; each error exactly in its case; otherwise register gets name, email and password |
| Header.CartItemsCount | frontend/src/components/Header.js:16 | the badge count summed over quantities; CountAppend, CountIncrement and AddRaisesCountByOne state its behaviour |
| Header.ShowsBadge | frontend/src/components/Header.js:109 | the badge is shown exactly for a positive count |
| Header.CountAppend | frontend/src/components/Header.js:16 | the badge count of a concatenation is the sum of the counts |
| Header.CountIncrement | frontend/src/components/Header.js:16 | raising an id's lines by one raises the count by the number of such lines |
| Header.LinesWithId | frontend/src/components/Header.js:16 | the number of lines with an id is at most the number of lines |
| Header.OneLineWithUniqueId | frontend/src/components/Header.js:16 | with unique ids, a present id is on exactly one line |
| Header.NoLineWithAbsentId | frontend/src/components/Header.js:16 | an absent id is on no line |
| Header.AddRaisesCountByOne | frontend/src/components/Header.js:16 | with unique ids, each add-to-cart raises the badge count by exactly one |
| Header.ShowsAdminLink | frontend/src/components/Header.js:141 | the Admin Dashboard link shows exactly for a signed-in administrator |
| Header.SearchTarget | frontend/src/components/Header.js:23-28 | no navigation for a query that is all white space; otherwise '/products?search=' and the encoded trimmed query |
| Header.SearchIgnoresSurroundingSpace | frontend/src/components/Header.js:25-26 | queries that differ only by surrounding white space go to the same address |
| Header.HeaderView.constructor | frontend/src/components/Header.js:8-9 | menu closed, empty query |
| Header.HeaderView.ToggleMenu | frontend/src/components/Header.js:120 | the menu flips |
| Header.HeaderView.CloseMenu | frontend/src/components/Header.js:137 | the menu closes |
| Header.HeaderView.SetSearchQuery | frontend/src/components/Header.js:9 | the query takes the typed value |
| Header.HeaderView.HandleSearch | frontend/src/components/Header.js:23-28 | the navigation target is SearchTarget of the query |
| Header.HeaderView.Logout | frontend/src/components/Header.js:18-21 | the user is signed out without touching a flag, the page goes to '/', the menu closes |
| Header.ToggleTwice | frontend/src/components/Header.js:120 | toggling twice leaves the menu as it was |
| Footer.Hyphenate | frontend/src/components/Footer.js:160 | `replace(/\s+/g, '-')`; HyphenateNoWhitespace, HyphenateSpaces, HyphenateWord, HyphenateFixes and TwoWordSlug state what it does |
| Footer.HyphenateNoWhitespace | frontend/src/components/Footer.js:160 | `replace(/\s+/g, '-')` leaves no white space |
| Footer.HyphenateSpaces | frontend/src/components/Footer.js:160 | a whole run of white space becomes a single '-' |
| Footer.HyphenateWord | frontend/src/components/Footer.js:160 | a word without white space is copied unchanged |
| Footer.HyphenateFixes | frontend/src/components/Footer.js:160 | a label without white space is its own slug |
| Footer.TwoWordSlug | frontend/src/components/Footer.js:160 | 'first last' becomes 'first-last' |
| Footer.AmpersandHyphens | frontend/src/components/Footer.js:185 | 'first & last' becomes 'first-&-last' |
| Footer.ReplaceAmp | frontend/src/components/Footer.js:185 | `replace(/&/g, 'and')`; ReplaceAmpClean, ReplaceAmpIdentity, ReplaceAmpAppend and AmpersandWord state what it does |
| Footer.ReplaceAmpClean | frontend/src/components/Footer.js:185 | `replace(/&/g, 'and')` leaves no '&' and adds no white space |
| Footer.ReplaceAmpIdentity | frontend/src/components/Footer.js:185 | a string without '&' is unchanged |
| Footer.ReplaceAmpAppend | frontend/src/components/Footer.js:185 | the replacement distributes over concatenation |
| Footer.AmpersandWord | frontend/src/components/Footer.js:185 | 'first-&-last' becomes 'first-and-last' |
| Footer.ShopRoute | frontend/src/components/Footer.js:132-135 | every Shop link goes to '/products' |
| Footer.CompanyRoute | frontend/src/components/Footer.js:157-160 | a Company route starts with '/'; RoutesAreClean and AboutSlug state the rest |
| Footer.SupportRoute | frontend/src/components/Footer.js:182-185 | a Support route starts with '/'; RoutesAreClean, ShippingSlug and the three bottom-link lemmas state the rest |
| Footer.RoutesAreClean | frontend/src/components/Footer.js:157-185 | after the leading '/', no generated route holds white space, and a Support route holds no '&' |
| Footer.AboutSlug | frontend/src/components/Footer.js:157-160 | 'About Us' routes to '/about-us' |
| Footer.ShippingSlug | frontend/src/components/Footer.js:182-185 | 'Shipping & Returns' routes to '/shipping-and-returns' |
| Footer.TermsSlugMatchesBottomLink | frontend/src/components/Footer.js:182-268 | the generated Terms & Conditions route equals the bottom bar's '/terms-and-conditions' |
| Footer.PrivacySlugMatchesBottomLink | frontend/src/components/Footer.js:182-260 | the generated Privacy Policy route equals the bottom bar's '/privacy-policy' |
| Footer.ContactSlugDiffersFromBottomLink | frontend/src/components/Footer.js:182-252 | the generated Contact Us route is '/contact-us', while the bottom bar links to '/contact' |
| ThemeContext.InitialIsDark | frontend/src/context/ThemeContext.js:14-17 | the app starts dark exactly when the saved string is 'dark'; any other value, or none, starts light |
| ThemeContext.Encode | frontend/src/context/ThemeContext.js:20 | the persisted string is 'dark' exactly for dark mode, else 'light' |
| ThemeContext.DecodeEncode | frontend/src/context/ThemeContext.js:14-22 | reading back the persisted string restores the mode |
| ThemeContext.Palette | frontend/src/context/ThemeContext.js:30-66 | each palette defines exactly the sixteen colour names |
| ThemeContext.PalettesShareNames | frontend/src/context/ThemeContext.js:30-66 | both palettes define the same names |
| ThemeContext.PaletteDeterminesMode | frontend/src/context/ThemeContext.js:30-66 | different modes give different palettes |
| ThemeContext.UseTheme | frontend/src/context/ThemeContext.js:5-11 | outside a provider it throws 'useTheme must be used within ThemeProvider'; inside it returns the provided theme |
| ThemeContext.ThemeProvider.constructor | frontend/src/context/ThemeContext.js:14-22 | the mode comes from the saved entry, and the effect then persists it to storage and the document |
| ThemeContext.ThemeProvider.Persist | frontend/src/context/ThemeContext.js:19-22 | storage and the `data-theme` attribute say the current mode |
| ThemeContext.ThemeProvider.ToggleTheme | frontend/src/context/ThemeContext.js:24 | the mode flips and is persisted again |
| ThemeContext.ThemeProvider.Value | frontend/src/context/ThemeContext.js:27-67 | the shared theme is the mode with its palette |
| ThemeContext.ToggleTwice | frontend/src/context/ThemeContext.js:24 | toggling twice restores the mode, and a reload then starts in that mode |
| ThemeContext.ReloadKeepsMode | frontend/src/context/ThemeContext.js:14-22 | a provider mounted from what another persisted starts in the same mode |

## Left out

- PaymentRoutes.CreateOrder: the amount is modelled as a JSON number or absent. A string or object amount such as `"abc"` or `{}` passes the check at backend/routes/paymentRoutes.js:26 and reaches the gateway as `NaN` paise, and `"5"` is coerced to 500 paise; neither is modelled. The currency's None means the key is absent: an explicit `null` currency is sent to the gateway as `null`, while the model has no such value and sends 'INR' only for an absent key.
- PaymentRoutes.AmountValid: decides the check on a number or an absent amount only; JavaScript's truthiness and `<=` coercion on strings, objects and `NaN` are not modelled.

- `localStorage`: reads and writes are not modelled as I/O. What it held at start-up is a constructor argument. The theme's entry is a field of the provider.
- Network calls: the axios thunks in the slices are not modelled. Each reducer case is a method that takes its payload. Async ordering is treated as a sequential trace of actions.
- Payment gateway: the Razorpay client construction, `getPaymentDetails` and the `Date.now()` receipt are left out, because they are network and clock calls. The client is `Configured` or `Unconfigured`, and `orders.create` is a parameter.
- HMAC-SHA256, the hex digest and `JSON.stringify` are uninterpreted parameters. The signature comparison is plain equality, as in the code, and not a constant-time one.
- The webhook body is serialised by the `serialize` parameter rather than taken from the raw request bytes.
- The Express error middleware is not part of this model. A thrown error is an outcome carrying the last `res.status` and the message.
- PaymentRoutes.ToPaise: `Math.round(amount * 100)` is computed on exact reals, not IEEE doubles.
- CartPage.SummaryOf: `total * 0.18` and `toFixed(0)` are computed on exact reals, not IEEE doubles.
- ProductModel.AverageRating: the rating division is computed on exact reals, not IEEE doubles. Review ratings are integers.
- ProductListPage.StrLe: `localeCompare` is replaced by lexicographic order of code units. Locale collation is library behaviour.
- Text.Lower: `toLowerCase` lowers ASCII letters only.
- Header.SearchTarget: `encodeURIComponent` is a parameter.
- `password.length` counts characters, not UTF-16 code units.
- `parseInt` in `updateQuantity` is not modelled. The new quantity arrives as an integer.
- Browser form validation (`required`, `type="email"`) is not modelled. A form can be submitted with any contents.
- ProductDetailPage.ProductDetailView.SelectImage: the index is stored without a bounds check, as in the code; reading `productImages[selectedImage]` out of range is not modelled.
- The `images` field read by the detail page is not in the product schema, so a stored product has none and the gallery falls back to `image`.
- The catalogue's add button (`handleAddToCart` in `ProductListPage.js`) dispatches the bare product. It is CartSlice.CartState.AddToCart with no `qty`, so it has no member of its own. Its toast is not modelled.
- The checkout page's "Proceed to Payment" button has no handler, so there is nothing to model.
- ProductListPage.Sort: the stable sort is specified as one stable insertion sort. Its result is sorted, a permutation and stable (SortStable). That these three properties leave only one possible arrangement is not proved.
- React effect scheduling, toasts, hover handlers, ripples and styles are not modelled. The effects run once per state change, in order.
- Pages with no logic of their own are not part of this model: HomePage, AdminDashboardPage, ProfilePage, ProductEditPage, OrderPage, ThemeToggle, App routing. So are `uploadRoutes` and the seeder, apart from its sample order.
- CartSlice.Subtotal: prices are whole rupees (`int`), while the schema's `price` is a `Number` that can be fractional. With a price of 10.5 the page would print tax 2 and total 62, which do not add up.
- CartPage.SummaryAddsUp: holds only because the subtotal is an integer; fractional prices are not modelled, as the line above says.
- CartPage.ToFixed0ShiftsByInteger: rounding half away from zero does not commute with adding an integer to a negative amount. The lines then need not add up, as SummaryMismatchBelowZero shows.
