# Gear Guild Store: a verified model of the cart, the catalog and the storefront logic

Gear Guild Store is an online gadget shop. An Express/Mongoose server keeps the
products and one cart per browser session. A Next.js client shows the catalog, a
cart sidebar, a checkout modal and a contact form, with Redux slices and RTK Query
endpoints in between.

This project models that logic in Dafny and proves what the code promises. The
model covers:

- the product schema and its two computed getters;
- the catalog handlers: the category filter, the skip/limit window, the page flags, the featured list and lookup by id;
- the cart handlers, over an in-memory map from session id to the cart's lines;
- the client helpers (discount percentage, description parsing, session ids);
- the `cart` and `ui` Redux slices;
- the cart and product API endpoints with their cache tags;
- the pricing and add-to-cart guard of the product card;
- the cart sidebar's buttons, related to what the server then does to the stored lines;
- the checkout totals, form rules and submit/close handlers;
- the contact form rules;
- the navigation bar's scroll rule and active-link rule, shared with the mobile drawer.

Conventions of the model:

- Money is integer cents: the $50 free-shipping threshold is 5000 and the $10 fee is 1000.
- Strings are sequences of characters.
- An absent JSON field is `None`.
- State that the code changes in place is a Dafny `class`. Its methods are proved to produce exactly what a pure function of the old state gives, and the properties are proved about those functions.

One module per source file:

- `ProductModel`: server/models/Product.js
- `ProductController`: server/controllers/productController.js
- `CartRules` and `CartController`: server/controllers/cartController.js. `CartRules` holds the operations on a cart's lines.
- `ProductHelpers`: client/src/utils/productHelpers.ts
- `SessionManager`: client/src/utils/sessionManager.ts
- `CartSlice`: client/src/redux/services/cart/cartSlice.ts
- `UiSlice`: client/src/redux/services/ui/uiSlice.ts
- `CartApi`: client/src/redux/api/cart/cartApi.ts
- `ProductApi`: client/src/redux/api/product/productApi.ts
- `ProductCard`: client/src/components/cards/ProductCard.tsx
- `CartSidebar`: client/src/components/shared/Navbar/CartSidebar.tsx
- `CheckoutModal`: client/src/components/pages/Checkout/CheckoutModal.tsx
- `ContactSection`: client/src/components/pages/Contact/ContactSection.tsx
- `NavbarClient`: client/src/components/shared/Navbar/NavbarClient.tsx
- `MobileNavDrawer`: client/src/components/shared/Navbar/MobileNavDrawer.tsx

Two shared modules support them:

- `Common` holds options, results, HTTP statuses and cache tags.
- `Text` holds the JavaScript string operations the code relies on: `indexOf`, `split`, `join`, first-occurrence `replace`, `trim`, `startsWith` and decimal `toString`.

## Model

| member | source | states |
|---|---|---|
| ProductModel.ParseCategory | server/models/Product.js:27-31 | a category is accepted exactly when it is "Mobiles", "Laptops" or "Accessories", and parsing gives back that name |
| ProductModel.ValidationErrors | server/models/Product.js:3-31 | the schema's validation errors of a new document, none exactly for an acceptable one, as `ValidationErrorsSpec` states |
| ProductModel.CreateProduct | server/controllers/productController.js:64-80 | creating a product stores the given fields with the defaults filled in, or reports the validation errors; `CreateProductOk` and `CreateProductStores` state both outcomes |
| ProductModel.ValidationErrorsSpec | server/models/Product.js:3-31 | a new document has no validation error exactly when title (after trimming), description and image are non-empty, price is given and >= 0, a given discountedPrice is >= 0 and the category is in the enum |
| ProductModel.CreateProductOk | server/models/Product.js:3-31 | saving succeeds exactly for acceptable documents; otherwise the reply carries the (non-empty) validation errors |
| ProductModel.CreateProductStores | server/models/Product.js:3-40 | an acceptable document is saved; the stored product satisfies the schema, its title is the given title trimmed, it keeps the given description, image, price, discountedPrice (absent means null) and category, has inStock true unless false was given, and createdAt is the current time unless given |
| ProductModel.EffectivePrice | server/models/Product.js:43-45 | the effective price is always the price or the stored discounted price |
| ProductModel.HasDiscount | server/models/Product.js:48-50 | a non-null discounted price strictly below the price; `DiscountLowersPrice` states what it means for the price paid |
| ProductModel.SchemaAllowsDiscountAbovePrice | server/models/Product.js:18-22 | a product whose discounted price is above its price is accepted: nothing ties the two prices together |
| ProductModel.EffectivePriceChoice | server/models/Product.js:43-45 | effectivePrice is always the price or the discounted price; null and 0 both fall back to the price, any other value is used |
| ProductModel.DiscountLowersPrice | server/models/Product.js:43-50 | when hasDiscount holds and the discounted price is positive, effectivePrice is the discounted price and lies below the price |
| ProductModel.EffectivePriceAbovePriceIff | server/models/Product.js:43-45 | effectivePrice exceeds a non-negative price exactly when a discounted price above it is stored |
| ProductModel.ZeroDiscountedPriceIsNoReduction | server/models/Product.js:43-50 | a discounted price of 0 on a priced product makes hasDiscount true while nothing is taken off |
| ProductController.FindByCategoryMembers | server/controllers/productController.js:9-12 | the filtered list holds exactly the products that match the category |
| ProductController.MatchesCategory | server/controllers/productController.js:9-12 | whether a product passes the category filter: always without a category, otherwise an equal category; `FindByCategoryMembers` states the filter it makes |
| ProductController.FindByCategory | server/controllers/productController.js:9-12 | the products of the category in store order, all of them without one, as `FindByCategoryMembers` and `NoCategoryMatchesAll` state |
| ProductController.FindByCategoryConcat | server/controllers/productController.js:9-18 | filtering distributes over concatenation, so store order is kept |
| ProductController.NoCategoryMatchesAll | server/controllers/productController.js:9-12 | without a category (absent or empty) every product is listed, in store order |
| ProductController.GetAllProducts | server/controllers/productController.js:5-37 | the listing handler: category filter, then the page window, with its fields as `PageShape`, `PageFlags`, `PastLastPage` and `PagesCover` state |
| ProductController.CeilDiv | server/controllers/productController.js:27 | the result q is the least whole number with q * limit >= total |
| ProductController.PageShape | server/controllers/productController.js:14-29 | each field of the page in terms of the matching list: the window from (page - 1) * limit, the count, the total, totalPages, and both flags |
| ProductController.GetAllProductsWindow | server/controllers/productController.js:14-25 | a page holds at most `limit` products, which are those of the matching list from position (page - 1) * limit; total is the whole matching list whatever the page; count is the number returned |
| ProductController.Window | server/controllers/productController.js:14-18 | the `skip`/`limit` window of a list, as `GetAllProductsWindow`, `PastLastPage` and `PagesCover` state |
| ProductController.PageFlags | server/controllers/productController.js:27-29 | totalPages is the ceiling of total / limit; hasNextPage holds exactly when page * limit < total, hasPrevPage exactly when page > 1 |
| ProductController.PastLastPage | server/controllers/productController.js:16-18 | a page starting at or past the end of the matching list is empty, with count 0 and no next page |
| ProductController.FullPagesBeforeLast | server/controllers/productController.js:16-28 | every page that has a next page is full |
| ProductController.PagesCover | server/controllers/productController.js:14-18 | paging loses nothing: the i-th matching product is on page i / limit + 1 at position i % limit |
| ProductController.ListingDefaults | server/controllers/productController.js:7 | absent page and limit mean page 1 of 10 |
| ProductController.FeaturedProducts | server/controllers/productController.js:83-98 | at most six in-stock products, the first ones in store order, as `FeaturedSpec` states |
| ProductController.FeaturedSpec | server/controllers/productController.js:85 | the featured list has min(6, in-stock count) products, is a prefix of the in-stock products in store order, and holds only in-stock products |
| ProductController.InStockProductsMembers | server/controllers/productController.js:85 | the in-stock query keeps exactly the in-stock products |
| ProductController.InStockProducts | server/controllers/productController.js:85 | the in-stock products in store order, as `InStockProductsMembers` states |
| ProductController.GetProductById | server/controllers/productController.js:40-61 | the product with the id, or 404 when there is none, as `GetProductByIdSpec` states |
| ProductController.FindById | server/controllers/productController.js:42 | the `findById` lookup: the first product with the id, none without one, as `GetProductByIdSpec` states |
| ProductController.GetProductByIdSpec | server/controllers/productController.js:40-54 | the lookup fails with 404 exactly when no product has the id; otherwise it returns a stored product with that id |
| CartRules.LineIndex | server/controllers/cartController.js:42-44 | the index is that of the first line of the product, or -1 when the cart has no line for it |
| CartRules.WithAdded | server/controllers/cartController.js:42-50 | the lines after an add: the amount goes to the product's existing line or to a new last line, as `WithAddedSpec` states |
| CartRules.WithoutProduct | server/controllers/cartController.js:199-201 | the lines of every other product, in order, as `WithoutProductMembers` and `WithoutProductQuantities` state |
| CartRules.WithQuantity | server/controllers/cartController.js:163-170 | the lines after an update of an existing line: removal for a quantity <= 0, otherwise that quantity, as `WithQuantitySpec` states |
| CartRules.WithAddedSpec | server/controllers/cartController.js:42-50 | adding raises that product's quantity by exactly the amount and leaves the others alone; an existing line is updated in place, otherwise one line is appended; the total grows by the amount; one line per product is kept |
| CartRules.WithAddedPositive | server/controllers/cartController.js:46-50 | adding a positive amount keeps every quantity positive |
| CartRules.TotalQuantityUpdate | server/controllers/cartController.js:59 | changing one line changes the reported total by the difference of its quantities |
| CartRules.QuantityOfUnique | server/controllers/cartController.js:42-44 | with one line per product, a product's quantity is that of the line the search finds, or 0 |
| CartRules.QuantityOfAbsent | server/controllers/cartController.js:42-44 | a product without a line has quantity 0 |
| CartRules.WithoutProductConcat | server/controllers/cartController.js:165-167 | the filter distributes over concatenation, so the remaining lines keep their order |
| CartRules.WithoutProductMembers | server/controllers/cartController.js:199-201 | removing a product keeps exactly the lines of the other products, and never lengthens the cart |
| CartRules.WithoutProductQuantities | server/controllers/cartController.js:199-201 | after removal the product's quantity is 0, every other product's is unchanged, and the total drops by what it held |
| CartRules.WithoutAbsentProduct | server/controllers/cartController.js:199-201 | removing a product the cart does not hold changes nothing |
| CartRules.WithoutProductIdempotent | server/controllers/cartController.js:199-201 | removing twice is removing once |
| CartRules.WithoutProductKeepsInvariants | server/controllers/cartController.js:165-167 | filtering keeps one line per product and positive quantities |
| CartRules.WithQuantitySpec | server/controllers/cartController.js:163-170 | on an existing line a quantity <= 0 removes the product and a positive one sets exactly that quantity; length, order and every other line are kept; the invariants are kept |
| CartController.Cart.FindLine | server/controllers/cartController.js:42-44 | the loop returns the index of the first line of the product, or -1 |
| CartController.Cart.AddQuantity | server/controllers/cartController.js:46-50 | the lines become exactly the lines with the quantity added |
| CartController.Cart.SetQuantity | server/controllers/cartController.js:169 | only the found line's quantity changes, to the value given |
| CartController.Cart.RemoveProduct | server/controllers/cartController.js:199-201 | the loop leaves exactly the filtered lines |
| CartController.CartStore.AddToCart | server/controllers/cartController.js:6-61 | missing ids are 400, an unknown product 404, an out-of-stock one 400, and a rejection changes no cart; otherwise the session's cart (a new empty one when missing) gets the quantity added (default 1), no other cart changes, and the reply carries the new total quantity |
| CartController.CartStore.GetCart | server/controllers/cartController.js:71-123 | no cart gives no lines and zero totals; otherwise the lines in stored order, each priced at the base price, with totalItems the sum of the quantities and totalAmount the sum of the subtotals |
| CartController.CartStore.UpdateCartItem | server/controllers/cartController.js:133-177 | a missing field is 400; a missing cart or line is 404, checked before the quantity; otherwise the line is set or, for a quantity <= 0, removed, and no other cart changes |
| CartController.CartStore.RemoveFromCart | server/controllers/cartController.js:187-208 | 404 exactly when the session has no cart; otherwise the product's lines are filtered out and the (possibly empty) cart is kept |
| CartController.CartStore.ClearCart | server/controllers/cartController.js:218-227 | always succeeds, and the session has no cart afterwards; other carts are kept |
| CartController.AddToCartStatusOrder | server/controllers/cartController.js:11-33 | the checks come in the handler's order; the add is accepted exactly when both ids are present and the product exists and is in stock |
| CartController.AddToCartStatus | server/controllers/cartController.js:11-33 | the status of an add before the cart is touched, as `AddToCartStatusOrder` states |
| CartController.UpdateCartItemStatus | server/controllers/cartController.js:133-161 | the status of an update: 400 for a missing field, 404 for a missing cart or line, as `UpdateMissingLineIgnoresQuantity` states for the 404 cases |
| CartController.UpdateMissingLineIgnoresQuantity | server/controllers/cartController.js:144-161 | a missing cart or line is 404 whatever the quantity, including quantities that would remove it |
| CartController.LineViewsIgnoreDiscount | server/controllers/cartController.js:95-108 | the cart view does not depend on discounted prices |
| CartController.LineViews | server/controllers/cartController.js:95-108 | one view line per stored line at the base price; `AddThenView` states how it follows an add |
| CartController.SubtotalSumNonNegative | server/controllers/cartController.js:92-98 | non-negative line subtotals give a non-negative amount |
| CartController.AddThenView | server/controllers/cartController.js:95-118 | after a new product is added, the cart view ends with its line (quantity q, subtotal price * q), and both totals grow by exactly that line |
| ProductHelpers.CalculateDiscountPercentage | client/src/utils/productHelpers.ts:8-10 | the result r is the whole number nearest to the percentage taken off, halves rounded up |
| ProductHelpers.RoundingUnique | client/src/utils/productHelpers.ts:9 | at most one whole number satisfies the rounding bounds, so the percentage is determined |
| ProductHelpers.DiscountPercentageEnds | client/src/utils/productHelpers.ts:9 | equal prices give 0 percent, a discounted price of 0 gives 100 |
| ProductHelpers.DiscountPercentageAntitone | client/src/utils/productHelpers.ts:9 | for a fixed price, a higher discounted price never gives a higher percentage |
| ProductHelpers.DiscountPercentageRange | client/src/utils/productHelpers.ts:9 | a discounted price between 0 and the price gives a percentage between 0 and 100 |
| ProductHelpers.ParseDescription | client/src/utils/productHelpers.ts:12-18 | the specifications and features lists of a description, as `SpecificationsSpec`, `NoSeparatorNoFeatures` and `LaterPartsIgnored` state |
| ProductHelpers.SpecificationsSpec | client/src/utils/productHelpers.ts:13-14 | the specifications are never empty (at worst [""]), hold no ", ", and joined with ", " give back the first part with its label's first occurrence removed |
| ProductHelpers.NoSeparatorNoFeatures | client/src/utils/productHelpers.ts:15 | without " \| " there are no features, and the whole description yields the specifications |
| ProductHelpers.LaterPartsIgnored | client/src/utils/productHelpers.ts:12-17 | only the first two parts matter: anything after a second " \| " changes neither list |
| ProductHelpers.SplitFirstTwo | client/src/utils/productHelpers.ts:13 | cutting a description at the end of its second part splits into exactly its first two parts |
| Text.JoinSplit | client/src/utils/productHelpers.ts:13-15 | joining the pieces of a split with the separator gives back the string |
| Text.SplitJoin | client/src/utils/productHelpers.ts:14-15 | splitting undoes joining when no piece holds the one-character separator |
| Text.SplitPiecesFree | client/src/utils/productHelpers.ts:14-15 | no piece of a split contains the separator |
| Text.ReplaceFirstRemovesOne | client/src/utils/productHelpers.ts:14-15 | a string-pattern replace removes exactly the first occurrence, wherever it is |
| Text.IndexOfSpec | client/src/utils/productHelpers.ts:13 | indexOf finds the first occurrence, and -1 exactly when there is none |
| Text.TrimIdempotent | server/models/Product.js:7 | trimming twice is trimming once |
| Text.TrimIsSlice | server/models/Product.js:7 | trimming keeps a contiguous part of the input that starts after the leading white space |
| Text.NatToStringRoundTrip | client/src/redux/api/product/productApi.ts:9-10 | the decimal text of a number reads back as that number |
| SessionManager.LocalStorage.GetItem | client/src/utils/sessionManager.ts:7 | the stored value of the key, or none when it is absent; storage unchanged |
| SessionManager.GetOrCreate | client/src/utils/sessionManager.ts:7-12 | the id returned and the storage left by one call in a browser, as `GetOrCreateSpec` states |
| SessionManager.GetOrCreateSpec | client/src/utils/sessionManager.ts:7-12 | the id is never empty; a non-empty stored id is returned and nothing is written; otherwise a fresh "session_" id is stored under "sessionId"; every other key keeps its value |
| SessionManager.GetOrCreateStable | client/src/utils/sessionManager.ts:7-12 | a second call returns the same id whatever it would generate, and writes nothing |
| SessionManager.ClearThenCreate | client/src/utils/sessionManager.ts:15-19 | after clearSession the next call generates a fresh id |
| SessionManager.GetSessionId | client/src/utils/sessionManager.ts:4-13 | with no window the id is "" and nothing is touched; otherwise the storage ends as the get-or-create rule says |
| SessionManager.LocalStorage.SetItem | client/src/utils/sessionManager.ts:10 | the key is bound to the value and every other key keeps its value |
| SessionManager.LocalStorage.RemoveItem | client/src/utils/sessionManager.ts:17 | only the key is removed |
| SessionManager.ClearSession | client/src/utils/sessionManager.ts:15-19 | only the "sessionId" key is removed |
| CartSlice.QuantitySumFront | client/src/redux/services/cart/cartSlice.ts:36 | the left fold of quantities equals the sum taken from the front |
| CartSlice.SubtotalSumFront | client/src/redux/services/cart/cartSlice.ts:37 | the left fold of subtotals equals the sum taken from the front |
| CartSlice.QuantitySumBounds | client/src/redux/services/cart/cartSlice.ts:36 | with positive quantities the total quantity is at least the number of lines |
| CartSlice.InitialState | client/src/redux/services/cart/cartSlice.ts:20-25 | the initial state has no items, zero totals and no session id, and is consistent |
| CartSlice.SetSessionIdSpec | client/src/redux/services/cart/cartSlice.ts:31-33 | setSessionId changes only the session id and keeps the totals consistent |
| CartSlice.SetSessionId | client/src/redux/services/cart/cartSlice.ts:31-33 | the session id reducer, as `SetSessionIdSpec` states |
| CartSlice.SetCartItems | client/src/redux/services/cart/cartSlice.ts:34-38 | the reducer for a fetched payload, as `SetCartItemsSpec` states |
| CartSlice.SetCartItemsSpec | client/src/redux/services/cart/cartSlice.ts:34-38 | the items become the payload exactly and the session id is kept; the totals sum the payload's quantities and subtotals, are zero for an empty payload, and with positive quantities the item count is at least the number of lines and at least any line's quantity |
| CartSlice.SetCartItemsOverwrites | client/src/redux/services/cart/cartSlice.ts:34-38 | the result depends only on the last payload |
| CartSlice.ClearCartSpec | client/src/redux/services/cart/cartSlice.ts:39-43 | clearCart empties the items, zeroes the totals, keeps the session id, and a second clear changes nothing |
| CartSlice.ClearCart | client/src/redux/services/cart/cartSlice.ts:39-43 | the clear reducer, as `ClearCartSpec` states |
| CartSlice.CartSliceStore.DispatchSetCartItems | client/src/redux/services/cart/cartSlice.ts:34-38 | the loop over the payload produces exactly the setCartItems state |
| CartSlice.CartSliceStore.DispatchSetSessionId | client/src/redux/services/cart/cartSlice.ts:31-33 | the store's new state is the setSessionId reducer applied to the old one |
| CartSlice.CartSliceStore.DispatchClearCart | client/src/redux/services/cart/cartSlice.ts:39-43 | the store's new state is the clearCart reducer applied to the old one |
| UiSlice.OpenersExclude | client/src/redux/services/ui/uiSlice.ts:24-43 | after openCart, openCheckoutModal or openSuccessModal the cart and the checkout are not both open |
| UiSlice.ToggleCart | client/src/redux/services/ui/uiSlice.ts:21-23 | flips the cart flag only, as `ToggleCartTwice` and `ToggleCartBreaksExclusive` state |
| UiSlice.OpenCart | client/src/redux/services/ui/uiSlice.ts:24-28 | opens the cart and closes the checkout and the menu, as `OpenersFrame` states |
| UiSlice.CloseCart | client/src/redux/services/ui/uiSlice.ts:29-31 | clears the cart flag only, as `ClosersClearOnlyTheirFlag` states |
| UiSlice.OpenCheckoutModal | client/src/redux/services/ui/uiSlice.ts:32-35 | opens the checkout and closes the cart, as `OpenersFrame` states |
| UiSlice.CloseCheckoutModal | client/src/redux/services/ui/uiSlice.ts:36-38 | clears the checkout flag only, as `ClosersClearOnlyTheirFlag` states |
| UiSlice.OpenSuccessModal | client/src/redux/services/ui/uiSlice.ts:39-43 | opens the success modal and closes the checkout and the cart, as `OpenersFrame` states |
| UiSlice.CloseSuccessModal | client/src/redux/services/ui/uiSlice.ts:44-46 | clears the success flag only, as `ClosersClearOnlyTheirFlag` states |
| UiSlice.ToggleMobileMenu | client/src/redux/services/ui/uiSlice.ts:47-53 | flips the menu, closing the cart and the checkout when it opens, as `ToggleMobileMenuSpec` states |
| UiSlice.CloseMobileMenu | client/src/redux/services/ui/uiSlice.ts:54-56 | clears the menu flag only, as `ClosersClearOnlyTheirFlag` states |
| UiSlice.Reduce | client/src/redux/services/ui/uiSlice.ts:21-56 | one action applied by its reducer; every reducer but toggleCart keeps the cart and the checkout exclusive, as `ReducePreservesExclusive` states |
| UiSlice.ReducePreservesExclusive | client/src/redux/services/ui/uiSlice.ts:24-56 | every reducer but toggleCart keeps the cart and the checkout exclusive |
| UiSlice.ToggleCartBreaksExclusive | client/src/redux/services/ui/uiSlice.ts:21-23 | toggleCart can open the cart over an open checkout |
| UiSlice.RunPreservesExclusive | client/src/redux/services/ui/uiSlice.ts:10-56 | any run of actions without toggleCart from an exclusive state (the initial one included) ends exclusive |
| UiSlice.ToggleCartTwice | client/src/redux/services/ui/uiSlice.ts:21-23 | toggling the cart twice changes nothing |
| UiSlice.ClosersClearOnlyTheirFlag | client/src/redux/services/ui/uiSlice.ts:29-56 | each close reducer clears its own flag and no other, and is idempotent |
| UiSlice.OpenersFrame | client/src/redux/services/ui/uiSlice.ts:24-43 | which flags each open reducer sets, clears and keeps |
| UiSlice.ToggleMobileMenuSpec | client/src/redux/services/ui/uiSlice.ts:47-53 | the menu flips; only opening it closes the cart and the checkout; the success modal is never touched |
| UiSlice.UiStore.DispatchToggleCart | client/src/redux/services/ui/uiSlice.ts:21-23 | the store's new state is the toggleCart reducer applied to the old one |
| UiSlice.UiStore.DispatchOpenCart | client/src/redux/services/ui/uiSlice.ts:24-28 | the store's new state is the openCart reducer applied to the old one |
| UiSlice.UiStore.DispatchCloseCart | client/src/redux/services/ui/uiSlice.ts:29-31 | the store's new state is the closeCart reducer applied to the old one |
| UiSlice.UiStore.DispatchOpenCheckoutModal | client/src/redux/services/ui/uiSlice.ts:32-35 | the store's new state is the openCheckoutModal reducer applied to the old one |
| UiSlice.UiStore.DispatchCloseCheckoutModal | client/src/redux/services/ui/uiSlice.ts:36-38 | the store's new state is the closeCheckoutModal reducer applied to the old one |
| UiSlice.UiStore.DispatchOpenSuccessModal | client/src/redux/services/ui/uiSlice.ts:39-43 | the store's new state is the openSuccessModal reducer applied to the old one |
| UiSlice.UiStore.DispatchCloseSuccessModal | client/src/redux/services/ui/uiSlice.ts:44-46 | the store's new state is the closeSuccessModal reducer applied to the old one |
| UiSlice.UiStore.DispatchToggleMobileMenu | client/src/redux/services/ui/uiSlice.ts:47-53 | the store's new state is the toggleMobileMenu reducer applied to the old one |
| UiSlice.UiStore.DispatchCloseMobileMenu | client/src/redux/services/ui/uiSlice.ts:54-56 | the store's new state is the closeMobileMenu reducer applied to the old one |
| CartApi.MutationCoversOwnCart | client/src/redux/api/cart/cartApi.ts:6-58 | every mutation invalidates every tag its own session's cart query provides |
| CartApi.GetCartRequest | client/src/redux/api/cart/cartApi.ts:6-7 | the cart query is a GET of the session's cart path, as `ClearUsesCartPath` relates it to clear |
| CartApi.GetCartProvides | client/src/redux/api/cart/cartApi.ts:8-11 | the session's tag and the list tag, which `MutationCoversOwnCart` and `MutationRefetchesEveryCart` relate to the mutations |
| CartApi.MutationRequest | client/src/redux/api/cart/cartApi.ts:14-53 | the request each mutation sends, as `MutationRequestShape` and `RemovePathSegments` state |
| CartApi.Invalidates | client/src/redux/api/cart/cartApi.ts:14-58 | the tags each mutation invalidates, as `MutationCoversOwnCart` and `MutationRefetchesEveryCart` state |
| CartApi.MutationRefetchesEveryCart | client/src/redux/api/cart/cartApi.ts:6-58 | through the LIST tag every mutation refetches every session's cached cart |
| CartApi.MutationRequestShape | client/src/redux/api/cart/cartApi.ts:15-53 | add is POST "cart/add" and update PUT "cart/update", each with the three body fields; remove and clear are DELETEs without a body |
| CartApi.ClearUsesCartPath | client/src/redux/api/cart/cartApi.ts:6-53 | clear goes to the cart query's path with DELETE instead of GET |
| CartApi.RemovePathSegments | client/src/redux/api/cart/cartApi.ts:39-42 | the remove path splits back into "cart", the session, "item" and the product when the ids hold no "/" |
| ProductApi.BuildParams | client/src/redux/api/product/productApi.ts:7-14 | the method builds exactly the parameter list of the query |
| ProductApi.QueryParams | client/src/redux/api/product/productApi.ts:7-14 | the parameter list of the listing query, as `QueryParamsSpec` and `DefaultParams` state |
| ProductApi.GetProductsPath | client/src/redux/api/product/productApi.ts:7-15 | the listing path, as `GetProductsPathSpec` states |
| ProductApi.QueryParamsSpec | client/src/redux/api/product/productApi.ts:7-14 | page, limit and sortBy come first (defaults 1, 10, "price-asc"); category follows exactly when non-empty, and searchTerm comes last exactly when non-empty |
| ProductApi.PageAndLimitReadBack | client/src/redux/api/product/productApi.ts:7-10 | the page and limit values read back as the numbers asked for |
| ProductApi.DefaultParams | client/src/redux/api/product/productApi.ts:7-12 | with nothing given the parameters are page=1, limit=10, sortBy=price-asc |
| ProductApi.GetProductsPathSpec | client/src/redux/api/product/productApi.ts:8-15 | the path is "products?" followed by a query string that splits on "&" back into the parameter entries, page first |
| ProductApi.SerializeRoundTrip | client/src/redux/api/product/productApi.ts:15 | the query string splits on "&" back into its entries when no value holds "&" |
| ProductApi.Serialize | client/src/redux/api/product/productApi.ts:15 | the query string: the `name=value` entries joined with "&", which `SerializeRoundTrip` splits back |
| ProductApi.GetProductsProvidesSpec | client/src/redux/api/product/productApi.ts:17-23 | one Product tag per returned item in order, then LIST; no result (or an empty one) provides LIST alone |
| ProductApi.GetProductsProvides | client/src/redux/api/product/productApi.ts:17-23 | the listing's tags, as `GetProductsProvidesSpec` states |
| ProductApi.FeaturedProvides | client/src/redux/api/product/productApi.ts:28-34 | the featured list's tags, as `FeaturedProvidesSpec` states |
| ProductApi.GetProductByIdPath | client/src/redux/api/product/productApi.ts:38 | the by-id path, which `FeaturedPathIsByIdPath` shows "products/featured" also is |
| ProductApi.GetProductByIdProvides | client/src/redux/api/product/productApi.ts:39 | the product's own tag, which `ByIdTagAmongListingTags` shows the listing also provides |
| ProductApi.FeaturedProvidesSpec | client/src/redux/api/product/productApi.ts:26-35 | the featured tags end with FEATURED instead of LIST and otherwise match the listing's |
| ProductApi.ByIdTagAmongListingTags | client/src/redux/api/product/productApi.ts:17-39 | a listed product's by-id tag is among the listing's tags |
| ProductApi.FeaturedPathIsByIdPath | client/src/redux/api/product/productApi.ts:27-38 | "products/featured" is also the by-id path of the id "featured" |
| ProductCard.CardEffectivePriceIsServerGetter | client/src/components/cards/ProductCard.tsx:39 | the card's effective price is the server's effectivePrice getter |
| ProductCard.CardEffectivePrice | client/src/components/cards/ProductCard.tsx:39 | the card's effective price, the server getter's as `CardEffectivePriceIsServerGetter` states |
| ProductCard.CardHasDiscount | client/src/components/cards/ProductCard.tsx:40 | the card's discount flag, compared with the server's by `CardHasDiscountVersusServer` |
| ProductCard.CardHasDiscountVersusServer | client/src/components/cards/ProductCard.tsx:40 | the card's flag follows from the server's hasDiscount and differs from it exactly when the discounted price is not below the price |
| ProductCard.DiscountAbovePriceShown | client/src/components/cards/ProductCard.tsx:39-43 | a discounted price above the price is shown as a discount with negative savings |
| ProductCard.CardDiscountPercentage | client/src/components/cards/ProductCard.tsx:41-43 | the shown percentage, 0 without a discounted price, as `CardDiscountPercentageRange` states |
| ProductCard.CardDiscountPercentageRange | client/src/components/cards/ProductCard.tsx:41-43 | with a discounted price between 0 and the price the shown percentage is 0..100, and it never grows as the discounted price grows |
| ProductCard.CardSavingsSpec | client/src/components/cards/ProductCard.tsx:185 | without a savings field the savings are price minus effective price, positive exactly when the server reports a non-zero discount |
| ProductCard.CardSavingsField | client/src/components/cards/ProductCard.tsx:185 | a truthy savings field is shown as it is |
| ProductCard.CardSavings | client/src/components/cards/ProductCard.tsx:185 | the shown savings: a truthy savings field, otherwise price minus effective price, as `CardSavingsSpec` and `CardSavingsField` state |
| ProductCard.AddRequestAccepted | client/src/components/cards/ProductCard.tsx:49-59 | an in-stock card sends one add of its own id with quantity 1, which the server accepts when the session id is set and the product exists |
| ProductCard.AddRequest | client/src/components/cards/ProductCard.tsx:49-59 | the add request of the card's button, none out of stock, as `AddRequestAccepted` states |
| ProductCard.ProductCardState.HandleAddToCart | client/src/components/cards/ProductCard.tsx:45-73 | out of stock: nothing is sent and nothing changes; otherwise the add is sent, and on success the button shows "added" and the cart opens |
| ProductCard.ProductCardState.ResetAdded | client/src/components/cards/ProductCard.tsx:70-72 | the timer's step clears the "added" state of the button |
| CartSidebar.SkipFetchFollowsUi | client/src/components/shared/Navbar/CartSidebar.tsx:27-29 | the cart is fetched exactly when there is a session id and the sidebar is open; how each ui reducer starts or stops the fetch |
| CartSidebar.SkipFetch | client/src/components/shared/Navbar/CartSidebar.tsx:27-29 | when the cart query is skipped, as `SkipFetchFollowsUi` states |
| CartSidebar.QuantityMutation | client/src/components/shared/Navbar/CartSidebar.tsx:42-55 | the request a new quantity sends, as `QuantityMutationSpec` states |
| CartSidebar.QuantityMutationSpec | client/src/components/shared/Navbar/CartSidebar.tsx:42-55 | a new quantity of 0 becomes a removal; any other quantity, negative ones included, is sent unchanged as an update; both are for the given session and product |
| CartSidebar.ZeroAsRemovalSameEffect | client/src/components/shared/Navbar/CartSidebar.tsx:44-49 | for a product with a line, sending 0 as a removal leaves the same stored lines as sending the update |
| CartSidebar.LineIndexOfLine | client/src/components/shared/Navbar/CartSidebar.tsx:42-49 | with one line per product, the server finds exactly the line the button belongs to |
| CartSidebar.ServerEffect | server/controllers/cartController.js:6-227 | what a successful cart handler does to the session's lines; `ApplyMutation` ties it to the handlers |
| CartSidebar.ApplyMutation | server/controllers/cartController.js:6-227 | a mutation carried out by its handler: the status is the handler's; on success the session's lines become the server effect of its lines before (none for a session without a cart), a cleared cart is deleted, and a failure changes no cart |
| CartSidebar.SetLineEffect | client/src/components/shared/Navbar/CartSidebar.tsx:42-55 | setting a line to q >= 0 changes the total by q minus its old quantity and that product's quantity to q; other products and the invariants are kept |
| CartSidebar.StepButtonsEffect | client/src/components/shared/Navbar/CartSidebar.tsx:175-188 | minus lowers the total by exactly one (a removal exactly when the line held one) and plus raises it by one; no other product changes |
| CartSidebar.MinusMutation | client/src/components/shared/Navbar/CartSidebar.tsx:174 | the minus button's request, as `StepButtonsEffect` states |
| CartSidebar.PlusMutation | client/src/components/shared/Navbar/CartSidebar.tsx:187 | the plus button's request, as `StepButtonsEffect` states |
| CartSidebar.DeleteButtonEffect | client/src/components/shared/Navbar/CartSidebar.tsx:57-65 | the delete button takes the line's whole quantity off the total and leaves no line for the product |
| CartSidebar.DeleteMutation | client/src/components/shared/Navbar/CartSidebar.tsx:57-65 | the delete button's request, as `DeleteButtonEffect` states |
| CartSidebar.ClearButtonEffect | client/src/components/shared/Navbar/CartSidebar.tsx:67-75 | the clear button empties the session's own cart: no product and a zero total are left |
| CartSidebar.ClientItems | client/src/components/shared/Navbar/CartSidebar.tsx:36-40 | the response lines as handed to setCartItems, line by line; their totals are stated by `ClientItemsTotals` |
| CartSidebar.ClientItemsTotals | client/src/components/shared/Navbar/CartSidebar.tsx:36-40 | once the fetched lines are copied into the slice, its totals are the server's total quantity and amount |
| CartSidebar.SyncedSliceMatchesSummary | client/src/components/shared/Navbar/CartSidebar.tsx:36-79 | after the copy, the slice holds the displayed lines and its totals equal the displayed summary |
| CartSidebar.DisplayDefaults | client/src/components/shared/Navbar/CartSidebar.tsx:77-79 | before a response no lines and zero totals are shown; afterwards the response's own |
| CartSidebar.DisplayedItems | client/src/components/shared/Navbar/CartSidebar.tsx:77 | the lines shown: the response's, none before the first response, as `DisplayDefaults` states |
| CartSidebar.DisplayedTotalItems | client/src/components/shared/Navbar/CartSidebar.tsx:79 | the item count shown: the response's, 0 before it, as `DisplayDefaults` and `SyncedSliceMatchesSummary` state |
| CartSidebar.DisplayedTotalAmount | client/src/components/shared/Navbar/CartSidebar.tsx:78 | the amount shown: the response's, 0 before it, as `DisplayDefaults` and `SyncedSliceMatchesSummary` state |
| CheckoutModal.ShippingSpec | client/src/components/pages/Checkout/CheckoutModal.tsx:65-66 | shipping is free exactly above 5000 cents, so exactly 5000 and an empty cart pay the fee; the total exceeds the subtotal by 0 or the fee |
| CheckoutModal.Subtotal | client/src/components/pages/Checkout/CheckoutModal.tsx:64 | the sum of price times quantity over the lines, equal to the slice's total amount as `SubtotalIsSliceSum` states |
| CheckoutModal.Shipping | client/src/components/pages/Checkout/CheckoutModal.tsx:65 | the shipping cost is either free or the fixed fee |
| CheckoutModal.TotalAroundThreshold | client/src/components/pages/Checkout/CheckoutModal.tsx:65-66 | one cent above the threshold costs less than the threshold itself; apart from that step the total never decreases |
| CheckoutModal.Total | client/src/components/pages/Checkout/CheckoutModal.tsx:66 | subtotal plus shipping, as `ShippingSpec` and `TotalAroundThreshold` state |
| CheckoutModal.SubtotalIsSliceSum | client/src/components/pages/Checkout/CheckoutModal.tsx:64 | when each line's subtotal is price times quantity, the checkout subtotal is the slice's total amount |
| CheckoutModal.CheckoutSubtotalIsServerTotal | client/src/components/pages/Checkout/CheckoutModal.tsx:64 | after a fetched cart is copied into the slice, the checkout subtotal is the server's total amount |
| CheckoutModal.MobilePatternShape | client/src/components/pages/Checkout/CheckoutModal.tsx:306 | an accepted number has 14 characters starting "+8801" or 11 digits starting "01" |
| CheckoutModal.MobilePattern | client/src/components/pages/Checkout/CheckoutModal.tsx:306 | the wallet number pattern, whose accepted strings `MobilePatternShape` and `MobilePatternExamples` describe |
| CheckoutModal.EnterableMobileNumbers | client/src/components/pages/Checkout/CheckoutModal.tsx:306-312 | with the 11-character cap, every accepted number that can be entered is the 11-digit "01" form |
| CheckoutModal.MobileFieldErrorSpec | client/src/components/pages/Checkout/CheckoutModal.tsx:304-307 | the field passes exactly when it is non-empty and matches the pattern; an empty field gets the required message |
| CheckoutModal.MobileFieldError | client/src/components/pages/Checkout/CheckoutModal.tsx:304-307 | a wallet field's message: required first, then the pattern, as `MobileFieldErrorSpec` states |
| CheckoutModal.MobilePatternExamples | client/src/components/pages/Checkout/CheckoutModal.tsx:306 | "01712345678" and "+8801712345678" match (the latter cannot be typed); operator digit 2 and a ten-digit number do not |
| CheckoutModal.FormErrorsSpec | client/src/components/pages/Checkout/CheckoutModal.tsx:134-343 | the form submits exactly when the seven contact fields are filled and the selected method's fields are filled (and, for a wallet, match the pattern); other methods' fields are not looked at |
| CheckoutModal.FormErrors | client/src/components/pages/Checkout/CheckoutModal.tsx:134-343 | the messages of the rendered fields, as `FormErrorsSpec` states |
| CheckoutModal.ContactErrors | client/src/components/pages/Checkout/CheckoutModal.tsx:134-205 | the required messages of the seven contact fields; `EmptyFormRejected` states the empty form gets all seven |
| CheckoutModal.PaymentErrors | client/src/components/pages/Checkout/CheckoutModal.tsx:251-343 | the messages of the selected method's fields only, as `FormErrorsSpec` and `EmptyFormRejected` state |
| CheckoutModal.EmptyFormRejected | client/src/components/pages/Checkout/CheckoutModal.tsx:134-343 | the reset form reports exactly the seven contact messages in form order, followed by the required messages of the selected method's fields (card number, expiry and CVV, or the wallet number) |
| CheckoutModal.SubmitSuccessUi | client/src/components/pages/Checkout/CheckoutModal.tsx:83-84 | after success the success modal is open and the checkout and the cart are closed; the menu is kept |
| CheckoutModal.CheckoutModalState.BeginSubmit | client/src/components/pages/Checkout/CheckoutModal.tsx:68-70 | processing starts and the mask no longer closes the modal |
| CheckoutModal.CheckoutModalState.FinishSubmit | client/src/components/pages/Checkout/CheckoutModal.tsx:72-92 | the session's clear request is sent; on success the form is reset, the checkout closes and the success modal opens; on failure nothing else changes; processing ends either way |
| CheckoutModal.CheckoutModalState.HandleClose | client/src/components/pages/Checkout/CheckoutModal.tsx:95-99 | closing is ignored while processing; otherwise the checkout closes |
| CheckoutModal.CheckoutModalState.SelectPayment | client/src/components/pages/Checkout/CheckoutModal.tsx:217-220 | the radio sets both the rendered method and the form value |
| ContactSection.ContactErrorsSpec | client/src/components/pages/Contact/ContactSection.tsx:173-243 | the form submits exactly when the name has at least 2 characters, the e-mail is given, the phone is empty or uses only digits, '+', '-', white space and parentheses, the subject has at least 5 characters and the message 10 to 1000 |
| ContactSection.ContactErrors | client/src/components/pages/Contact/ContactSection.tsx:173-243 | the messages field by field in form order, as `ContactErrorsSpec` and `OneMessagePerField` state |
| ContactSection.PhonePattern | client/src/components/pages/Contact/ContactSection.tsx:210 | every character is a digit, '+', '-', white space or a parenthesis; `ContactErrorsSpec` uses it for the phone |
| ContactSection.NameErrors | client/src/components/pages/Contact/ContactSection.tsx:173-185 | the name's message: required, then at least 2 characters, as `ContactErrorsSpec`, `OneMessagePerField` and `LengthBoundaries` state |
| ContactSection.EmailErrors | client/src/components/pages/Contact/ContactSection.tsx:188-200 | the e-mail's required message, as `ContactErrorsSpec` states |
| ContactSection.PhoneErrors | client/src/components/pages/Contact/ContactSection.tsx:206-217 | the optional phone's pattern message, as `ContactErrorsSpec` and `EmptyContactErrors` state |
| ContactSection.SubjectErrors | client/src/components/pages/Contact/ContactSection.tsx:220-232 | the subject's message: required, then at least 5 characters, as `ContactErrorsSpec` states |
| ContactSection.MessageErrors | client/src/components/pages/Contact/ContactSection.tsx:236-253 | the message's messages: required, at least 10 and at most 1000 characters, as `ContactErrorsSpec`, `OneMessagePerField` and `LengthBoundaries` state |
| ContactSection.OneMessagePerField | client/src/components/pages/Contact/ContactSection.tsx:173-243 | each field reports at most one message, so at most five in all |
| ContactSection.EmptyContactErrors | client/src/components/pages/Contact/ContactSection.tsx:173-243 | the empty form reports the four required fields and nothing about the optional phone |
| ContactSection.LengthBoundaries | client/src/components/pages/Contact/ContactSection.tsx:173-243 | a 1-character name and a 1001-character message are refused; 2 and 1000 pass |
| ContactSection.ContactFormState.Edit | client/src/components/pages/Contact/ContactSection.tsx:167-253 | after typing, the form holds exactly the values typed |
| ContactSection.ContactFormState.Submit | client/src/components/pages/Contact/ContactSection.tsx:28-37 | the form submits exactly when it has no error, and then every field is reset; otherwise the values stay |
| NavbarClient.NextVisibleSpec | client/src/components/shared/Navbar/NavbarClient.tsx:27-36 | below 10 the bar shows; from 10 on it hides exactly when the position grew |
| NavbarClient.NextVisible | client/src/components/shared/Navbar/NavbarClient.tsx:27-36 | whether the bar shows after a scroll, as `NextVisibleSpec` states |
| NavbarClient.OnScrollState | client/src/components/shared/Navbar/NavbarClient.tsx:24-39 | one scroll event: the visibility rule, then the position remembered, as `ScrollAllRemembersLast` and `ScrollAllLastTwo` state |
| NavbarClient.ScrollAll | client/src/components/shared/Navbar/NavbarClient.tsx:24-39 | a series of scroll events in order, as `ScrollAllRemembersLast`, `ScrollAllLastTwo` and `ScrollAllAppend` state |
| NavbarClient.ScrollAllRemembersLast | client/src/components/shared/Navbar/NavbarClient.tsx:38 | after any events the remembered position is the last one |
| NavbarClient.ScrollAllLastTwo | client/src/components/shared/Navbar/NavbarClient.tsx:24-39 | visibility depends only on the last two positions |
| NavbarClient.ScrollAllAppend | client/src/components/shared/Navbar/NavbarClient.tsx:24-39 | two series of events run one after the other are their concatenation |
| NavbarClient.NavbarState.OnScroll | client/src/components/shared/Navbar/NavbarClient.tsx:24-39 | the handler's new state is the scroll rule applied to the old one |
| NavbarClient.IsActiveLink | client/src/components/shared/Navbar/NavbarClient.tsx:46-51 | whether a link is highlighted for the path, as `IsActiveLinkSpec` states |
| NavbarClient.IsActiveLinkSpec | client/src/components/shared/Navbar/NavbarClient.tsx:46-51 | "/products" is active on itself and below "/products/", not on "/productsX"; contact only on "/contact"; never both |
| MobileNavDrawer.SameAsNavbar | client/src/components/shared/Navbar/MobileNavDrawer.tsx:23-27 | the drawer highlights the same links as the desktop bar for every path |
| MobileNavDrawer.DrawerIsActiveLink | client/src/components/shared/Navbar/MobileNavDrawer.tsx:23-27 | whether a drawer link is highlighted, as `SameAsNavbar` and `DrawerLinksSpec` state |
| MobileNavDrawer.DrawerLinksSpec | client/src/components/shared/Navbar/MobileNavDrawer.tsx:23-27 | "/" is active only on "/", "/products" on itself and below "/products/" (not "/productsX"), any other link only on its exact path |
| MobileNavDrawer.AtMostOneActive | client/src/components/shared/Navbar/MobileNavDrawer.tsx:17-27 | whatever the path, at most one of the three drawer links is active |

## Left out

- Persistence and HTTP plumbing are not modelled: the Mongoose calls, Express routing (route order included), the database connection and seeding. The cart and product collections are in-memory maps and sequences.
- The `Cart` schema (server/models/Cart.js) is not part of this model, so no quantity validation on save is modelled. A cart line has no sub-document id; the client ids are the `ids` parameter of `CartSidebar.ClientItems`.
- Floating-point money is not modelled. `Math.round(x * 100) / 100`, `toFixed` and `formatPrice` are the identity on integer cents.
- ProductHelpers.CalculateDiscountPercentage: requires a positive price, because a price of 0 makes JavaScript divide by zero and return NaN or Infinity.
- ProductCard.CardDiscountPercentage: requires a positive price whenever a discounted price is stored, for the same reason. A zero-priced product with a discounted price, which the card would show as `NaN%` or `-Infinity%`, is not modelled.
- ProductHelpers.CalculateDiscountPercentage and ProductCard.CardDiscountPercentage round the exact ratio half up. The program rounds a floating-point ratio, which can fall just below an exact half and give one less: a price of 200 with a discounted price of 171 is 14.499999999999998 percent in JavaScript, shown as 14, where the model gives 15.
- ProductController.GetAllProducts: page and limit must be at least 1. `parseInt` giving NaN and a limit of 0 (a division by zero) are not modelled. Sorting and search are not modelled either, since the handler ignores sortBy and searchTerm.
- ProductApi.GetProductsArgs: page and limit are natural numbers. A negative or fractional number, which the TypeScript signature accepts, is not modelled.
- Malformed ObjectIds are not modelled: ids are plain strings. In the source `Product.findById` throws a cast error on such an id: addToCart's catch then answers 400 (server/controllers/cartController.js:19, 62-67) and getProductById's answers 500 (server/controllers/productController.js:55-60). The model answers 404 in both cases, as for a well-formed id that matches no product.
- CartController.CartStore.AddToCart: product ids are taken in their canonical lower-case form and matched as exact strings. In the source `Product.findById` (server/controllers/cartController.js:19) also accepts an upper-case variant of a stored id, while the line search (cartController.js:41-43, and likewise at 151-153, 165-167 and 199-201) compares with the lower-case `toString()`. Such a variant finds the product and appends a second line for it, so one line per product (`CartController.CartStore.Valid`) holds only when clients send canonical ids. ProductController.GetProductById likewise answers 200 for such a variant (productController.js:42), where the model answers 404.
- The response fields that carry no cart logic are not modelled: getCart's `createdAt` and `updatedAt` (cartController.js:120-121) and addToCart's `cartId` (cartController.js:58). Carts have no timestamps or document ids here.
- Non-numeric quantities (Mongoose casting, string concatenation in `+=`) are not modelled: quantities are integers.
- Concurrent cart requests are not modelled. Each handler is one atomic step.
- CartController.CartStore.GetCart: requires every line's product to exist. A dangling reference makes the source throw into its 500 path.
- CartSidebar.ServerEffect: is the effect of a successful request only. The handler's checks, the 404 for a missing cart and the deletion (rather than emptying) of a cleared cart are stated by `CartSidebar.ApplyMutation`.
- Toasts, `console.log`, timers and animations are not modelled. The two timers of the product card are the separate `ResetAdded` step and the `opensCart` result.
- The time and randomness behind a new session id are the `stamp` parameter. `now` stands for `Date.now`.
- The e-mail `type` check of antd, on both forms, is antd's own and is not part of this model.
- A value made only of white space passes antd's `required` on both forms (only a missing or empty value fails it). The model then judges it by the field's length or pattern rule, as antd does.
- `trim` and `\s` are modelled on ASCII white space only. String lengths count characters, not UTF-16 code units.
- URLSearchParams percent-encoding and the RTK Query cache mechanics are not modelled. Only the tags each endpoint provides or invalidates are.
- CheckoutModal.CheckoutModalState.FinishSubmit: `resetFields` restores the form's `paymentMethod` to "card", but the component's own `paymentMethod` state is kept. The model keeps `selected`, so after a reset the rendered method and the form value can differ.
- Scroll positions are whole pixels.
- The bKash and Nagad pattern (CheckoutModal.tsx:306, 335) is modelled as written. It accepts numbers of 14 characters with "+8801" and 11 with "01", not 13 and 11. The 11-character input cap then leaves only the "01" form enterable (CheckoutModal.EnterableMobileNumbers).
