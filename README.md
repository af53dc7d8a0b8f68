# Farm marketplace storefront — cart stores and page logic in Dafny

This project models the client-side shopping cart of a farm-produce storefront, and the small
decision and mapping functions around it. The storefront has a React front end, an older
static site and a Django back end.

## What is modelled

There are five cart implementations, and they share one stored list of lines
`{product, product_id?, price, quantity, image?, farm?}` under the browser's `cart` key.
Each one is modelled separately, so the differences between them are stated rather than blended:

- **React `CartManager`** (`ReactCartManager`), a class over the line list and the listener list.
  - `subscribe`/unsubscribe and `notify` are modelled, with every callback call recorded.
  - `addItem` merges a line by product name, with no cap.
  - `updateQuantity` below 1 removes the line, and an unknown name does nothing.
  - Also modelled: `removeItem`, `clearCart` and the three getters.
- **React product card** (`ProductCard`). `addToCart` works on the stored cart directly.
  - A line matches by catalog id or by name.
  - There is a cap of five distinct lines, and only a new product is refused.
  - A soft warning is raised above ten units.
  - The card also draws its star row.
- **React cart page** (`CartPage.CartView`).
  - On load it repairs lines whose `product` is a nested object.
  - It updates and removes lines with `map`/`filter`.
  - The "−" and typed-quantity controls are clamped to at least 1.
  - It computes the summary and builds the order payload.
  - Checkout is guarded by the token and by an empty cart. The cart is cleared only when the order is created.
- **Static site `ShoppingCart`** (`LegacyShoppingCart`): add, remove, totals and the header badge.
- **Static site cart page `CartManager`** (`LegacyCartManager`).
  - It keeps its rows, empty panel, summary and badge in step with the cart.
  - Buttons and guards: "+"; "−" only above 1; a typed quantity only when `parseInt` gives more than 0; remove; checkout.

The shared line operations are in `CartLines`: sums, lookup by name, removal by name,
merge-or-append, and setting the first or every matching quantity. The two cart invariants
are also there: one line per name, and at least one unit per line.

The rest of the core:

- **Product listings.**
  - The static catalog page (`LegacyProducts`) covers the star markup, the category and price-range filter, `extractPrice`, `extractBackgroundImage`, the fallback add and the badge count.
  - The React products page (`ProductsPage`) covers the paginated-or-plain result and the price filter.
  - Both read the price filter the same way (`PriceFilter`) and draw the same star row (`StarRating`).
- **Status mappings.**
  - The home page tracker step and progress width, and the four featured products (`HomePage`).
  - The tracking page's step index, completed and active flags, progress width, badge label and search (`OrderTrackingPage`).
  - The back end's Arabic status labels (`StatusHistory`).
- **Error messages and roles.**
  - The login, sign-up and profile pages' message chains, plus login's pre-checks and token selection (`LoginPage`, `SignupPage`, `ProfilePage`, `ApiErrors`).
  - The back end's `get_user_role`, `is_admin`, `can_browse_and_buy` and `is_in_stock` (`UserModels`).
  - The registration, login and user serializers (`Serializers`).

The JavaScript primitives the pages rely on are written out over strings in `JsStrings`:
`trim`, `split`, `join`, `includes`, `startsWith`, `slice`, `parseInt`, and `Number` on
digit strings. `Sequences` holds the order-preserving `filter` and the subsequence relation.

Prices are `real`, and quantities are unbounded integers. Browser storage is a `Storage`
object whose `saved` field is `None` while the key is absent. The network is replaced by
parameters that stand for the server's answer.

### Behaviour worth knowing

Each point is a fact about the code, and the model states it:

- **Checkout above ten units.** The cart page's checkout looks only at the token and at whether the cart is empty (frontend-react/src/pages/CartPage.jsx:158-168; `CartPage.GateIgnoresUnitCount`). A cart of more than ten units is still submitted.
- **The soft warning.** The card raises its persistent warning above ten units and, in the same click, replaces it with the success notice (frontend-react/src/components/ProductCard.jsx:49-70; see Findings).
- **The five-line cap.** Only the product card enforces it (frontend-react/src/components/ProductCard.jsx:43-47). The React store (frontend-react/src/utils/cartManager.js:22-40), both static-site carts and the fallback add (frontend/js/products.js:173-188) accept any number of lines, and the fallback add even duplicates names (`LegacyProducts.FallbackDuplicates`).
- **Quantities below 1.** `updateQuantity` removes the line only in the React `CartManager` (frontend-react/src/utils/cartManager.js:44-47). The static-site cart page writes whatever quantity it is given (frontend/js/cart.js:71-78), and its buttons keep it at 1 or more. The React cart page clamps to at least 1 (frontend-react/src/pages/CartPage.jsx:90, 98).
- **Shipping.** Every page adds 15 unconditionally, so an empty cart totals 15 (frontend/js/cart.js:56; frontend-react/src/pages/CartPage.jsx:43-46; `CartPage.EmptyCartTotalIsShipping`).
- **A price bound that is not a number.** The two product pages disagree. The static page's filter then keeps nothing (frontend/js/products.js:130-133; `LegacyProducts.NaNBoundKeepsNothing`). The React page's filter keeps everything when both bounds are not numbers (frontend-react/src/pages/ProductsPage.jsx:44-47; `ProductsPage.NaNBoundsKeepEverything`); with one unreadable bound it still applies the other, so a single number such as '60' keeps the products priced at least 60 (`ProductsPage.LowerBoundOnly`).
- **`get_user_role`'s docstring.** It lists five results, but the code also returns `admin_farmer` and `admin_consumer` (backend/core/models.py:45-61; `UserModels.RoleStringParts`).
- **Status labels.** The tracking page's labels for `preparing` and `ready` (frontend-react/src/pages/OrderTrackingPage.jsx:13-19) are not the back end's labels for the same codes (backend/core/models/order_tracking.py:10-18).

## Model

| member | source | states |
|---|---|---|
| CartLines.Storage.constructor | frontend/js/script.js:4 | the storage key starts with the given stored list, or absent |
| CartLines.ReduceQuantitiesIsSum | frontend/js/cart.js:54 | the left fold `reduce((total, item) => total + item.quantity, acc)` equals acc plus Σ quantity |
| CartLines.ReduceSubtotalIsSum | frontend/js/cart.js:55 | the left fold of price × quantity equals acc plus the subtotal |
| CartLines.SumsAppend | frontend-react/src/utils/cartManager.js:27-34 | both sums distribute over concatenation, so appending a line adds its quantity and its price × quantity |
| CartLines.SumsUpdate | frontend-react/src/utils/cartManager.js:25-26 | replacing one line changes each sum by that line's difference only |
| CartLines.QuantitiesAtLeastLines | frontend-react/src/utils/cartManager.js:91-93 | with every quantity at least 1, the unit count is at least the line count |
| CartLines.Summary | frontend/js/cart.js:53-57 | the summary's count and subtotal are Σ quantity and Σ price × quantity, shipping is 15 and the total is subtotal + 15 |
| CartLines.FindName | frontend-react/src/utils/cartManager.js:49 | `find` by name: the first index whose line has that name, and None exactly when no line has it |
| CartLines.WithoutNameDropsExactly | frontend-react/src/utils/cartManager.js:58-59 | removal keeps an order-preserving subsequence, keeps every line with another name, and leaves no line with that name |
| CartLines.RemoveAbsentName | frontend/js/script.js:26-27 | removing a name that is not present leaves the cart as it was |
| CartLines.RemovePresentName | frontend/js/script.js:26-27 | in a cart with one line per name, removal deletes exactly the matching line and shortens the cart by one |
| CartLines.RemoveKeepsInvariants | frontend/js/cart.js:80-84 | removal keeps one line per name and at least one unit per line |
| CartLines.IncrementExisting | frontend/js/script.js:9-12 | adding an existing name keeps the line count, raises that line by one unit, leaves every other line, and raises the unit count by 1 and the subtotal by one unit price |
| CartLines.AppendNew | frontend/js/script.js:13-18 | adding a new name appends exactly the new line, and the sums grow by its quantity and value |
| CartLines.IncrementOrAppendKeepsInvariants | frontend/js/script.js:8-19 | merge-or-append keeps one line per name and positivity, and afterwards the name is present |
| CartLines.SetFirstQuantityEffect | frontend/js/cart.js:71-74 | setting the first match changes only that line's quantity, leaves an absent name's cart unchanged, and shifts the unit count by the difference |
| CartLines.SetFirstKeepsPositive | frontend/js/cart.js:104-105 | a new quantity of at least 1 keeps every line positive |
| CartLines.SetAllIsSetFirstWhenUnique | frontend-react/src/pages/CartPage.jsx:30-32 | with one line per name, the page's `map` over all matches equals the cart managers' change of the first match |
| CartLines.SetAllKeepsInvariants | frontend-react/src/pages/CartPage.jsx:29-35 | the `map` update keeps one line per name, and keeps positivity for a quantity of at least 1 |
| ReactCartManager.BroadcastCallsEachOnce | frontend-react/src/utils/cartManager.js:17-19 | notify calls each current listener exactly once, in subscription order, with the current cart |
| ReactCartManager.UnsubscribeUndoesSubscribe | frontend-react/src/utils/cartManager.js:9-14 | the returned unsubscribe restores the listener list from before a subscribe of a new listener |
| ReactCartManager.UnsubscribeKeepsOthers | frontend-react/src/utils/cartManager.js:11-13 | unsubscribe removes every registration of that listener and keeps all others, in order |
| ReactCartManager.CartManager.constructor | frontend-react/src/utils/cartManager.js:3-6 | the store starts from the stored cart, or empty, with no listeners |
| ReactCartManager.CartManager.Subscribe | frontend-react/src/utils/cartManager.js:9-10 | the listener is appended |
| ReactCartManager.CartManager.Unsubscribe | frontend-react/src/utils/cartManager.js:12 | the listener list becomes the old one without that listener |
| ReactCartManager.CartManager.Notify | frontend-react/src/utils/cartManager.js:17-19 | the calls made are exactly the broadcast of the cart to the listeners |
| ReactCartManager.CartManager.SaveCart | frontend-react/src/utils/cartManager.js:65-67 | the stored list equals the cart |
| ReactCartManager.CartManager.AddItem | frontend-react/src/utils/cartManager.js:22-40 | merge-or-append of a one-unit line, always true, then save and notify; the invariants are kept |
| ReactCartManager.CartManager.UpdateQuantity | frontend-react/src/utils/cartManager.js:43-55 | below 1 it is removal; an absent name changes, saves and notifies nothing; otherwise the first match takes the quantity, then save and notify |
| ReactCartManager.CartManager.RemoveItem | frontend-react/src/utils/cartManager.js:58-62 | every line with the name is dropped, then save and notify; the invariants are kept |
| ReactCartManager.CartManager.ClearCart | frontend-react/src/utils/cartManager.js:79-83 | the cart and the stored list become empty, and listeners hear of the empty cart |
| ReactCartManager.CartManager.GetCartTotal | frontend-react/src/utils/cartManager.js:86-88 | the result is Σ price × quantity |
| ReactCartManager.CartManager.GetItemsCount | frontend-react/src/utils/cartManager.js:91-93 | the result is Σ quantity, at least the line count while the store is consistent |
| ReactCartManager.CartManager.GetCartItems | frontend-react/src/utils/cartManager.js:96-98 | the copy equals the cart |
| ReactCartManager.DatesTwice | frontend-react/src/utils/cartManager.js:22-40 | adding one product twice gives one line of two units, the subtotal 90 and total 105, and the subscriber hears both additions |
| ProductCard.FindMatch | frontend-react/src/components/ProductCard.jsx:38-41 | the first stored line matching by a truthy id or by name, and None exactly when no line matches |
| ProductCard.AddToCart | frontend-react/src/components/ProductCard.jsx:34-71 | a refused add writes nothing and shows the cap warning; an accepted add writes the merged cart and shows the notices in order |
| ProductCard.AcceptedAddEffect | frontend-react/src/components/ProductCard.jsx:55-66 | an accepted add raises the unit count by exactly 1 and the line count by at most 1; a matching add changes only the matched line |
| ProductCard.AcceptedAddKeepsCap | frontend-react/src/components/ProductCard.jsx:44-64 | an accepted add keeps a cart of at most five lines at most five lines |
| ProductCard.CapHoldsForAnyClicks | frontend-react/src/components/ProductCard.jsx:43-47 | whatever sequence of products is clicked, a cart that starts with at most five lines never exceeds five |
| ProductCard.CardAddKeepsUnique | frontend-react/src/components/ProductCard.jsx:55-64 | an add keeps one line per name, and the product matches a line afterwards |
| ProductCard.RefusedAddOnlyWarns | frontend-react/src/components/ProductCard.jsx:44-47 | a refused add shows only the non-persistent cap warning |
| ProductCard.SoftWarningIsReplaced | frontend-react/src/components/ProductCard.jsx:49-70 | above ten units the persistent warning is raised, but the success notice shown after it is what stays on screen |
| ProductCard.SoftWarningReplacedExample | frontend-react/src/components/ProductCard.jsx:49-70 | a cart of ten units and one click on a new product leave a notice that closes itself |
| ProductCard.IntendedWarningStays | frontend-react/src/components/ProductCard.jsx:49-53 | with the warning shown last, the persistent notice stays exactly when the add goes above ten units |
| ProductCard.GenerateStars | frontend-react/src/components/ProductCard.jsx:13-32 | the loops push exactly the star row of the rating |
| ProductCard.ShownRating | frontend-react/src/components/ProductCard.jsx:91 | `rating \|\| 4.5`: a missing or zero rating is drawn as 4.5, any other as itself |
| StarRating.StarRowOfRating | frontend/js/products.js:96-115 | for 0 ≤ rating ≤ 5 the row has five icons, with the full ones exactly before ⌊rating⌋ and a half one exactly at ⌊rating⌋ when the rating is fractional |
| StarRating.StarRowAboveFive | frontend/js/products.js:109-112 | a rating of 6 or more gives more than five icons, because nothing caps the row |
| CartPage.SanitiseRoundTrip | frontend-react/src/pages/CartPage.jsx:14-23 | lines whose product is a name come through the repair unchanged |
| CartPage.SanitiseIdempotent | frontend-react/src/pages/CartPage.jsx:14-26 | repairing what the page wrote back changes nothing |
| CartPage.SanitiseFlattensNested | frontend-react/src/pages/CartPage.jsx:15-20 | a nested product gives its name to `product` and its id to `product_id`, keeping every other field |
| CartPage.EmptyCartTotalIsShipping | frontend-react/src/pages/CartPage.jsx:43-46 | on an empty cart the count is 0 and the total is the shipping fee |
| CartPage.DecrementTarget | frontend-react/src/pages/CartPage.jsx:90 | the "−" target is at least 1, and is quantity − 1 whenever that is at least 1 |
| CartPage.TypedTarget | frontend-react/src/pages/CartPage.jsx:98 | the typed target is at least 1, is 1 for unparsable text, and is the parsed number when that is at least 1 |
| CartPage.TypedNumberIsKept | frontend-react/src/pages/CartPage.jsx:98 | typing a number of at least 1, followed by any non-digit text, sets exactly that number |
| CartPage.PayloadKeepsTotals | frontend-react/src/pages/CartPage.jsx:179-183 | the order has one item per line, in order, with its quantity and price, so it carries the cart's unit count and subtotal |
| CartPage.GateIgnoresUnitCount | frontend-react/src/pages/CartPage.jsx:158-168 | with a token and more than ten units the order is still submitted |
| CartPage.CartView.constructor | frontend-react/src/pages/CartPage.jsx:10-27 | the page's cart is the repaired stored list (empty when absent), and it is written back |
| CartPage.CartView.UpdateQuantity | frontend-react/src/pages/CartPage.jsx:29-35 | every line with the name takes the quantity, the rest stay, and the result is stored |
| CartPage.CartView.RemoveItem | frontend-react/src/pages/CartPage.jsx:37-41 | exactly the lines with the name are dropped, and the result is stored |
| CartPage.CartView.Decrement | frontend-react/src/pages/CartPage.jsx:90 | the line's name takes the clamped decrement, and positivity is kept |
| CartPage.CartView.TypeQuantity | frontend-react/src/pages/CartPage.jsx:98 | the line's name takes the clamped typed quantity, and positivity is kept |
| CartPage.CartView.Increment | frontend-react/src/pages/CartPage.jsx:104 | the line's name takes quantity + 1 |
| CartPage.CartView.Checkout | frontend-react/src/pages/CartPage.jsx:157-206 | no token or an empty cart sends nothing and changes nothing; otherwise the payload is sent, only a created order empties the cart and the key, and a refusal or failed fetch keeps both |
| LegacyShoppingCart.AddAgreesWithReactStore | frontend/js/script.js:8-19 | this cart and the React store add to the same stored cart with the same names, prices, quantities and sums |
| LegacyShoppingCart.ShoppingCart.constructor | frontend/js/script.js:3-6 | the items are the stored list or empty, and the badge shows their unit count |
| LegacyShoppingCart.ShoppingCart.GetTotalItems | frontend/js/script.js:32-34 | the result is Σ quantity |
| LegacyShoppingCart.ShoppingCart.GetTotalPrice | frontend/js/script.js:36-38 | the result is Σ price × quantity |
| LegacyShoppingCart.ShoppingCart.SaveCart | frontend/js/script.js:40-42 | the stored list equals the items |
| LegacyShoppingCart.ShoppingCart.UpdateCartCount | frontend/js/script.js:44-49 | the badge shows the unit count |
| LegacyShoppingCart.ShoppingCart.AddItem | frontend/js/script.js:8-24 | merge-or-append of a one-unit line without id, image or farm; then it is stored, the badge is refreshed and one notice is added |
| LegacyShoppingCart.ShoppingCart.RemoveItem | frontend/js/script.js:26-30 | every line with the name is dropped, stored and counted |
| LegacyShoppingCart.AddTwice | frontend/js/script.js:8-24 | adding one product twice gives one line of two units and a badge of 2 |
| LegacyCartManager.OrDefault | frontend/js/cart.js:29-33 | `value \|\| fallback` for an image or farm field |
| LegacyCartManager.Render | frontend/js/cart.js:27-48 | one row per line, in order, with its name, price and quantity, and never an empty image or farm |
| LegacyCartManager.PlainLinesShowDefaults | frontend/js/cart.js:29-33 | lines without image or farm show the default image and farm |
| LegacyCartManager.CartManager.constructor | frontend/js/cart.js:3-7 | the cart is the stored list or empty, and the page is drawn from it |
| LegacyCartManager.CartManager.LoadCart | frontend/js/cart.js:9-51 | the rows, the empty panel, the summary and the badge all match the cart |
| LegacyCartManager.CartManager.UpdateSummary | frontend/js/cart.js:53-69 | the summary is that of the cart, and the badge shows its unit count |
| LegacyCartManager.CartManager.SaveCart | frontend/js/cart.js:86-88 | the stored list equals the cart |
| LegacyCartManager.CartManager.UpdateQuantity | frontend/js/cart.js:71-78 | the first match takes the quantity and is saved and redrawn; an absent name changes and saves nothing |
| LegacyCartManager.CartManager.RemoveItem | frontend/js/cart.js:80-84 | the named lines are dropped, the result is saved and the page is redrawn |
| LegacyCartManager.CartManager.Increase | frontend/js/cart.js:93-99 | an existing line gains exactly one unit, and the result is saved and redrawn; an absent one changes and saves nothing |
| LegacyCartManager.CartManager.Decrease | frontend/js/cart.js:101-107 | a line above one unit loses one, and the result is saved and redrawn; otherwise nothing changes or is saved, so positivity is kept |
| LegacyCartManager.CartManager.ChangeQuantity | frontend/js/cart.js:116-123 | a typed number above 0 is applied to an existing line, saved and redrawn; unparsable or non-positive text, or an absent name, changes and saves nothing |
| LegacyCartManager.CartManager.Checkout | frontend/js/cart.js:127-133 | an empty cart gives the alert, and any other cart leads to the checkout page |
| PriceFilter.RangeBounds | frontend/js/products.js:131 | a filter value 'lo-hi' reads back as the bounds lo and hi |
| PriceFilter.SingleValueHasNoUpperBound | frontend/js/products.js:131 | a value without '-' has an undefined upper bound |
| LegacyProducts.CatalogDrawsFiveStars | frontend/js/products.js:2-63 | every catalog rating draws exactly five icons |
| LegacyProducts.GenerateStars | frontend/js/products.js:96-115 | the markup is the joined icons of the rating's star row |
| LegacyProducts.FilterProductsExact | frontend/js/products.js:118-136 | the result is an order-preserving subsequence, holding exactly the products that pass the category filter (none when 'all') and the price range |
| LegacyProducts.RangeIsInclusive | frontend/js/products.js:130-133 | a range 'lo-hi' keeps a price exactly when lo ≤ price ≤ hi |
| LegacyProducts.NaNBoundKeepsNothing | frontend/js/products.js:130-133 | a bound that is not a number leaves nothing |
| LegacyProducts.FirstDigit | frontend/js/products.js:193 | the position of the first digit, and None exactly when the text has no digit |
| LegacyProducts.NumberAt | frontend/js/products.js:193 | at a digit, the match is the longest prefix that is a decimal number (digits, optionally a point and digits); no longer prefix is one |
| LegacyProducts.ExtractPrice | frontend/js/products.js:192-195 | '0' when the text has no digit; otherwise the longest decimal number starting at the first digit, i.e. the first decimal number in the text |
| LegacyProducts.ExtractPriceReadsLabel | frontend/js/products.js:192-195 | scraping a card's price text gives back the catalog price |
| LegacyProducts.ExtractPriceWithoutDigits | frontend/js/products.js:194 | text without digits scrapes to '0' |
| LegacyProducts.ExtractBackgroundImage | frontend/js/products.js:198-205 | a missing element or a style not starting with 'url' gives '' |
| LegacyProducts.BackgroundImageRoundTrip | frontend/js/products.js:201-202 | the browser's `url("x")` form scrapes back to x |
| LegacyProducts.ResolveFields | frontend/js/products.js:160-166 | each field is its data attribute when set; otherwise the price is the scraped price, the image the scraped background image, and the farm the farm text when set, else the default farm |
| LegacyProducts.FallbackAdd | frontend/js/products.js:173-188 | a new one-unit line is always appended, and the badge shows the new unit count |
| LegacyProducts.FallbackDuplicates | frontend/js/products.js:176-184 | the fallback add raises the unit count by one, and for a name already present it breaks one line per name |
| LegacyProducts.UpdateCartCount | frontend/js/products.js:208-215 | the badge count is Σ quantity of the stored cart |
| ProductsPage.ProductList | frontend-react/src/pages/ProductsPage.jsx:27-31 | `results` of a paginated answer, else the answer itself |
| ProductsPage.FilteredProductsKeepOrder | frontend-react/src/pages/ProductsPage.jsx:40-49 | 'all' keeps every product, and any filter keeps an order-preserving subsequence |
| ProductsPage.CategoryIgnored | frontend-react/src/pages/ProductsPage.jsx:41-42 | the result does not depend on the category |
| ProductsPage.RangeKeepsExactly | frontend-react/src/pages/ProductsPage.jsx:44-47 | with 'lo-hi', a priced product is shown exactly when lo ≤ price ≤ hi, and an unpriced one is always shown |
| ProductsPage.LowerBoundOnly | frontend-react/src/pages/ProductsPage.jsx:44-47 | a single number as the filter value leaves the upper bound undefined: a priced product is shown exactly when its price is at least that number, and an unpriced one is always shown |
| ProductsPage.NaNBoundsKeepEverything | frontend-react/src/pages/ProductsPage.jsx:45-46 | bounds that are both NaN drop nothing |
| HomePage.Featured | frontend-react/src/pages/HomePage.jsx:20-22 | the first min(4, n) products, in order |
| HomePage.LatestOrder | frontend-react/src/pages/HomePage.jsx:36-55 | an order exactly when there is a token, an answer and a non-empty list, and then the first one |
| HomePage.StepFor | frontend-react/src/pages/HomePage.jsx:63-71 | the step is in 0..3: pending/confirmed give 1, preparing/ready 2, completed 3, and otherwise the cart gives 1 or 0 |
| HomePage.CheckStatus | frontend-react/src/pages/HomePage.jsx:57-74 | the step the reassignments leave equals the tracker step |
| HomePage.ProgressShowsOrderStage | frontend-react/src/pages/HomePage.jsx:141 | the line is full exactly for a completed order, half exactly for preparing or ready, and empty otherwise |
| HomePage.OrderOutranksCart | frontend-react/src/pages/HomePage.jsx:66-71 | a listed order status decides the step whatever the cart holds |
| OrderTrackingPage.FindIndex | frontend-react/src/pages/OrderTrackingPage.jsx:21-23 | `findIndex`: the first position with that id, or −1 exactly when there is none |
| OrderTrackingPage.StepIndexOfStatus | frontend-react/src/pages/OrderTrackingPage.jsx:13-23 | the five statuses sit at their own positions; every other status, including cancelled and delivered, gives −1 |
| OrderTrackingPage.StepFlags | frontend-react/src/pages/OrderTrackingPage.jsx:163-165 | the completed circles are a prefix up to the index, exactly one label is active for a listed status, and none otherwise |
| OrderTrackingPage.ProgressWidthRange | frontend-react/src/pages/OrderTrackingPage.jsx:156 | a listed status draws 0–90%, completed 90%, pending 0%, and any other status −22.5% |
| OrderTrackingPage.BadgeLabelFallback | frontend-react/src/pages/OrderTrackingPage.jsx:137 | the badge is the step's caption, or the raw status when it is unlisted |
| OrderTrackingPage.Track | frontend-react/src/pages/OrderTrackingPage.jsx:25-54 | an empty number searches nothing; otherwise the first order of the answer is shown, an empty list gives the not-found message, an error status the search-error message and a failed fetch the connection message |
| ApiErrors.FirstMessage | frontend-react/src/pages/LoginPage.jsx:27-30 | `Array.isArray(v) ? v[0] : v`, which is nothing for an empty list |
| LoginPage.GetErrorMessage | frontend-react/src/pages/LoginPage.jsx:14-56 | an error field gives a non-empty message, detail shows as it came, a truthy email, password or non_field_errors field (the first one) gives its first message, with no truthy field the status picks the 401, 400 or generic text, and nothing is shown only for an empty message list |
| LoginPage.FirstTruthyFieldDecides | frontend-react/src/pages/LoginPage.jsx:14-56 | the first truthy field among error, detail, email, password and non_field_errors alone decides the message; the status decides (401, 400, generic) only when none is truthy |
| LoginPage.ErrorFieldShown | frontend-react/src/pages/LoginPage.jsx:15-20 | 'Invalid credentials' becomes the wrong-credentials text, and any other error is shown as it came |
| LoginPage.ListFieldGivesFirst | frontend-react/src/pages/LoginPage.jsx:26-31 | a list-valued field gives its first message, and an empty list gives nothing |
| LoginPage.ValidateLogin | frontend-react/src/pages/LoginPage.jsx:65-78 | a request carries the trimmed e-mail and the password as typed |
| LoginPage.ValidateLoginOrder | frontend-react/src/pages/LoginPage.jsx:65-78 | a blank e-mail is refused first, then an empty password, and otherwise the request is sent |
| LoginPage.SelectTokens | frontend-react/src/pages/LoginPage.jsx:92-98 | the nested tokens when present, else the top-level pair when both are truthy, else none |
| SignupPage.InitialRole | frontend-react/src/pages/SignupPage.jsx:15 | farmer exactly when the URL role is 'farmer', and consumer otherwise |
| SignupPage.FlagsExclusive | frontend-react/src/pages/SignupPage.jsx:39-40 | the flags are never both set, and for a role from the URL exactly one is set |
| SignupPage.PasswordMessage | frontend-react/src/pages/SignupPage.jsx:67-75 | 'too short', then 'common', then 'numeric' map to their fixed texts, and any other error is shown raw |
| SignupPage.EmailMessage | frontend-react/src/pages/SignupPage.jsx:78-82 | an error containing 'unique' maps to the already-registered text, and any other is shown raw |
| SignupPage.SignupErrorPriority | frontend-react/src/pages/SignupPage.jsx:65-92 | the message comes from password (its first entry through the password mapping), else email (its first entry through the e-mail mapping), an empty list of either giving the connection error, else username, else detail or the default text |
| SignupPage.TooShortExample | frontend-react/src/pages/SignupPage.jsx:66-68 | Django's too-short message list maps to the fixed too-short text |
| SignupPage.CommonBeforeNumeric | frontend-react/src/pages/SignupPage.jsx:69-72 | an error naming both 'common' and 'numeric' shows the 'common' text |
| SignupPage.EmptyPasswordListShowsConnectionError | frontend-react/src/pages/SignupPage.jsx:65-92 | an empty password list throws in `includes`, so the connection error is shown |
| ProfilePage.LoadProfile | frontend-react/src/pages/ProfilePage.jsx:40-47 | the form has exactly the six fields, each the answer's text or '' |
| ProfilePage.LoadProfileIgnoresExtras | frontend-react/src/pages/ProfilePage.jsx:40-47 | extra answer fields never reach the form |
| ProfilePage.SubmitErrorMessage | frontend-react/src/pages/ProfilePage.jsx:94-97 | the overwriting checks give the priority message: username over e-mail over detail over the default |
| ProfilePage.TextErrorShowsFirstCharacter | frontend-react/src/pages/ProfilePage.jsx:96 | a plain-text e-mail error shows only its first character |
| ProfilePage.RoleLabel | frontend-react/src/pages/ProfilePage.jsx:150 | the farmer text exactly for 'farmer', and the consumer text otherwise |
| ProfilePage.ProfileForm.constructor | frontend-react/src/pages/ProfilePage.jsx:40-47 | the form is the loaded profile, with no messages |
| ProfilePage.ProfileForm.HandleChange | frontend-react/src/pages/ProfilePage.jsx:61-67 | only the named field changes, and both messages clear |
| ProfilePage.ProfileForm.ApplySuccess | frontend-react/src/pages/ProfilePage.jsx:73-91 | the submit clears the error, sets the success text, and the answer's fields overwrite the form's while the others stay |
| ProfilePage.ProfileForm.ApplyFailure | frontend-react/src/pages/ProfilePage.jsx:73-99 | the submit clears the success text, the form is kept, and the error is the username, else e-mail, else detail, else default message |
| UserModels.CanBrowseAndBuy | backend/core/models.py:41-43 | every account may browse and buy |
| UserModels.Roles | backend/core/models.py:50-56 | at most three roles; admin exactly for superuser or staff, farmer and consumer exactly for their flags |
| UserModels.GetUserRole | backend/core/models.py:45-61 | the appended roles joined with '_', or 'consumer' |
| UserModels.IsInStock | backend/core/models.py:136-138 | in stock only for an available product with at least one unit; unavailable or out of units means not in stock |
| UserModels.StockChanges | backend/core/models.py:136-138 | adding units keeps a product in stock, and a stock of zero is never in stock |
| UserModels.RoleStringParts | backend/core/models.py:50-65 | the role string is never empty, splits back into the roles present, and names admin exactly when `is_admin` holds |
| Serializers.ValidateRegistration | backend/core/serializers.py:58-64 | an error on password exactly when the two passwords differ, and otherwise the data unchanged |
| Serializers.CreateFields | backend/core/serializers.py:72-79 | both passwords are removed, and is_consumer is set only when neither role flag is truthy |
| Serializers.CreatedUserHasRole | backend/core/serializers.py:72-85 | a registered account is farmer or consumer, never admin, with role farmer, consumer or farmer_consumer |
| Serializers.ValidateLogin | backend/core/serializers.py:97-106 | refused exactly when neither e-mail nor username is truthy, and otherwise the data unchanged |
| Serializers.SerializeUser | backend/core/serializers.py:21-27 | the role is `get_user_role`, never empty, and is_admin holds exactly when the role names admin |
| Serializers.SerializedAdminAgrees | backend/core/serializers.py:21-27 | the serialised is_admin holds exactly when the serialised role names admin |
| StatusHistory.StatusDisplayTable | backend/core/models/order_tracking.py:38-62 | in either `status_map` the seven codes show seven distinct labels, any other code (blank included) shows as itself, and a shown label is unchanged when shown again |
| StatusHistory.TablesAgree | backend/core/models/order_tracking.py:40-61 | the two separately written `status_map` literals hold the same codes with the same labels |
| StatusHistory.OldAndNewAgree | backend/core/models/order_tracking.py:38-62 | because the two tables agree, equal old and new codes show equal labels |
| JsStrings.TrimEmptyIffBlank | frontend-react/src/pages/LoginPage.jsx:65-68 | `trim()` gives '' exactly for a blank string |
| JsStrings.ParseIntDecimal | frontend/js/cart.js:119 | `parseInt` reads back a rendered number, whatever non-digit text follows it |
| JsStrings.ToNumberDecimal | frontend/js/products.js:131 | `Number` reads back a rendered natural number |
| JsStrings.SplitJoin | backend/core/models.py:61 | splitting a join of separator-free parts gives the parts back |

## Left out

- Network calls (`fetch`) are out. Each answer a page acts on is a parameter (`OrderResponse`, `SearchAnswer`, `ProductsResponse`, `OrdersResponse`, the error bodies). Loading states are not modelled.
- DOM rendering, JSX markup, inline styles, `alert`, `navigate` and event wiring are out. The static cart page's rows are kept as values, and the markup text is not.
- The static site's scroll and anchor handlers, the notification toast and its timer, and the React notification components are out, because they are timing and DOM only.
- `displayProducts` markup is out. Only the star markup it embeds is modelled.
- `handleAddToCart`'s first two branches are not modelled. They call whichever global `addToCart` or `cartManager` the page has loaded, and which one runs depends on load order. Only the fallback add is modelled, together with the field resolution before it.
- Browser storage is one `Storage` object. The `storage` event, cross-tab updates and the React store's asynchronous `saveCart` are out, as is its empty back-end sync. A failing storage write and its thrown error are not modelled.
- Cart aliasing is not captured: `notify` hands listeners the live cart array and `getCartItems` copies only the array, so line objects are shared with the store; the model records deliveries and copies as values, so a later in-place quantity change does not show through to what a caller kept (no modelled caller keeps them).
- Listener aliasing is not captured: listeners are identified by a number rather than by function identity.
- Prices are `real`. `parseFloat`, floating-point rounding and `toFixed` are not modelled.
- `Number` and `parseInt` are modelled on decimal digit strings. Signs, decimals, hexadecimal and exponents in `Number`, and non-ASCII white space in `trim`, are out.
- `CartPage.CartView.constructor`: stored lines whose `product` is a nested object reach the page only through the constructor's `raw` parameter. Fields of other JSON types are not modelled.
- `CartPage.CartView.Checkout`: when a refused order has no `error`, the alert shows `JSON.stringify` of the whole body. The model gives `OrderFailed(None)` and does not model that text.
- `ProfilePage.LoadProfile`: a present but falsy value other than '' is not modelled (a missing key stands for it).
- `ProductsPage.ApiProduct`: a price that `parseFloat` cannot read is `None`. A partially numeric price text is not distinguished from a number.
- Catalog reconciliation and rollback of a failed write are out; no code shown here implements either.
- Django views, URL routing, the admin, signals, the seed data and the database scripts are out. They are ORM and database plumbing, and the status-history view and signal do not work as written.
- The estimated-delivery field of the tracking serializer is out, because it reads the wall clock.

## Findings

| source | as written | input that shows it | evidently intended | confidence | as-written member | corrected member |
|---|---|---|---|---|---|---|
| frontend-react/src/components/ProductCard.jsx:49-70 | the persistent soft-limit warning is raised, then the success notice replaces it in the same click, so the notice left on screen closes itself | a stored cart with one line of 10 units, then a click on a product not in the cart | the warning stays on screen whenever the add takes the cart above ten units | medium, not executed | ProductCard.SoftWarningIsReplaced | ProductCard.IntendedWarningStays |
