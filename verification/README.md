# Storefront money, quantity and checkout rules in Dafny

This project models the parts of the storefront (a React shop over a hosted
database) that compute or decide something, rather than just display records:

- **Checkout**: the shipping-address schema and its per-field error map.
  The submit handler checks the address, then the signed-in user, then the
  non-empty cart. It prices the order (free shipping from 50 dollars on,
  otherwise 5 dollars) and then runs a fixed sequence of writes: insert the
  order, insert one item per cart line at the price of that moment, clear
  the cart. Each write can fail, and a failed write ends the sequence with
  no compensation. The page also redirects before rendering and shows a
  summary.
- **Cart page**: which view it shows, the summary (the same shipping rule),
  the "add $X more for free shipping" hint, the line amounts, the low-stock
  notice and the quantity each +/- button requests.
- **Product page**: the quantity stepper, clamped to `[1, stock]` and
  starting at 1. Also the image list (main image first, then the extra
  images, null and empty entries dropped), availability, and the
  add-to-cart request.
- **Catalog page**: the filters read from the URL with their defaults, and
  the product query as a value (filter clauses plus one ordering). Also the
  handlers that write a URL parameter when the value is not the default and
  delete it otherwise.
- **Admin dashboard**: revenue as a left fold over the order totals (proved
  equal to a plain sum), counts that default to 0, and no update at all
  when any of the three responses carries an error.

Money is integer cents: the threshold is `5000` and the fee is `500`.
The cart subtotal (`cartTotal`) comes from the cart hook, which is not part
of this model, so it is an input everywhere. The backend is an abstract
`Checkout.Store` holding the orders, the order items and the cart. Each
write gets an explicit success input, and the id of a new order is an input
as well. Pages whose state changes step by step are classes
(`CheckoutPage`, `ProductDetailPage`, `ShopPage`). Pure derivations are
functions with lemmas.

The code has none of the following, and neither does the model:

- The checkout applies no coupon or discount.
- It does not re-check stock before placing an order.
- It does not reject any payment method. It stores whatever the form holds,
  `"cod"` by default.
- It does not trim the address fields. The schema only checks minimum
  lengths: full name 2, address 5, city 2, ZIP code 3, phone 10. Lengths
  are JavaScript string lengths, in UTF-16 code units, so a character
  outside the Basic Multilingual Plane counts twice.
- Its writes are independent. If the item insert fails, the order row
  stays.

Two behaviours of the code are stated as they are:

- `ShopPage` starts with an empty category list, and `FetchProducts` uses
  whatever list the page holds at that moment. So a fetch made before the
  categories arrive sends no category clause (`Shop.NoCategoriesNoCategoryClause`).
- `ProductDetailPage.FetchProduct` does not reset the quantity. So
  `1 <= quantity <= stock` is kept by the stepper relative to the product
  that is loaded, not across a change of product.

## Model

| member | source | states |
|---|---|---|
| `Pricing.ShippingCost` | src/pages/Checkout.tsx:67 | Shipping is 0 exactly when the subtotal is at least the threshold (inclusive), and the flat fee exactly below it. |
| `Pricing.OrderTotal` | src/pages/Checkout.tsx:67-68 | The total exceeds the subtotal by the shipping cost, so by 0 or by the fee, never less than the subtotal. |
| `Pricing.AmountToFreeShipping` | src/pages/Cart.tsx:192-196 | The hint exists exactly below the threshold; its amount is positive and brings the subtotal exactly to the threshold. |
| `Pricing.HintReachesFreeShipping` | src/pages/Cart.tsx:192-196 | Adding the hinted amount gives free shipping and a total equal to the threshold. |
| `Pricing.TotalDropsAtThreshold` | src/pages/Cart.tsx:172 | An order one cent below the threshold costs more than one at the threshold. |
| `CartLines.LineTotal` | src/pages/Cart.tsx:145 | A line's amount is `price × quantity`: never negative for a non-negative price and quantity, and at least one unit's price from quantity 1 on. `CartPage.RenderLines` and `Checkout.SummaryLines` state the amount each page shows (Cart.tsx:145, Checkout.tsx:274). |
| `Checkout.Key` | src/pages/Checkout.tsx:14-20 | Each field's schema key is non-empty, so every issue the schema raises is keyed (`Checkout.AddressErrors` states that the keys are the fields' keys, and `Checkout.KeyInjective` states that they are distinct). |
| `Checkout.MinLength` | src/pages/Checkout.tsx:14-20 | Each field's minimum lies between 2 and 10 code units: 2, 5, 2, 3 and 10 in schema order. |
| `Checkout.Message` | src/pages/Checkout.tsx:14-20 | Each field's message is a non-empty name followed by " is required". |
| `Checkout.KeyInjective` | src/pages/Checkout.tsx:14-20 | Two fields with the same key are the same field. |
| `Checkout.Utf16Length` | src/pages/Checkout.tsx:15-19 | The length `min` compares is in UTF-16 code units: at least the number of characters and at most twice it. |
| `Checkout.Utf16LengthBmp` | src/pages/Checkout.tsx:15-19 | That length equals the number of characters exactly when no character lies outside the Basic Multilingual Plane. |
| `Checkout.AstralNameMeetsMinimum` | src/pages/Checkout.tsx:15 | A full name of one character outside the Basic Multilingual Plane meets the minimum of 2, because `.length` counts its surrogate pair. |
| `Checkout.FieldIssues` | src/pages/Checkout.tsx:14-20 | A field yields one issue, keyed by its name and carrying its message, exactly when its UTF-16 length is below its minimum. |
| `Checkout.AddressIssues` | src/pages/Checkout.tsx:14-20 | The schema reports no issue exactly when every field meets its minimum length. |
| `Checkout.ErrorMap` | src/pages/Checkout.tsx:110-115 | The `forEach` that fills `fieldErrors` as a left fold: the map has no more keys than there are issues. `Checkout.ErrorMapKeys` states which keys it has, and `Checkout.ErrorMapAppend` states that a later issue wins. |
| `Checkout.ErrorMapKeys` | src/pages/Checkout.tsx:110-115 | The map's keys are exactly the first path elements of the issues whose first path element is truthy. |
| `Checkout.ErrorMapAppend` | src/pages/Checkout.tsx:110-115 | Filling the error map over two runs of issues overlays the second run's errors on the first's (a later issue for a key wins). |
| `Checkout.AddressErrors` | src/pages/Checkout.tsx:109-116 | The shown error map has a key for a field exactly when it is too short, with that field's message, has no other key, and is empty exactly for a valid address. |
| `Checkout.CollectFieldErrors` | src/pages/Checkout.tsx:110-115 | The in-place loop over the issues builds the error map: for each keyed issue, its message under its first path element. |
| `Checkout.NewOrder` | src/pages/Checkout.tsx:71-81 | The order carries the user's id, the address snapshot, the chosen payment method and status "pending", its id is the id the backend assigned (the items' `order_id`), and its total minus the subtotal is the shipping cost. |
| `Checkout.OrderItemsFor` | src/pages/Checkout.tsx:86-91 | One item per cart line, in cart order, each with the order's id and the line's product id, quantity and current product price. |
| `Checkout.ItemsMatchCart` | src/pages/Checkout.tsx:86-91 | The items' captured prices times quantities add up to the cart's subtotal at submission-time prices. |
| `Checkout.OrderTotalCoversItems` | src/pages/Checkout.tsx:67-91 | When the hook's subtotal is the cart's live subtotal, the order total is the items' worth plus shipping. |
| `Checkout.Store.InsertOrder` | src/pages/Checkout.tsx:71-83 | The order table gains exactly the given row when the write succeeds, and is unchanged otherwise. |
| `Checkout.Store.InsertOrderItems` | src/pages/Checkout.tsx:93-97 | The items are inserted all together when the write succeeds, and none otherwise. |
| `Checkout.Store.ClearCart` | src/pages/Checkout.tsx:100 | The cart becomes empty when clearing succeeds, and is unchanged otherwise. |
| `Checkout.SummaryLines` | src/pages/Checkout.tsx:268-277 | One summary row per cart line: name, quantity and price times quantity. |
| `Checkout.RenderCheckout` | src/pages/Checkout.tsx:130-141 | Redirect to sign-in without a user, back to the cart when it is empty, otherwise a summary of the cart's lines with "Free" exactly from the threshold on, else the flat fee, and the order total. |
| `Checkout.SummaryShowsOrderTotal` | src/pages/Checkout.tsx:140-141 | The total the summary shows is the total a submission writes on the order. |
| `Checkout.CheckoutPage.constructor` | src/pages/Checkout.tsx:27-37 | The form starts empty, with payment method "cod", no errors and not loading. |
| `Checkout.CheckoutPage.HandleSubmit` | src/pages/Checkout.tsx:39-128 | Checks run in order: address, then user, then cart. Any failure writes nothing and leaves the cart. Success inserts exactly one order and one item per line, then clears the cart. A failed order insert writes nothing. A failed item insert keeps the order. A failed clear keeps both and the cart. Field errors are shown only for an invalid address. Loading is false on every path. |
| `CartPage.DecrementRequest` | src/pages/Cart.tsx:102-111 | "-" is enabled exactly above quantity 1 and then requests quantity - 1 for that line, never below 1. |
| `CartPage.IncrementRequest` | src/pages/Cart.tsx:113-122 | "+" is enabled exactly below stock and then requests quantity + 1 for that line, never above stock. |
| `CartPage.LowStockNotice` | src/pages/Cart.tsx:135-139 | The "only N left" notice appears exactly when stock is below 10, naming the stock. |
| `CartPage.RenderLines` | src/pages/Cart.tsx:60-149 | One rendered line per cart line, with amount price times quantity and that line's buttons and notice. |
| `CartPage.RenderCart` | src/pages/Cart.tsx:12-50 | The sign-in prompt comes first, then loading, then the empty cart, and only then the list, whose rows are the rendered cart lines. |
| `CartPage.SummaryRules` | src/pages/Cart.tsx:157-196 | "Free" exactly from the threshold on, else the fee. The total is the checkout's order total. The hint appears exactly below the threshold, with the positive amount that reaches it. |
| `CartPage.RequestsStayInBounds` | src/pages/Cart.tsx:100-123 | No enabled button on the rendered page requests a quantity below 1 or above its line's stock. |
| `CartPage.ButtonsKeepQuantityInRange` | src/pages/Cart.tsx:105-119 | From a quantity within [1, stock], every enabled button requests a quantity within [1, stock]. |
| `ProductDetail.Compact` | src/pages/ProductDetail.tsx:105-108 | The filter keeps no empty entry; a non-empty string survives exactly when it was an entry. |
| `ProductDetail.CompactAppend` | src/pages/ProductDetail.tsx:105-108 | Filtering keeps order: filtering a concatenation is concatenating the filtered parts. |
| `ProductDetail.AllImages` | src/pages/ProductDetail.tsx:105-108 | No image in the list is empty, and a string is in it exactly when it is non-empty and is the main image or one of the extra images. `ProductDetail.AllImagesOrder` states the order. |
| `ProductDetail.AllImagesOrder` | src/pages/ProductDetail.tsx:105-108 | The image list is the main image (if present and non-empty) followed by the filtered extra images. |
| `ProductDetail.ShowThumbnails` | src/pages/ProductDetail.tsx:141 | Thumbnails appear exactly when, after filtering, there is at least one extra image beside a main image, or at least two extra images without one. |
| `ProductDetail.NoExtraImagesNoThumbnails` | src/pages/ProductDetail.tsx:141 | Without extra images no thumbnails are shown. |
| `ProductDetail.AvailabilityOf` | src/pages/ProductDetail.tsx:188-192 | "In Stock" with the stock exactly when stock is positive, otherwise "Out of Stock". |
| `ProductDetail.ShowsControls` | src/pages/ProductDetail.tsx:195 | The stepper and the add-to-cart button appear exactly when the badge says "In Stock". |
| `ProductDetail.StepDown` | src/pages/ProductDetail.tsx:204 | The decrement result is never below 1: one less above 1, else 1. |
| `ProductDetail.StepUp` | src/pages/ProductDetail.tsx:213 | The increment result never exceeds stock: one more below stock, else stock. |
| `ProductDetail.StepsStayInRange` | src/pages/ProductDetail.tsx:201-217 | A quantity within [1, stock] stays within [1, stock] after any sequence of presses. |
| `ProductDetail.InitialQuantityInRange` | src/pages/ProductDetail.tsx:195 | For a product that shows the stepper, every run of presses from the starting quantity 1 stays within [1, stock]. |
| `ProductDetail.ProductDetailPage.constructor` | src/pages/ProductDetail.tsx:31-34 | Nothing loaded, loading, quantity 1, no selected image. |
| `ProductDetail.ProductDetailPage.FetchProduct` | src/pages/ProductDetail.tsx:42-64 | On success the product and its main image are taken; on error both are kept; loading ends; quantity is untouched. |
| `ProductDetail.ProductDetailPage.Decrement` | src/pages/ProductDetail.tsx:195-206 | Pressable only while the stepper is shown and the quantity is above 1. The quantity becomes max(1, q - 1), which is then q - 1, and the range invariant is preserved. |
| `ProductDetail.ProductDetailPage.Increment` | src/pages/ProductDetail.tsx:195-215 | Pressable only while the stepper is shown and the quantity is below stock. The quantity becomes min(stock, q + 1), which is then q + 1, and the range invariant is preserved. |
| `ProductDetail.ProductDetailPage.SelectImage` | src/pages/ProductDetail.tsx:146 | A thumbnail click selects that image. |
| `ProductDetail.ProductDetailPage.AddToCartRequest` | src/pages/ProductDetail.tsx:66-70 | Add-to-cart sends the loaded product's id and the current quantity, and nothing when no product is loaded. |
| `ProductDetail.ProductDetailPage.Render` | src/pages/ProductDetail.tsx:72-195 | Skeleton while loading, "not found" without a product. Otherwise the details: thumbnails exactly for more than one image, the availability badge of the product, and availability and controls exactly for positive stock. |
| `Shop.ParamOr` | src/pages/Shop.tsx:47-51 | A parameter that is present and non-empty gives its value, anything else gives the default. |
| `Shop.InitialFilters` | src/pages/Shop.tsx:47-51 | Each filter starts from its parameter with defaults "", "all", "newest", "" and "". |
| `Shop.NoParamsGiveDefaults` | src/pages/Shop.tsx:47-51 | Without parameters the filters are all at their defaults. |
| `Shop.SyncParam` | src/pages/Shop.tsx:115-143 | The key is set to the value when it differs from the default and deleted otherwise; every other parameter is unchanged. |
| `Shop.SyncThenRead` | src/pages/Shop.tsx:115-123 | Reading a parameter back after it was synced gives the synced value, whenever that value is the default or non-empty. |
| `Shop.FindCategory` | src/pages/Shop.tsx:77 | A category is found exactly when one has the slug, and the one found has it. |
| `Shop.FindCategoryFirst` | src/pages/Shop.tsx:77 | The first category with the slug is the one found. |
| `Shop.BuildQuery` | src/pages/Shop.tsx:66-104 | Name clause `%q%` iff the search is non-empty. Category clause iff the selection is not "all" and a category has that slug, filtering on the first match's id. `gte`/`lte` iff the bounds are non-empty. No other clause, none twice. Sort by price up/down, name up, or else newest first. |
| `Shop.DefaultQuery` | src/pages/Shop.tsx:72-104 | For the default filters the query has no clause and is ordered by creation time, newest first. |
| `Shop.NoCategoriesNoCategoryClause` | src/pages/Shop.tsx:76-81 | With no categories loaded, no category clause is sent, whatever the selection. |
| `Shop.ShopPage.constructor` | src/pages/Shop.tsx:43-51 | The page starts with the URL's filters, no categories, no products, loading. |
| `Shop.ShopPage.FetchCategories` | src/pages/Shop.tsx:61-64 | Returned categories replace the list; no data keeps it. |
| `Shop.ShopPage.FetchProducts` | src/pages/Shop.tsx:66-113 | The query matches the current filters and categories; the products become the data or an empty list; loading ends. |
| `Shop.ShopPage.HandleSearchChange` | src/pages/Shop.tsx:115-123 | The search filter takes the value and the "search" parameter is synced against "". |
| `Shop.ShopPage.HandleCategoryChange` | src/pages/Shop.tsx:125-133 | The category filter takes the value and the "category" parameter is synced against "all". |
| `Shop.ShopPage.HandleSortChange` | src/pages/Shop.tsx:135-143 | The sort filter takes the value and the "sort" parameter is synced against "newest". |
| `Shop.ShopPage.HandleMinPriceChange` | src/pages/Shop.tsx:172 | Only the minimum-price filter changes; the URL is not touched. |
| `Shop.ShopPage.HandleMaxPriceChange` | src/pages/Shop.tsx:178 | Only the maximum-price filter changes; the URL is not touched. |
| `Shop.HandlersSurviveReload` | src/pages/Shop.tsx:115-143 | After any synced handler with a non-empty value, the filters read back from the URL give that value. |
| `AdminDashboard.Reduce` | src/pages/admin/AdminDashboard.tsx:40-43 | The left fold started at a value adds the reference sum of the amounts to it. |
| `AdminDashboard.SumAppend` | src/pages/admin/AdminDashboard.tsx:40-43 | Revenue over two batches of orders is the sum of their revenues. |
| `AdminDashboard.Revenue` | src/pages/admin/AdminDashboard.tsx:40-43 | Revenue is the sum of the order totals, and 0 without data. |
| `AdminDashboard.FirstError` | src/pages/admin/AdminDashboard.tsx:36-38 | There is an error exactly when some response has one, and the first in the order orders, products, users is the one reported. |
| `AdminDashboard.FetchStats` | src/pages/admin/AdminDashboard.tsx:28-56 | On any error the stats are unchanged and the first error is reported. Otherwise: revenue is the sum, orders the row count, and products and users the counts, each 0 when missing. Loading ends on every path. |
| `AdminDashboard.FailedFetchShowsZeros` | src/pages/admin/AdminDashboard.tsx:16-21 | A failed first fetch leaves the stats at all zeros. |
| `AdminDashboard.NoOrdersNoRevenue` | src/pages/admin/AdminDashboard.tsx:40-47 | With an empty order list, revenue and order count are 0. |

## Left out

- The database client is left out: query execution, `ilike` matching,
  inserts, returned rows and errors. Writes are store updates with a
  success input. Queries are values. Responses are inputs.
- The cart hook's internals are left out: `addToCart`, `updateQuantity`,
  `removeFromCart`, how `cartTotal` is computed, and how it loads lines.
  Also the auth hook. The user, the cart lines and `cartTotal` are inputs.
  The requests the pages send to the hook are values.
- Checkout.Store.ClearCart: `clearCart` is taken as either emptying the
  cart or failing and leaving it unchanged. A failure is reported like any
  other write error. If the hook swallows its own errors, its success input
  is always true.
- JavaScript numbers are left out: floating point, `parseFloat` of the
  price bounds, `Number(total_amount)`, and `toFixed(2)` formatting. Money
  is integer cents, and the price bounds stay as text in the clauses.
- Presentation and navigation are left out: markup, toasts, `navigate` and
  the busy label of the submit button. `SubmitOutcome.Placed` stands for
  the success toast plus the move to the dashboard.
  `Dashboard.failure` stands for the error toast.
- Checkout.CheckoutPage.HandleSubmit: the loading flag is stated only at
  the end of the handler (false on every path). That it is true while the
  writes are pending is not stated.
- Concurrency is left out: the dashboard's three requests run together in
  the page, but the model takes their three responses as inputs. Also the
  interleaving of the shop's category and product fetches, and any
  re-render between awaited steps.
- The URL parameters are a map with one value per key, not a multi-valued
  query string.
- The effect wiring is left out: the shop's refetch whenever a filter
  changes, and the product page's fetch guarded by a present slug. The
  caller invokes `FetchProducts` and `FetchProduct` explicitly.
- The other screens are outside the modelled core: admin CRUD pages,
  layout, home, the customer dashboard, the product card and routing.
