# Pharmacy storefront: cart engine and page state machines

This project models the client-side logic of a React pharmacy storefront in
Dafny and proves properties of it.

- **The cart.** `CartContext` holds an ordered list of line items keyed by
  product id. It has stock-checked mutations, totals with a free-delivery
  threshold of Rs. 500, and a validator that returns error messages in cart
  order.
- **The pages built on the cart:**
  - the four-step checkout;
  - the cart page's checkout gate, plus/minus buttons and in-flight set;
  - the catalogue's filters, URL query and five-button page window;
  - the product page's bounded quantity picker;
  - the customer's order cancellation rule and modals;
  - the administrator's access gate and local list updates.

Modules follow the source files:

| Module | File | Source |
|---|---|---|
| `Common` | `common.dfy` | `Option`, `Reply`, integer printing, the session flags, JavaScript white space |
| `Catalog` | `catalog.dfy` | the product and order records |
| `CartContext` | `cart_context.dfy` | `src/context/CartContext.jsx` |
| `Checkout` | `checkout.dfy` | `src/pages/Checkout.jsx` |
| `CartPage` | `cart_page.dfy` | `src/pages/Cart.jsx` |
| `ProductsPage` | `products_page.dfy` | `src/pages/Products.jsx` |
| `ProductDetails` | `product_details.dfy` | `src/pages/ProductDetails.jsx` |
| `OrdersPage` | `orders_page.dfy` | `src/pages/Orders.jsx` |
| `AdminDashboard` | `admin_dashboard.dfy` | `src/pages/AdminDashboard.jsx` |

**How state is modelled.**
- Component state that handlers update is a class: `CartStore`,
  `CheckoutPage`, `CartPageState`, `ProductsPage`, `ProductDetailsPage`,
  `OrdersPageState` and `DashboardState`.
- Each handler is a method with a `modifies` clause.
- The functional `setState` updaters are pure functions on sequences. For
  example, `AddStep`, `UpdateStep` and `RemoveLines` for the cart, and
  `ReplaceById`, `RemoveById` and `SetOrderStatus` for the dashboard. The
  methods are proved equal to them, and lemmas state what the functions
  promise.

**How the outside world is modelled.**
- A REST call the code awaits is split in two:
  - the moment it is sent (`PlaceOrder`, `BeginCancelOrder`,
    `BeginUpdateOrderStatus`);
  - the moment it ends (`FinishPlaceOrder`, `FinishCancelOrder`, and so on).
- The cart page's `handleQuantityChange` awaits the cart's `updateQuantity`.
  That is a synchronous update of local state and sends no request, so the
  line's "updating" mark lasts only until the next microtask. The model still
  splits it into `BeginQuantityChange` and `EndQuantityChange`.
- The way a call ends is a `Reply` parameter: an answer with its `success`
  flag and data, or a thrown error.
- Toasts become returned outcome values (`AddOutcome`, `UpdateOutcome`).
- Navigation becomes a returned `Navigation` or `GateAction`.

**Where the code differs from what a reader would expect,** the model
follows the code.

Cart:
- The `stock` stored in a cart line is a snapshot taken when the line is
  created. A later `addToCart` checks the product's fresh stock but never
  refreshes the snapshot. `StaleSnapshotAdmitsOverstock` exhibits a cart that
  `addToCart` accepts and `validateCart` then rejects.
- `addToCart` does not reject a zero or negative quantity
  (`AddRejectsOverStock`).

Checkout:
- The checkout never calls `validateCart`, so a cart whose lines exceed
  their stock can be submitted.
- `loading` is the only submission flag. Previous stays enabled while an
  order is in flight. The reply can therefore find the page on step 2 and
  still move it to step 4 and clear the cart (`PreviousDuringSubmission`).
- The order-complete screen ("Order Placed Successfully!", with Track Your
  Order and Continue Shopping) is never shown. A successful reply empties the
  cart in the same update that sets step 4, and the empty-cart screen is
  checked before any step is rendered. The page therefore shows "Your cart is
  empty" after every successful order (`SuccessShowsEmptyCart`).

Product page:
- `quantity` and `selectedImage` are not reset when another product is
  loaded. A kept quantity above the new stock plus one can be changed by
  neither button (`AboveCeilingIsStuck`). This needs the `:id` in the URL to
  change while the page stays mounted. The storefront's own links do not do
  that: product cards on the catalogue link to a product, and the product
  page links only back to the catalogue, so the page is mounted afresh for
  each product it is reached from.

Admin dashboard:
- Product creation ignores the answer's `success` flag (`FinishCreateProduct`).
- Product update does not raise `isSubmittingProduct`.

## Model

| member | source | states |
|---|---|---|
| CartContext.IndexOfProduct | src/context/CartContext.jsx:30 | the index of the first line with that product id, or -1 exactly when no line has it |
| CartContext.IndexOfUnique | src/context/CartContext.jsx:30 | in a cart without duplicate ids, looking up a line's id finds that line |
| CartContext.SetQuantityAt | src/context/CartContext.jsx:45-49 | the merge map sets the quantity of the lines with that id and leaves every other line and the length as they were |
| CartContext.UpdateLinesAt | src/context/CartContext.jsx:82-95 | the update map sets the new quantity on a matching line only when it is within that line's stored stock, and keeps every other line |
| CartContext.RemoveLinesMembers | src/context/CartContext.jsx:101 | the filter keeps exactly the lines with a different product id |
| CartContext.RemoveLinesAbsent | src/context/CartContext.jsx:101 | removing an id no line has leaves the cart unchanged |
| CartContext.RemoveLinesAt | src/context/CartContext.jsx:101 | in a cart with unique ids, removing line k's id yields the cart without position k, order kept |
| CartContext.AddAbsentAppends | src/context/CartContext.jsx:52-71 | a new product within stock is appended as one line at the end with the requested quantity, the product's stock and price; earlier lines unchanged |
| CartContext.AddRejectsOverStock | src/context/CartContext.jsx:33-57 | addToCart rejects exactly when the merged quantity or the new quantity exceeds the fresh stock; a rejection leaves the cart unchanged and reports that stock |
| CartContext.AddExistingIncreases | src/context/CartContext.jsx:45-49 | adding to an existing line changes only its quantity, to old plus added; its stock snapshot, the other lines and the order stay |
| CartContext.AddPreservesUniqueKeys | src/context/CartContext.jsx:28-74 | addToCart never creates a second line for a product id |
| CartContext.UpdateStepCases | src/context/CartContext.jsx:76-97 | updateQuantity removes for q <= 0, refuses above the line's stock, sets only the matching line otherwise, and ignores an absent id |
| CartContext.RemoveDeletesExactly | src/context/CartContext.jsx:99-108 | on a cart with unique ids, removeFromCart cuts out exactly the one line with that id and keeps the rest in order, and is a no-op for an absent id |
| CartContext.UpdatePreservesInvariants | src/context/CartContext.jsx:76-97 | updateQuantity keeps ids unique and every line within its stored stock |
| CartContext.RemovePreservesInvariants | src/context/CartContext.jsx:99-108 | removeFromCart keeps ids unique and every line within its stored stock |
| CartContext.AddPreservesInStock | src/context/CartContext.jsx:33-71 | addToCart keeps every line within its stock snapshot whenever the fresh stock is not above the snapshot of the matching line |
| CartContext.StaleSnapshotAdmitsOverstock | src/context/CartContext.jsx:45-49 | a concrete cart where an accepted add leaves a line above its snapshot and validateCart reports "Panadol: Only 1 items available" |
| CartContext.SubtotalAppend | src/context/CartContext.jsx:119 | the subtotal of two carts joined is the sum of their subtotals |
| CartContext.ItemCountAppend | src/context/CartContext.jsx:166 | the item count of two carts joined is the sum of their counts |
| CartContext.SumsAfterReplace | src/context/CartContext.jsx:118-129 | replacing one line changes the count and subtotal by exactly that line's difference |
| CartContext.AddChangesTotals | src/context/CartContext.jsx:118-129 | an accepted add raises the item count by the quantity and the subtotal by quantity times the line's price |
| CartContext.DeliveryRule | src/context/CartContext.jsx:118-129 | delivery is free exactly at subtotal >= 500 and 50 otherwise; total is subtotal plus delivery; the empty cart is charged 50 |
| CartContext.HasPrescriptionRequired | src/context/CartContext.jsx:132-134 | true exactly when some line requires a prescription |
| CartContext.StockErrorsEmptyIff | src/context/CartContext.jsx:143-147 | no stock message exactly when every line is within its stock |
| CartContext.StockErrorsAppend | src/context/CartContext.jsx:143-147 | stock messages come one per offending line, in cart order |
| CartContext.ValidIff | src/context/CartContext.jsx:137-154 | the cart is valid exactly when it is non-empty and every line is within its stock; the empty cart yields only "Cart is empty" |
| CartContext.ValidateCart | src/context/CartContext.jsx:137-154 | the loop builds the error list of the specification and reports valid exactly when the cart is non-empty and in stock |
| CartContext.CartStore.constructor | src/context/CartContext.jsx:7 | the cart starts empty |
| CartContext.CartStore.Load | src/context/CartContext.jsx:11-21 | a stored cart that parses replaces the cart; one that fails to parse is discarded and the cart kept; no stored cart changes nothing |
| CartContext.CartStore.AddToCart | src/context/CartContext.jsx:28-74 | the new cart and outcome are those of AddStep, with default quantity 1 |
| CartContext.CartStore.UpdateQuantity | src/context/CartContext.jsx:76-97 | the new cart and outcome are those of UpdateStep |
| CartContext.CartStore.RemoveFromCart | src/context/CartContext.jsx:99-108 | the cart loses the lines with that id; reports whether one was there |
| CartContext.CartStore.ClearCart | src/context/CartContext.jsx:110-115 | the cart becomes empty |
| Checkout.OrderItems | src/pages/Checkout.jsx:78-83 | the payload items are the cart lines projected to product, name, price and quantity, position by position |
| Checkout.Submission | src/pages/Checkout.jsx:63-96 | a request is built exactly when the cart is non-empty |
| Checkout.ClicksStayBeforeCompletion | src/pages/Checkout.jsx:421-438 | from steps 1-3, no run of Previous/Next clicks leaves steps 1-3 |
| Checkout.ClickMovesOneStep | src/pages/Checkout.jsx:421-438 | a click moves at most one step, step 4 is terminal, and Next at step 3 does not move |
| Checkout.CheckoutView | src/pages/Checkout.jsx:119-135 | the empty-cart view is shown exactly when the cart is empty; otherwise navigation exists below step 4 and Next is disabled exactly while loading |
| Checkout.CheckoutPage.constructor | src/pages/Checkout.jsx:20-31 | step 1, not loading, the user's address or blank fields, cash on delivery |
| Checkout.CheckoutPage.HandleInputChange | src/pages/Checkout.jsx:35-40 | only the named form field changes |
| Checkout.CheckoutPage.HandleAddressChange | src/pages/Checkout.jsx:42-50 | only the named address field changes |
| Checkout.CheckoutPage.HandleFileChange | src/pages/Checkout.jsx:52-61 | a picked file replaces the prescription; no file changes nothing |
| Checkout.CheckoutPage.ClickPrevious | src/pages/Checkout.jsx:423-426 | on a non-empty cart (the only one with buttons), the step follows StepAfterClick for Previous; nothing else changes |
| Checkout.CheckoutPage.ClickNext | src/pages/Checkout.jsx:428-438 | on a non-empty cart (the only one with buttons), steps 1-2 advance, step 3 submits the cart's request, loading or step 4 does nothing |
| Checkout.CheckoutPage.PlaceOrder | src/pages/Checkout.jsx:63-97 | the request sent is Submission of the current cart; loading stays up exactly when one is sent |
| Checkout.CheckoutPage.FinishPlaceOrder | src/pages/Checkout.jsx:98-109 | a successful answer clears the cart and sets step 4; false success or a throw leave cart and step; loading ends false |
| Checkout.SuccessShowsEmptyCart | src/pages/Checkout.jsx:98-135 | after a successful reply the step is 4 but the cart is empty, so the view is the empty-cart screen, never the order-complete step |
| Checkout.PaymentIsCashOnDelivery | src/pages/Checkout.jsx:268-298 | the form starts on the one enabled payment option, and an order placed with an enabled option is sent as cash on delivery |
| Checkout.PreviousDuringSubmission | src/pages/Checkout.jsx:421-438 | a concrete run where the reply arrives on step 2 and still completes the order |
| CartPage.CheckoutGate | src/pages/Cart.jsx:49-60 | guests go to login remembering checkout, an empty or over-stock cart stays, otherwise checkout; the button is disabled exactly when invalid |
| CartPage.MinusAtOneRemovesLine | src/pages/Cart.jsx:220-221 | minus on a line at quantity 1 removes that line and keeps the rest in order |
| CartPage.WarningExplainsPlus | src/pages/Cart.jsx:233-260 | the maximum-quantity warning is shown exactly when plus is disabled for stock; with no update in flight, plus is disabled exactly when the warning shows |
| CartPage.PlusEnabledIsAccepted | src/pages/Cart.jsx:232-233 | an enabled plus button raises that line by one and changes nothing else |
| CartPage.ShortfallMatchesDelivery | src/pages/Cart.jsx:306-312 | the hint shows exactly when delivery is charged and its amount brings the subtotal to 500 |
| CartPage.CartPageState.constructor | src/pages/Cart.jsx:21-22 | no line updating, no confirmation shown |
| CartPage.CartPageState.BeginQuantityChange | src/pages/Cart.jsx:27-30 | the id joins the updating set and the cart takes UpdateStep |
| CartPage.CartPageState.EndQuantityChange | src/pages/Cart.jsx:31-37 | the id leaves the updating set, other ids stay |
| CartPage.CartPageState.HandleRemoveItem | src/pages/Cart.jsx:40-42 | the cart loses that product's lines |
| CartPage.CartPageState.OpenClearConfirm | src/pages/Cart.jsx:170 | the confirmation opens |
| CartPage.CartPageState.CloseClearConfirm | src/pages/Cart.jsx:403 | the confirmation closes |
| CartPage.CartPageState.HandleClearCart | src/pages/Cart.jsx:44-47 | the cart empties and the confirmation closes |
| ProductsPage.GetParam | src/pages/Products.jsx:26-30 | a query value is found exactly when some parameter has that key, and it is the value of the first parameter with that key |
| ProductsPage.ParamOrFirst | src/pages/Products.jsx:26-30 | a starting filter is the first URL value under its key when that value is non-empty, else the default |
| ProductsPage.ParamOrAbsent | src/pages/Products.jsx:26-30 | a starting filter whose key is absent from the URL is the default |
| ProductsPage.InitialFiltersDefaults | src/pages/Products.jsx:25-32 | an empty query starts from the defaults; the starting page is never 0 and the sort never empty |
| ProductsPage.QueryOfMembers | src/pages/Products.jsx:89-97 | the URL holds exactly the truthy filter entries, under their own keys |
| ProductsPage.UpdateURL | src/pages/Products.jsx:89-97 | the loop builds the query of the specification, in key order |
| ProductsPage.FetchMatchesQuery | src/pages/Products.jsx:48-56 | the request and the URL carry the same text filters; the request always has the page, the URL only a non-zero one |
| ProductsPage.FilterChangeResetsPage | src/pages/Products.jsx:100-104 | a filter change sets that key, resets the page to 1 and keeps the other filters |
| ProductsPage.StepButtonsStayInRange | src/pages/Products.jsx:63-69 | enabled Previous/Next ask for a page in range; on a real page, each is enabled exactly unless at the edge |
| ProductsPage.Range | src/pages/Products.jsx:431 | n consecutive numbers from lo |
| ProductsPage.PagingShownIffSeveralButtons | src/pages/Products.jsx:415-441 | the paging bar is shown exactly when its window holds more than one page button |
| ProductsPage.PageWindow | src/pages/Products.jsx:431-441 | min(5, totalPages) buttons, all in [1, totalPages], consecutive, including the current page |
| ProductsPage.ProductsPage.constructor | src/pages/Products.jsx:25-40 | filters from the query, empty pagination |
| ProductsPage.ProductsPage.HandleFilterChange | src/pages/Products.jsx:100-104 | filters take WithFilter and the URL mirrors them |
| ProductsPage.ProductsPage.HandlePageChange | src/pages/Products.jsx:107-112 | only the page changes, and the URL mirrors it |
| ProductsPage.ProductsPage.ClearFilters | src/pages/Products.jsx:115-126 | filters reset to the defaults and the URL query empties |
| ProductsPage.ProductsPage.ApplyProductsResponse | src/pages/Products.jsx:63-69 | the pagination takes the response's numbers and the derived flags |
| ProductsPage.ProductsPage.HandleAddToCart | src/pages/Products.jsx:137-140 | the card adds one unit through addToCart |
| ProductDetails.Badge | src/pages/ProductDetails.jsx:205-217 | out of stock exactly at 0, "only N left" below 10, otherwise in stock with the count |
| ProductDetails.StepAcceptsExactlyInRange | src/pages/ProductDetails.jsx:49-54 | a change is taken exactly when it lands in [1, stock or 1]; otherwise the quantity stays |
| ProductDetails.QuantityStaysInRange | src/pages/ProductDetails.jsx:49-54 | from a quantity in range, no run of clicks leaves [1, stock or 1]; with stock 0 it stays 1 |
| ProductDetails.AboveCeilingIsStuck | src/pages/ProductDetails.jsx:49-54 | a quantity above the ceiling plus one changes under neither button |
| ProductDetails.EnabledButtonsAreTaken | src/pages/ProductDetails.jsx:248-262 | an enabled plus adds one and an enabled minus takes one away |
| ProductDetails.PickedQuantityIsAccepted | src/pages/ProductDetails.jsx:43-47 | a picked quantity of an in-stock product not in the cart becomes a new line with that quantity |
| ProductDetails.MainImage | src/pages/ProductDetails.jsx:115 | the selected image's URL when the index is in range and the URL is non-empty, the placeholder otherwise; never empty |
| ProductDetails.WithoutThumbnailsFirstImage | src/pages/ProductDetails.jsx:115-125 | without thumbnails (at most one image) the main image is the only image, or the placeholder when there is none or its URL is empty |
| ProductDetails.ProductDetailsPage.constructor | src/pages/ProductDetails.jsx:20-24 | no product, quantity 1, first image |
| ProductDetails.ProductDetailsPage.SetProduct | src/pages/ProductDetails.jsx:30-31 | the product is set; quantity and image are kept |
| ProductDetails.ProductDetailsPage.HandleQuantityChange | src/pages/ProductDetails.jsx:49-54 | the quantity follows StepQuantity and stays at least 1 |
| ProductDetails.ProductDetailsPage.SelectImage | src/pages/ProductDetails.jsx:130 | the selected image becomes the clicked index |
| ProductDetails.ProductDetailsPage.HandleAddToCart | src/pages/ProductDetails.jsx:43-47 | the cart takes AddStep with the picked quantity only when a product is loaded |
| OrdersPage.TrimStart | src/pages/Orders.jsx:77 | removes exactly the leading white space |
| OrdersPage.TrimEnd | src/pages/Orders.jsx:77 | removes exactly the trailing white space |
| OrdersPage.BlankIffAllWhitespace | src/pages/Orders.jsx:77 | a reason is blank exactly when all its characters are white space |
| OrdersPage.CancelRule | src/pages/Orders.jsx:147-151 | an order can be cancelled exactly when pending or confirmed; the second conjunct is redundant |
| OrdersPage.CannotCancelWording | src/pages/Orders.jsx:535-537 | preparing reads "prepared", ready_for_delivery "dispatched", anything else "processed" |
| OrdersPage.StatusInfoTotal | src/pages/Orders.jsx:99-144 | the grey default is used exactly for unknown statuses; known statuses have distinct colours |
| OrdersPage.RedirectOrFetch | src/pages/Orders.jsx:37-73 | while auth loads nothing happens; afterwards the page either redirects or fetches, never both |
| OrdersPage.PagingOffersAMove | src/pages/Orders.jsx:388-419 | on a page in range, the page bar is shown exactly when Previous or Next is enabled |
| OrdersPage.PageButtonsStayInRange | src/pages/Orders.jsx:394-419 | on a page in range, enabled Previous/Next ask for a page in range |
| OrdersPage.OrdersPageState.constructor | src/pages/Orders.jsx:24-34 | page 1 of 1, no order selected, no modal, empty reason |
| OrdersPage.OrdersPageState.ApplyOrdersResponse | src/pages/Orders.jsx:45-66 | a successful answer sets the list and page numbers; otherwise they stay |
| OrdersPage.OrdersPageState.HandleCancelClick | src/pages/Orders.jsx:154-162 | the order is always selected; the cancel modal opens for a cancellable order, the cannot-cancel modal otherwise |
| OrdersPage.OrdersPageState.SetCancelReason | src/pages/Orders.jsx:476 | only the reason changes |
| OrdersPage.OrdersPageState.BeginCancelOrder | src/pages/Orders.jsx:76-81 | a request is sent exactly when an order is selected and the reason is not blank; it carries the untrimmed reason |
| OrdersPage.OrdersPageState.ClickConfirmCancel | src/pages/Orders.jsx:495-497 | in the visible cancel modal, a click sends the request exactly when the confirm button is enabled (a non-blank reason and no cancellation in flight) |
| OrdersPage.OrdersPageState.FinishCancelOrder | src/pages/Orders.jsx:83-95 | success closes the modal, clears selection and reason, and refetches the current page; cancelling ends false |
| OrdersPage.OrdersPageState.DismissCancelModal | src/pages/Orders.jsx:444-450 | the cancel modal closes and selection and reason are cleared |
| OrdersPage.OrdersPageState.DismissCannotCancelModal | src/pages/Orders.jsx:550-553 | the cannot-cancel modal closes and the selection is cleared |
| OrdersPage.CancelClickOpensOneModal | src/pages/Orders.jsx:154-162 | from a closed page, a click opens exactly one visible modal, the cancel modal exactly for pending or confirmed orders |
| AdminDashboard.GateMatchesRender | src/pages/AdminDashboard.jsx:47-60 | the redirect effect and the render guard agree: login for guests, home for non-admins, dashboard only for a loaded admin |
| AdminDashboard.ReplaceByIdAt | src/pages/AdminDashboard.jsx:139-143 | update replaces exactly the products with that id, in place; length and order stay |
| AdminDashboard.RemoveByIdMembers | src/pages/AdminDashboard.jsx:170 | delete keeps exactly the products with another id |
| AdminDashboard.RemoveByIdAppend | src/pages/AdminDashboard.jsx:170 | delete distributes over concatenation, so the kept products stay in order |
| AdminDashboard.RemoveByIdAbsent | src/pages/AdminDashboard.jsx:170 | deleting an id no product has leaves the list unchanged |
| AdminDashboard.SetOrderStatusAt | src/pages/AdminDashboard.jsx:188-192 | a status update changes only the status of the orders with that id |
| AdminDashboard.StatusColorsAgree | src/pages/AdminDashboard.jsx:704-714 | the dashboard colours every status as the customer's order list does |
| AdminDashboard.EditFormShowsProduct | src/pages/AdminDashboard.jsx:256-277 | the edit form shows the product as is exactly when no field is falsy, and the empty form exactly when all are falsy or default |
| AdminDashboard.DashboardState.constructor | src/pages/AdminDashboard.jsx:31-44 | empty lists, no modal, nothing selected or in flight |
| AdminDashboard.DashboardState.HandleFormSubmit | src/pages/AdminDashboard.jsx:155-161 | update of the edited product exactly when one is being edited, create otherwise |
| AdminDashboard.DashboardState.FinishCreateProduct | src/pages/AdminDashboard.jsx:111-131 | any answer puts the new product first and closes the modal; the submitting flag ends false |
| AdminDashboard.DashboardState.FinishUpdateProduct | src/pages/AdminDashboard.jsx:133-153 | an answer replaces that product by id, closes the modal and ends editing |
| AdminDashboard.DashboardState.HandleDeleteProduct | src/pages/AdminDashboard.jsx:163-179 | nothing is called without confirmation; a confirmed, answered delete removes the product by id |
| AdminDashboard.DashboardState.BeginUpdateOrderStatus | src/pages/AdminDashboard.jsx:181-182 | the updating flag goes up |
| AdminDashboard.DashboardState.FinishUpdateOrderStatus | src/pages/AdminDashboard.jsx:183-205 | an answer sets the new status by id and closes the order modal; the flag ends false |
| AdminDashboard.DashboardState.OpenEditModal | src/pages/AdminDashboard.jsx:207-210 | the product is being edited and the modal is open |
| AdminDashboard.DashboardState.OpenCreateModal | src/pages/AdminDashboard.jsx:764 | the modal opens without touching the edited product |
| AdminDashboard.DashboardState.CloseProductModal | src/pages/AdminDashboard.jsx:63-66 | the modal closes and editing ends |
| AdminDashboard.DashboardState.OpenOrderModal | src/pages/AdminDashboard.jsx:212-215 | the order is selected and its modal open |
| AdminDashboard.DashboardState.CloseOrderModal | src/pages/AdminDashboard.jsx:497-500 | the order modal closes and the selection clears |
| AdminDashboard.EditAndSave | src/pages/AdminDashboard.jsx:133-161 | editing a listed product and saving it replaces that product in place and nothing else |

## Left out

- Rendering, animation, styling, icons and toast display are not modelled. Toasts appear only as returned outcomes.
- Floating-point prices and the discount percentage are not modelled. Prices, stock and quantities are integers.
- The save-to-storage effect and JSON are not modelled. `CartStore.Load` takes the stored text and the result of parsing it as inputs.
- `parseInt` of the page parameter is not modelled. `InitialFilters` takes its result as an input.
- The refresh calls after each update are not modelled: `fetchProducts`, `fetchOrders`, `fetchDashboardData` and `fetchCategories`. Their network answers would replace the lists that the model updates locally.
- The loading and error flags around fetches are not modelled.
- The statistics and the users tab of the dashboard are not modelled.
- The order-details modal of the dashboard is not modelled.
- The CartContext `loading` flag is exported but never set, so it is not modelled.
- The toast of `removeFromCart` reads the cart as rendered, not the updated one. That toast is not modelled.
- The product form's field-by-field editing inside its modal is not modelled; only its starting values are.
- The sign-in, registration and profile calls are not modelled. Only the two flags `isAuthenticated` (a user is present) and `isAdmin` (the role is "admin") are kept, and the pages take them as inputs.
- React batching and effect scheduling are not modelled. Each handler runs to its `await` as one step.
- The order in which concurrent replies arrive is left to the caller of the `Finish` methods.
- Scrolling to the top on a page change and the `window.confirm` dialog are not modelled. The dialog's answer is the `confirmed` parameter of `HandleDeleteProduct`.
