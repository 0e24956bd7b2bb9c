# LaundryPro storefront: a Dafny model of its client-side core

LaundryPro is a React storefront for a laundry service. The code modelled here is its client-side state and the rules its pages apply to that state:

- **The cart store** (`CartProvider`): an ordered list of cart lines keyed by item id, with `addItem` (merge on a repeated id), `removeItem`, `updateQuantity` and `clearCart`.
- **The orders store** (`OrdersProvider`): the orders, newest local placement first (a list installed by `setOrders` keeps the order it was given in), with `addOrder`, `updateOrderStatus` and `setOrders`.
- **The checkout coordinator**: totals, the order request built from the cart, and `handleSubmit`. On success `handleSubmit` records the server's order and empties the cart; on failure it leaves both stores alone and shows a message.
- **The page rules**:
  - the cart page's subtotal and +/- clamp;
  - the services page's quantity picker and add-to-cart;
  - the navbar badge, active link and menu;
  - the tracking page's four-step progress;
  - the orders page's badges and Track button;
  - the order history page's newest-first sort, error text and render order;
  - the order detail page's guarded fetch and cancel;
  - the products page's category tabs and the tab it opens on.

One Dafny module per source file, plus `Common`. The shape of each module follows the shape of its source file:

- Each store is a `class` with a `seq` field. Its methods are specified by pure functions of the old contents: `AfterAdd`, `AfterRemove`, `AfterUpdate`, `AfterAddOrder`, `AfterStatusUpdate`.
- Each page handler is a method over the stores, or over a small view class holding the page's own state (`QuantityPicker`, `Menu`, `HistoryView`, `DetailView`, `TabsView`).
- The history sort is an in-place insertion sort on an `array`.
- Everything else is functions and lemmas.

Modelling decisions:

- **Cart quantities** are `Option<int>`, because the field is optional.
- **The two readings of a quantity** are defined separately: `Eff` is `q || 1`, which also turns a stored 0 into 1, and `OrZero` is `q ?? 0`.
- **Error strings** follow JavaScript truthiness. `x || fallback` treats `""` like a missing value (`OrElse`), and a page shows an error only when the error is non-empty.
- **Prices** are exact reals, so the 10% tax is exact.
- **Statuses** are plain strings, so `'in-transit'` can be expressed even though it is outside the declared status union.
- **Network calls** are inputs: their outcome is a datatype passed in (`PlaceOutcome`, `FetchOutcome`, `DetailOutcome`, `CancelOutcome`).
- **Cart behaviours that follow from the code as written:**
  - A new cart line keeps its quantity exactly as given, possibly absent. Nothing defaults it to 1 on insert; readers default it when they read it, and differently (`CartContext.AfterAdd`, `CartPage.SubtotalsDiffer`).
  - A merge adds the two `|| 1` readings, so a stored 0 counts as 1.
  - Nothing in the store enforces "one line per id". It is an invariant the operations preserve (`AddKeepsDistinct` and its siblings), not one they check.
  - The cart page types item ids as strings and the store as numbers. Both are one id type here (`ItemId`).

Behaviours worth knowing that the model makes explicit:

- The checkout subtotal charges each line with no quantity or a stored 0 once; the cart page charges it nothing (`CartPage.SubtotalsDiffer`).
- When no quantity is negative, the badge shows exactly when the cart has lines (`Navbar.CountCoversLines`).
- The detail page fetches nothing without a signed-in user or an order id. It then stays on its loading state, because the early return skips `setLoading(false)` (`OrderDetailPage.DetailView.FetchDetails`).
- A fetch that throws with an empty message shows no error at all (`OrderHistoryPage.FailedFetchScreens`).
- Cancelling is case-sensitive, while the status style is not (`OrderDetailPage.CancelIsCaseSensitive`).

## Model

| member | source | states |
|---|---|---|
| Common.AtLeastOne | src/pages/CartPage.tsx:16 | `Math.max(1, n)` is at least 1 and at least `n`, and is one of the two |
| Common.OrElse | src/pages/CheckoutPage.tsx:81 | `s \|\| fallback` on a string that may be missing: a non-empty string is kept; a missing or empty one gives the fallback |
| Common.ToLower | src/pages/OrderHistoryPage.tsx:77 | lower-casing keeps the length and maps every character on its own |
| Common.ToLowerIdempotent | src/pages/OrderHistoryPage.tsx:77 | lower-casing twice is lower-casing once |
| Common.DecimalString | src/pages/CheckoutPage.tsx:81 | the rendering of an HTTP status in the error text is non-empty, all digits, with no leading zero |
| Common.DecimalRoundTrip | src/pages/CheckoutPage.tsx:81 | reading back the rendered status gives the status |
| CartContext.Eff | src/context/CartContext.tsx:32 | `q \|\| 1` is never 0: it keeps a non-zero quantity and turns a missing or zero one into 1 |
| CartContext.OrZero | src/pages/CartPage.tsx:21 | `q ?? 0` keeps any stored quantity, 0 included, and reads a missing one as 0 |
| CartContext.FirstWithId | src/context/CartContext.tsx:28 | the position of the first line with the id, or the length when none has it |
| CartContext.Find | src/context/CartContext.tsx:28 | `find` gives no line exactly when no line has the id; otherwise a line of the cart with that id |
| CartContext.FindIsFirst | src/context/CartContext.tsx:28 | the line `find` gives is the first one with the id, at `FirstWithId`, and it gives one exactly when that position is inside the cart |
| CartContext.MergeLine | src/context/CartContext.tsx:30-34 | one line of the merge: the line with the id gets `(q \|\| 1) + (item.q \|\| 1)`, any other line is kept; `Merge` and `AddToLast` state what it does to the cart |
| CartContext.Merge | src/context/CartContext.tsx:30-34 | the `map` of a merge keeps the length and rewrites each line on its own |
| CartContext.AfterAdd | src/context/CartContext.tsx:26-38 | a new id: the item is appended as given. A present id: same length and order, the line keeps its name, price, unit and service id, and its quantity becomes `Eff(old) + Eff(new)` |
| CartContext.AfterRemove | src/context/CartContext.tsx:40-42 | no line with the removed id survives, and the cart does not grow |
| CartContext.RemoveKeepsOthers | src/context/CartContext.tsx:40-42 | every line with another id survives exactly as often as before; lines with the id are all gone |
| CartContext.AfterUpdate | src/context/CartContext.tsx:44-50 | same length; lines with the id get exactly the given quantity, unclamped; every other line is unchanged |
| CartContext.AddKeepsDistinct | src/context/CartContext.tsx:26-38 | if line ids are pairwise distinct before `addItem`, they are after |
| CartContext.RemoveKeepsDistinct | src/context/CartContext.tsx:40-42 | `removeItem` keeps ids pairwise distinct, since it only drops lines |
| CartContext.RemoveIsSubsequence | src/context/CartContext.tsx:40-42 | removal only drops lines: on every cart, each surviving line was in the cart |
| CartContext.UpdateKeepsDistinct | src/context/CartContext.tsx:44-50 | `updateQuantity` keeps ids pairwise distinct |
| CartContext.RemoveDistributes | src/context/CartContext.tsx:41 | the filter works line by line: removing from a concatenation removes from each part, keeping order |
| CartContext.RemoveAbsent | src/context/CartContext.tsx:41 | removing an id no line has is a no-op |
| CartContext.RemoveIdempotent | src/context/CartContext.tsx:41 | removing twice equals removing once |
| CartContext.UpdateAbsent | src/context/CartContext.tsx:44-50 | updating an id no line has is a no-op |
| CartContext.AddToLast | src/context/CartContext.tsx:28-34 | adding an id carried only by the last line merges into that line and leaves the rest alone |
| CartContext.AddRepeatedly | src/context/CartContext.tsx:26-38 | `n` successive `addItem` calls with one item; `RepeatedAddMerges` states their result |
| CartContext.RepeatedAddMerges | src/context/CartContext.tsx:26-38 | `n` additions of one new id give exactly one new line at the end, with the item's id, name and price and effective quantity `n` times the item's; earlier lines are unchanged |
| CartContext.CartStore.constructor | src/context/CartContext.tsx:24 | the cart starts empty |
| CartContext.CartStore.AddItem | src/context/CartContext.tsx:26-38 | the new cart is `AfterAdd` of the old one, and distinct ids stay distinct |
| CartContext.CartStore.RemoveItem | src/context/CartContext.tsx:40-42 | the new cart is `AfterRemove` of the old one, and distinct ids stay distinct |
| CartContext.CartStore.UpdateQuantity | src/context/CartContext.tsx:44-50 | the new cart is `AfterUpdate` of the old one, and distinct ids stay distinct |
| CartContext.CartStore.ClearCart | src/context/CartContext.tsx:52-54 | the cart is empty afterwards, whatever it held |
| OrdersContext.AfterAddOrder | src/context/OrdersContext.tsx:40-42 | the order goes to index 0 with the previous list unchanged after it, and there is no duplicate-id check |
| OrdersContext.AfterStatusUpdate | src/context/OrdersContext.tsx:44-50 | same length; only the status of orders with the id changes, to the given one; id, date, items, total and customer data are kept everywhere |
| OrdersContext.StatusUpdateAbsent | src/context/OrdersContext.tsx:44-50 | an update for an absent id is a no-op |
| OrdersContext.StatusUpdateLastWins | src/context/OrdersContext.tsx:44-50 | of two updates of one id the second wins, so updating twice with one status is updating once |
| OrdersContext.AnyTransitionAccepted | src/context/OrdersContext.tsx:44-50 | any target status is taken from any current one, e.g. completed back to pending |
| OrdersContext.AddThenUpdate | src/context/OrdersContext.tsx:40-50 | updating a just-placed order with a fresh id changes only the new head, and only its status |
| OrdersContext.OrdersStore.constructor | src/context/OrdersContext.tsx:38 | no orders at first |
| OrdersContext.OrdersStore.AddOrder | src/context/OrdersContext.tsx:40-42 | the new list is `AfterAddOrder` of the old one |
| OrdersContext.OrdersStore.UpdateOrderStatus | src/context/OrdersContext.tsx:44-50 | the new list is `AfterStatusUpdate` of the old one |
| OrdersContext.OrdersStore.SetOrders | src/context/OrdersContext.tsx:53 | the new list is the given list verbatim: no merge, no re-sort |
| CheckoutPage.Subtotal | src/pages/CheckoutPage.tsx:36 | the checkout subtotal, price × `(quantity \|\| 1)` summed over the lines; `SubtotalAppend`, `SubtotalNonNegative` and `SnapshotSum` state its properties |
| CheckoutPage.Tax | src/pages/CheckoutPage.tsx:37 | the flat 10% tax, exact; `TotalsShape` states what it makes of the total |
| CheckoutPage.Total | src/pages/CheckoutPage.tsx:38 | subtotal plus tax, which `TotalsShape` shows is 110% of the subtotal |
| CheckoutPage.LinesSum | src/pages/CheckoutPage.tsx:53-60 | price × quantity summed over request lines; `SnapshotSum` and `RequestConsistent` tie it to the page's subtotal and the request's total |
| CheckoutPage.BuildRequest | src/pages/CheckoutPage.tsx:50-69 | the order request sent on submit; `RequestConsistent` states each of its fields |
| CheckoutPage.SubtotalAppend | src/pages/CheckoutPage.tsx:36 | the subtotal of price × `Eff(quantity)` adds up line by line over concatenation |
| CheckoutPage.TotalsShape | src/pages/CheckoutPage.tsx:36-38 | subtotal, tax and total of an empty cart are 0, and the total is 110% of the subtotal |
| CheckoutPage.SubtotalNonNegative | src/pages/CheckoutPage.tsx:36 | with non-negative prices and no negative quantity the subtotal is not negative |
| CheckoutPage.Snapshot | src/pages/CheckoutPage.tsx:53-59 | one request line per cart line, in cart order, copying id, name, price and unit, with quantity `Eff(quantity)` |
| CheckoutPage.SnapshotSum | src/pages/CheckoutPage.tsx:36-59 | the request lines sum to exactly the subtotal the page shows |
| CheckoutPage.RequestConsistent | src/pages/CheckoutPage.tsx:50-69 | the request is 'pending', carries the given date, has the cart's lines with quantities ≥ 1 where none is negative, a total that is 110% of its own lines, and name→fullName, email, phone and address, with empty city and zip code |
| CheckoutPage.FailureMessage | src/pages/CheckoutPage.tsx:79-91 | the error text is 'Failed to place order: ' followed by the body's non-empty `error`, else 'HTTP error! status: N', or the exception's message |
| CheckoutPage.Screen | src/pages/CheckoutPage.tsx:95 | the empty-cart notice is shown exactly when the cart is empty, so the form and its submit exist only for a non-empty cart |
| CheckoutPage.HandleSubmit | src/pages/CheckoutPage.tsx:45-93 | sends the request built from the cart. On success, the server's order goes first into the orders store, the cart is emptied, and the page navigates to /orders, in that order. On failure neither store changes and the error is `FailureMessage` |
| CheckoutPage.RejectedWithBodyError | src/pages/CheckoutPage.tsx:81 | a 400 with body `error` 'invalid address' shows 'Failed to place order: invalid address' |
| CheckoutPage.JeansExample | src/pages/CheckoutPage.tsx:36-38 | a jeans line of quantity 1 at 15, plus two more, is one line of 3: subtotal 45, tax 4.50, total 49.50 |
| CartPage.PageSubtotal | src/pages/CartPage.tsx:21 | the cart page's subtotal, price × `(quantity ?? 0)` summed; `SubtotalsDiffer` relates it to the checkout subtotal |
| CartPage.PageTotal | src/pages/CartPage.tsx:22-23 | the cart page's subtotal plus its 10% tax; `PageTotalsShape` states it is 110% of the subtotal |
| CartPage.DefaultedPrice | src/pages/CartPage.tsx:21 | the prices of the lines with a missing or 0 quantity: by `SubtotalsDiffer`, exactly the gap between the two pages' subtotals |
| CartPage.AfterQuantityChange | src/pages/CartPage.tsx:13-19 | the cart after a +/- press; `QuantityChangeClamps` and `ChangeIsUpdate` state the result |
| CartPage.SubtotalsDiffer | src/pages/CartPage.tsx:21 | the checkout subtotal exceeds the cart page's by exactly the prices of lines whose quantity is missing or 0 |
| CartPage.SubtotalsAgree | src/pages/CartPage.tsx:21-23 | when every line has a non-zero quantity the two pages agree on subtotal and total |
| CartPage.PageTotalsShape | src/pages/CartPage.tsx:21-23 | the cart page's totals are 0 for an empty cart and its total is 110% of its subtotal |
| CartPage.Screen | src/pages/CartPage.tsx:25 | the empty state is shown exactly for an empty cart; otherwise its lines |
| CartPage.QuantityChangeClamps | src/pages/CartPage.tsx:13-19 | no line with the id, or no quantity on the first one: nothing changes. Otherwise each line with the id keeps its other fields and ends at `max(1, current + change)`: `current + change` when that is at least 1, else 1; the others stay |
| CartPage.ChangeIsUpdate | src/pages/CartPage.tsx:13-19 | when the first line with the id has a quantity, the press is one `updateQuantity(id, max(1, current + change))` |
| CartPage.DecrementAtOneStays | src/pages/CartPage.tsx:16 | on a cart with distinct ids, pressing minus on a line at 1 leaves the cart unchanged |
| CartPage.HandleQuantityChange | src/pages/CartPage.tsx:13-19 | the new cart is `AfterQuantityChange` of the old one |
| TrackingPage.TrackingSteps | src/pages/TrackingPage.tsx:27-60 | always four steps in fixed order. Step 1 is completed. At most one step is current, and step 4 never is. 'completed' iff all four are completed; 'processing' iff step 2 is current, and then steps 3 and 4 are upcoming; 'in-transit' iff step 3 is current, and then steps 2 and 4 are upcoming. Any other status leaves steps 2-4 upcoming |
| TrackingPage.InTransitSkipsProcessing | src/pages/TrackingPage.tsx:41-55 | 'in-transit' shows step 3 current with steps 2 and 4 upcoming |
| TrackingPage.FirstIndex | src/pages/TrackingPage.tsx:25 | the position of the first order with the id, or the length when none matches |
| TrackingPage.FindOrder | src/pages/TrackingPage.tsx:25 | `find` gives nothing exactly when no order has the id, else the first one that does |
| TrackingPage.Screen | src/pages/TrackingPage.tsx:69 | the search form shows exactly when no order matches; otherwise the first matching order's progress |
| TrackingPage.NewestPlacementTracked | src/pages/TrackingPage.tsx:25 | a just-placed order is the one tracked, even if an older order shares its id |
| ServicesPage.SampleCatalogWellFormed | src/pages/ServicesPage.tsx:30-170 | in the sample catalog item ids are pairwise distinct, and each item's service id is the id of the service that lists it |
| ServicesPage.Shown | src/pages/ServicesPage.tsx:184 | `quantities[id] \|\| 1`: an untouched id shows 1, a stored non-zero value shows as stored, never 0 |
| ServicesPage.AfterChange | src/pages/ServicesPage.tsx:176-181 | the dictionary after a +/- press; `ChangeClampsOneEntry` states the result |
| ServicesPage.ChangeClampsOneEntry | src/pages/ServicesPage.tsx:176-181 | the changed entry becomes `max(1, shown + change)`: `shown + change` when that is at least 1, else 1; it is shown as stored; every other entry is unchanged |
| ServicesPage.FirstPresses | src/pages/ServicesPage.tsx:179 | on an untouched item minus stores 1 and plus stores 2 |
| ServicesPage.LineFor | src/pages/ServicesPage.tsx:185-192 | the line handed to `addItem`, with the catalog item's fields and the quantity; `AddToCartEffect` states what it does to the cart |
| ServicesPage.AddToCartEffect | src/pages/ServicesPage.tsx:183-193 | add-to-cart appends a new item with the shown quantity and the catalog item's id, name, price, unit and service id; an item already in the cart grows by that quantity |
| ServicesPage.QuantityPicker.constructor | src/pages/ServicesPage.tsx:174 | the picker starts with no entries |
| ServicesPage.QuantityPicker.HandleQuantityChange | src/pages/ServicesPage.tsx:176-181 | the new dictionary is `AfterChange` of the old one, and all entries stay at least 1 |
| ServicesPage.HandleAddToCart | src/pages/ServicesPage.tsx:183-193 | one `addItem` with the catalog item and the shown quantity |
| Navbar.CartItemCount | src/components/Navbar.tsx:17 | the badge count, `(quantity \|\| 1)` summed; `CountCoversLines`, `EmptyCartNoBadge` and `AddRaisesCount` state its properties |
| Navbar.ShowBadge | src/components/Navbar.tsx:61 | the badge is shown when the count is positive; `CountCoversLines` says when that is |
| Navbar.IsActive | src/components/Navbar.tsx:25 | a link is highlighted on an exact path match; `AtMostOneActive` states the consequences |
| Navbar.CountCoversLines | src/components/Navbar.tsx:17 | with no negative quantity the badge count is at least the number of lines, and the badge shows exactly when the cart is not empty |
| Navbar.EmptyCartNoBadge | src/components/Navbar.tsx:61 | an empty cart counts 0 and shows no badge |
| Navbar.AddRaisesCount | src/components/Navbar.tsx:17 | on a cart with distinct ids and no negative quantities, `addItem` raises the count by the item's `q \|\| 1` |
| Navbar.AtMostOneActive | src/components/Navbar.tsx:25 | the exact path test lights at most one link, and '/services/1' lights none |
| Navbar.Menu.constructor | src/components/Navbar.tsx:15 | the menu starts closed |
| Navbar.Menu.Toggle | src/components/Navbar.tsx:77 | the menu button flips the flag |
| Navbar.Menu.LinkClicked | src/components/Navbar.tsx:100 | a mobile link closes the menu |
| OrdersPage.IconFor | src/pages/OrdersPage.tsx:49-62 | the badge icon of each named status, the package icon otherwise; `IconAndColorInStep` relates it to the colour |
| OrdersPage.ColorFor | src/pages/OrdersPage.tsx:64-77 | the badge colour of each named status, gray otherwise |
| OrdersPage.IconAndColorInStep | src/pages/OrdersPage.tsx:49-77 | icon and colour switches run in parallel: same icon iff same colour; the package icon and gray colour go exactly to statuses outside the four named ones |
| OrdersPage.ItemImage | src/pages/OrdersPage.tsx:79-81 | a listed name with a URL gets it, anything else the default picture; never empty |
| OrdersPage.CatalogItemsHavePictures | src/pages/OrdersPage.tsx:12-28 | every item of the services catalog has its own, non-default picture |
| OrdersPage.StatusLabel | src/pages/OrdersPage.tsx:122 | same length, first character upper-cased, the rest unchanged |
| OrdersPage.StatusLabelProperties | src/pages/OrdersPage.tsx:122 | labelling is idempotent, and two statuses with one label differ at most in their first letter |
| OrdersPage.KnownLabels | src/pages/OrdersPage.tsx:122 | 'pending' reads 'Pending' and 'in-transit' reads 'In-transit' |
| OrdersPage.ShowTrack | src/pages/OrdersPage.tsx:124 | the Track button is offered unless the status is 'completed' or 'cancelled'; `TrackButtonMatchesProgress` ties it to the tracking page |
| OrdersPage.TrackButtonMatchesProgress | src/pages/OrdersPage.tsx:124 | Track is offered iff the order is not cancelled and its progress is not all completed; where offered the last step is upcoming |
| OrdersPage.Pictures | src/pages/OrdersPage.tsx:148 | one picture per order line, in line order |
| OrdersPage.Card | src/pages/OrdersPage.tsx:107-171 | one order's card: its colour, icon, label, Track rule and pictures; `Cards`, `Screen` and `PlacedOrderShownFirst` state what the page shows |
| OrdersPage.Cards | src/pages/OrdersPage.tsx:106 | one card per order, in store order |
| OrdersPage.Screen | src/pages/OrdersPage.tsx:83-106 | 'No Orders Yet' exactly for an empty store; otherwise a card per order with its Track rule |
| OrdersPage.PlacedOrderShownFirst | src/pages/OrdersPage.tsx:106 | after `addOrder` the page is not empty and the new order is the first card |
| OrderHistoryPage.SortNewestFirst | src/pages/OrderHistoryPage.tsx:52 | the in-place sort leaves the same orders (a permutation) ordered by creation time, newest first |
| OrderHistoryPage.InsertDown | src/pages/OrderHistoryPage.tsx:52 | one pass of the sort: with the first `i` orders newest first, the order at `i` moves into place, leaving the first `i + 1` newest first and the same orders |
| OrderHistoryPage.NewestFirstKeysUnique | src/pages/OrderHistoryPage.tsx:52 | any two newest-first arrangements of the same orders have the same timestamps position by position |
| OrderHistoryPage.FetchErrorMessage | src/pages/OrderHistoryPage.tsx:55-60 | a non-ok response gives the body's non-empty `error`, else 'Failed to fetch orders', never empty; an exception gives its message |
| OrderHistoryPage.StatusStyle | src/pages/OrderHistoryPage.tsx:76-90 | the badge style of the lower-cased status; `StatusStyleIgnoresCase`, `DeliveredIsGreen` and `InitialOutsideNamedIsYellow` state its properties |
| OrderHistoryPage.StatusStyleIgnoresCase | src/pages/OrderHistoryPage.tsx:76-90 | statuses equal up to case get one style, and yellow is exactly the fall-through of delivered, cancelled, processing and out for delivery |
| OrderHistoryPage.DeliveredIsGreen | src/pages/OrderHistoryPage.tsx:77-79 | 'Delivered' is styled green |
| OrderHistoryPage.InitialOutsideNamedIsYellow | src/pages/OrderHistoryPage.tsx:85-88 | a status whose lower-cased first letter starts none of the named statuses is yellow |
| OrderHistoryPage.Rows | src/pages/OrderHistoryPage.tsx:113-131 | one row per order, in list order, with that order's style |
| OrderHistoryPage.Render | src/pages/OrderHistoryPage.tsx:96-111 | loading first, then a non-empty error, then the empty state, then the rows |
| OrderHistoryPage.FailedFetchScreens | src/pages/OrderHistoryPage.tsx:55-60 | a non-ok response always shows the error banner; an exception with an empty message shows the list or the empty state instead |
| OrderHistoryPage.HistoryView.constructor | src/pages/OrderHistoryPage.tsx:34-36 | no orders, loading, no error |
| OrderHistoryPage.HistoryView.FetchOrders | src/pages/OrderHistoryPage.tsx:41-64 | afterwards not loading. An ok fetch stores the fetched orders newest first, as a permutation, with no error. A failed one keeps the old list and stores `FetchErrorMessage` |
| OrderDetailPage.DetailErrorMessage | src/pages/OrderDetailPage.tsx:69-80 | 404 gives 'Order not found.'; another non-ok status gives the body's non-empty `error` or 'Failed to fetch order details'; an exception gives its message |
| OrderDetailPage.NotFoundIgnoresBody | src/pages/OrderDetailPage.tsx:72-73 | a 404 reads 'Order not found.' whatever its body |
| OrderDetailPage.CancelErrorMessage | src/pages/OrderDetailPage.tsx:102-108 | a rejected cancel gives the body's non-empty `error` or 'Failed to cancel order', never empty; an exception gives its message |
| OrderDetailPage.CanCancel | src/pages/OrderDetailPage.tsx:142 | cancelling is offered for the exact status 'Scheduled Pickup'; `CancelIsCaseSensitive` shows the case matters |
| OrderDetailPage.CancelIsCaseSensitive | src/pages/OrderDetailPage.tsx:142 | 'Scheduled Pickup' can be cancelled and 'scheduled pickup' cannot, though both are styled the same yellow |
| OrderDetailPage.CancellableIsYellow | src/pages/OrderDetailPage.tsx:131-134 | the one cancellable status is styled yellow |
| OrderDetailPage.Render | src/pages/OrderDetailPage.tsx:138-245 | loading first, then a non-empty error, then 'not available' for no order. Otherwise the details, with the cancel block iff the status is cancellable; inside it, and only there, the cancel error line iff the error is non-empty, and the button disabled and relabelled while cancelling |
| OrderDetailPage.RejectedCancelShown | src/pages/OrderDetailPage.tsx:232-245 | after a rejected cancel the order stays on screen with its cancel block, the rejection text and an enabled 'Cancel Order' button |
| OrderDetailPage.StaleCancelErrorHidden | src/pages/OrderDetailPage.tsx:232-238 | for an order that cannot be cancelled no cancel block is shown, so a cancel error kept from earlier is not on screen |
| OrderDetailPage.DetailView.constructor | src/pages/OrderDetailPage.tsx:50-54 | no order, loading, no error, not cancelling, no cancel error |
| OrderDetailPage.DetailView.FetchDetails | src/pages/OrderDetailPage.tsx:58-84 | without a user or a non-empty order id nothing changes. Otherwise loading ends, and the order is stored or the old one kept with `DetailErrorMessage`. Cancel state is untouched |
| OrderDetailPage.DetailView.CancelOrder | src/pages/OrderDetailPage.tsx:89-112 | a no-op unless the shown order has the cancellable status. Otherwise cancelling ends, and the response's order field (possibly absent) replaces the order, or the order stays and the cancel error is `CancelErrorMessage` |
| Products.CategoryList | src/pages/Products.tsx:11 | one category per product, in product order |
| Products.Dedupe | src/pages/Products.tsx:11 | `Array.from(new Set(list))` holds exactly the values of the list, each once |
| Products.Categories | src/pages/Products.tsx:11 | the tab list; `CategoriesAreTheProductCategories` and `DedupeKeepsFirstAppearanceOrder` state its properties |
| Products.DedupeKeepsFirstAppearanceOrder | src/pages/Products.tsx:11 | the tabs are ordered by the first appearance of their category |
| Products.CategoriesAreTheProductCategories | src/pages/Products.tsx:11 | the tabs are distinct, every product's category has a tab, and every tab is some product's category |
| Products.Filtered | src/pages/Products.tsx:13-15 | the filter keeps only products of the category and does not grow the list |
| Products.FilteredMembers | src/pages/Products.tsx:13-15 | a product is kept exactly when it is listed and of the category |
| Products.FilteredAppend | src/pages/Products.tsx:13-15 | the filter distributes over concatenation, so it keeps the original order |
| Products.EachProductUnderOneTab | src/pages/Products.tsx:58-63 | each product's category is a tab, and the product is listed under that tab and no other |
| Products.TabTotal | src/pages/Products.tsx:58-63 | the number of products listed over a list of tabs; `TabsCoverProducts` and `TabsCount` state its value |
| Products.TabsCoverProducts | src/pages/Products.tsx:58-63 | the tabs together list exactly as many products as there are |
| Products.TabsCount | src/pages/Products.tsx:58-63 | over distinct tabs covering every category each product is counted once |
| Products.ShownTab | src/pages/Products.tsx:45-63 | the content of the active tab: present exactly when some product has that category, and then non-empty and holding exactly the products of the category |
| Products.FilteredProductsIsShownTab | src/pages/Products.tsx:13-15 | the unused `filteredProducts` is exactly what the active tab shows |
| Products.FirstShownTab | src/pages/Products.tsx:9 | the page opens on the 'Casuals' tab when a product has that category, and shows no tab content when none has |
| Products.TabsView.constructor | src/pages/Products.tsx:9 | `selectedCategory` starts as 'Casuals' |
| Products.TabsView.SelectTab | src/pages/Products.tsx:51 | a tab click stores its category, and that tab's products are then the ones shown |
| Products.UnitSuffix | src/pages/Products.tsx:73 | ' / m²' for a 'per_m2' subcategory, nothing otherwise |
| Products.UnitSuffixOnlyPerSquareMetre | src/pages/Products.tsx:73 | ' / m²' is shown exactly for products whose subcategory is 'per_m2' |

## Left out

- Network I/O: every `fetch` is replaced by its outcome, given as an input. URLs, headers, `credentials`, JSON parsing and non-string `error` fields are not modelled.
- Asynchrony and React: rendering, `useEffect` scheduling, interleaving of async handlers and re-renders are not modelled. Each handler runs to completion on the state it starts from.
- Navigation is not modelled: `navigate`, links, `handleTrackOrder`, route parameters. Checkout records its `navigate('/orders')` only as the last entry of its effect trace.
- Display formatting is not modelled: `toFixed`, locale date formatting, `new Date` parsing; orders carry an integer creation time instead of a timestamp string. The orders page's back-computed `total / 1.1` subtotal and tax are not modelled either.
- Case mapping covers ASCII letters only; `toLowerCase`/`toUpperCase` on other characters are not modelled.
- The `useCart`/`useOrders` throws when a provider is missing are wiring errors and are not modelled.
- The form's input handling (`handleInputChange`) and the card fields: the card fields are collected but never sent, which `BuildRequest` reflects.
- Display-only fields, icons and descriptions of services, items, steps and products are dropped from the datatypes.
- The product catalog of src/lib/products.ts is not part of this model. The products page is modelled over any product list.
- OrdersPage.ItemImage: a name that is a JavaScript object-prototype key (such as 'constructor') would find an inherited member; that case is not modelled.
- OrderHistoryPage.SortNewestFirst: does not state stability (the relative order of orders created at the same instant), and does not model the `NaN` comparator results of unparsable timestamps.
- OrderHistoryPage.NewestFirstKeysUnique: fixes the timestamps at each position, not the orders themselves, since ties may be arranged either way.
- Navbar.AddRaisesCount: requires distinct ids and no negative quantities. With a negative stored quantity, a merge whose sum is 0 is read back as 1 and the count moves differently.
- CartPage.QuantityChangeClamps: on a cart with a repeated id, only the first line with that id supplies the current quantity, as in the code; the lemma names that line through `Find`, which `CartContext.FindIsFirst` shows is the first.
- Products.ShownTab: which tab content is on screen is decided by the tab component's own state, which is not part of this model. The model takes the active tab value to be `selectedCategory`: it starts as `defaultValue`, and a click both activates a tab and stores its category.
- Logging is not modelled: the `console.error` calls of the history page and of the detail page's fetch and cancel have no effect on state.
- The orders page's fetch effect calling `setOrders` is modelled only as OrdersStore.SetOrders; its silent error handling is not modelled.
