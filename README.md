# Veena Crackers storefront — a Dafny model

This project models the logic of the Veena Crackers fireworks storefront, a React single-page app that stores its data in Firestore. The model covers:

- **the order data model:**
  - the order id;
  - normalising cart items;
  - item and order pricing;
  - building the order document;
  - the validator that collects every error;
  - the status-transition table;
- **the admin order console:** filter and search, the quantity column, the id suffix, the status counters and the status update;
- **the checkout drawer:** subtotal, total, the discount clamp and the submit flow;
- **the catalog form:**
  - the percentage discounts derived from price fields;
  - the auto-incremented product code;
  - the field mapping between the form and the stored product;
  - search and paging;
- **the two estimate tables:**
  - the live table's quantity map, category grouping and grand total;
  - the fixed three-product table;
- **the browser-local product list;**
- **the banner, contact and colour settings pages,** and the shared colour provider.

Things the source takes from the outside world become parameters:

- the clock and the random draw;
- whether a store write or an upload succeeds;
- the answer to a confirmation dialog;
- the documents a subscription delivers.

Stateful components are classes whose methods change the component's fields. Pure rules are functions, and lemmas state what they guarantee.

Modules, one per file:

- `Js`: the JavaScript value semantics the code relies on. Covers `a || b` defaulting on absent, zero or empty values, and numbers that may be NaN.
- `Text`: the string operations the code uses:
  - the `\s` class;
  - `toLowerCase` and `includes`;
  - `padStart` and decimal numerals;
  - `Number(...)` on numeric strings;
  - `parseInt(…, 16)`.
- `Seqs`: filtering, counting, sums and `slice` on sequences.
- `Dict`: JavaScript objects whose key order matters (`Object.keys`, `Object.entries`). They are modelled as insertion-ordered lists of entries.
- `OrderSchema`: `src/firebase/orderSchema.js`.
- `OrderStore`: the orders collection as `addOrder` and `updateOrderStatus` in `src/firebase/firestoreService.js` write it.
- `OrdersPage`, `CheckoutDrawer`, `ProductManagement`, `OrderProductTable`, `EstimateOrder`, `ProductManager`, `BannerPage`, `ContactPage`, `GeneralPage`, `ColorProvider`: one per component.

The model follows the code as written, including where its names and comments suggest otherwise:

- The checkout does not call `validateOrder`. Its own guard is weaker: some email is required, but its shape is not checked.
- `getValidStatusTransitions` is never consulted. Any status picked in the console is written.
- The quantity column of the order console sums `item.qty`. Stored orders carry `quantity`, so the column reads 0 (see Findings).
- A successful checkout is never reported as one (see Findings).

## Model

| member | source | states |
|---|---|---|
| OrderSchema.RandomSuffix | src/firebase/orderSchema.js:20 | `Math.floor(Math.random() * 1000)` lies in 0..999 |
| OrderSchema.Pad2Numeral | src/firebase/orderSchema.js:15-19 | a two-digit pad of n < 100 is two digits that read back as n |
| OrderSchema.OrderIdShape | src/firebase/orderSchema.js:12-22 | for a four-digit year the id is 23 characters, starts `VEE-`, has dashes at 3, 12 and 19 and digits everywhere else |
| OrderSchema.OrderIdDate | src/firebase/orderSchema.js:14-16 | the date field reads back as the year, the 1-based month and the day |
| OrderSchema.OrderIdTime | src/firebase/orderSchema.js:17-19 | the time field reads back as hours, minutes and seconds |
| OrderSchema.OrderIdRandom | src/firebase/orderSchema.js:20-22 | the last field reads back as the random suffix, 0..999 |
| OrderSchema.GenerateOrderId | src/firebase/orderSchema.js:12-22 | for any year width: starts `VEE-`; ends with a dash, the HHMMSS time field, a dash and the zero-padded random field |
| OrderSchema.ProcessItem | src/firebase/orderSchema.js:31-55 | quantity is never 0; finalPrice is max(0, unitPrice − discount), is ≥ 0 and is ≤ unitPrice for a non-negative price and discount; total = quantity × finalPrice |
| OrderSchema.ProcessItemDefaults | src/firebase/orderSchema.js:33-49 | field precedence: quantity ← quantity, qty, 1; unitPrice ← unitPrice, price, 0; discount ← discount, 0; productId ← id, productId, ''; name ← name, '' |
| OrderSchema.ProcessOrderItems | src/firebase/orderSchema.js:30-57 | same length and order, item by item |
| OrderSchema.CalculateOrderTotals | src/firebase/orderSchema.js:65-88 | netAmount = max(0, total − overallDiscount) ≥ 0, and totalAmount = netAmount |
| OrderSchema.OrderTotalFormula | src/firebase/orderSchema.js:42-67 | the order total is Σ over the cart of quantity × max(0, unitPrice − discount) with the defaults applied |
| OrderSchema.CreateOrderObject | src/firebase/orderSchema.js:97-143 | non-empty id; items are the processed cart; deliveryStatus = status; totalAmount = netAmount = max(0, total − discount) |
| OrderSchema.CreateOrderDefaults | src/firebase/orderSchema.js:98-141 | the id is `generateOrderId` of the clock and the draw; the totals come from the processed items and the total is Σ line totals; without the option, status is 'Pending', type 'TO-PAY', transport '', discount 0, and the delivery date three days after the clock |
| OrderSchema.LooseEmailIff | src/firebase/orderSchema.js:159 | the executable email test holds exactly when `/\S+@\S+\.\S+/` finds a match anywhere in the string |
| OrderSchema.ValidateItem | src/firebase/orderSchema.js:167-174 | the messages of one item, in the order of its four checks |
| OrderSchema.CheckRequiredFields | src/firebase/orderSchema.js:154-161 | the required-field messages, in order |
| OrderSchema.CheckItems | src/firebase/orderSchema.js:164-175 | one message for no items, otherwise every item's messages in item order |
| OrderSchema.CheckStatusAndAmounts | src/firebase/orderSchema.js:177-193 | the status, type and amount messages, in order |
| OrderSchema.ValidateOrder | src/firebase/orderSchema.js:150-199 | the errors are all the checks' messages in order, and isValid holds exactly when there are none |
| OrderSchema.ItemsErrorsEmptyIff | src/firebase/orderSchema.js:167-174 | no item message exactly when every item passes all four checks |
| OrderSchema.ValidIffConforms | src/firebase/orderSchema.js:150-199 | an order is valid exactly when it meets every schema invariant |
| OrderSchema.RequiredFieldViolationsReported | src/firebase/orderSchema.js:154-161 | each required-field message is present exactly when its check fails |
| OrderSchema.NoItemsViolationReported | src/firebase/orderSchema.js:164-165 | the items message is present exactly when the list is empty |
| OrderSchema.HeaderMessages | src/firebase/orderSchema.js:154-161 | the required-field checks push only their own messages, each exactly when its check fails |
| OrderSchema.TrailerMessages | src/firebase/orderSchema.js:177-193 | the status, type and amount checks push only their own messages, each exactly when its check fails |
| OrderSchema.AmountViolationsReported | src/firebase/orderSchema.js:178-193 | each status, type and amount message is present exactly when its check fails |
| OrderSchema.ItemViolationsReported | src/firebase/orderSchema.js:167-174 | each failing item check leaves its own numbered message, so several violations give several messages |
| OrderSchema.NoItemsSingleMessage | src/firebase/orderSchema.js:164-166 | with no items, the items message appears once and no per-item message appears |
| OrderSchema.GoodCartItemProcessed | src/firebase/orderSchema.js:31-55 | a cart item with an id, a name, a positive or absent quantity and a non-negative or absent price normalises to an item that passes the item checks |
| OrderSchema.CreatedOrderIsValid | src/firebase/orderSchema.js:97-199 | given a named customer, a 10-digit phone, a well-formed email, a non-empty cart of good items, a non-negative discount, and a valid or absent status and type, the built order passes `validateOrder` |
| OrderSchema.ValidStatusTransitions | src/firebase/orderSchema.js:204-212 | known statuses get their table entry (Delivered keeps its empty list); any other status gets all three |
| OrderSchema.TransitionsForwardOnly | src/firebase/orderSchema.js:205-209 | a known status may move only one step forward, never to itself or back, and Delivered goes nowhere |
| OrderStore.StoredItems | src/firebase/firestoreService.js:38-40 | stored items carry `quantity` and no `qty`, one per order item |
| OrderStore.OrderCollection.AddOrder | src/firebase/firestoreService.js:38-40 | a successful write adds exactly the new document under the fresh id; a failure throws and changes nothing |
| OrderStore.OrderCollection.UpdateOrderStatus | src/firebase/firestoreService.js:42-44 | only `status` of that document changes; a missing id or document, or a failed write, changes nothing |
| OrderStore.StatusUpdateDivergesFromDeliveryStatus | src/firebase/firestoreService.js:42-44 | after an update to a new status, `status` and `deliveryStatus` disagree |
| OrdersPage.Filtered | src/admin/OrdersPage.jsx:21-38 | an order is shown exactly when it passes the status and the search tests, and list order is kept |
| OrdersPage.StepwiseFilterIsFiltered | src/admin/OrdersPage.jsx:22-37 | filtering by status and then by search equals the single combined filter |
| OrdersPage.FilteredIdempotent | src/admin/OrdersPage.jsx:21-38 | filtering the shown list again changes nothing |
| OrdersPage.AllShowsEverything | src/admin/OrdersPage.jsx:25-30 | 'all' with an empty search shows every order |
| OrdersPage.StatusFilterExact | src/admin/OrdersPage.jsx:25-27 | another status filter keeps exactly the orders with that status |
| OrdersPage.SearchRules | src/admin/OrdersPage.jsx:30-34 | case-insensitive substring of the name or the id; an order with neither never matches a non-empty search |
| OrdersPage.QtySum | src/admin/OrdersPage.jsx:152 | the reduce is NaN exactly when some item lacks `qty` |
| OrdersPage.TotalQuantity | src/admin/OrdersPage.jsx:152 | the column is the sum of `qty`, or 0 when the sum is NaN or the items are missing |
| OrdersPage.SchemaOrdersShowZeroQuantity | src/admin/OrdersPage.jsx:152 | every non-empty order written by the checkout shows quantity 0 |
| OrdersPage.TotalQuantityIntended | src/admin/OrdersPage.jsx:152 | the corrected column sums `quantity`, falling back to `qty` |
| OrdersPage.IntendedQuantityOfSchemaOrder | src/admin/OrdersPage.jsx:152 | for a stored schema order the corrected column is the sum of its item quantities |
| OrdersPage.IdSuffix | src/admin/OrdersPage.jsx:158 | the last 8 characters of the id, or 'N/A' when the id is missing or empty |
| OrdersPage.DisplayStatus | src/admin/OrdersPage.jsx:202-207 | the status, or 'Pending' when it is missing or empty |
| OrdersPage.CountersBounded | src/admin/OrdersPage.jsx:228-245 | the three counters together never exceed the order count |
| OrdersPage.MissingStatusNotCounted | src/admin/OrdersPage.jsx:202-233 | an order without a status is shown as Pending but not counted as Pending |
| OrdersPage.StatusCount | src/admin/OrdersPage.jsx:228-245 | a counter is at most the order count, 0 exactly when no order has that status, and the order count exactly when all have it |
| OrdersPage.OrdersView.ApplyFilters | src/admin/OrdersPage.jsx:21-38 | the shown list becomes the filtered list |
| OrdersPage.OrdersView.ReceiveSnapshot | src/admin/OrdersPage.jsx:11-18 | the list is replaced, loading ends, and the filter is re-applied |
| OrdersPage.OrdersView.SetSearch | src/admin/OrdersPage.jsx:21-38 | a new search re-applies the filter |
| OrdersPage.OrdersView.SetStatusFilter | src/admin/OrdersPage.jsx:21-38 | a new status filter re-applies the filter |
| OrdersPage.OrdersView.HandleStatusUpdate | src/admin/OrdersPage.jsx:40-46 | any chosen status is written with no transition check; a failure is swallowed; the console's own state is untouched |
| CheckoutDrawer.Total | src/components/CheckoutDrawer.jsx:26 | the total is ≥ 0 and is 0 or subtotal − discount |
| CheckoutDrawer.ClampDiscount | src/components/CheckoutDrawer.jsx:193-194 | the discount is ≥ 0 and ≤ the subtotal; an in-range value is kept; NaN gives 0 |
| CheckoutDrawer.TotalAfterClamp | src/components/CheckoutDrawer.jsx:193-194 | after the clamp the total is the plain difference |
| CheckoutDrawer.SummaryLine | src/components/CheckoutDrawer.jsx:19-23 | `qty` and `price` win over `quantity` and `unitPrice`; no count bills one piece; no price bills 0; non-negative fields give a line ≥ 0 |
| CheckoutDrawer.Subtotal | src/components/CheckoutDrawer.jsx:19-23 | an empty cart gives 0, and items with no negative quantity or price give a subtotal ≥ 0 |
| CheckoutDrawer.SubtotalMatchesOrderTotal | src/components/CheckoutDrawer.jsx:19-23 | when paired fields agree, discounts are 0 and prices are non-negative, the drawer's subtotal equals the order's total |
| CheckoutDrawer.SubtotalDiffersOnConflictingFields | src/components/CheckoutDrawer.jsx:20 | with `qty` 2 and `quantity` 3 the drawer bills 2 pieces and the order 3 |
| CheckoutDrawer.SetField | src/components/CheckoutDrawer.jsx:29 | only the named field changes |
| CheckoutDrawer.GuardPasses | src/components/CheckoutDrawer.jsx:37 | every form whose name, phone and email `validateOrder` accepts passes; a form that passes has a name, a phone `validateOrder` accepts, and some email |
| CheckoutDrawer.SubmittedOrderFields | src/components/CheckoutDrawer.jsx:52-67 | the order is Pending, TO-PAY, with no transport, and carries the form, the discount and the cart |
| CheckoutDrawer.SubmittedNetAmountIsDrawerTotal | src/components/CheckoutDrawer.jsx:19-67 | on a consistent cart the order's net amount is the drawer's total |
| CheckoutDrawer.GuardWeakerThanValidation | src/components/CheckoutDrawer.jsx:37 | the guard lets through an email that `validateOrder` rejects |
| CheckoutDrawer.SparklerScenario | src/components/CheckoutDrawer.jsx:19-67 | two Sparklers at 50 with an item discount of 5: the order totals 90 while the drawer's subtotal reads 100 |
| CheckoutDrawer.Drawer.constructor | src/components/CheckoutDrawer.jsx:6-16 | empty form, discount 0, not loading, no error |
| CheckoutDrawer.Drawer.HandleChange | src/components/CheckoutDrawer.jsx:28-31 | sets the field and clears the error |
| CheckoutDrawer.Drawer.HandleDiscountChange | src/components/CheckoutDrawer.jsx:193-194 | the discount becomes the input clamped to the current cart's subtotal, so it is at most that subtotal; nothing else changes |
| CheckoutDrawer.Drawer.ReceiveCart | src/components/CheckoutDrawer.jsx:5 | a new cart from the parent replaces the old one and the discount is kept, even when it now exceeds the new subtotal |
| CheckoutDrawer.Drawer.HandleSubmit | src/components/CheckoutDrawer.jsx:33-92 | as written: the guard's failure shows its message; after a successful write the order is stored but the TypeError message is shown; a failed write shows its message |
| CheckoutDrawer.Drawer.HandleSubmitIntended | src/components/CheckoutDrawer.jsx:74-85 | corrected: a stored order sets success with no error |
| CheckoutDrawer.Drawer.FinishSuccess | src/components/CheckoutDrawer.jsx:78-84 | the delayed reset empties the form, zeroes the discount and clears success |
| ProductManagement.InitialForm | src/admin/ProductManagement.jsx:5-21 | exactly the fifteen fields, all empty |
| ProductManagement.DiscountedRate | src/admin/ProductManagement.jsx:51-61 | the rate is ≥ 0 and is 0 or price − price × pct / 100 |
| ProductManagement.RateBounds | src/admin/ProductManagement.jsx:51-53 | with no discount the rate is the price; with a non-negative price and 0..100 % it lies between 0 and the price |
| ProductManagement.Derive | src/admin/ProductManagement.jsx:48-63 | the four derived fields come from `Number(...) \|\| 0` of the price and percentage fields; every other field is kept |
| ProductManagement.DeriveProperties | src/admin/ProductManagement.jsx:48-63 | the derived rates are non-negative, and deriving twice is deriving once |
| ProductManagement.PrepareProduct | src/admin/ProductManagement.jsx:71-88 | the written record is the derived form with price := rsPrice and rsrate := rsRate |
| ProductManagement.EditForm | src/admin/ProductManagement.jsx:100-105 | the initial fields overlaid with the product, with rsPrice from price and rsRate from rsrate (or '') |
| ProductManagement.EditAfterSubmit | src/admin/ProductManagement.jsx:87-103 | editing a record written by submit brings its truthy price back as rsPrice |
| ProductManagement.MaxCode | src/admin/ProductManagement.jsx:39 | NaN exactly when some code is non-numeric; otherwise ≥ 0, ≥ every code, and 0 or one of the codes |
| ProductManagement.NextCode | src/admin/ProductManagement.jsx:37-40 | NaN exactly when some code is non-numeric; otherwise ≥ 1, above every code, and 1 or one more than some code |
| ProductManagement.NextCodeIsFresh | src/admin/ProductManagement.jsx:39-40 | when every code is numeric the next code exceeds each of them |
| ProductManagement.FilteredProducts | src/admin/ProductManagement.jsx:110 | a product is listed exactly when its name or category contains the search, case-insensitively |
| ProductManagement.EmptySearchListsNamed | src/admin/ProductManagement.jsx:110 | an empty search lists exactly the products with a name or a category |
| ProductManagement.Paginate | src/admin/ProductManagement.jsx:111 | a page holds at most 10 rows |
| ProductManagement.TotalPages | src/admin/ProductManagement.jsx:112 | `Math.ceil(n / 10)`: enough pages for n rows and no spare page |
| ProductManagement.FirstPagesPrefix | src/admin/ProductManagement.jsx:111 | pages 1..k laid end to end are the first 10·k rows |
| ProductManagement.PagesPartition | src/admin/ProductManagement.jsx:111-112 | pages 1..totalPages hold every filtered row once, in order |
| ProductManagement.CatalogForm.constructor | src/admin/ProductManagement.jsx:24-28 | initial form, no products, no edit id, page 1 |
| ProductManagement.CatalogForm.CodeEffect | src/admin/ProductManagement.jsx:37-42 | when not editing, the code becomes max code + 1; otherwise nothing changes |
| ProductManagement.CatalogForm.ReceiveProducts | src/admin/ProductManagement.jsx:31-42 | the list is replaced and the code effect runs |
| ProductManagement.CatalogForm.HandleChange | src/admin/ProductManagement.jsx:45-65 | the form becomes Derive of the form with the field set |
| ProductManagement.CatalogForm.HandleReset | src/admin/ProductManagement.jsx:66 | initial form and no edit id; the code effect runs only when the edit id changed |
| ProductManagement.CatalogForm.HandleSubmit | src/admin/ProductManagement.jsx:68-95 | the prepared record is written (an update while editing, an add otherwise) and then the form resets; a failed write stops before the reset |
| ProductManagement.CatalogForm.HandleEdit | src/admin/ProductManagement.jsx:97-106 | the product's id becomes the edit id and the form becomes EditForm of the product |
| ProductManagement.CatalogForm.SetSearch | src/admin/ProductManagement.jsx:147 | sets the search and keeps the page |
| ProductManagement.CatalogForm.PrevPage | src/admin/ProductManagement.jsx:200 | disabled on page 1, otherwise one page back |
| ProductManagement.CatalogForm.NextPage | src/admin/ProductManagement.jsx:202 | disabled when the page equals totalPages, otherwise one page on |
| ProductManagement.CatalogForm.Shown | src/admin/ProductManagement.jsx:110-111 | the rows shown are the current page of the filtered list |
| OrderProductTable.GroupOf | src/components/OrderProductTable.jsx:24-29 | a category's group holds exactly its products, in catalog order |
| OrderProductTable.ExactlyOneGroup | src/components/OrderProductTable.jsx:25-27 | a product lies in the group of its own category (or 'Uncategorized') and in no other |
| OrderProductTable.GroupOfIsFilter | src/components/OrderProductTable.jsx:24-29 | a group is the catalog filtered by category |
| OrderProductTable.GroupNonEmptyIff | src/components/OrderProductTable.jsx:26 | a category has a group exactly when some product has it |
| OrderProductTable.FirstSeen | src/components/OrderProductTable.jsx:24-29 | the categories that occur, each exactly once |
| OrderProductTable.GroupByCategory | src/components/OrderProductTable.jsx:24-29 | the reduce loop: one key per category present, in first-seen order, each holding its products in order; the group sizes sum to the catalog size |
| OrderProductTable.FindProduct | src/components/OrderProductTable.jsx:36 | None exactly when no product has the id; otherwise a product with that id |
| OrderProductTable.FindFirst | src/components/OrderProductTable.jsx:36 | the search returns the first product with the id, whatever products follow |
| OrderProductTable.FindDistinct | src/components/OrderProductTable.jsx:36 | with distinct ids the search finds the product itself |
| OrderProductTable.GrandTotal | src/components/OrderProductTable.jsx:35-38 | NaN exactly when some entry's term is NaN: a NaN quantity, or a listed product whose price is not a number |
| OrderProductTable.UnknownEntryAddsNothing | src/components/OrderProductTable.jsx:37 | an entry whose id names no product adds nothing |
| OrderProductTable.RowTotal | src/components/OrderProductTable.jsx:64 | the row's total cell is NaN exactly when the price is not a number, and otherwise the kept quantity (or 0) times the price |
| OrderProductTable.GrandTotalIsRowSum | src/components/OrderProductTable.jsx:35-64 | when the quantity keys are the product ids and every quantity is a number, the grand total is the sum of the rows' total cells, NaN in both when a price is not a number |
| OrderProductTable.KeptEntriesFacts | src/components/OrderProductTable.jsx:12-18 | the new map has exactly the product ids as keys, in order, and each holds the old quantity or 0 |
| OrderProductTable.EstimateTable.constructor | src/components/OrderProductTable.jsx:5-6 | no products and no quantities |
| OrderProductTable.EstimateTable.ReceiveSnapshot | src/components/OrderProductTable.jsx:9-18 | the forEach loop: keys are exactly the new ids in order; survivors keep a truthy quantity; others get 0; every quantity is a number |
| OrderProductTable.EstimateTable.HandleQtyChange | src/components/OrderProductTable.jsx:31-33 | that id gets `Number(value)`; every other entry keeps its value and place |
| EstimateOrder.TotalOf | src/pages/Order.jsx:18 | the total is NaN exactly when some quantity is NaN |
| EstimateOrder.Total | src/pages/Order.jsx:18 | NaN exactly when some quantity is NaN; non-negative numeric quantities give a number ≥ 0 |
| EstimateOrder.TotalIsRowSum | src/pages/Order.jsx:18-46 | with numeric quantities the total is the sum of the row totals |
| EstimateOrder.TotalNonNegative | src/pages/Order.jsx:3-18 | non-negative quantities give a non-negative total |
| EstimateOrder.ZeroTotal | src/pages/Order.jsx:10-18 | all-zero quantities total 0 |
| EstimateOrder.Estimate.constructor | src/pages/Order.jsx:10 | one zero per product, and total 0 |
| EstimateOrder.Estimate.HandleQtyChange | src/pages/Order.jsx:12-16 | only index idx changes, to `Number(value)` |
| ProductManager.SetField | src/components/ProductManager.jsx:9 | only the named field changes |
| ProductManager.WithoutId | src/components/ProductManager.jsx:21 | a product remains exactly when it was there and its id differs |
| ProductManager.WithoutIdAppend | src/components/ProductManager.jsx:21 | deleting distributes over concatenation, so order is kept |
| ProductManager.AddThenDelete | src/components/ProductManager.jsx:11-24 | adding under a fresh id and deleting that id restores the list |
| ProductManager.DeleteRemovesEveryMatch | src/components/ProductManager.jsx:21 | no entry with the id survives, and the list does not grow |
| ProductManager.Manager.constructor | src/components/ProductManager.jsx:3-7 | the list is the snapshot the module read from storage when it loaded, storage keeps what it holds now, and the two agree exactly when that snapshot is current; the form is empty |
| ProductManager.Manager.HandleChange | src/components/ProductManager.jsx:9 | only the form changes |
| ProductManager.Manager.AddProduct | src/components/ProductManager.jsx:11-18 | the form is appended with the clock's id; storage mirrors the list; the form is emptied |
| ProductManager.Manager.DeleteProduct | src/components/ProductManager.jsx:20-24 | every entry with the id is dropped, and storage mirrors the list |
| BannerPage.SelectionAlert | src/admin/BannerPage.jsx:45-55 | no alert exactly for an image of at most 5 MiB; otherwise the type alert takes precedence over the size alert |
| BannerPage.StatusIcon | src/admin/BannerPage.jsx:149-157 | 'uploading', 'success' and 'error' show the hourglass, the check mark and the cross; any other status shows nothing |
| BannerPage.StatusText | src/admin/BannerPage.jsx:159-167 | 'uploading', 'success' and 'error' read "Uploading...", "Uploaded" and "Failed"; any other status reads nothing |
| BannerPage.StatusIconAndTextAgree | src/admin/BannerPage.jsx:149-167 | icon and text are both empty for an unknown status, and the three statuses have three different icons |
| BannerPage.MarkLookup | src/admin/BannerPage.jsx:108-126 | marked keys hold the status, and no other key changes |
| BannerPage.ApplyUploadsLookup | src/admin/BannerPage.jsx:101-115 | the saved map holds each uploaded key's URL and keeps every other banner |
| BannerPage.FirstFailure | src/admin/BannerPage.jsx:105-129 | None exactly when every upload succeeds; otherwise the first failing index, with every earlier upload succeeding |
| BannerPage.UploadAll | src/admin/BannerPage.jsx:101-129 | the upload loop: stops at the first failure, which is marked error, with earlier keys marked success; without a failure every key is marked success and its URL recorded |
| BannerPage.InitialBannersWellFormed | src/admin/BannerPage.jsx:9-16 | the initial map has the six slots, distinct and in order, each holding the empty URL |
| BannerPage.Banners.constructor | src/admin/BannerPage.jsx:7-20 | the six slots with empty URLs, no selections, loading |
| BannerPage.Banners.ReceiveBanners | src/admin/BannerPage.jsx:32-39 | the snapshot replaces the URL map and loading ends |
| BannerPage.Banners.HandleFileSelect | src/admin/BannerPage.jsx:41-60 | a missing or rejected file changes nothing; an accepted one becomes the key's selection |
| BannerPage.Banners.PreviewLoaded | src/admin/BannerPage.jsx:63-70 | the data URL becomes the key's preview |
| BannerPage.Banners.HandleRemoveFile | src/admin/BannerPage.jsx:73-91 | removes that key from the selections, previews and statuses, and nothing else |
| BannerPage.Banners.HandleSaveSettings | src/admin/BannerPage.jsx:93-147 | no selection: an alert and no change. A failed upload: statuses marked to that point, selections kept, nothing written. All uploaded: the URL map is written, and a successful write clears the selections, previews and statuses. Saving ends false |
| BannerPage.Banners.FinishSave | src/admin/BannerPage.jsx:129-146 | the state after the loop, as above |
| ContactPage.SetField | src/admin/ContactPage.jsx:24-29 | the input named phone, whatsapp or email sets that field of the record |
| ContactPage.SetFieldOnlyThatField | src/admin/ContactPage.jsx:24-29 | an input change sets that field and leaves the other two alone |
| ContactPage.EmailPatternIff | src/admin/ContactPage.jsx:38-39 | `^[^\s@]+@[^\s@]+\.[^\s@]+$` matches exactly the addresses with no whitespace, exactly one '@' with something before it, and a domain holding a '.' that is neither its first nor its last character |
| ContactPage.Rejection | src/admin/ContactPage.jsx:32-42 | 'fill in all fields' exactly when a field is empty; nothing exactly when all three are set and the email is valid; the email alert otherwise |
| ContactPage.WrittenRecordIsWellFormed | src/admin/ContactPage.jsx:32-46 | every record that reaches the write has all fields and an email matching the pattern |
| ContactPage.Contact.constructor | src/admin/ContactPage.jsx:7-13 | empty fields, loading, not saving |
| ContactPage.Contact.ReceiveContact | src/admin/ContactPage.jsx:15-22 | the pushed record replaces the form and loading ends |
| ContactPage.Contact.HandleInputChange | src/admin/ContactPage.jsx:24-29 | only the named field changes |
| ContactPage.Contact.HandleSave | src/admin/ContactPage.jsx:31-53 | a rejected record shows its alert and writes nothing; otherwise the record is written, the alert reports the outcome, and saving ends false either way |
| ColorProvider.DefaultsWellFormed | src/contexts/ColorProvider.jsx:9-22 | the twelve keys are distinct, each has a `#rrggbb` default, and there is no other key |
| ColorProvider.Merge | src/contexts/ColorProvider.jsx:28-31 | the pushed keys win, every other key keeps its value, and no key is lost |
| ColorProvider.MergeKeepsKeys | src/contexts/ColorProvider.jsx:28-31 | a merge never loses one of the twelve keys |
| ColorProvider.MergeIdempotent | src/contexts/ColorProvider.jsx:28-31 | merging a push twice is merging it once, and an empty push changes nothing |
| ColorProvider.GetColor | src/contexts/ColorProvider.jsx:77-79 | the stored value, or '#000000' when it is missing or empty; never empty |
| ColorProvider.Styles | src/contexts/ColorProvider.jsx:39-74 | the twelve style slots, section by section and background before text, are the values of the twelve colour keys in order |
| ColorProvider.StylesExposeEachKeyOnce | src/contexts/ColorProvider.jsx:39-74 | the twelve style slots show the twelve distinct keys in order, each once |
| ColorProvider.StylesDetermineKeys | src/contexts/ColorProvider.jsx:39-74 | two settings give the same styles exactly when they agree on all twelve keys |
| ColorProvider.CssVariables | src/contexts/ColorProvider.jsx:92-107 | twelve properties; property i carries colour key i |
| ColorProvider.CssNamesDistinct | src/contexts/ColorProvider.jsx:94-105 | the twelve property names are distinct |
| ColorProvider.HexChannels | src/contexts/ColorProvider.jsx:84-86 | on `#rrggbb` each `parseInt` of a two-character slice is that byte |
| ColorProvider.BrightnessOfHex | src/contexts/ColorProvider.jsx:84-88 | on `#rrggbb` the brightness test is 299r + 587g + 114b > 155000 |
| ColorProvider.IsLightColor | src/contexts/ColorProvider.jsx:82-89 | `#rrggbb` is light exactly when 299r + 587g + 114b > 155000, so the `#000000` guard agrees with the test |
| ColorProvider.EmptyIsDark | src/contexts/ColorProvider.jsx:83-88 | the empty string has NaN channels, so the test alone calls it dark |
| ColorProvider.Provider.constructor | src/contexts/ColorProvider.jsx:9-24 | the defaults, loading |
| ColorProvider.Provider.ReceiveColors | src/contexts/ColorProvider.jsx:26-33 | a push is merged over the colours, an absent one adds nothing; loading ends; all twelve keys stay |
| ColorProvider.Provider.StylesAllSet | src/contexts/ColorProvider.jsx:39-107 | in a provider every style slot and every custom property has a value |
| GeneralPage.IsLightColorAgrees | src/admin/GeneralPage.jsx:130-136 | the page's unguarded test agrees with the provider's on every string |
| GeneralPage.IsLightColor | src/admin/GeneralPage.jsx:130-136 | `#rrggbb` is light exactly when 299r + 587g + 114b > 155000 |
| GeneralPage.PreviewTextColor | src/admin/GeneralPage.jsx:255 | black exactly on a light colour, white otherwise |
| GeneralPage.Settings.constructor | src/admin/GeneralPage.jsx:7-23 | the defaults, no changes, not saving, loading |
| GeneralPage.Settings.ReceiveSettings | src/admin/GeneralPage.jsx:71-80 | data is merged over the settings, absent data leaves them; loading ends; the flags are kept |
| GeneralPage.Settings.HandleColorChange | src/admin/GeneralPage.jsx:85-91 | only that key changes, and hasChanges is set |
| GeneralPage.Settings.HandleResetToDefaults | src/admin/GeneralPage.jsx:109-128 | on confirmation the settings are exactly the twelve defaults and hasChanges is set; a refusal changes nothing |
| GeneralPage.Settings.HandleSaveSettings | src/admin/GeneralPage.jsx:93-107 | without changes nothing happens; otherwise the settings are written, a success clears hasChanges, a failure keeps it, and saving ends false |

## Left out

- Firestore, Firebase Storage, timers, `alert`/`confirm`, `FileReader`, `localStorage` and rendering: each enters the model as a parameter (write outcome, upload result, confirmation, data URL, stored list) or is not modelled.
- `getProducts`, `getBanners`, `uploadBannerImage`, `updateBanners`, `getContact`, `updateContact`, `getColorSettings` and `updateColorSettings`: the last seven are not defined in `src/firebase/firestoreService.js`. Like the subscription callbacks, they are treated as an external store.
- Concurrency and the interleaving of `await` with subscription callbacks: every handler runs to completion as one step.
- Floating point: amounts are exact reals, so rounding in sums, products and `/ 100` is not modelled.
- `Number(...)`/`parseFloat`: modelled on the decimal strings a numeric input produces (an optional sign, digits with at most one '.'). Whitespace trimming, exponents, `Infinity` and hexadecimal literals are not modelled.
- `parseInt(…, 16)`: whitespace, a sign or a `0x` prefix in a slice are not modelled (a brightness test over such slices would differ).
- `toLowerCase`: only ASCII letters are folded.
- JavaScript object quirks:
  - prototype keys such as `constructor` as a category or status-table key;
  - integer-like keys, which `Object.keys` lists first;
  - a non-string name or category, which makes search throw;
  - a non-array `items` field.
- CheckoutDrawer.Drawer: the discount is clamped only when it is edited and reset only after a successful order, so a cart that shrinks while the drawer stays mounted can leave a discount above the subtotal. The model keeps that state reachable; it promises only a non-negative discount between edits.
- OrderSchema.CreateOrderObject: the `date: serverTimestamp()` sentinel is a constant, and `deliveryDate` is an integer millisecond time rather than a `Date`.
- OrderProductTable.GroupByCategory: the keys keep first-seen order for every category name, while `Object.entries` would list integer-like names first.
- OrderProductTable: a product's price enters as `Number(p.price)`, read as for `Number(...)` above.
- OrdersPage: the status badge colour (`getStatusColor`) is presentation only.
- ProductManagement: `handleDelete` (a confirmed `deleteProduct`) and the two unused "change for all products" checkboxes are not modelled.
- ProductManagement.CatalogForm.HandleReset: after an add, the code field returns to the auto-incremented value only when the product snapshot arrives, and that timing is not modelled.
- ColorProvider: `useColors` throwing outside a provider, and `withColors`, are React plumbing.
- GeneralPage: the `colorConfig` labels and descriptions are presentation only.
- ContactPage and GeneralPage: a pushed document is taken to carry string fields; `null` or non-string values are not modelled.

## Findings

| source | as written | input that shows it | evidently intended | confidence | as-written member | corrected member |
|---|---|---|---|---|---|---|
| src/admin/OrdersPage.jsx:152 | the Total Qty column sums `item.qty`, but orders written through the schema store `quantity` | any stored order with at least one item, e.g. one item of quantity 3: `0 + undefined` is NaN, and `NaN \|\| 0` shows 0 | sum the items' `quantity` (falling back to `qty`) | high; not executed | OrdersPage.SchemaOrdersShowZeroQuantity | OrdersPage.IntendedQuantityOfSchemaOrder |
| src/components/CheckoutDrawer.jsx:74-85 with src/firebase/firestoreService.js:38-40 | `addOrder` resolves to `undefined`, so `result.success` throws after the order is written | a valid form and a successful write: the order is stored, yet the drawer shows the TypeError message and never resets | treat a completed write as success | high; not executed | CheckoutDrawer.Drawer.HandleSubmit | CheckoutDrawer.Drawer.HandleSubmitIntended |
