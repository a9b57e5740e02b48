# Shop service layer, modelled in Dafny

This project models the business logic of a small Spring Boot shop backend:

- **Cart.** Get-or-create, add, update, remove and clear a line. The item count and subtotal are recomputed by a full re-scan after each change. A read-only validator reports at most one issue per line.
- **Checkout.** Each requested line is checked against stock and snapshots the product's seller, price, image and name. The product's stock is decremented immediately. Afterwards the user's cart is cleared.
- **Order status machine.** A fixed transition table drives status changes. Moving into `cancelled` puts every line's quantity back on its product. `pending` → `sold` re-checks stock.
- **Wishlist.** At most one row per (user, product) pair, with a duplicate check and an existence check on add. Delete is unconditional.
- **Product catalogue.** Save (insert or replace), look-up, a field-by-field "non-null overwrites" partial update, and delete.
- **Cart controller.** The ordered substring classifier from an error message to an HTTP status and error code, and the reply to "clear cart".
- **User controller.** The profile-field whitelist, the avatar upload guards, and the file-name, extension and media-type helpers.

The persistence layer is one in-memory store, `Store.Database`. It holds a product table keyed by the product's string id, a cart per user, orders keyed by id, the wishlist rows, and counters that stand for the store's generated ids. `Database.Valid()` holds:

- every product is stored under its own id;
- each cart belongs to its user, has distinct line ids, at most one line per product, and an item count equal to the sum of its quantities;
- every cart line and wishlist row names a stored product (the non-null foreign key of those rows);
- wishlist pairs are unique.

Each service operation, and the clear-cart endpoint built on one, takes the store and states its whole effect: `db.State() == …` in terms of the tables before the call.

Operations marked transactional in the source run all-or-nothing. The model computes the new state first and writes it only on success, so a failure leaves the store exactly as it was. Examples are a failed checkout and a failed cart add, including the cart it would have created.

Prices are whole numbers of the smallest currency unit, so totals are exact sums. A service entry point that receives a product id as a Java `Long` takes an `int` and looks the product up by `Strings.Decimal(id)`, which models `String.valueOf`.

Files:

- `Strings.dfy`: the `java.lang.String` operations used.
- `Model.dfy`: entities, errors with their exact messages, and the cart sums.
- `Store.dfy`: the store and its invariant.
- `CartService.dfy`, `OrderService.dfy`, `WishlistService.dfy`, `ProductService.dfy`, `CartController.dfy` and `UserController.dfy`: one module per source class.

## Model

| member | source | states |
|---|---|---|
| Strings.LastIndexOf | src/main/java/com/example/today/Controller/UserController.java:127 | the result is -1 or an index holding the character, and no later index holds it |
| Strings.Decimal | src/main/java/com/example/today/Service/OrderService.java:43 | the decimal text of a number is non-empty and made only of digits and a minus sign (so it never holds `/` or `.`) |
| Model.SumsAppend | src/main/java/com/example/today/Service/CartService.java:147-158 | the item count and the subtotal of two runs of lines are the sums of each run's |
| CartService.LineIndex | src/main/java/com/example/today/Repository/CartItemRepository.java:11 | finds the line with the given id in the user's cart: an index holding that id, or -1 exactly when no line has it |
| CartService.ComputeTotals | src/main/java/com/example/today/Service/CartService.java:147-158 | the re-scan loop yields the item count as Σ quantity and the subtotal as Σ current price × quantity over all lines |
| CartService.GetCartByUserId | src/main/java/com/example/today/Service/CartService.java:28-40 | returns the user's existing cart unchanged, or stores and returns a new one for that user with no lines and both totals 0 |
| CartService.AddItemToCart | src/main/java/com/example/today/Service/CartService.java:42-71 | fails with "Product not found", then "Insufficient stock", then the already-in-cart message, in that order, leaving the store unchanged; otherwise appends exactly one line with that product and quantity, keeps the earlier lines, recomputes both totals and keeps the store valid; no check on quantity > 0 |
| CartService.AsWrittenAcceptsSecondLine | src/main/java/com/example/today/Service/CartService.java:53-58 | the duplicate test as written never matches, so a second line for a product already in the cart gets through and breaks one-line-per-product |
| CartService.AddKeepsOneLinePerProduct | src/main/java/com/example/today/Service/CartService.java:52-67 | with the intended duplicate test, adding a line keeps at most one line per product |
| CartService.UpdateCartItem | src/main/java/com/example/today/Service/CartService.java:73-91 | rejects quantity ≤ 0 before any look-up, then a line not in the user's cart, then stock below the quantity, all without change; otherwise changes only that line's quantity and recomputes both totals |
| CartService.RemoveCartItem | src/main/java/com/example/today/Service/CartService.java:93-103 | fails with "Cart item not found" without change when the line is not in the user's cart; otherwise removes exactly that line, keeps the others in order and recomputes both totals |
| CartService.GetCartItemById | src/main/java/com/example/today/Service/CartService.java:105-109 | returns the line with that id from the user's cart or "Cart item not found"; the only change is the cart it creates |
| CartService.Cleared | src/main/java/com/example/today/Service/CartService.java:111-120 | after clearing, the user's cart exists with the same id, no lines and both totals 0; products, orders, wishlist and other carts are untouched |
| CartService.ClearIdempotent | src/main/java/com/example/today/Service/CartService.java:111-120 | clearing a cleared cart changes nothing |
| CartService.ClearCart | src/main/java/com/example/today/Service/CartService.java:111-120 | the new state is the cleared tables and the returned cart is the emptied cart |
| CartService.IssueFor | src/main/java/com/example/today/Service/CartService.java:128-141 | an issue reported for a line carries that line |
| CartService.IssuePrecedence | src/main/java/com/example/today/Service/CartService.java:132-141 | out_of_stock exactly when the product is gone; insufficient_stock exactly when it exists with stock below the quantity; price_changed exactly when stock suffices and the price differs from the line's recorded price; no issue exactly when none applies |
| CartService.AsWrittenNeverReportsPriceChange | src/main/java/com/example/today/Service/CartService.java:138-140 | the price test as written never reports price_changed, even for a line whose price did change |
| CartService.IssuesSplit | src/main/java/com/example/today/Service/CartService.java:128-142 | the issues of two runs of lines are the issues of each, in order |
| CartService.IssuesPerLine | src/main/java/com/example/today/Service/CartService.java:122-145 | there are no more issues than lines, every issue is about a line of the cart, and there are no issues exactly when every line passes |
| CartService.CollectIssues | src/main/java/com/example/today/Service/CartService.java:128-142 | the loop yields exactly the line-by-line issues, and `valid` is true exactly when there are none |
| CartService.ValidateCart | src/main/java/com/example/today/Service/CartService.java:122-145 | reports the issues of the user's lines against the current products; the only change is creating a missing cart |
| CartService.AddedLineTotals | src/main/java/com/example/today/Service/CartService.java:61-69 | adding a line raises the item count by its quantity and the subtotal by its price × quantity |
| CartService.RemovedLineTotals | src/main/java/com/example/today/Service/CartService.java:99-101 | removing a line lowers the item count by its quantity and the subtotal by its price × quantity |
| CartService.UpdatedLineTotals | src/main/java/com/example/today/Service/CartService.java:87-89 | changing a line's quantity moves the item count by the difference and the subtotal by price × difference |
| CartService.PriceChangeExample | src/main/java/com/example/today/Service/CartService.java:147-158 | a product at 10 with stock 5: adding 3 gives 3 items and 30; updating to 2 gives 2 and 20; at price 12 the line is reported price_changed and a re-scan gives 24 |
| OrderService.IsValidStatusTransition | src/main/java/com/example/today/Service/OrderService.java:95-104 | an allowed transition never keeps the status, starts from pending, sold, shipped or cancelled, and ends in one of the five known statuses |
| OrderService.TransitionTable | src/main/java/com/example/today/Service/OrderService.java:95-104 | a transition is allowed exactly when it is one of pending→sold, pending→cancelled, sold→shipped, sold→cancelled, shipped→delivered, cancelled→pending |
| OrderService.TransitionDeadEnds | src/main/java/com/example/today/Service/OrderService.java:95-104 | no status may move to itself; delivered and every unknown status have no successor |
| OrderService.Place | src/main/java/com/example/today/Service/OrderService.java:42-64 | a checkout fails only with a missing product or short stock; a success has one line per request and leaves the same products stored |
| OrderService.PlaceOrderLines | src/main/java/com/example/today/Service/OrderService.java:42-64 | the checkout loop computes exactly the line-by-line checkout: it fails on the first missing product or short stock, otherwise it gives the new products, the lines and the total |
| OrderService.PlaceStock | src/main/java/com/example/today/Service/OrderService.java:61-63 | a successful checkout lowers each product's stock by exactly the total quantity requested of it and changes nothing else of any product |
| OrderService.PlaceLines | src/main/java/com/example/today/Service/OrderService.java:50-59 | one line per request, in order, each snapshotting the product's seller, price, image and name as they were before checkout |
| OrderService.PlaceTotal | src/main/java/com/example/today/Service/OrderService.java:58 | the order total is Σ price × quantity over its lines |
| OrderService.PlaceAccounts | src/main/java/com/example/today/Service/OrderService.java:42-66 | stock accounting, snapshots and total together |
| OrderService.PlaceStockNonNegative | src/main/java/com/example/today/Service/OrderService.java:46-62 | every requested product ends with stock ≥ 0, and a product with stock ≥ 0 before keeps it |
| OrderService.RepeatedProduct | src/main/java/com/example/today/Service/OrderService.java:42-64 | a product requested twice succeeds exactly when its stock covers the first quantity and what remains covers the second |
| OrderService.PlaceMissingProduct | src/main/java/com/example/today/Service/OrderService.java:43-44 | a request for a product that is not stored fails the whole checkout |
| OrderService.Restore | src/main/java/com/example/today/Service/OrderService.java:106-113 | restoring fails only with a missing product, and a success leaves the same products stored |
| OrderService.RestoreProductStock | src/main/java/com/example/today/Service/OrderService.java:106-113 | the restore loop computes exactly the line-by-line restore |
| OrderService.RestoreSucceeds | src/main/java/com/example/today/Service/OrderService.java:106-113 | restoring succeeds exactly when every line's product is stored |
| OrderService.RestoreStock | src/main/java/com/example/today/Service/OrderService.java:106-113 | a successful restore raises each product's stock by the quantity ordered of it and changes nothing else |
| OrderService.RestoreAccounts | src/main/java/com/example/today/Service/OrderService.java:106-113 | restoring succeeds exactly when every line's product is stored, and then raises each product's stock by the quantity ordered of it and changes nothing else |
| OrderService.OrderedMatchesRequested | src/main/java/com/example/today/Service/OrderService.java:52-54 | per product, the lines of a checkout order exactly what was requested |
| OrderService.CancelUndoesCheckout | src/main/java/com/example/today/Service/OrderService.java:106-113 | cancelling right after checkout gives back exactly the product table the checkout started from |
| OrderService.StockShortfall | src/main/java/com/example/today/Service/OrderService.java:115-123 | a shortfall is a missing product or short stock, and short stock names a stored product that some line asks more of than it has |
| OrderService.StockShortfallMeaning | src/main/java/com/example/today/Service/OrderService.java:115-123 | the stock re-check passes exactly when every line's product is stored with stock ≥ the line's quantity |
| OrderService.ValidateProductStock | src/main/java/com/example/today/Service/OrderService.java:115-123 | the re-check loop yields exactly the first missing product or short stock, or none |
| OrderService.StatusChange | src/main/java/com/example/today/Service/OrderService.java:79-113 | a disallowed transition fails with the transition message; an allowed one sets the status to the new one, keeps the same products stored, and changes stock only when moving into cancelled; from pending or sold, a move into cancelled fails, with "Product not found", exactly when some line's product is gone, and otherwise raises each product's stock by the quantity the order holds of it |
| OrderService.ReopenKeepsStock | src/main/java/com/example/today/Service/OrderService.java:79-92 | cancelled to pending succeeds and changes no stock |
| OrderService.SoldRechecksStock | src/main/java/com/example/today/Service/OrderService.java:87-89 | from pending, moving to sold succeeds exactly when every line's product is stored with stock ≥ the line's quantity |
| OrderService.CancelReopenCancel | src/main/java/com/example/today/Service/OrderService.java:85-86 | cancel, back to pending, cancel again: the reopening changes no stock and each cancel restores the lines, so every product gains twice its ordered quantity |
| OrderService.CreateOrder | src/main/java/com/example/today/Service/OrderService.java:30-72 | a failed checkout leaves the store unchanged; a successful one stores a pending order with the next id, the checkout's lines and total, commits the new stock and clears the user's cart |
| OrderService.UpdateOrderStatus | src/main/java/com/example/today/Service/OrderService.java:74-93 | "Order not found" without change for an unknown id; otherwise the status change's outcome, committed only on success |
| WishlistService.AddItemToWishlist | src/main/java/com/example/today/Service/WishlistService.java:27-46 | fails with "Product already in wishlist" before looking the product up, then with "Product not found", both without change; otherwise appends exactly one row for that user and product |
| WishlistService.AddKeepsUniquePairs | src/main/java/com/example/today/Service/WishlistService.java:30-45 | adding a pair not yet present keeps every (user, product) pair unique |
| WishlistService.ForUser | src/main/java/com/example/today/Service/WishlistService.java:48-50 | a row is in the result exactly when it is in the table with that user id |
| WishlistService.GetWishlist | src/main/java/com/example/today/Service/WishlistService.java:48-50 | returns exactly the rows of that user |
| WishlistService.Without | src/main/java/com/example/today/Service/WishlistService.java:52-55 | a row survives the delete exactly when it does not hold the pair |
| WishlistService.WithoutIdempotent | src/main/java/com/example/today/Service/WishlistService.java:52-55 | deleting a pair twice is deleting it once |
| WishlistService.WithoutAbsent | src/main/java/com/example/today/Service/WishlistService.java:52-55 | deleting a pair that is not there changes nothing |
| WishlistService.WithoutKeepsUniquePairs | src/main/java/com/example/today/Service/WishlistService.java:52-55 | deleting keeps every pair unique |
| WishlistService.RemoveItemFromWishlist | src/main/java/com/example/today/Service/WishlistService.java:52-55 | never fails; the new wishlist is the old one without the pair, and nothing else changes |
| WishlistService.RemoveThenAbsent | src/main/java/com/example/today/Service/WishlistService.java:52-55 | after a removal the pair is absent, and removing it again changes nothing |
| ProductService.Merge | src/main/java/com/example/today/Service/ProductService.java:37-50 | the id and the creation time are never changed by a partial update |
| ProductService.EmptyPatchIsIdentity | src/main/java/com/example/today/Service/ProductService.java:37-50 | an all-null patch leaves the product as it was |
| ProductService.MergeIdempotent | src/main/java/com/example/today/Service/ProductService.java:37-50 | applying the same patch twice equals applying it once |
| ProductService.MergeCompose | src/main/java/com/example/today/Service/ProductService.java:37-50 | two updates in a row equal one update in which the later patch wins field by field |
| ProductService.MergeFieldwise | src/main/java/com/example/today/Service/ProductService.java:37-50 | for each of the fourteen editable fields, a present value overwrites the stored one and an absent one keeps it; the id and the creation time stay |
| ProductService.GetProductById | src/main/java/com/example/today/Service/ProductService.java:24-26 | present exactly when the id is stored, and then the stored product, whose own id is the one asked for |
| ProductService.CreateProduct | src/main/java/com/example/today/Service/ProductService.java:28-30 | stores the product under its id, replacing any row there; a later look-up returns it |
| ProductService.UpdateProduct | src/main/java/com/example/today/Service/ProductService.java:32-53 | "Product not found with id: …" without change for an unknown id; otherwise only that product changes, to the merge of the stored product and the patch |
| ProductService.DeleteProduct | src/main/java/com/example/today/Service/ProductService.java:55-57 | removes the product, or does nothing when the id is absent; afterwards a look-up finds nothing; a product still referenced by a cart line or wishlist row is refused without change |
| CartController.HandleCartError | src/main/java/com/example/today/Controller/CartController.java:189-214 | for every message: success false and status 400, 404 or 500; 404 exactly when it contains "not found", with PRODUCT_NOT_FOUND when it also contains "Product" and CART_ITEM_NOT_FOUND otherwise; failing that, 400 with INSUFFICIENT_STOCK when it contains "stock", then INVALID_QUANTITY for "Invalid quantity", then PRODUCT_ALREADY_IN_CART for "already in cart"; 500 exactly when none of the four occurs, and then no code and the error text "Internal server error: " + message |
| CartController.ProductNotFoundClassified | src/main/java/com/example/today/Controller/CartController.java:193-197 | "Product not found" gives 404 PRODUCT_NOT_FOUND |
| CartController.CartItemNotFoundClassified | src/main/java/com/example/today/Controller/CartController.java:193-197 | "Cart item not found" gives 404 CART_ITEM_NOT_FOUND |
| CartController.InsufficientStockClassified | src/main/java/com/example/today/Controller/CartController.java:198-201 | "Insufficient stock" gives 400 INSUFFICIENT_STOCK |
| CartController.InvalidQuantityClassified | src/main/java/com/example/today/Controller/CartController.java:202-205 | "Invalid quantity" gives 400 INVALID_QUANTITY |
| CartController.AlreadyInCartMessageShape | src/main/java/com/example/today/Controller/CartController.java:193-209 | the already-in-cart message fails the three earlier substring tests and passes the "already in cart" one |
| CartController.AlreadyInCartClassified | src/main/java/com/example/today/Controller/CartController.java:206-209 | the already-in-cart message gives 400 PRODUCT_ALREADY_IN_CART |
| CartController.CartFailuresClassified | src/main/java/com/example/today/Controller/CartController.java:193-209 | each of the five cart failures gets its intended code and keeps its message; 404 for the two not-found ones, 400 for the rest |
| CartController.CartCodesDistinct | src/main/java/com/example/today/Controller/CartController.java:193-209 | two different cart failures never share an error code |
| CartController.ClearReplyAlwaysEmpty | src/main/java/com/example/today/Controller/CartController.java:93-98 | as written, the clear-cart reply always counts 0 and says "Cart was already empty", whatever the cart held |
| CartController.ClearCartEndpoint | src/main/java/com/example/today/Controller/CartController.java:91-101 | the new state is exactly the tables with the user's cart cleared; with the count read before clearing, the reply counts the units that were in the cart and says "Cart cleared successfully" exactly when there were some |
| UserController.User.UpdateProfile | src/main/java/com/example/today/Controller/UserController.java:35-43 | only name, phone, address and bio change, each to the update's value when its key is present; email, avatar and role never change |
| UserController.User.UploadAvatar | src/main/java/com/example/today/Controller/UserController.java:59-83 | an empty file, then a content type not starting with "image/", is refused before anything changes; a storage failure leaves the avatar; otherwise the avatar becomes "/static/avatars/user_" + id + the extension of the file name's last path segment (see Findings); no other field changes |
| UserController.ExtractFileName | src/main/java/com/example/today/Controller/UserController.java:126-128 | a suffix of the URL with no `/`, preceded by a `/` when shorter than the URL, and the whole URL when it has no `/` |
| UserController.GetFileExtension | src/main/java/com/example/today/Controller/UserController.java:130-135 | ".jpg" when there is no file name or it has no `.`; otherwise a suffix of the name; always a leading `.` and no other `.` |
| UserController.MediaTypeFor | src/main/java/com/example/today/Controller/UserController.java:110-115 | PNG exactly for an extension that lower-cases to ".png", GIF exactly for ".gif", JPEG otherwise, so every extension not four characters long is JPEG |
| UserController.MediaTypeCases | src/main/java/com/example/today/Controller/UserController.java:110-115 | ".PNG" is PNG, ".Gif" is GIF and ".webp" is JPEG |
| UserController.ExtractFileNameRoundTrip | src/main/java/com/example/today/Controller/UserController.java:75-81 | extracting the file name from "/static/avatars/user_" + id + ext gives back "user_" + id + ext when ext has no `/` |
| UserController.ExtensionRoundTrip | src/main/java/com/example/today/Controller/UserController.java:74-75 | the extension of "user_" + id + ext is ext again |
| UserController.UploadExtension | src/main/java/com/example/today/Controller/UserController.java:74 | the stored extension never holds `/`, starts with `.` and has no other `.`, and equals the source's extension for every name without `/` |
| UserController.SlashInFileNameLosesAvatar | src/main/java/com/example/today/Controller/UserController.java:74-81 | as written, a file named "a.png/x" gets the extension ".png/x", and the URL it records leads the avatar read to a file named "x", not the one written |
| UserController.UploadedAvatarRoundTrip | src/main/java/com/example/today/Controller/UserController.java:74-81 | for every client file name, the avatar read finds the file name the upload wrote and serves it with the media type of its extension |

## Left out

- Authentication, JWT, password hashing, file I/O and HTTP marshalling are not modelled. The avatar file's write, delete and read become the `storageFails` flag or are left out, and response maps become small datatypes.
- Floating point: prices, totals and the product's `rating` (a `Double` in the source) are integers, so `double` rounding is not modelled. Java `int` overflow of quantities and stock is not modelled either.
- Timestamps (`createdAt`, `addedAt`, `Instant.now()`) are not kept. A product's `createdAt` is an opaque number that is only carried along.
- `CartItem.selectedColor` is not modelled: no core operation reads or sets it.
- `CartItem` has no price column. The model adds `recordedPrice`, the product's price when the line was added, so that the intended `price_changed` test can be stated. See "Findings".
- Concurrency: each service call is one atomic step. The check-then-act stock race between concurrent checkouts is not modelled.
- `getCartByUserId` runs in a read-only transaction but still stores a newly created cart. The model stores it and ignores the flag.
- `getAllProducts`, `getOrdersByUserId`, `getOrderById` and `getOrderItemsBySeller` are plain repository reads and are not modelled.
- OrderService.CreateOrder: the line's product id is taken from the request, not re-parsed from the product's string id. The two agree because every product is stored under the decimal text of the requested number.
- ProductService.DeleteProduct: the store's foreign keys from cart lines and wishlist rows refuse a referenced product. The model returns an error carrying the store's message. An absent id is a no-op, as `deleteById` does in Spring Data 3, the generation this code uses (`jakarta.persistence`).
- ProductService.CreateProduct: a null id and JPA's merge of an existing row's unmapped fields are not modelled. The save replaces the whole row.
- UserController.MediaTypeFor: lower-casing covers ASCII letters only, not the full Unicode case mapping of `String.toLowerCase`.
- UserController.User.UploadAvatar: a null content type, which throws in the source, is not modelled; the content type is always a string.
- UserController.User.UpdateProfile: a JSON `null` value in the update map is not modelled. Values are strings.
- The user row's own class is not part of this model. Its fields are the ones the controller reads and sets.
- HTTP status codes of endpoints other than the cart error handler are not modelled.
- Null arguments that make the source throw are not modelled: a null new status in `updateOrderStatus` (the `Map.of` lookup rejects a null key) and a null exception message in `handleCartError`. Statuses and messages are always strings.

## Findings

| source | as written | input that shows it | evidently intended | confidence | as-written member | corrected member |
|---|---|---|---|---|---|---|
| src/main/java/com/example/today/Service/CartService.java:54 | the duplicate test compares the line's product id (a `String`) with the requested id (a `Long`) using `equals`, which is false for every non-`String` argument | a cart holding a line for product "7", then add product 7 again: a second line is added instead of "Product already in cart" | reject a second line for the same product | high, not executed | CartService.AsWrittenAcceptsSecondLine | CartService.AddItemToCart |
| src/main/java/com/example/today/Service/CartService.java:138 | the price test compares the price of the product found by id with the price of the line's own product, which is the same entity | a line added at price 10, after which the product's price becomes 12: no issue is reported | report `price_changed` when the price differs from the one the line was added at | high, not executed | CartService.AsWrittenNeverReportsPriceChange | CartService.IssueFor |
| src/main/java/com/example/today/Controller/CartController.java:96 | the cleared-items count is read from the cart `clearCart` returned, whose count was already set to 0 | clearing a cart that holds 3 units: the reply says 0 and "Cart was already empty" | report the count the cart held before clearing | high, not executed | CartController.ClearReplyAlwaysEmpty | CartController.ClearCartEndpoint |
| src/main/java/com/example/today/Controller/UserController.java:74 | the extension is taken from the whole client file name, so it can hold a `/`; the avatar is then written under a sub-directory while its URL's last segment names another file | upload a file named "a.png/x": the avatar is written as user_<id>.png/x, and reading it back looks for a file named "x" and answers 404 | take the extension from the last path segment of the name | medium, not executed | UserController.SlashInFileNameLosesAvatar | UserController.UploadExtension |
