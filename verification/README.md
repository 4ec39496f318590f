# Food-ordering backend: order, restaurant and menu handlers

This project models the REST backend of a food-ordering application written for Express and
Mongoose. The model covers:

- the order handlers: placement with its running total, status update, cancellation, review,
  tracking, the JSON invoice and the order listings;
- the restaurant handlers: creation with a duplicate check, the searched, sorted and paged
  listing, the single read, deletion and the field-wise update;
- the menu handler that adds a food item and appends it to its restaurant's menu;
- the three schemas these handlers write through: order, restaurant and food item.

The database is an object `Database.Store` holding one map from id to document per collection.
Each handler is one method over that store. A handler that writes declares `modifies db`; a
handler that only reads declares nothing. The writes themselves are the store's own methods
(`SaveOrder`, `SaveRestaurant`, `RemoveRestaurant`, `SaveFoodItem`), standing for Mongoose's
`create`, `save` and `findByIdAndDelete`. The checks a creating handler runs before its write are
a function of the request and the stored documents (`NewRestaurantOutcome`, `FoodItemOutcome`),
and the handler answers exactly that function's value. Every handler answers an `Outcome`: either
`Ok(code, value)` or `Err(code)` with the HTTP status the source sends.

Every handler that writes keeps the invariant `Store.Valid()`: every stored document passes its
schema's validation. Validation is modelled as written in the schemas:

- the enums;
- the rating bounds;
- the `trim` and `lowercase` setters, with the documents keeping the set values;
- the contact-number validator `^\+?[0-9\s\-]+$`, stated declaratively and proved equal to a
  scanner.

Conventions:

- The environment is passed in as parameters: `isValidId` stands for `mongoose.isValidObjectId`,
  `newId` for a freshly allocated id, `now` for the clock, `uploadedUrl` for the image host's
  answer, and `matches` for the regular-expression engine.
- Prices and totals are integers (cents).
- Throwing a Mongoose validation error, a cast error or a `TypeError` from a null `populate` ends
  in Express's default error handler, which answers 500. The model writes `Err(500)` for each.
- A plain `throw new Error(400, ...)` also answers 500, since `Error` ignores the 400.

Where the code differs from what its names and comments suggest, the model follows the code:

- `updateOrderStatus` has no terminal-state guard.
- The "active" listing filters on Pending, Preparing and Out for delivery. The "completed"
  listing filters on Completed and Delivered. Among legal statuses only Pending and Completed can
  match (`OrderController.ListingsOfValidStore`).
- `getOrdersForUsers` and `getOrdersForRestaurant` are not sorted.
- `getAllOrders` answers 404 on an empty collection.
- An empty page of `getAllRestaurants` answers 500, not 400.
- The default `sortBy` is `"reting"`, which names no path of the schema. The default listing
  is therefore in no defined order (`RestaurantController.DefaultSortLeavesOrderOpen`).
- Restaurants have no operating status and no review list in the schema.
- The schema default status `"Processing"` is outside the status enum. Mongoose validates
  defaulted paths, so as written every `Order.create` fails validation. This is recorded under
  Findings. `PlaceOrder` takes the default as a parameter: `PlaceOrderAsDeclared` is the
  handler as written, which never stores an order, and `PlaceOrderAsIntended` uses the evidently
  intended default `"Pending"`.

## Model

| member | source | states |
|---|---|---|
| Database.Store.SaveOrder | Backend/src/controllers/order.controller.js:61-69 | saving a valid order replaces or adds exactly that order, keeps every document valid and leaves the other collections as they were |
| Database.Store.SaveRestaurant | Backend/src/controllers/restaurant.controller.js:44-50 | saving a valid restaurant replaces or adds exactly that restaurant and keeps every document valid |
| Database.Store.RemoveRestaurant | Backend/src/controllers/restaurant.controller.js:156 | deletion removes exactly that restaurant and nothing else |
| Database.Store.SaveFoodItem | Backend/src/controllers/fooditem.controller.js:62 | saving a valid food item adds exactly that item and keeps every document valid |
| Text.Trim | Backend/src/models/restaurant.model.js:5-20 | the `trim` setter result is no longer than the input and neither of its ends is whitespace |
| Text.TrimRemovesOnlyPadding | Backend/src/models/restaurant.model.js:5-20 | the `trim` setter result is the input with a whitespace-only prefix and a whitespace-only suffix taken off |
| Text.TrimOfPadded | Backend/src/models/restaurant.model.js:5-20 | a value with no whitespace at its ends, padded with any whitespace on either side, trims back to itself; with `TrimRemovesOnlyPadding` this fixes `trim` completely |
| Text.TrimIgnoresPadding | Backend/src/models/foodItem.model.js:4-13 | adding any whitespace on either side of a value does not change its trimmed form |
| Text.TrimEmptyIff | Backend/src/models/foodItem.model.js:4-13 | trimming leaves nothing exactly when the value is all whitespace, i.e. exactly when `required` then refuses it |
| Text.TrimFixedIff | Backend/src/models/foodItem.model.js:4-13 | a stored string is unchanged by `trim` iff neither end is whitespace |
| Text.TrimIdempotent | Backend/src/models/restaurant.model.js:12-16 | trimming twice is trimming once |
| Text.ToLower | Backend/src/models/restaurant.model.js:10 | the `lowercase` setter keeps the length and maps every character by the ASCII case mapping |
| Text.LowerFixedIff | Backend/src/models/restaurant.model.js:10 | a lowercased value has no capital letter, and a value is unchanged by `lowercase` iff it has none |
| Text.LowerKeepsTrimmed | Backend/src/models/restaurant.model.js:8-10 | lowercasing neither creates nor removes whitespace at the ends |
| Text.LowerCommutesWithTrim | Backend/src/models/restaurant.model.js:8-10 | applying `trim` then `lowercase` equals applying them the other way round |
| Text.StrLeTotal | Backend/src/controllers/restaurant.controller.js:96 | any two strings are comparable in the binary string order the sort uses |
| Text.StrLeTransitive | Backend/src/controllers/restaurant.controller.js:96 | the string order is transitive |
| OrderModel.DeclaredDefaultOutsideEnum | Backend/src/models/order.model.js:31-35 | the declared default "Processing" is none of the five enum values |
| OrderModel.DeclaredDefaultRejectsEveryOrder | Backend/src/models/order.model.js:31-35 | with the declared default, every new order fails validation, whatever its fields |
| OrderModel.SchemaValid | Backend/src/models/order.model.js:3-60 | defines what validation accepts: a status of the enum, a non-empty required `address` and an unset rating or one in [1, 5] |
| OrderModel.NewOrder | Backend/src/models/order.model.js:3-60 | the document `Order.create` builds is valid iff the default status is in the enum and the address is non-empty |
| OrderModel.PendingDefaultAcceptsOrder | Backend/src/models/order.model.js:31-57 | with default "Pending", a new order is valid iff its address is non-empty; it starts with review, rating and delivery person unset |
| FoodItemModel.SchemaValid | Backend/src/models/foodItem.model.js:3-35 | defines what validation accepts: name, description and image non-empty and with no whitespace at the ends, category one of the four enum values |
| FoodItemModel.Cast | Backend/src/models/foodItem.model.js:3-35 | defines the document built from request values: every string path trimmed, price and restaurant as given |
| FoodItemModel.CastValidIff | Backend/src/models/foodItem.model.js:4-34 | a cast food item is valid iff name, description and image are non-blank and the trimmed category is one of the four; restaurant and price are carried over |
| RestaurantModel.NormalizeName | Backend/src/models/restaurant.model.js:5-11 | defines the stored name: the `trim` setter, then the `lowercase` setter |
| RestaurantModel.NormalizeNameIdempotent | Backend/src/models/restaurant.model.js:5-11 | normalising a name twice is normalising it once, and it is empty iff the trimmed input is |
| RestaurantModel.NormalizedIff | Backend/src/models/restaurant.model.js:5-11 | every normalised name is trimmed and lower-case, and a name is a fixed point iff it is both |
| RestaurantModel.IsValidContact | Backend/src/models/restaurant.model.js:21-26 | defines the contact validator `^\+?[0-9\s\-]+$`: an optional leading '+' and then one or more digits, whitespace characters or '-' |
| RestaurantModel.ContactScannerAgrees | Backend/src/models/restaurant.model.js:21-26 | a left-to-right scanner of `^\+?[0-9\s\-]+$` accepts exactly the strings of the declarative reading |
| RestaurantModel.ContactRejections | Backend/src/models/restaurant.model.js:23 | the validator refuses "", a lone "+", any string with a letter, and any "+" after position 0 |
| RestaurantModel.SchemaValid | Backend/src/models/restaurant.model.js:3-46 | defines what validation accepts as stored: a non-empty, trimmed, lower-case name, a non-empty trimmed address, a trimmed contact the validator accepts and a rating in [0, 5] |
| RestaurantModel.Cast | Backend/src/models/restaurant.model.js:3-46 | defines the document built from request values: the name normalised, address and contact trimmed, the other paths as given |
| RestaurantModel.CastValidIff | Backend/src/models/restaurant.model.js:5-33 | a cast restaurant is valid iff the trimmed name and address are non-empty, the trimmed contact passes the validator and the rating is in [0, 5] |
| Query.Arrange | Backend/src/controllers/order.controller.js:79-82 | a sorted query lists every matching id exactly once, ordered by the sort key |
| Query.Enumerate | Backend/src/controllers/order.controller.js:200-203 | an unsorted query lists every matching id exactly once |
| OrderController.LineError | Backend/src/controllers/order.controller.js:39-54 | a line raises no error iff its food id is valid, the item exists and the quantity is positive |
| OrderController.FirstLineError | Backend/src/controllers/order.controller.js:35-58 | defines the loop's error: the error of the first line that fails, or none |
| OrderController.Total | Backend/src/controllers/order.controller.js:32-58 | defines the total: the sum over the lines of the item's price times the quantity |
| OrderController.FirstLineErrorNone | Backend/src/controllers/order.controller.js:35-58 | no line error is raised iff every line passes |
| OrderController.FirstLineErrorAt | Backend/src/controllers/order.controller.js:35-58 | the error raised is that of the first failing line |
| OrderController.FirstLineErrorCodes | Backend/src/controllers/order.controller.js:39-54 | a line error is 400 or 404 |
| OrderController.TotalAppend | Backend/src/controllers/order.controller.js:57 | the total of concatenated lines is the sum of their totals |
| OrderController.PriceLines | Backend/src/controllers/order.controller.js:32-58 | the loop stops with the first failing line's error; otherwise every line passes and `totalAmount` is the in-order sum of price times quantity |
| OrderController.PlacementError | Backend/src/controllers/order.controller.js:17-70 | defines the answer before the write: 400 for the restaurant id, 404 for the restaurant, 400 for the items array, then the first line error, then 500 for a missing address |
| OrderController.PlacementErrorMeaning | Backend/src/controllers/order.controller.js:17-70 | placement succeeds iff the restaurant id is valid and stored, items are present and non-empty, every line passes and an address is given; failures are 400, 404 or 500 |
| OrderController.PlaceOrder | Backend/src/controllers/order.controller.js:12-75 | with the schema default as a parameter: the check errors of `PlacementError` come first, then 500 exactly when the default is outside the enum; any failure writes nothing; success stores one order of the caller with the request's lines in order, the summed total and the default status |
| OrderController.PlaceOrderAsDeclared | Backend/src/controllers/order.controller.js:12-75 | with the declared default "Processing" every placement fails and no collection changes; a request that passes every check answers 500 |
| OrderController.PlaceOrderAsIntended | Backend/src/controllers/order.controller.js:12-75 | with the default "Pending" a placement fails exactly when a check fails, with that check's code, and a stored order starts as Pending |
| OrderController.PlacementScenario | Backend/src/controllers/order.controller.js:32-58 | two items at 5.00 and one at 8.50 pass all checks and total 18.50 |
| OrderController.UpdateOrderStatus | Backend/src/controllers/order.controller.js:120-160 | an absent or non-enum status is 400; otherwise the stored order takes the new status whatever the old one, even Completed or Cancelled |
| OrderController.CancelOrder | Backend/src/controllers/order.controller.js:163-193 | a Completed or Cancelled order is refused with 400 and kept; any other becomes Cancelled with nothing else changed |
| OrderController.AddOrderReview | Backend/src/controllers/order.controller.js:242-280 | review and rating checks precede the lookup; a non-owner gets 403 with no change; success changes only review and rating |
| OrderController.GetSingleOrder | Backend/src/controllers/order.controller.js:94-117 | 400 for an invalid id, 404 for a missing order, else the stored order |
| OrderController.TrackOrder | Backend/src/controllers/order.controller.js:283-314 | only the order's customer is answered, and the status answered is the stored status |
| OrderController.InvoiceLines | Backend/src/controllers/order.controller.js:341-346 | one invoice line per order item, in order, each with `total == price * quantity` |
| OrderController.BuildInvoice | Backend/src/controllers/order.controller.js:336-350 | the invoice exists iff customer, restaurant and every item still resolve (else 500); its total is the stored total, not recomputed |
| OrderController.GenerateInvoice | Backend/src/controllers/order.controller.js:317-350 | 400 for an invalid id, 404 for a missing order, else the projection of the stored order |
| OrderController.InvoiceLinesSumToTotal | Backend/src/controllers/order.controller.js:341-347 | against the same prices, the invoice lines sum to the placement total |
| OrderController.InvoiceAgreesWhilePricesUnchanged | Backend/src/controllers/order.controller.js:341-347 | a placed order's invoice lines add up to its stored total while no item price has changed |
| OrderController.TotalSamePrices | Backend/src/controllers/order.controller.js:57 | the total depends only on the prices of the items named |
| OrderController.SnapshotSurvivesPriceChange | Backend/src/controllers/order.controller.js:347 | after a price rise the lines no longer add up to the stored total, which keeps the placement value |
| OrderController.StatusFiltersOnLegalStatuses | Backend/src/controllers/order.controller.js:413 | among legal statuses the active filter matches only Pending, the completed filter only Completed |
| OrderController.SortNewestFirst | Backend/src/controllers/order.controller.js:82 | the ids are listed once each with creation times non-increasing |
| OrderController.GetAllOrders | Backend/src/controllers/order.controller.js:78-91 | 404 when there are no orders, else every order once, newest first |
| OrderController.GetOrdersForUsers | Backend/src/controllers/order.controller.js:196-213 | 404 when the caller has no orders, else exactly the caller's orders |
| OrderController.GetOrdersForRestaurant | Backend/src/controllers/order.controller.js:216-239 | 400 / 404 for an invalid or missing restaurant, else exactly its orders, possibly none |
| OrderController.GetActiveOrdersForRestaurant | Backend/src/controllers/order.controller.js:402-433 | 400 for an invalid id, else exactly the restaurant's orders with an "active" status, newest first, an empty list being a success |
| OrderController.GetCompletedOrdersForRestaurant | Backend/src/controllers/order.controller.js:436-461 | as the active listing, for the "completed" statuses |
| OrderController.OrdersWithStatus | Backend/src/controllers/order.controller.js:411-414 | defines the listing filter: the orders of the restaurant whose status is one of the listed literals |
| OrderController.ListingsOfValidStore | Backend/src/controllers/order.controller.js:411-414 | over valid orders the active listing holds exactly the Pending orders, the completed listing exactly the Completed ones |
| RestaurantController.CoverImage | Backend/src/controllers/restaurant.controller.js:41-50 | the cover image is the upload's URL when it has a non-empty one, else "" |
| RestaurantController.NewRestaurantOutcome | Backend/src/controllers/restaurant.controller.js:11-63 | 400 for a missing field or an existing (name, address); 500 for a document validation rejects (blank name or address, bad contact); success iff none of these, with the normalised, trimmed, valid document rated 0 |
| RestaurantController.AddRestaurant | Backend/src/controllers/restaurant.controller.js:11-63 | answers `NewRestaurantOutcome` on the stored restaurants; an error writes nothing, a success stores exactly the one new restaurant under the new id |
| RestaurantController.DuplicateOf | Backend/src/controllers/restaurant.controller.js:21-30 | defines the duplicate check: some stored restaurant has the normalised name and the trimmed address, the query filter passing through the same setters |
| RestaurantController.ReAddIsDuplicate | Backend/src/controllers/restaurant.controller.js:21-30 | after a restaurant is stored, a request is a duplicate iff it matches another stored restaurant or has the same normalised name and trimmed address as the new one |
| RestaurantController.ReAddVariantIsDuplicate | Backend/src/controllers/restaurant.controller.js:21-30 | re-adding a stored restaurant under its name in lower case with any whitespace around it is a duplicate |
| RestaurantController.NormalizeIgnoresCase | Backend/src/controllers/restaurant.controller.js:21-24 | names differing only in letter case are the same name to the duplicate check |
| RestaurantController.NormalizeIgnoresPadding | Backend/src/controllers/restaurant.controller.js:21-24 | names differing only in whitespace added on either side, of any length, are the same name to the duplicate check |
| RestaurantController.SortLeTotal | Backend/src/controllers/restaurant.controller.js:95-96 | any two sort values are comparable across types (missing, numbers, strings, dates) |
| RestaurantController.SortLeTransitive | Backend/src/controllers/restaurant.controller.js:95-96 | the cross-type order of sort values is transitive |
| RestaurantController.FieldValue | Backend/src/controllers/restaurant.controller.js:95-96 | defines the sort key of a record for the `sortBy` path: the value of a schema path by its type, and a missing value for any other name |
| RestaurantController.DirectionIsTotalPreorder | Backend/src/controllers/restaurant.controller.js:96 | both sort directions ("asc" ascending, anything else descending) are total preorders |
| RestaurantController.SearchAccepted | Backend/src/controllers/restaurant.controller.js:77-96 | defines when the database runs the query: no truthy search, or one that is a regular expression |
| RestaurantController.SearchHits | Backend/src/controllers/restaurant.controller.js:77-89 | without a truthy search every restaurant is selected; with one, only stored restaurants |
| RestaurantController.CeilDiv | Backend/src/controllers/restaurant.controller.js:114 | `totalPages` is the least number of `limit`-sized pages holding every record |
| RestaurantController.PageOf | Backend/src/controllers/restaurant.controller.js:92-98 | the page has at most `limit` records, is the listing from position `skip` on, and is non-empty iff `skip` is inside the listing |
| RestaurantController.PageNonEmptyIff | Backend/src/controllers/restaurant.controller.js:92-114 | a page from 1 on has records iff it is at most `totalPages` |
| RestaurantController.SkipSign | Backend/src/controllers/restaurant.controller.js:92 | `skip` is negative exactly for pages before the first |
| RestaurantController.PagesCover | Backend/src/controllers/restaurant.controller.js:92-114 | every listed record lies on page `i / limit + 1`, one of the `totalPages` pages |
| RestaurantController.DistinctCount | Backend/src/controllers/restaurant.controller.js:101 | the listing is as long as the count of matching restaurants |
| RestaurantController.GetAllRestaurants | Backend/src/controllers/restaurant.controller.js:66-121 | the listing is the search hits sorted in the requested direction; the answer is its page, with the count and `ceil(total / limit)` pages; a search that is not a regular expression, a negative skip or an empty page is 500 |
| RestaurantController.DefaultSortLeavesOrderOpen | Backend/src/controllers/restaurant.controller.js:72 | under the default sort path "reting" every order of the hits is an acceptable listing |
| RestaurantController.GetSingleRestaurant | Backend/src/controllers/restaurant.controller.js:124-144 | 500 for an id that fails the cast, 404 for a missing one, else the stored restaurant |
| RestaurantController.DeleteRestaurant | Backend/src/controllers/restaurant.controller.js:147-172 | 400 for an invalid id, 404 for a missing one; otherwise exactly that restaurant is removed and answered |
| RestaurantController.Merge | Backend/src/controllers/restaurant.controller.js:189-195 | the update touches only name, address, contact, rating and menu |
| RestaurantController.UpdateAcceptable | Backend/src/controllers/restaurant.controller.js:186-201 | defines what the update validators accept: each supplied truthy name and address non-blank, contact accepted by the validator, rating in [0, 5] |
| RestaurantController.MergeValidIff | Backend/src/controllers/restaurant.controller.js:186-201 | from a valid document, the merged one passes the update validators iff every supplied truthy value does |
| RestaurantController.MergeStoredValuesIsIdentity | Backend/src/controllers/restaurant.controller.js:190-194 | sending back the stored values, or nothing at all, leaves a valid document unchanged |
| RestaurantController.UpdateRestaurants | Backend/src/controllers/restaurant.controller.js:175-212 | 500 / 404 for an invalid or missing id; each field becomes the supplied truthy value or keeps the old one (a rating of 0 keeps the old rating); an unacceptable value is 500 with nothing written |
| FoodItemController.ImagePathError | Backend/src/controllers/fooditem.controller.js:28-32 | the image check passes iff files with a non-empty first `foodImage` path are present; a files object without `foodImage` is a 500, anything else missing a 400 |
| FoodItemController.FoodItemOutcome | Backend/src/controllers/fooditem.controller.js:10-72 | invalid id 404, missing field 400, missing image 400 (500 without `foodImage`), failed upload 400, unknown restaurant 404, invalid item 500; success iff none of these, with the trimmed, valid item referring to the restaurant |
| FoodItemController.AddFoodItem | Backend/src/controllers/fooditem.controller.js:10-72 | answers `FoodItemOutcome` on the stored restaurants; an error writes nothing, a success stores the item under the new id and makes the restaurant's menu the old menu plus the new id |
| FoodItemController.MenuAppend | Backend/src/controllers/fooditem.controller.js:65-66 | appending keeps the restaurant valid; the menu grows by one, ends with the new id and keeps every earlier entry |

## Left out

- The PDF branch of `generateInvoice` is not modelled: it is rendering and streaming through a foreign library. `GenerateInvoice` is the JSON answer for any `format` other than "pdf".
- `user.controller.js`, `user.model.js`, `review.model.js`, `utils/cloudinary.js`, `app.js`, the route files and the frontend are not part of this model. Users are a read-only directory of name and e-mail. The caller's identity is a parameter, and uploads are an optional URL.
- `populate` projections are left out: listings answer ids, and the invoice reads the referenced documents directly.
- Values a request cannot type as the model does are left out: non-array `items`, non-numeric or fractional quantities and prices, strings where numbers are expected, and multipart coercion.
- `RestaurantController.GetAllRestaurants`: requires `limit >= 1`. MongoDB's treatment of a zero or negative limit, the resulting infinite page count, and non-integer page numbers are not modelled.
- `RestaurantController.FieldValue`: sorting by `menu`, `_id` or `updatedAt` is treated as sorting by an absent path.
- `Text.ToLower`: case mapping covers ASCII letters only. Unicode case folding is not modelled.
- `RestaurantController.SearchHits`: the case-insensitive regular-expression match is the parameter `matches`, not an interpreted pattern. Which strings are regular expressions is the parameter `isPattern`; the model answers 500 for any other search, but does not decide the syntax itself.
- Casting of `menu` entries and of stored references to ObjectIds is not modelled. Ids are strings, and `isValidId` decides their validity.
- Timestamps (`updatedAt`) are not modelled. `createdAt` is the `now` parameter.
- Concurrency between requests is not modelled, including the race between reading a price and storing the order. Each handler is one atomic step over the store.
- `DeleteRestaurant` leaves food items and orders that refer to the deleted restaurant, as the source does. `BuildInvoice` answers 500 for such orders.

## Findings

| source | as written | input that shows it | evidently intended | confidence | as-written member | corrected member |
|---|---|---|---|---|---|---|
| Backend/src/models/order.model.js:31-35 | `status` defaults to "Processing", which is not in its enum, and Mongoose validates defaulted paths on create | any `placeOrder` that passes every check, e.g. one line of a stored item with quantity 1 and a non-empty address | new orders start as "Pending", the first enum value | not executed | OrderController.PlaceOrderAsDeclared | OrderController.PlaceOrderAsIntended |
