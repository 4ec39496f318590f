/**
 * The order handlers: placement with its running total, status update, cancellation, review,
 * tracking, the invoice projection and the order listings. Each handler is one atomic step
 * over the store; `isValidId` stands for `mongoose.isValidObjectId`.
 */
module OrderController {
  import opened Common
  import opened OrderModel
  import opened FoodItemModel
  import opened Database
  import opened Query

  // ---------------------------------------------------------------- placement

  /** One entry of the request's `items` array. */
  datatype LineRequest = LineRequest(foodItemId: Id, quantity: int)

  /** The line passes all three checks of the placement loop. */
  predicate LinePasses(isValidId: Id -> bool, foods: map<Id, FoodItem>, line: LineRequest) {
    isValidId(line.foodItemId) && line.foodItemId in foods && line.quantity > 0
  }

  /** Every line passes the placement loop's checks. */
  predicate AllLinesPass(isValidId: Id -> bool, foods: map<Id, FoodItem>, lines: seq<LineRequest>) {
    forall k :: 0 <= k < |lines| ==> LinePasses(isValidId, foods, lines[k])
  }

  /** The error the placement loop raises for one line, checks taken in the source's order. */
  function LineError(isValidId: Id -> bool, foods: map<Id, FoodItem>, line: LineRequest): (e: Option<int>)
    ensures e.None? <==> LinePasses(isValidId, foods, line)
  {
    if !isValidId(line.foodItemId) then Some(400)
    else if line.foodItemId !in foods then Some(404)
    else if line.quantity <= 0 then Some(400)
    else None
  }

  /** The error of the first failing line, scanning in request order. */
  function FirstLineError(isValidId: Id -> bool, foods: map<Id, FoodItem>, lines: seq<LineRequest>): Option<int> {
    if lines == [] then None
    else if LineError(isValidId, foods, lines[0]).Some? then LineError(isValidId, foods, lines[0])
    else FirstLineError(isValidId, foods, lines[1..])
  }

  /** No line fails exactly when every line passes. */
  lemma {:induction false} FirstLineErrorNone(isValidId: Id -> bool, foods: map<Id, FoodItem>, lines: seq<LineRequest>)
    ensures FirstLineError(isValidId, foods, lines) == None <==> AllLinesPass(isValidId, foods, lines)
  {
    if lines != [] {
      FirstLineErrorNone(isValidId, foods, lines[1..]);
      assert forall k :: 1 <= k < |lines| ==> lines[1..][k - 1] == lines[k];
    }
  }

  /** When all lines before `i` pass and line `i` fails, the placement reports line `i`'s error. */
  lemma {:induction false} FirstLineErrorAt(isValidId: Id -> bool, foods: map<Id, FoodItem>, lines: seq<LineRequest>, i: nat)
    requires i < |lines|
    requires forall k :: 0 <= k < i ==> LinePasses(isValidId, foods, lines[k])
    requires !LinePasses(isValidId, foods, lines[i])
    ensures FirstLineError(isValidId, foods, lines) == LineError(isValidId, foods, lines[i])
    ensures FirstLineError(isValidId, foods, lines).Some?
  {
    if i > 0 {
      FirstLineErrorAt(isValidId, foods, lines[1..], i - 1);
    }
  }

  /** Every line names a stored food item. */
  predicate Resolved(foods: map<Id, FoodItem>, lines: seq<LineRequest>) {
    forall k :: 0 <= k < |lines| ==> lines[k].foodItemId in foods
  }

  /** The sum, over the lines in order, of the item's current price times the quantity. */
  function Total(foods: map<Id, FoodItem>, lines: seq<LineRequest>): int
    requires Resolved(foods, lines)
  {
    if lines == [] then 0
    else foods[lines[0].foodItemId].price * lines[0].quantity + Total(foods, lines[1..])
  }

  /** The total of a concatenation is the sum of the totals. */
  lemma {:induction false} TotalAppend(foods: map<Id, FoodItem>, a: seq<LineRequest>, b: seq<LineRequest>)
    requires Resolved(foods, a) && Resolved(foods, b)
    ensures Resolved(foods, a + b)
    ensures Total(foods, a + b) == Total(foods, a) + Total(foods, b)
  {
    if a == [] {
      assert a + b == b;
    } else {
      assert (a + b)[1..] == a[1..] + b;
      TotalAppend(foods, a[1..], b);
    }
  }

  /** `items` holds each request line's `foodItemId` and `quantity`, in request order. */
  predicate StoresLines(items: seq<OrderItem>, lines: seq<LineRequest>) {
    |items| == |lines| && forall k :: 0 <= k < |lines| ==> items[k] == OrderItem(lines[k].foodItemId, lines[k].quantity)
  }

  /** The `items` the new order stores: each request line's `foodItemId` and `quantity`, in order. */
  function AsOrderItems(lines: seq<LineRequest>): seq<OrderItem> {
    seq(|lines|, k requires 0 <= k < |lines| => OrderItem(lines[k].foodItemId, lines[k].quantity))
  }

  /**
   * The loop of placeOrder: checks each line in order, stops at the first failure with its
   * error, and otherwise accumulates price times quantity into the total.
   */
  method PriceLines(isValidId: Id -> bool, foods: map<Id, FoodItem>, lines: seq<LineRequest>)
    returns (lineError: Option<int>, totalAmount: int)
    ensures lineError == FirstLineError(isValidId, foods, lines)
    ensures lineError.None? <==> AllLinesPass(isValidId, foods, lines)
    ensures lineError.None? ==> Resolved(foods, lines) && totalAmount == Total(foods, lines)
  {
    totalAmount := 0;
    var i := 0;
    while i < |lines|
      invariant 0 <= i <= |lines|
      invariant forall k :: 0 <= k < i ==> LinePasses(isValidId, foods, lines[k])
      invariant Resolved(foods, lines[..i])
      invariant totalAmount == Total(foods, lines[..i])
    {
      var line := lines[i];
      if !isValidId(line.foodItemId) {
        FirstLineErrorAt(isValidId, foods, lines, i);
        return Some(400), totalAmount;
      }
      if line.foodItemId !in foods {
        FirstLineErrorAt(isValidId, foods, lines, i);
        return Some(404), totalAmount;
      }
      if line.quantity <= 0 {
        FirstLineErrorAt(isValidId, foods, lines, i);
        return Some(400), totalAmount;
      }
      assert lines[..i + 1] == lines[..i] + [line];
      TotalAppend(foods, lines[..i], [line]);
      totalAmount := totalAmount + foods[line.foodItemId].price * line.quantity;
      i := i + 1;
    }
    assert lines[..i] == lines;
    FirstLineErrorNone(isValidId, foods, lines);
    lineError := None;
  }

  /**
   * The answer placeOrder gives before anything is written, checks taken in the source's order:
   * the restaurant id, the restaurant, the items array, each line in turn, and finally the
   * schema's required `address`. None means the order is created.
   */
  function PlacementError(isValidId: Id -> bool, restaurants: map<Id, RestaurantModel.Restaurant>,
                          foods: map<Id, FoodItem>, restaurantId: Id,
                          items: Option<seq<LineRequest>>, address: Option<string>): Option<int>
  {
    if !isValidId(restaurantId) then Some(400)
    else if restaurantId !in restaurants then Some(404)
    else if items.None? || items.value == [] then Some(400)
    else if FirstLineError(isValidId, foods, items.value).Some? then FirstLineError(isValidId, foods, items.value)
    else if !Truthy(address) then Some(500)
    else None
  }

  /**
   * A placement succeeds exactly when the restaurant id is valid and stored, the items array is
   * present and non-empty, every line names a valid, stored food item with a positive quantity,
   * and an address is given. Whatever fails, the answer is one of 400, 404 or 500.
   */
  lemma {:induction false} PlacementErrorMeaning(isValidId: Id -> bool, restaurants: map<Id, RestaurantModel.Restaurant>,
                                                 foods: map<Id, FoodItem>, restaurantId: Id,
                                                 items: Option<seq<LineRequest>>, address: Option<string>)
    ensures var e := PlacementError(isValidId, restaurants, foods, restaurantId, items, address);
      && (e.None? <==> (isValidId(restaurantId) && restaurantId in restaurants && items.Some? && items.value != []
                        && AllLinesPass(isValidId, foods, items.value) && Truthy(address)))
      && (e.Some? ==> e.value in {400, 404, 500})
  {
    if items.Some? {
      FirstLineErrorNone(isValidId, foods, items.value);
      FirstLineErrorCodes(isValidId, foods, items.value);
    }
  }

  lemma {:induction false} FirstLineErrorCodes(isValidId: Id -> bool, foods: map<Id, FoodItem>, lines: seq<LineRequest>)
    ensures FirstLineError(isValidId, foods, lines).Some? ==> FirstLineError(isValidId, foods, lines).value in {400, 404}
  {
    if lines != [] {
      FirstLineErrorCodes(isValidId, foods, lines[1..]);
    }
  }

  /**
   * placeOrder, with the `status` default of the order schema as `defaultStatus`. An error leaves
   * the orders untouched. The checks before the write answer `PlacementError`; after them
   * `Order.create` validates the new document, which fails with 500 exactly when the default is
   * outside the status enum. On success the new order is stored under `newId`, belongs to the
   * caller, keeps the request's lines in order, and its total is the running sum of price times
   * quantity over those lines.
   */
  method PlaceOrder(db: Store, isValidId: Id -> bool, caller: Id, restaurantId: Id,
                    items: Option<seq<LineRequest>>, address: Option<string>, newId: Id, now: int,
                    defaultStatus: string)
    returns (r: Outcome<Order>)
    requires db.Valid() && newId !in db.orders
    modifies db
    ensures db.Valid()
    ensures db.restaurants == old(db.restaurants) && db.foodItems == old(db.foodItems) && db.users == old(db.users)
    ensures r.Err? <==> (|| PlacementError(isValidId, old(db.restaurants), old(db.foodItems), restaurantId, items, address).Some?
                         || !IsOrderStatus(defaultStatus))
    ensures PlacementError(isValidId, old(db.restaurants), old(db.foodItems), restaurantId, items, address).Some? ==>
            r == Err(PlacementError(isValidId, old(db.restaurants), old(db.foodItems), restaurantId, items, address).value)
    ensures (&& PlacementError(isValidId, old(db.restaurants), old(db.foodItems), restaurantId, items, address).None?
             && !IsOrderStatus(defaultStatus)) ==> r == Err(500)
    ensures r.Err? ==> db.orders == old(db.orders)
    ensures r.Ok? ==>
            && items.Some? && Resolved(old(db.foodItems), items.value)
            && r.code == 201
            && db.orders == old(db.orders)[newId := r.value]
            && r.value.customer == caller
            && r.value.restaurant == Some(restaurantId)
            && StoresLines(r.value.items, items.value)
            && r.value.totalAmount == Total(old(db.foodItems), items.value)
            && r.value.address == address.value
            && r.value.status == defaultStatus
            && r.value.createdAt == now
            && r.value.review.None? && r.value.rating.None? && r.value.deliveryPerson.None?
  {
    if !isValidId(restaurantId) {
      return Err(400);
    }
    if restaurantId !in db.restaurants {
      return Err(404);
    }
    if items.None? || items.value == [] {
      return Err(400);
    }
    var lines := items.value;
    var lineError, totalAmount := PriceLines(isValidId, db.foodItems, lines);
    if lineError.Some? {
      return Err(lineError.value);
    }
    var order := NewOrder(caller, restaurantId, AsOrderItems(lines), totalAmount,
                          address.GetOr(""), now, defaultStatus);
    if !OrderModel.SchemaValid(order) {
      return Err(500);
    }
    db.SaveOrder(newId, order);
    return Ok(201, order);
  }

  /**
   * placeOrder as the schema declares it, with the default "Processing": whatever the request,
   * no order is ever stored, and a request that passes every check answers 500.
   */
  method PlaceOrderAsDeclared(db: Store, isValidId: Id -> bool, caller: Id, restaurantId: Id,
                              items: Option<seq<LineRequest>>, address: Option<string>, newId: Id, now: int)
    returns (r: Outcome<Order>)
    requires db.Valid() && newId !in db.orders
    modifies db
    ensures db.Valid()
    ensures r.Err?
    ensures PlacementError(isValidId, old(db.restaurants), old(db.foodItems), restaurantId, items, address).None? ==>
            r == Err(500)
    ensures db.orders == old(db.orders) && db.restaurants == old(db.restaurants)
            && db.foodItems == old(db.foodItems) && db.users == old(db.users)
  {
    DeclaredDefaultOutsideEnum();
    r := PlaceOrder(db, isValidId, caller, restaurantId, items, address, newId, now, DeclaredDefaultStatus);
  }

  /**
   * placeOrder with the intended default "Pending": it succeeds exactly when every check passes,
   * and the new order starts as Pending.
   */
  method PlaceOrderAsIntended(db: Store, isValidId: Id -> bool, caller: Id, restaurantId: Id,
                              items: Option<seq<LineRequest>>, address: Option<string>, newId: Id, now: int)
    returns (r: Outcome<Order>)
    requires db.Valid() && newId !in db.orders
    modifies db
    ensures db.Valid()
    ensures r.Err? <==> PlacementError(isValidId, old(db.restaurants), old(db.foodItems), restaurantId, items, address).Some?
    ensures r.Err? ==>
            && r.code == PlacementError(isValidId, old(db.restaurants), old(db.foodItems), restaurantId, items, address).value
            && db.orders == old(db.orders)
    ensures r.Ok? ==> db.orders == old(db.orders)[newId := r.value] && r.value.status == "Pending"
    ensures db.restaurants == old(db.restaurants) && db.foodItems == old(db.foodItems) && db.users == old(db.users)
  {
    r := PlaceOrder(db, isValidId, caller, restaurantId, items, address, newId, now, DefaultStatus);
  }

  // ---------------------------------------------------------------- status changes

  /** The status request passes the handler's check: present, non-empty and one of the five values. */
  predicate IsStatusRequest(status: Option<string>) {
    Truthy(status) && IsOrderStatus(status.value)
  }

  /**
   * updateOrderStatus. Any of the five statuses is written whatever the current status is:
   * there is no guard against leaving Completed or Cancelled.
   */
  method UpdateOrderStatus(db: Store, isValidId: Id -> bool, id: Id, status: Option<string>)
    returns (r: Outcome<Order>)
    requires db.Valid()
    modifies db
    ensures db.Valid()
    ensures db.restaurants == old(db.restaurants) && db.foodItems == old(db.foodItems) && db.users == old(db.users)
    ensures r.Err? ==> db.orders == old(db.orders)
    ensures !isValidId(id) ==> r == Err(400)
    ensures isValidId(id) && !IsStatusRequest(status) ==> r == Err(400)
    ensures isValidId(id) && IsStatusRequest(status) && id !in old(db.orders) ==> r == Err(404)
    ensures r.Ok? <==> isValidId(id) && IsStatusRequest(status) && id in old(db.orders)
    ensures r.Ok? ==>
            && r == Ok(200, old(db.orders)[id].(status := status.value))
            && db.orders == old(db.orders)[id := r.value]
  {
    if !isValidId(id) {
      return Err(400);
    }
    if !Truthy(status) || !IsOrderStatus(status.value) {
      return Err(400);
    }
    if id !in db.orders {
      return Err(404);
    }
    var order := db.orders[id].(status := status.value);
    db.SaveOrder(id, order);
    return Ok(200, order);
  }

  /** cancelOrder. A Completed or Cancelled order is refused and kept; any other becomes Cancelled. */
  method CancelOrder(db: Store, isValidId: Id -> bool, id: Id) returns (r: Outcome<Order>)
    requires db.Valid()
    modifies db
    ensures db.Valid()
    ensures db.restaurants == old(db.restaurants) && db.foodItems == old(db.foodItems) && db.users == old(db.users)
    ensures r.Err? ==> db.orders == old(db.orders)
    ensures !isValidId(id) ==> r == Err(400)
    ensures isValidId(id) && id !in old(db.orders) ==> r == Err(404)
    ensures isValidId(id) && id in old(db.orders) && IsTerminal(old(db.orders)[id].status) ==> r == Err(400)
    ensures r.Ok? <==> isValidId(id) && id in old(db.orders) && !IsTerminal(old(db.orders)[id].status)
    ensures r.Ok? ==>
            && r == Ok(200, old(db.orders)[id].(status := "Cancelled"))
            && db.orders == old(db.orders)[id := r.value]
  {
    if !isValidId(id) {
      return Err(400);
    }
    if id !in db.orders {
      return Err(404);
    }
    if db.orders[id].status in ["Completed", "Cancelled"] {
      return Err(400);
    }
    var order := db.orders[id].(status := "Cancelled");
    db.SaveOrder(id, order);
    return Ok(200, order);
  }

  /**
   * addOrderReview. Review and rating are checked before the order is looked up; only the
   * order's own customer may write them, and only `review` and `rating` change. A repeated
   * call overwrites the earlier review.
   */
  method AddOrderReview(db: Store, isValidId: Id -> bool, caller: Id, id: Id,
                        review: Option<string>, rating: Option<real>)
    returns (r: Outcome<Order>)
    requires db.Valid()
    modifies db
    ensures db.Valid()
    ensures db.restaurants == old(db.restaurants) && db.foodItems == old(db.foodItems) && db.users == old(db.users)
    ensures r.Err? ==> db.orders == old(db.orders)
    ensures !isValidId(id) ==> r == Err(400)
    ensures isValidId(id) && !(Truthy(review) && TruthyNumber(rating)) ==> r == Err(400)
    ensures isValidId(id) && Truthy(review) && TruthyNumber(rating) && !(1.0 <= rating.value <= 5.0)
            ==> r == Err(400)
    ensures (isValidId(id) && Truthy(review) && TruthyNumber(rating) && 1.0 <= rating.value <= 5.0
             && id !in old(db.orders)) ==> r == Err(404)
    ensures (isValidId(id) && Truthy(review) && TruthyNumber(rating) && 1.0 <= rating.value <= 5.0
             && id in old(db.orders) && old(db.orders)[id].customer != caller) ==> r == Err(403)
    ensures r.Ok? <==> (isValidId(id) && Truthy(review) && TruthyNumber(rating) && 1.0 <= rating.value <= 5.0
                        && id in old(db.orders) && old(db.orders)[id].customer == caller)
    ensures r.Ok? ==>
            && r == Ok(200, old(db.orders)[id].(review := Some(review.value), rating := Some(rating.value)))
            && db.orders == old(db.orders)[id := r.value]
  {
    if !isValidId(id) {
      return Err(400);
    }
    if !Truthy(review) || !TruthyNumber(rating) {
      return Err(400);
    }
    if rating.value < 1.0 || rating.value > 5.0 {
      return Err(400);
    }
    if id !in db.orders {
      return Err(404);
    }
    if db.orders[id].customer != caller {
      return Err(403);
    }
    var order := db.orders[id].(review := Some(review.value), rating := Some(rating.value));
    db.SaveOrder(id, order);
    return Ok(200, order);
  }

  // ---------------------------------------------------------------- single-order reads

  /** getSingleOrder. */
  method GetSingleOrder(db: Store, isValidId: Id -> bool, id: Id) returns (r: Outcome<Order>)
    ensures !isValidId(id) ==> r == Err(400)
    ensures isValidId(id) && id !in db.orders ==> r == Err(404)
    ensures isValidId(id) && id in db.orders ==> r == Ok(200, db.orders[id])
  {
    if !isValidId(id) {
      return Err(400);
    }
    if id !in db.orders {
      return Err(404);
    }
    return Ok(200, db.orders[id]);
  }

  /** The payload of trackOrder: the status and the order it belongs to. */
  datatype Tracking = Tracking(status: string, order: Order)

  /** trackOrder. Only the order's customer is answered, and the status answered is the stored one. */
  method TrackOrder(db: Store, isValidId: Id -> bool, caller: Id, id: Id) returns (r: Outcome<Tracking>)
    ensures !isValidId(id) ==> r == Err(400)
    ensures isValidId(id) && id !in db.orders ==> r == Err(404)
    ensures isValidId(id) && id in db.orders && db.orders[id].customer != caller ==> r == Err(403)
    ensures r.Ok? <==> isValidId(id) && id in db.orders && db.orders[id].customer == caller
    ensures r.Ok? ==> r.code == 200 && r.value.order == db.orders[id] && r.value.status == db.orders[id].status
  {
    if !isValidId(id) {
      return Err(400);
    }
    if id !in db.orders {
      return Err(404);
    }
    var order := db.orders[id];
    if order.customer != caller {
      return Err(403);
    }
    return Ok(200, Tracking(order.status, order));
  }

  // ---------------------------------------------------------------- invoice

  /** One line of the invoice: the item's current name and price, the quantity and their product. */
  datatype InvoiceLine = InvoiceLine(name: string, price: int, quantity: int, total: int)

  /** The JSON invoice. */
  datatype Invoice = Invoice(
    orderId: Id,
    customerName: string,
    customerEmail: string,
    restaurantName: string,
    items: seq<InvoiceLine>,
    totalAmount: int,
    status: string,
    createdAt: int)

  /** Every item of the order still names a stored food item (otherwise `populate` leaves a null). */
  predicate ItemsResolve(foods: map<Id, FoodItem>, items: seq<OrderItem>) {
    forall k :: 0 <= k < |items| ==> items[k].foodItem in foods
  }

  /** The `items.map` projection of the invoice. */
  function InvoiceLines(foods: map<Id, FoodItem>, items: seq<OrderItem>): (lines: seq<InvoiceLine>)
    requires ItemsResolve(foods, items)
    ensures |lines| == |items|
    ensures forall k :: 0 <= k < |items| ==>
              && lines[k].name == foods[items[k].foodItem].name
              && lines[k].price == foods[items[k].foodItem].price
              && lines[k].quantity == items[k].quantity
              && lines[k].total == lines[k].price * lines[k].quantity
  {
    if items == [] then []
    else
      var f := foods[items[0].foodItem];
      [InvoiceLine(f.name, f.price, items[0].quantity, f.price * items[0].quantity)]
      + InvoiceLines(foods, items[1..])
  }

  /** The sum of the invoice's line totals. */
  function LinesTotal(lines: seq<InvoiceLine>): int {
    if lines == [] then 0 else lines[0].total + LinesTotal(lines[1..])
  }

  /**
   * The invoice data of an order. A customer, restaurant or food item that no longer exists
   * makes the projection read a property of null: a server error. The invoice's `totalAmount`
   * is the stored total, not a sum of the lines.
   */
  function BuildInvoice(id: Id, o: Order, users: map<Id, UserProfile>,
                        restaurants: map<Id, RestaurantModel.Restaurant>,
                        foods: map<Id, FoodItem>): (r: Outcome<Invoice>)
    ensures r.Ok? <==> o.customer in users && o.restaurant.Some? && o.restaurant.value in restaurants
                       && ItemsResolve(foods, o.items)
    ensures r.Err? ==> r.code == 500
    ensures r.Ok? ==>
              && r.code == 200
              && r.value.orderId == id
              && r.value.customerName == users[o.customer].username
              && r.value.customerEmail == users[o.customer].email
              && r.value.restaurantName == restaurants[o.restaurant.value].restaurantName
              && r.value.items == InvoiceLines(foods, o.items)
              && r.value.totalAmount == o.totalAmount
              && r.value.status == o.status
              && r.value.createdAt == o.createdAt
  {
    if o.customer !in users || o.restaurant.None? || o.restaurant.value !in restaurants
       || !ItemsResolve(foods, o.items) then
      Err(500)
    else
      var user := users[o.customer];
      Ok(200, Invoice(id, user.username, user.email, restaurants[o.restaurant.value].restaurantName,
                      InvoiceLines(foods, o.items), o.totalAmount, o.status, o.createdAt))
  }

  /** generateInvoice, JSON form. */
  method GenerateInvoice(db: Store, isValidId: Id -> bool, id: Id) returns (r: Outcome<Invoice>)
    ensures !isValidId(id) ==> r == Err(400)
    ensures isValidId(id) && id !in db.orders ==> r == Err(404)
    ensures isValidId(id) && id in db.orders ==>
              r == BuildInvoice(id, db.orders[id], db.users, db.restaurants, db.foodItems)
    ensures r.Ok? ==> r.value.totalAmount == db.orders[id].totalAmount
  {
    if !isValidId(id) {
      return Err(400);
    }
    if id !in db.orders {
      return Err(404);
    }
    return BuildInvoice(id, db.orders[id], db.users, db.restaurants, db.foodItems);
  }

  /** Priced against the same food items, the invoice lines add up to the placement total. */
  lemma {:induction false} InvoiceLinesSumToTotal(foods: map<Id, FoodItem>, lines: seq<LineRequest>)
    requires Resolved(foods, lines)
    ensures ItemsResolve(foods, AsOrderItems(lines))
    ensures LinesTotal(InvoiceLines(foods, AsOrderItems(lines))) == Total(foods, lines)
  {
    if lines != [] {
      assert AsOrderItems(lines)[1..] == AsOrderItems(lines[1..]);
      InvoiceLinesSumToTotal(foods, lines[1..]);
    }
  }

  /**
   * The invoice of a placed order agrees with its stored total as long as none of its items'
   * prices has changed since placement.
   */
  lemma InvoiceAgreesWhilePricesUnchanged(placed: map<Id, FoodItem>, now: map<Id, FoodItem>,
                                          lines: seq<LineRequest>, o: Order)
    requires Resolved(placed, lines)
    requires o.items == AsOrderItems(lines) && o.totalAmount == Total(placed, lines)
    requires forall k :: 0 <= k < |lines| ==>
               lines[k].foodItemId in now && now[lines[k].foodItemId].price == placed[lines[k].foodItemId].price
    ensures ItemsResolve(now, o.items)
    ensures LinesTotal(InvoiceLines(now, o.items)) == o.totalAmount
  {
    InvoiceLinesSumToTotal(now, lines);
    TotalSamePrices(placed, now, lines);
  }

  lemma {:induction false} TotalSamePrices(placed: map<Id, FoodItem>, now: map<Id, FoodItem>, lines: seq<LineRequest>)
    requires Resolved(placed, lines) && Resolved(now, lines)
    requires forall k :: 0 <= k < |lines| ==> now[lines[k].foodItemId].price == placed[lines[k].foodItemId].price
    ensures Total(now, lines) == Total(placed, lines)
  {
    if lines != [] {
      TotalSamePrices(placed, now, lines[1..]);
    }
  }

  /**
   * Two of an item at 5.00 and one at 8.50 (prices in cents) pass every placement check and
   * total 18.50.
   */
  lemma PlacementScenario()
    ensures var restaurant := RestaurantModel.Restaurant("pizza place", "1 Main St", "+1 555-0100", 0.0, ["f1", "f2"], "", 0);
            var foods := map["f1" := FoodItem("Margherita", "Tomato and basil", 500, "m.png", "r1", "Main Course"),
                             "f2" := FoodItem("Tiramisu", "Coffee dessert", 850, "t.png", "r1", "Dessert")];
            var lines := [LineRequest("f1", 2), LineRequest("f2", 1)];
            && PlacementError(_ => true, map["r1" := restaurant], foods, "r1", Some(lines), Some("2 Side St")).None?
            && Resolved(foods, lines) && Total(foods, lines) == 1850
  {
    var foods := map["f1" := FoodItem("Margherita", "Tomato and basil", 500, "m.png", "r1", "Main Course"),
                     "f2" := FoodItem("Tiramisu", "Coffee dessert", 850, "t.png", "r1", "Dessert")];
    var lines := [LineRequest("f1", 2), LineRequest("f2", 1)];
    FirstLineErrorNone(_ => true, foods, lines);
  }

  /** The stored total is a snapshot: after a price rise the invoice lines no longer add up to it. */
  lemma SnapshotSurvivesPriceChange()
    ensures var f := FoodItem("Soup", "Tomato soup", 500, "soup.png", "r1", "Appetizer");
            var lines := [LineRequest("f1", 2)];
            var placed := map["f1" := f];
            var now := map["f1" := f.(price := 600)];
            Total(placed, lines) == 1000 && LinesTotal(InvoiceLines(now, AsOrderItems(lines))) == 1200
  {
  }

  // ---------------------------------------------------------------- listings

  /** The statuses the "active" listing asks for. */
  const ActiveStatuses: seq<string> := ["Pending", "Preparing", "Out for delivery"]

  /** The statuses the "completed" listing asks for. */
  const CompletedStatuses: seq<string> := ["Completed", "Delivered"]

  /** Among legal statuses the active filter matches only Pending, and the completed filter only Completed. */
  lemma StatusFiltersOnLegalStatuses(s: string)
    requires IsOrderStatus(s)
    ensures s in ActiveStatuses <==> s == "Pending"
    ensures s in CompletedStatuses <==> s == "Completed"
  {
  }

  /** Newest first: creation times never increase along `s`. */
  ghost predicate NewestFirst(orders: map<Id, Order>, s: seq<Id>) {
    forall i, j :: 0 <= i < j < |s| && s[i] in orders && s[j] in orders ==> orders[s[i]].createdAt >= orders[s[j]].createdAt
  }

  /** `sort({ createdAt: -1 })` over the given ids. */
  method SortNewestFirst(orders: map<Id, Order>, ids: set<Id>) returns (s: seq<Id>)
    requires ids <= orders.Keys
    ensures Enumerates(s, ids) && NewestFirst(orders, s)
  {
    var keyOf := map x | x in ids :: orders[x].createdAt;
    s := Arrange(keyOf, ids, (a: int, b: int) => a >= b);
  }

  /** The ids of the orders of restaurant `id` whose status is one of `statuses`. */
  function OrdersWithStatus(orders: map<Id, Order>, id: Id, statuses: seq<string>): set<Id> {
    set x | x in orders && orders[x].restaurant == Some(id) && orders[x].status in statuses
  }

  /** getAllOrders: every order, newest first; an empty collection is answered with 404. */
  method GetAllOrders(db: Store) returns (r: Outcome<seq<Id>>)
    ensures db.orders == map[] ==> r == Err(404)
    ensures db.orders != map[] ==> r.Ok? && r.code == 200 && Enumerates(r.value, db.orders.Keys)
                                   && NewestFirst(db.orders, r.value)
  {
    if db.orders == map[] {
      return Err(404);
    }
    var s := SortNewestFirst(db.orders, db.orders.Keys);
    return Ok(200, s);
  }

  /** getOrdersForUsers: the caller's orders in no particular order; none at all is a 404. */
  method GetOrdersForUsers(db: Store, caller: Id) returns (r: Outcome<seq<Id>>)
    ensures var mine := set x | x in db.orders && db.orders[x].customer == caller;
            && (mine == {} ==> r == Err(404))
            && (mine != {} ==> r.Ok? && r.code == 200 && Enumerates(r.value, mine))
  {
    var mine := set x | x in db.orders && db.orders[x].customer == caller;
    if mine == {} {
      return Err(404);
    }
    var s := Enumerate(mine);
    return Ok(200, s);
  }

  /** getOrdersForRestaurant: the restaurant must exist; its orders in no particular order, possibly none. */
  method GetOrdersForRestaurant(db: Store, isValidId: Id -> bool, id: Id) returns (r: Outcome<seq<Id>>)
    ensures !isValidId(id) ==> r == Err(400)
    ensures isValidId(id) && id !in db.restaurants ==> r == Err(404)
    ensures isValidId(id) && id in db.restaurants ==>
              r.Ok? && r.code == 200
              && Enumerates(r.value, set x | x in db.orders && db.orders[x].restaurant == Some(id))
  {
    if !isValidId(id) {
      return Err(400);
    }
    if id !in db.restaurants {
      return Err(404);
    }
    var s := Enumerate(set x | x in db.orders && db.orders[x].restaurant == Some(id));
    return Ok(200, s);
  }

  /**
   * getActiveOrdersForRestaurant: the restaurant's orders whose status is in ActiveStatuses, newest
   * first; no match is an empty success, and the restaurant itself is not looked up.
   */
  method GetActiveOrdersForRestaurant(db: Store, isValidId: Id -> bool, id: Id) returns (r: Outcome<seq<Id>>)
    ensures !isValidId(id) ==> r == Err(400)
    ensures isValidId(id) ==>
              r.Ok? && r.code == 200
              && Enumerates(r.value, OrdersWithStatus(db.orders, id, ActiveStatuses))
              && NewestFirst(db.orders, r.value)
  {
    if !isValidId(id) {
      return Err(400);
    }
    var s := SortNewestFirst(db.orders, OrdersWithStatus(db.orders, id, ActiveStatuses));
    return Ok(200, s);
  }

  /** getCompletedOrdersForRestaurant: as the active listing, with CompletedStatuses. */
  method GetCompletedOrdersForRestaurant(db: Store, isValidId: Id -> bool, id: Id) returns (r: Outcome<seq<Id>>)
    ensures !isValidId(id) ==> r == Err(400)
    ensures isValidId(id) ==>
              r.Ok? && r.code == 200
              && Enumerates(r.value, OrdersWithStatus(db.orders, id, CompletedStatuses))
              && NewestFirst(db.orders, r.value)
  {
    if !isValidId(id) {
      return Err(400);
    }
    var s := SortNewestFirst(db.orders, OrdersWithStatus(db.orders, id, CompletedStatuses));
    return Ok(200, s);
  }

  /**
   * In a store whose orders all passed validation, the active listing holds exactly the
   * restaurant's Pending orders and the completed listing exactly its Completed ones.
   */
  lemma ListingsOfValidStore(orders: map<Id, Order>, id: Id)
    requires forall x :: x in orders ==> OrderModel.SchemaValid(orders[x])
    ensures OrdersWithStatus(orders, id, ActiveStatuses)
            == set x | x in orders && orders[x].restaurant == Some(id) && orders[x].status == "Pending"
    ensures OrdersWithStatus(orders, id, CompletedStatuses)
            == set x | x in orders && orders[x].restaurant == Some(id) && orders[x].status == "Completed"
  {
    forall x | x in orders {
      StatusFiltersOnLegalStatuses(orders[x].status);
    }
  }
}
