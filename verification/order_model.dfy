/** The order schema: its fields, the `status` enum, the `rating` bounds and the defaults a new order receives. */
module OrderModel {
  import opened Common

  /** The values the `status` enum admits, in the schema's order. */
  const OrderStatuses: seq<string> := ["Pending", "Confirmed", "In Progress", "Completed", "Cancelled"]

  /** The default the schema declares for `status`. */
  const DeclaredDefaultStatus: string := "Processing"

  /** The default this model gives a new order: the first enum value, the state every order is meant to start in. */
  const DefaultStatus: string := "Pending"

  /** One entry of an order's `items`. */
  datatype OrderItem = OrderItem(foodItem: Id, quantity: int)

  /** An order document; `restaurant` and `deliveryPerson` are the schema's optional references. */
  datatype Order = Order(
    customer: Id,
    items: seq<OrderItem>,
    restaurant: Option<Id>,
    totalAmount: int,
    status: string,
    deliveryPerson: Option<Id>,
    address: string,
    createdAt: int,
    review: Option<string>,
    rating: Option<real>)

  predicate IsOrderStatus(s: string) {
    s in OrderStatuses
  }

  /** The statuses the cancel handler refuses to leave. */
  predicate IsTerminal(s: string) {
    s == "Completed" || s == "Cancelled"
  }

  /** `rating` is unset (its default) or lies in [1, 5]. */
  predicate RatingAllowed(rating: Option<real>) {
    rating.None? || 1.0 <= rating.value <= 5.0
  }

  /**
   * What the schema's validation accepts before a document is written: the enum, the required
   * `address` (a required string must be non-empty) and the rating bounds. The other required
   * paths (`customer`, `totalAmount`, each item's `foodItem` and `quantity`) are always present
   * in this datatype.
   */
  predicate SchemaValid(o: Order) {
    IsOrderStatus(o.status) && o.address != "" && RatingAllowed(o.rating)
  }

  /** The document `Order.create` builds from the given fields, the other paths taking their defaults. */
  function NewOrder(customer: Id, restaurant: Id, items: seq<OrderItem>, totalAmount: int,
                    address: string, createdAt: int, defaultStatus: string): (o: Order)
    ensures SchemaValid(o) <==> IsOrderStatus(defaultStatus) && address != ""
  {
    Order(customer, items, Some(restaurant), totalAmount, defaultStatus, None, address, createdAt, None, None)
  }

  /** The declared default is not a value of the enum it defaults. */
  lemma DeclaredDefaultOutsideEnum()
    ensures !IsOrderStatus(DeclaredDefaultStatus)
    ensures forall s :: IsOrderStatus(s) ==> s != DeclaredDefaultStatus
  {
  }

  /** With the declared default, validation rejects every new order, whatever its fields. */
  lemma DeclaredDefaultRejectsEveryOrder(customer: Id, restaurant: Id, items: seq<OrderItem>,
                                         totalAmount: int, address: string, createdAt: int)
    ensures !SchemaValid(NewOrder(customer, restaurant, items, totalAmount, address, createdAt, DeclaredDefaultStatus))
  {
  }

  /**
   * With "Pending" as the default, a new order passes validation exactly when its address is
   * non-empty, and it starts without a review, a rating or a delivery person.
   */
  lemma PendingDefaultAcceptsOrder(customer: Id, restaurant: Id, items: seq<OrderItem>,
                                   totalAmount: int, address: string, createdAt: int)
    ensures var o := NewOrder(customer, restaurant, items, totalAmount, address, createdAt, DefaultStatus);
      && (SchemaValid(o) <==> address != "")
      && o.status == "Pending" && o.review.None? && o.rating.None? && o.deliveryPerson.None?
  {
  }
}
