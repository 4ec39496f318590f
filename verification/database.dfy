/**
 * The document store the controllers read and write: one map from id to document per collection.
 * Users are a read-only directory here (the invoice needs a customer's name and e-mail).
 */
module Database {
  import opened Common
  import OrderModel
  import RestaurantModel
  import FoodItemModel

  /** The projection of a user document that the order queries populate. */
  datatype UserProfile = UserProfile(username: string, email: string)

  /** Every order passed the order schema's validation. */
  ghost predicate OrdersValid(m: map<Id, OrderModel.Order>) {
    forall id :: id in m ==> OrderModel.SchemaValid(m[id])
  }

  /** Every restaurant passed the restaurant schema's validation. */
  ghost predicate RestaurantsValid(m: map<Id, RestaurantModel.Restaurant>) {
    forall id :: id in m ==> RestaurantModel.SchemaValid(m[id])
  }

  /** Every food item passed the food-item schema's validation. */
  ghost predicate FoodItemsValid(m: map<Id, FoodItemModel.FoodItem>) {
    forall id :: id in m ==> FoodItemModel.SchemaValid(m[id])
  }

  /** Storing a valid order, new or replacing one, keeps the collection valid. */
  lemma OrdersValidStore(m: map<Id, OrderModel.Order>, id: Id, o: OrderModel.Order)
    requires OrdersValid(m) && OrderModel.SchemaValid(o)
    ensures OrdersValid(m[id := o])
  {
  }

  /** Storing a valid restaurant, new or replacing one, keeps the collection valid. */
  lemma RestaurantsValidStore(m: map<Id, RestaurantModel.Restaurant>, id: Id, r: RestaurantModel.Restaurant)
    requires RestaurantsValid(m) && RestaurantModel.SchemaValid(r)
    ensures RestaurantsValid(m[id := r])
  {
  }

  /** Storing a valid food item keeps the collection valid. */
  lemma FoodItemsValidStore(m: map<Id, FoodItemModel.FoodItem>, id: Id, f: FoodItemModel.FoodItem)
    requires FoodItemsValid(m) && FoodItemModel.SchemaValid(f)
    ensures FoodItemsValid(m[id := f])
  {
  }

  class Store {
    var orders: map<Id, OrderModel.Order>
    var restaurants: map<Id, RestaurantModel.Restaurant>
    var foodItems: map<Id, FoodItemModel.FoodItem>
    var users: map<Id, UserProfile>

    /** Every stored document passed its schema's validation when it was written. */
    ghost predicate Valid()
      reads this
    {
      OrdersValid(orders) && RestaurantsValid(restaurants) && FoodItemsValid(foodItems)
    }

    /** An empty store over a given user directory. */
    constructor (users: map<Id, UserProfile>)
      ensures Valid()
      ensures orders == map[] && restaurants == map[] && foodItems == map[] && this.users == users
    {
      orders := map[];
      restaurants := map[];
      foodItems := map[];
      this.users := users;
    }

    /** Saving an order document under `id`; every other collection is left as it was. */
    method SaveOrder(id: Id, o: OrderModel.Order)
      requires Valid() && OrderModel.SchemaValid(o)
      modifies this
      ensures Valid()
      ensures orders == old(orders)[id := o]
      ensures restaurants == old(restaurants) && foodItems == old(foodItems) && users == old(users)
    {
      OrdersValidStore(orders, id, o);
      orders := orders[id := o];
    }

    /** Saving a restaurant document under `id`; every other collection is left as it was. */
    method SaveRestaurant(id: Id, r: RestaurantModel.Restaurant)
      requires Valid() && RestaurantModel.SchemaValid(r)
      modifies this
      ensures Valid()
      ensures restaurants == old(restaurants)[id := r]
      ensures orders == old(orders) && foodItems == old(foodItems) && users == old(users)
    {
      RestaurantsValidStore(restaurants, id, r);
      restaurants := restaurants[id := r];
    }

    /** Deleting the restaurant document `id`; nothing else is touched (no cascade). */
    method RemoveRestaurant(id: Id)
      requires Valid()
      modifies this
      ensures Valid()
      ensures restaurants == old(restaurants) - {id}
      ensures orders == old(orders) && foodItems == old(foodItems) && users == old(users)
    {
      restaurants := restaurants - {id};
    }

    /** Saving a food-item document under `id`; every other collection is left as it was. */
    method SaveFoodItem(id: Id, f: FoodItemModel.FoodItem)
      requires Valid() && FoodItemModel.SchemaValid(f)
      modifies this
      ensures Valid()
      ensures foodItems == old(foodItems)[id := f]
      ensures orders == old(orders) && restaurants == old(restaurants) && users == old(users)
    {
      FoodItemsValidStore(foodItems, id, f);
      foodItems := foodItems[id := f];
    }
  }
}
