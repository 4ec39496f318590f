/** The food-item schema: required fields, the `trim` setters and the `category` enum. */
module FoodItemModel {
  import opened Common
  import opened Text

  /** The values the `category` enum admits. */
  const Categories: seq<string> := ["Appetizer", "Main Course", "Dessert", "Beverage"]

  /** A food-item document; `price` is in cents and `restaurant` is the owning restaurant's id. */
  datatype FoodItem = FoodItem(
    name: string,
    description: string,
    price: int,
    foodImage: string,
    restaurant: Id,
    category: string)

  predicate IsCategory(s: string) {
    s in Categories
  }

  /** What validation accepts: the required, trimmed strings are non-empty and the category is in the enum. */
  predicate SchemaValid(f: FoodItem) {
    IsTrimmedNonEmpty(f.name) && IsTrimmedNonEmpty(f.description) && IsTrimmedNonEmpty(f.foodImage)
    && IsCategory(f.category)
  }

  /** The document built from request values: every string path goes through its `trim` setter. */
  function Cast(name: string, description: string, price: int, foodImage: string,
                restaurant: Id, category: string): FoodItem
  {
    FoodItem(Trim(name), Trim(description), price, Trim(foodImage), restaurant, Trim(category))
  }

  /**
   * A cast document is valid exactly when name, description and image are not blank and the
   * trimmed category is one of the four; the restaurant reference is always carried over.
   */
  lemma CastValidIff(name: string, description: string, price: int, foodImage: string,
                     restaurant: Id, category: string)
    ensures var f := Cast(name, description, price, foodImage, restaurant, category);
      && (SchemaValid(f) <==> Trim(name) != "" && Trim(description) != "" && Trim(foodImage) != ""
                              && IsCategory(Trim(category)))
      && f.restaurant == restaurant && f.price == price
  {
  }
}
