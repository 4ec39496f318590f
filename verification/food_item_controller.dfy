/**
 * The menu handler: adding a food item to a restaurant and appending its id to the restaurant's
 * menu. `isValidId` stands for `mongoose.isValidObjectId` and `uploadedUrl` for the URL the image
 * host answers for the uploaded file (None when the upload fails).
 */
module FoodItemController {
  import opened Common
  import opened Text
  import opened FoodItemModel
  import Database
  import RestaurantModel

  /**
   * The multipart files of the request: none at all, or a set of files in which the `foodImage`
   * field may be absent or hold a list of stored paths.
   */
  datatype UploadFiles = NoFiles | Files(foodImage: Option<seq<string>>)

  /**
   * The error `req.files?.foodImage[0]?.path` leads to. Without files the chain stops and the
   * missing path is a 400; files without a `foodImage` field make `[0]` read from undefined (500);
   * an empty list or an empty path is a 400.
   */
  function ImagePathError(files: UploadFiles): (e: Option<int>)
    ensures e.None? <==> files.Files? && files.foodImage.Some? && |files.foodImage.value| > 0
                         && files.foodImage.value[0] != ""
    ensures e.Some? ==> e.value == 400 || e.value == 500
    ensures e == Some(500) <==> files == Files(None)
  {
    match files
    case NoFiles => Some(400)
    case Files(None) => Some(500)
    case Files(Some(paths)) => if paths == [] || paths[0] == "" then Some(400) else None
  }

  /** All five body fields are present and truthy (a price of 0 is not). */
  predicate FieldsPresent(name: Option<string>, price: Option<int>, description: Option<string>,
                          category: Option<string>, foodImage: Option<string>)
  {
    Truthy(name) && TruthyInt(price) && Truthy(description) && Truthy(category) && Truthy(foodImage)
  }

  /**
   * The answer addFoodItem gives, checks taken in the source's order: the id check answers 404,
   * the field and file checks 400 (500 for the unguarded `[0]`), a failed upload 400, an unknown
   * restaurant 404 and a document the schema rejects 500. A success carries the cast item, which
   * refers to the restaurant.
   */
  function FoodItemOutcome(isValidId: Id -> bool, restaurants: map<Id, RestaurantModel.Restaurant>, id: Id,
                           name: Option<string>, price: Option<int>, description: Option<string>,
                           category: Option<string>, foodImage: Option<string>, files: UploadFiles,
                           uploadedUrl: Option<string>): (r: Outcome<FoodItem>)
    ensures !isValidId(id) ==> r == Err(404)
    ensures isValidId(id) && !FieldsPresent(name, price, description, category, foodImage) ==> r == Err(400)
    ensures (isValidId(id) && FieldsPresent(name, price, description, category, foodImage)
             && ImagePathError(files).Some?) ==> r == Err(ImagePathError(files).value)
    ensures (isValidId(id) && FieldsPresent(name, price, description, category, foodImage)
             && ImagePathError(files).None? && uploadedUrl.None?) ==> r == Err(400)
    ensures (isValidId(id) && FieldsPresent(name, price, description, category, foodImage)
             && ImagePathError(files).None? && uploadedUrl.Some? && id !in restaurants) ==> r == Err(404)
    ensures r.Ok? <==> (&& isValidId(id) && FieldsPresent(name, price, description, category, foodImage)
                        && ImagePathError(files).None? && uploadedUrl.Some? && id in restaurants
                        && SchemaValid(Cast(name.value, description.value, price.value, uploadedUrl.value,
                                            id, category.value)))
    ensures r.Err? ==> r.code in {400, 404, 500}
    ensures r.Ok? ==>
            && r == Ok(201, Cast(name.value, description.value, price.value, uploadedUrl.value, id, category.value))
            && SchemaValid(r.value) && r.value.restaurant == id && id in restaurants
  {
    if !isValidId(id) then Err(404)
    else if !FieldsPresent(name, price, description, category, foodImage) then Err(400)
    else if ImagePathError(files).Some? then Err(ImagePathError(files).value)
    else if uploadedUrl.None? then Err(400)
    else if id !in restaurants then Err(404)
    else
      var item := Cast(name.value, description.value, price.value, uploadedUrl.value, id, category.value);
      if !SchemaValid(item) then Err(500) else Ok(201, item)
  }

  /**
   * addFoodItem. Every error saves nothing. On success the item is stored under `newId` and the
   * restaurant's menu becomes its old menu followed by `newId`; nothing else changes.
   */
  method AddFoodItem(db: Database.Store, isValidId: Id -> bool, id: Id, name: Option<string>,
                     price: Option<int>, description: Option<string>, category: Option<string>,
                     foodImage: Option<string>, files: UploadFiles, uploadedUrl: Option<string>, newId: Id)
    returns (r: Outcome<FoodItem>)
    requires db.Valid() && newId !in db.foodItems
    modifies db
    ensures db.Valid()
    ensures r == FoodItemOutcome(isValidId, old(db.restaurants), id, name, price, description, category,
                                 foodImage, files, uploadedUrl)
    ensures db.orders == old(db.orders) && db.users == old(db.users)
    ensures r.Err? ==> db.foodItems == old(db.foodItems) && db.restaurants == old(db.restaurants)
    ensures r.Ok? ==>
            && db.foodItems == old(db.foodItems)[newId := r.value]
            && db.restaurants == old(db.restaurants)[id := old(db.restaurants)[id].(menu := old(db.restaurants)[id].menu + [newId])]
  {
    r := FoodItemOutcome(isValidId, db.restaurants, id, name, price, description, category, foodImage, files, uploadedUrl);
    if r.Ok? {
      var restaurant := db.restaurants[id];
      var listed := restaurant.(menu := restaurant.menu + [newId]);
      MenuAppend(restaurant, newId);
      db.SaveFoodItem(newId, r.value);
      db.SaveRestaurant(id, listed);
    }
  }

  /**
   * Appending to the menu keeps a restaurant valid, and the new menu is the old one followed by
   * the item: one longer, with every earlier entry where it was.
   */
  lemma MenuAppend(r: RestaurantModel.Restaurant, item: Id)
    requires RestaurantModel.SchemaValid(r)
    ensures RestaurantModel.SchemaValid(r.(menu := r.menu + [item]))
    ensures var m := r.(menu := r.menu + [item]).menu;
            && |m| == |r.menu| + 1 && m[|r.menu|] == item
            && forall k :: 0 <= k < |r.menu| ==> m[k] == r.menu[k]
  {
  }
}
