/**
 * The restaurant handlers: creation with its duplicate check, the filtered, sorted and paged
 * listing, the single read, deletion and the field-wise update. `isValidId` stands for
 * `mongoose.isValidObjectId`, `matches(pattern, subject)` for a case-insensitive regular-expression
 * search, and `uploadedUrl` for the URL the image host answers (None when the upload fails or
 * there is no file).
 */
module RestaurantController {
  import opened Common
  import opened Text
  import opened RestaurantModel
  import opened Database
  import opened Query

  // ---------------------------------------------------------------- creation

  /**
   * Some stored restaurant has this name and address. The query filter goes through the same
   * setters as the stored paths, so the comparison is between normalised values.
   */
  predicate DuplicateOf(restaurants: map<Id, Restaurant>, name: string, address: string) {
    exists x :: x in restaurants && restaurants[x].restaurantName == NormalizeName(name)
                                 && restaurants[x].restaurantAddress == Trim(address)
  }

  /** The cover image stored for an upload: its URL when it has a non-empty one, else "". */
  function CoverImage(uploadedUrl: Option<string>): (c: string)
    ensures Truthy(uploadedUrl) ==> c == uploadedUrl.value
    ensures !Truthy(uploadedUrl) ==> c == DefaultCoverImage
  {
    if Truthy(uploadedUrl) then uploadedUrl.value else DefaultCoverImage
  }

  /**
   * The answer addRestaurant gives. Missing fields are refused with 400 (an empty `menu` array is
   * present), an existing restaurant with the same name and address with 400, and a document the
   * schema rejects with 500; a success carries the cast document, rated 0.
   */
  function NewRestaurantOutcome(restaurants: map<Id, Restaurant>, restaurantName: Option<string>,
                                restaurantAddress: Option<string>, menu: Option<seq<Id>>,
                                contact: Option<string>, uploadedUrl: Option<string>, now: int)
    : (r: Outcome<Restaurant>)
    ensures r.Err? ==> r.code == 400 || r.code == 500
    ensures !(Truthy(restaurantName) && Truthy(restaurantAddress) && menu.Some? && Truthy(contact))
            ==> r == Err(400)
    ensures (Truthy(restaurantName) && Truthy(restaurantAddress) && menu.Some? && Truthy(contact)
             && DuplicateOf(restaurants, restaurantName.value, restaurantAddress.value))
            ==> r == Err(400)
    ensures r.Ok? <==> (&& Truthy(restaurantName) && Truthy(restaurantAddress) && menu.Some? && Truthy(contact)
                        && !DuplicateOf(restaurants, restaurantName.value, restaurantAddress.value)
                        && Trim(restaurantName.value) != "" && Trim(restaurantAddress.value) != ""
                        && IsValidContact(Trim(contact.value)))
    ensures r.Ok? ==>
            && r.code == 201
            && SchemaValid(r.value)
            && r.value.restaurantName == NormalizeName(restaurantName.value)
            && r.value.restaurantAddress == Trim(restaurantAddress.value)
            && r.value.contact == Trim(contact.value)
            && r.value.rating == DefaultRating
            && r.value.menu == menu.value
            && r.value.coverImage == CoverImage(uploadedUrl)
            && r.value.createdAt == now
  {
    if !Truthy(restaurantName) || !Truthy(restaurantAddress) || menu.None? || !Truthy(contact) then Err(400)
    else if DuplicateOf(restaurants, restaurantName.value, restaurantAddress.value) then Err(400)
    else
      var restaurant := Cast(restaurantName.value, restaurantAddress.value, contact.value, DefaultRating,
                             menu.value, CoverImage(uploadedUrl), now);
      CastValidIff(restaurantName.value, restaurantAddress.value, contact.value, DefaultRating,
                   menu.value, CoverImage(uploadedUrl), now);
      if !SchemaValid(restaurant) then Err(500) else Ok(201, restaurant)
  }

  /**
   * addRestaurant: an error saves nothing; a success stores the new document under `newId` and
   * changes nothing else.
   */
  method AddRestaurant(db: Store, restaurantName: Option<string>, restaurantAddress: Option<string>,
                       menu: Option<seq<Id>>, contact: Option<string>, uploadedUrl: Option<string>,
                       newId: Id, now: int)
    returns (r: Outcome<Restaurant>)
    requires db.Valid() && newId !in db.restaurants
    modifies db
    ensures db.Valid()
    ensures r == NewRestaurantOutcome(old(db.restaurants), restaurantName, restaurantAddress, menu, contact,
                                      uploadedUrl, now)
    ensures db.orders == old(db.orders) && db.foodItems == old(db.foodItems) && db.users == old(db.users)
    ensures r.Err? ==> db.restaurants == old(db.restaurants)
    ensures r.Ok? ==> db.restaurants == old(db.restaurants)[newId := r.value]
  {
    r := NewRestaurantOutcome(db.restaurants, restaurantName, restaurantAddress, menu, contact, uploadedUrl, now);
    if r.Ok? {
      db.SaveRestaurant(newId, r.value);
    }
  }

  /**
   * Once a restaurant is stored under `newId`, a request is a duplicate exactly when it matches
   * another stored restaurant or has the new one's normalised name and trimmed address.
   */
  lemma ReAddIsDuplicate(restaurants: map<Id, Restaurant>, newId: Id, name: string, address: string,
                         contact: string, menu: seq<Id>, coverImage: string, now: int, n: string, a: string)
    ensures var stored := restaurants[newId := Cast(name, address, contact, DefaultRating, menu, coverImage, now)];
            DuplicateOf(stored, n, a)
            <==> (|| DuplicateOf(restaurants - {newId}, n, a)
                  || (NormalizeName(n) == NormalizeName(name) && Trim(a) == Trim(address)))
  {
    var stored := restaurants[newId := Cast(name, address, contact, DefaultRating, menu, coverImage, now)];
    if NormalizeName(n) == NormalizeName(name) && Trim(a) == Trim(address) {
      assert newId in stored && stored[newId].restaurantName == NormalizeName(n)
             && stored[newId].restaurantAddress == Trim(a);
    }
    if DuplicateOf(restaurants - {newId}, n, a) {
      var x :| x in restaurants - {newId} && restaurants[x].restaurantName == NormalizeName(n)
               && restaurants[x].restaurantAddress == Trim(a);
      assert x in stored && stored[x] == restaurants[x];
    }
    if DuplicateOf(stored, n, a) {
      var x :| x in stored && stored[x].restaurantName == NormalizeName(n) && stored[x].restaurantAddress == Trim(a);
      if x != newId {
        assert x in restaurants - {newId} && (restaurants - {newId})[x] == stored[x];
      }
    }
  }

  /**
   * Re-adding a stored restaurant under its name in another letter case, with any whitespace
   * around it, is refused as a duplicate.
   */
  lemma ReAddVariantIsDuplicate(restaurants: map<Id, Restaurant>, newId: Id, name: string, address: string,
                                contact: string, menu: seq<Id>, coverImage: string, now: int, p: string, q: string)
    requires AllWhitespace(p) && AllWhitespace(q)
    ensures var stored := restaurants[newId := Cast(name, address, contact, DefaultRating, menu, coverImage, now)];
            DuplicateOf(stored, p + ToLower(name) + q, address)
  {
    NormalizeIgnoresPadding(p, ToLower(name), q);
    NormalizeIgnoresCase(name);
    ReAddIsDuplicate(restaurants, newId, name, address, contact, menu, coverImage, now, p + ToLower(name) + q, address);
  }

  /** Names that differ only in letter case normalise alike. */
  lemma NormalizeIgnoresCase(name: string)
    ensures NormalizeName(ToLower(name)) == NormalizeName(name)
  {
    LowerCommutesWithTrim(name);
    ToLowerIdempotent(Trim(name));
  }

  /** Names that differ only in the whitespace around them normalise alike. */
  lemma NormalizeIgnoresPadding(p: string, name: string, q: string)
    requires AllWhitespace(p) && AllWhitespace(q)
    ensures NormalizeName(p + name + q) == NormalizeName(name)
  {
    TrimIgnoresPadding(p, name, q);
  }

  // ---------------------------------------------------------------- listing

  /** The value a sort key takes in one document; paths the documents do not have are Missing. */
  datatype SortValue = Missing | Num(n: real) | Str(s: string) | Date(t: int)

  /** MongoDB's comparison order across types: missing, then numbers, then strings, then dates. */
  function TypeRank(v: SortValue): nat {
    match v
    case Missing => 0
    case Num(_) => 1
    case Str(_) => 2
    case Date(_) => 3
  }

  /** The ascending order of sort values. */
  predicate SortLe(a: SortValue, b: SortValue) {
    if TypeRank(a) != TypeRank(b) then TypeRank(a) < TypeRank(b)
    else match a
      case Missing => true
      case Num(x) => x <= b.n
      case Str(x) => StrLe(x, b.s)
      case Date(x) => x <= b.t
  }

  lemma SortLeTotal(a: SortValue, b: SortValue)
    ensures SortLe(a, b) || SortLe(b, a)
  {
    if a.Str? && b.Str? {
      StrLeTotal(a.s, b.s);
    }
  }

  lemma SortLeTransitive(a: SortValue, b: SortValue, c: SortValue)
    requires SortLe(a, b) && SortLe(b, c)
    ensures SortLe(a, c)
  {
    if a.Str? && b.Str? && c.Str? {
      StrLeTransitive(a.s, b.s, c.s);
    }
  }

  /** The sort value of the path `field` in `r`. */
  function FieldValue(r: Restaurant, field: string): SortValue {
    if field == "restaurantName" then Str(r.restaurantName)
    else if field == "restaurantAddress" then Str(r.restaurantAddress)
    else if field == "contact" then Str(r.contact)
    else if field == "rating" then Num(r.rating)
    else if field == "coverImage" then Str(r.coverImage)
    else if field == "createdAt" then Date(r.createdAt)
    else Missing
  }

  /** The sort direction: ascending exactly when `order` is "asc", descending otherwise. */
  predicate Ascending(order: Option<string>) {
    order == Some("asc")
  }

  /** May a document with key `a` come before one with key `b` in the requested direction? */
  function Direction(order: Option<string>): (before: (SortValue, SortValue) -> bool)
  {
    if Ascending(order) then (a, b) => SortLe(a, b) else (a, b) => SortLe(b, a)
  }

  /** Both directions are total preorders, as the sort needs. */
  lemma DirectionIsTotalPreorder(order: Option<string>)
    ensures TotalPreorder(Direction(order))
  {
    var before := Direction(order);
    forall a, b
      ensures before(a, b) || before(b, a)
    {
      SortLeTotal(a, b);
    }
    forall a, b, c | before(a, b) && before(b, c)
      ensures before(a, c)
    {
      if Ascending(order) {
        SortLeTransitive(a, b, c);
      } else {
        SortLeTransitive(c, b, a);
      }
    }
  }

  /**
   * The search the database can run: none at all, or a pattern `isPattern` accepts as a regular
   * expression. The database refuses any other `$regex` and the query fails.
   */
  predicate SearchAccepted(isPattern: string -> bool, search: Option<string>) {
    !Truthy(search) || isPattern(search.value)
  }

  /**
   * The ids the filter selects: without a (truthy) search term every restaurant; with one, those
   * whose name or contact the pattern matches.
   */
  function SearchHits(restaurants: map<Id, Restaurant>, matches: (string, string) -> bool,
                      search: Option<string>): (hits: set<Id>)
    ensures hits <= restaurants.Keys
    ensures !Truthy(search) ==> hits == restaurants.Keys
  {
    if Truthy(search) then
      set x | x in restaurants && (matches(search.value, restaurants[x].restaurantName)
                                   || matches(search.value, restaurants[x].contact))
    else restaurants.Keys
  }

  /** The sort key of every selected restaurant. */
  function SortKeys(restaurants: map<Id, Restaurant>, ids: set<Id>, sortBy: string): (keys: map<Id, SortValue>)
    requires ids <= restaurants.Keys
    ensures keys.Keys == ids
  {
    map x | x in ids :: FieldValue(restaurants[x], sortBy)
  }

  /** `ceil(n / d)`, the number of pages of `d` records that `n` records fill. */
  function CeilDiv(n: nat, d: int): (q: nat)
    requires d >= 1
    ensures (q - 1) * d < n <= q * d
  {
    var q := (n + d - 1) / d;
    assert q * d <= n + d - 1 < q * d + d;
    q
  }

  /** The records the query keeps after skipping `skip` and limiting to `limit`. */
  function PageOf<T>(s: seq<T>, skip: nat, limit: nat): (p: seq<T>)
    ensures |p| <= limit
    ensures p != [] <==> skip < |s| && limit > 0
    ensures forall k :: 0 <= k < |p| ==> skip + k < |s| && p[k] == s[skip + k]
  {
    if skip >= |s| then [] else s[skip..if skip + limit <= |s| then skip + limit else |s|]
  }

  /** A requested page has records exactly when it lies between 1 and the number of pages. */
  lemma PageNonEmptyIff(n: nat, page: int, limit: int)
    requires page >= 1 && limit >= 1
    ensures (page - 1) * limit < n <==> page <= CeilDiv(n, limit)
  {
    var q := CeilDiv(n, limit);
    if page <= q {
      assert (page - 1) * limit <= (q - 1) * limit by {
        MulMonotone(page - 1, q - 1, limit);
      }
    } else {
      assert q * limit <= (page - 1) * limit by {
        MulMonotone(q, page - 1, limit);
      }
    }
  }

  /** The skip is negative exactly for pages before the first. */
  lemma SkipSign(page: int, limit: int)
    requires limit >= 1
    ensures (page - 1) * limit < 0 <==> page < 1
  {
    if page < 1 {
      MulMonotone(page - 1, -1, limit);
    } else {
      MulMonotone(0, page - 1, limit);
    }
  }

  lemma MulMonotone(a: int, b: int, d: int)
    requires a <= b && d >= 0
    ensures a * d <= b * d
  {
    assert b * d - a * d == (b - a) * d;
  }

  /**
   * The pages partition the listing: the record at position i is on page `i / limit + 1`, which
   * is one of the `CeilDiv(|s|, limit)` pages, at offset `i % limit`.
   */
  lemma PagesCover<T>(s: seq<T>, limit: int, i: int)
    requires limit >= 1 && 0 <= i < |s|
    ensures var page := i / limit + 1;
            && 1 <= page <= CeilDiv(|s|, limit)
            && i % limit < |PageOf(s, (page - 1) * limit, limit)|
            && PageOf(s, (page - 1) * limit, limit)[i % limit] == s[i]
  {
    var page := i / limit + 1;
    assert (page - 1) * limit + i % limit == i;
    PageNonEmptyIff(|s|, page, limit);
  }

  /** The documents of `ids`, in order. */
  function Records(restaurants: map<Id, Restaurant>, ids: seq<Id>): (rs: seq<Restaurant>)
    requires forall k :: 0 <= k < |ids| ==> ids[k] in restaurants
    ensures |rs| == |ids| && forall k :: 0 <= k < |ids| ==> rs[k] == restaurants[ids[k]]
  {
    seq(|ids|, k requires 0 <= k < |ids| => restaurants[ids[k]])
  }

  /** The payload of a listing. */
  datatype RestaurantPage = RestaurantPage(
    restaurants: seq<Restaurant>,
    currentPage: int,
    totalPages: nat,
    totalRestaurants: nat)

  /**
   * getAllRestaurants. `listing` is the whole filtered result in the order the sort produces;
   * the answer is the page `(page - 1) * limit` records in, at most `limit` long. A search that is
   * not a regular expression and a negative skip are refused by the database, and an empty page is
   * answered with a plain `Error`; each is a 500.
   */
  method GetAllRestaurants(db: Store, isPattern: string -> bool, matches: (string, string) -> bool,
                           search: Option<string>, page: int, limit: int, sortBy: string, order: Option<string>)
    returns (r: Outcome<RestaurantPage>, ghost listing: seq<Id>)
    requires limit >= 1
    ensures Enumerates(listing, SearchHits(db.restaurants, matches, search))
    ensures ArrangedBy(SortKeys(db.restaurants, SearchHits(db.restaurants, matches, search), sortBy),
                       listing, Direction(order))
    ensures r.Err? ==> r.code == 500
    ensures !SearchAccepted(isPattern, search) ==> r == Err(500)
    ensures page < 1 ==> r.Err?
    ensures page >= 1 && SearchAccepted(isPattern, search) ==> (r.Ok? <==> page <= CeilDiv(|listing|, limit))
    ensures r.Ok? ==>
            && (forall k :: 0 <= k < |listing| ==> listing[k] in db.restaurants)
            && r.code == 200
            && r.value.restaurants == Records(db.restaurants, PageOf(listing, (page - 1) * limit, limit))
            && r.value.currentPage == page
            && r.value.totalRestaurants == |SearchHits(db.restaurants, matches, search)|
            && r.value.totalPages == CeilDiv(r.value.totalRestaurants, limit)
  {
    var hits := SearchHits(db.restaurants, matches, search);
    var skip := (page - 1) * limit;
    DirectionIsTotalPreorder(order);
    var s := Arrange(SortKeys(db.restaurants, hits, sortBy), hits, Direction(order));
    listing := s;
    SkipSign(page, limit);
    if !SearchAccepted(isPattern, search) || skip < 0 {
      return Err(500), listing;
    }
    DistinctCount(s, hits);
    var records := PageOf(s, skip, limit);
    PageNonEmptyIff(|s|, page, limit);
    if records == [] {
      return Err(500), listing;
    }
    assert forall k :: 0 <= k < |s| ==> s[k] in db.restaurants;
    var total := |hits|;
    return Ok(200, RestaurantPage(Records(db.restaurants, records), page, CeilDiv(total, limit), total)), listing;
  }

  /** A list of distinct ids enumerating a set is as long as the set is large. */
  lemma {:induction false} DistinctCount(s: seq<Id>, ids: set<Id>)
    requires Enumerates(s, ids)
    ensures |s| == |ids|
    decreases |s|
  {
    if s != [] {
      var last := s[|s| - 1];
      var init := s[..|s| - 1];
      assert forall x :: x in init <==> x in ids - {last} by {
        forall x
          ensures x in init <==> x in ids - {last}
        {
          if x in init {
            var k :| 0 <= k < |init| && init[k] == x;
            assert s[k] == x && k < |s| - 1;
          }
          if x in ids - {last} {
            assert x in s;
            var k :| 0 <= k < |s| && s[k] == x;
            assert k != |s| - 1;
            assert init[k] == x;
          }
        }
      }
      DistinctCount(init, ids - {last});
    } else {
      assert forall x :: x !in ids;
    }
  }

  /**
   * The default sort path "reting" is not a path of the schema, so the default listing puts
   * no constraint at all on the order: every enumeration of the hits is an acceptable answer.
   */
  lemma DefaultSortLeavesOrderOpen(restaurants: map<Id, Restaurant>, ids: set<Id>, s: seq<Id>,
                                   order: Option<string>)
    requires ids <= restaurants.Keys
    ensures ArrangedBy(SortKeys(restaurants, ids, "reting"), s, Direction(order))
  {
    var keys := SortKeys(restaurants, ids, "reting");
    forall i, j | 0 <= i < j < |s| && s[i] in keys && s[j] in keys
      ensures Direction(order)(keys[s[i]], keys[s[j]])
    {
      assert keys[s[i]] == Missing && keys[s[j]] == Missing;
    }
  }

  // ---------------------------------------------------------------- single reads and deletion

  /** getSingleRestaurant. `findById` with an id that is not an ObjectId raises a cast error (500). */
  method GetSingleRestaurant(db: Store, isValidId: Id -> bool, id: Id) returns (r: Outcome<Restaurant>)
    ensures !isValidId(id) ==> r == Err(500)
    ensures isValidId(id) && id !in db.restaurants ==> r == Err(404)
    ensures isValidId(id) && id in db.restaurants ==> r == Ok(200, db.restaurants[id])
  {
    if !isValidId(id) {
      return Err(500);
    }
    if id !in db.restaurants {
      return Err(404);
    }
    return Ok(200, db.restaurants[id]);
  }

  /**
   * deleteRestaurant. The removed document is answered; no other restaurant changes, and the food
   * items and orders that refer to it are left as they are.
   */
  method DeleteRestaurant(db: Store, isValidId: Id -> bool, id: Id) returns (r: Outcome<Restaurant>)
    requires db.Valid()
    modifies db
    ensures db.Valid()
    ensures db.orders == old(db.orders) && db.foodItems == old(db.foodItems) && db.users == old(db.users)
    ensures !isValidId(id) ==> r == Err(400)
    ensures isValidId(id) && id !in old(db.restaurants) ==> r == Err(404)
    ensures r.Err? ==> db.restaurants == old(db.restaurants)
    ensures r.Ok? <==> isValidId(id) && id in old(db.restaurants)
    ensures r.Ok? ==>
            && r == Ok(200, old(db.restaurants)[id])
            && db.restaurants == old(db.restaurants) - {id}
  {
    if !isValidId(id) {
      return Err(400);
    }
    if id !in db.restaurants {
      return Err(404);
    }
    var deleted := db.restaurants[id];
    db.RemoveRestaurant(id);
    return Ok(200, deleted);
  }

  // ---------------------------------------------------------------- update

  /**
   * The `$set` of updateRestaurants: each supplied truthy value (through its setter) replaces the
   * stored one, anything falsy keeps it. A rating of 0 is falsy, an empty `menu` array is not.
   */
  function Merge(e: Restaurant, name: Option<string>, address: Option<string>, contact: Option<string>,
                 rating: Option<real>, menu: Option<seq<Id>>): (m: Restaurant)
    ensures m.coverImage == e.coverImage && m.createdAt == e.createdAt
  {
    e.(restaurantName := if Truthy(name) then NormalizeName(name.value) else e.restaurantName,
       restaurantAddress := if Truthy(address) then Trim(address.value) else e.restaurantAddress,
       contact := if Truthy(contact) then Trim(contact.value) else e.contact,
       rating := if TruthyNumber(rating) then rating.value else e.rating,
       menu := if menu.Some? then menu.value else e.menu)
  }

  /** The update validators accept every supplied value (unsupplied ones are the stored, valid ones). */
  predicate UpdateAcceptable(name: Option<string>, address: Option<string>, contact: Option<string>,
                             rating: Option<real>)
  {
    && (Truthy(name) ==> Trim(name.value) != "")
    && (Truthy(address) ==> Trim(address.value) != "")
    && (Truthy(contact) ==> IsValidContact(Trim(contact.value)))
    && (TruthyNumber(rating) ==> 0.0 <= rating.value <= 5.0)
  }

  /** Starting from a valid document, the merged document is valid exactly when the update is acceptable. */
  lemma MergeValidIff(e: Restaurant, name: Option<string>, address: Option<string>, contact: Option<string>,
                      rating: Option<real>, menu: Option<seq<Id>>)
    requires SchemaValid(e)
    ensures SchemaValid(Merge(e, name, address, contact, rating, menu))
            <==> UpdateAcceptable(name, address, contact, rating)
  {
    MergedNameValid(e, name);
    MergedTrimmedValid(e.restaurantAddress, address);
    MergedTrimmedValid(e.contact, contact);
  }

  /** A supplied name is stored normalised, which is valid iff it is not blank; no name keeps the valid one. */
  lemma MergedNameValid(e: Restaurant, name: Option<string>)
    requires SchemaValid(e)
    ensures var n := if Truthy(name) then NormalizeName(name.value) else e.restaurantName;
            IsTrimmedNonEmpty(n) && IsLower(n) <==> (Truthy(name) ==> Trim(name.value) != "")
  {
    if Truthy(name) {
      NormalizedIff(name.value);
      NormalizeNameIdempotent(name.value);
    }
  }

  /** A supplied trimmed path is stored trimmed, so it has no whitespace at its ends; no value keeps the stored one. */
  lemma MergedTrimmedValid(stored: string, value: Option<string>)
    ensures var v := if Truthy(value) then Trim(value.value) else stored;
            && (Truthy(value) ==> IsTrimmed(v) && v == Trim(value.value))
            && (!Truthy(value) ==> v == stored)
  {
  }

  /** Sending back the stored values (or nothing at all) leaves a valid document as it is. */
  lemma MergeStoredValuesIsIdentity(e: Restaurant)
    requires SchemaValid(e)
    ensures Merge(e, Some(e.restaurantName), Some(e.restaurantAddress), Some(e.contact),
                  Some(e.rating), Some(e.menu)) == e
    ensures Merge(e, None, None, None, None, None) == e
  {
    NormalizedIff(e.restaurantName);
    TrimFixedIff(e.restaurantAddress);
    TrimFixedIff(e.contact);
  }

  /**
   * updateRestaurants. An id that is not an ObjectId fails the lookup's cast (500), a missing one
   * is a 404, and a merged document the update validators reject is a 500 with nothing written.
   */
  method UpdateRestaurants(db: Store, isValidId: Id -> bool, id: Id, restaurantName: Option<string>,
                           restaurantAddress: Option<string>, contact: Option<string>,
                           rating: Option<real>, menu: Option<seq<Id>>)
    returns (r: Outcome<Restaurant>)
    requires db.Valid()
    modifies db
    ensures db.Valid()
    ensures db.orders == old(db.orders) && db.foodItems == old(db.foodItems) && db.users == old(db.users)
    ensures r.Err? ==> db.restaurants == old(db.restaurants)
    ensures !isValidId(id) ==> r == Err(500)
    ensures isValidId(id) && id !in old(db.restaurants) ==> r == Err(404)
    ensures (isValidId(id) && id in old(db.restaurants)
             && !UpdateAcceptable(restaurantName, restaurantAddress, contact, rating)) ==> r == Err(500)
    ensures r.Ok? <==> isValidId(id) && id in old(db.restaurants)
                       && UpdateAcceptable(restaurantName, restaurantAddress, contact, rating)
    ensures r.Ok? ==>
            && r == Ok(200, Merge(old(db.restaurants)[id], restaurantName, restaurantAddress, contact, rating, menu))
            && db.restaurants == old(db.restaurants)[id := r.value]
            && (!TruthyNumber(rating) ==> r.value.rating == old(db.restaurants)[id].rating)
  {
    if !isValidId(id) {
      return Err(500);
    }
    if id !in db.restaurants {
      return Err(404);
    }
    var existing := db.restaurants[id];
    var updated := Merge(existing, restaurantName, restaurantAddress, contact, rating, menu);
    MergeValidIff(existing, restaurantName, restaurantAddress, contact, rating, menu);
    if !SchemaValid(updated) {
      return Err(500);
    }
    db.SaveRestaurant(id, updated);
    return Ok(200, updated);
  }
}
