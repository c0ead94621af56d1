/** lib/api.ts: the normaliser that turns a loosely shaped record of the remote
    food store into a `Food`, the list fetches that apply it to every element,
    and the bodies that `createFood` and `updateFood` send. The HTTP calls
    themselves are not modelled: a fetch is modelled by the response it
    receives, a write by the body it sends. */
module Api {
  import opened Wrappers
  import opened JsString
  import opened JsNumber
  import opened FoodTypes

  /** A `price` or `rating` member as the store may return it. */
  datatype RawScalar = RNumber(n: Num) | RString(s: string) | RNull | RUndefined

  /** The `restaurant` member: a nested object, a plain name, or null / absent. */
  datatype RawRestaurant =
    | Nested(name: Option<string>, logo: Option<string>, status: Option<string>)
    | Flat(text: string)
    | NoRestaurant

  /** One record of the store's response, each member in the shapes it is
      known to take (`None`: absent or null). */
  datatype RawFood = RawFood(
    id: Option<string>,
    name: Option<string>,
    price: RawScalar,
    rating: RawScalar,
    image: Option<string>,
    restaurant: RawRestaurant,
    restaurantLogo: Option<string>,
    status: Option<string>,
    description: Option<string>,
    category: Option<string>)

  const UnnamedMeal: string := "Unnamed Meal"
  const UnknownRestaurant: string := "Unknown Restaurant"

  /** Truthiness of an optional string: present and not empty. */
  predicate OptTruthy(x: Option<string>) {
    x.Some? && x.value != ""
  }

  /** `(x as string) || fallback`. */
  function OrElse(x: Option<string>, fallback: string): string {
    if OptTruthy(x) then x.value else fallback
  }

  /** `String(v)` for a member that is not a number. */
  function RawText(v: RawScalar): string
    requires !v.RNumber?
  {
    match v
    case RString(s) => s
    case RNull => "null"
    case RUndefined => "undefined"
  }

  /** `typeof v === "number" ? v : parseFloat(String(v)) || 0`. */
  function CoerceRaw(v: RawScalar): Num {
    if v.RNumber? then v.n else ParsedOrZero(RawText(v))
  }

  /** The store marks the restaurant closed, in the nested object or at the top level. */
  predicate ClosedAnywhere(data: RawFood) {
    || (data.restaurant.Nested? && data.restaurant.status == Some("Closed"))
    || data.status == Some("Closed")
  }

  /** `normalizeFood`: total over every record shape; `fallbackId` stands for
      `String(Math.random())`, used when the record has no usable id. */
  function NormalizeFood(data: RawFood, fallbackId: string): (f: Food)
    // identity and names: kept when truthy, defaulted otherwise
    ensures f.id == if OptTruthy(data.id) then data.id.value else fallbackId
    ensures f.name == if OptTruthy(data.name) then data.name.value else UnnamedMeal
    ensures f.name != "" && f.restaurant != ""
    ensures f.image == if OptTruthy(data.image) then data.image.value else ""
    // numbers: always numeric; a number is kept, anything else is parsed, NaN and 0 give 0
    ensures f.price.Number? && f.rating.Number?
    ensures data.price.RNumber? ==> f.price.n == data.price.n
    ensures !data.price.RNumber? ==>
      var p := ParseFloat(RawText(data.price));
      Value(f.price.n) == if p.Some? then Value(p.value) else 0.0
    ensures data.rating.RNumber? ==> f.rating.n == data.rating.n
    ensures !data.rating.RNumber? ==>
      var p := ParseFloat(RawText(data.rating));
      Value(f.rating.n) == if p.Some? then Value(p.value) else 0.0
    // restaurant: nested object, else a flat name with the top-level logo
    ensures data.restaurant.Nested? ==>
      && f.restaurant == OrElse(data.restaurant.name, UnknownRestaurant)
      && f.restaurantLogo == OrElse(data.restaurant.logo, "")
    ensures !data.restaurant.Nested? ==>
      && f.restaurant == (if data.restaurant.Flat? && data.restaurant.text != ""
                          then data.restaurant.text else UnknownRestaurant)
      && f.restaurantLogo == OrElse(data.restaurantLogo, "")
    // status: the read vocabulary is "Open" / "Closed" only
    ensures f.status == "Closed" <==> ClosedAnywhere(data)
    ensures f.status == "Open" <==> !ClosedAnywhere(data)
    // free text passes through
    ensures f.description == data.description && f.category == data.category
  {
    Food(
      id := OrElse(data.id, fallbackId),
      name := OrElse(data.name, UnnamedMeal),
      price := Number(CoerceRaw(data.price)),
      image := OrElse(data.image, ""),
      rating := Number(CoerceRaw(data.rating)),
      restaurant :=
        match data.restaurant
        case Nested(name, _, _) => OrElse(name, UnknownRestaurant)
        case Flat(text) => OrElse(Some(text), UnknownRestaurant)
        case NoRestaurant => UnknownRestaurant,
      restaurantLogo :=
        if data.restaurant.Nested? then OrElse(data.restaurant.logo, "")
        else OrElse(data.restaurantLogo, ""),
      status := if ClosedAnywhere(data) then "Closed" else "Open",
      description := data.description,
      category := data.category)
  }

  /** `response.data.map(normalizeFood)` in `getAllFoods` and `searchFoods`:
      one normalised record per element, in the order received. */
  function NormalizeList(data: seq<RawFood>, fallbackIds: seq<string>): (foods: seq<Food>)
    requires |fallbackIds| == |data|
    ensures |foods| == |data|
    ensures forall i | 0 <= i < |data| :: foods[i] == NormalizeFood(data[i], fallbackIds[i])
  {
    if data == [] then []
    else [NormalizeFood(data[0], fallbackIds[0])] + NormalizeList(data[1..], fallbackIds[1..])
  }

  /** The list a fetch asks for: `getAllFoods` or `searchFoods(query)`, which
      passes the query as the `name` parameter. */
  datatype ListQuery = AllFoods | FoodsNamed(name: string)

  /** The write vocabulary: the form's "Open Now" is sent as "Open"; every
      other word is sent as it is. */
  function WireStatus(status: string): (w: string)
    ensures w != "Open Now"
    ensures status != "Open Now" ==> w == status
    ensures w == "Open" <==> status == "Open" || status == "Open Now"
  {
    if status == "Open Now" then "Open" else status
  }

  /** `status === "Open Now" ? "Open" : status` for a status that may be undefined. */
  function WireStatusOf(status: Option<string>): JsValue {
    match status
    case None => JUndefined
    case Some(s) => JString(WireStatus(s))
  }

  /** The nested restaurant object of a write payload. */
  function RestaurantObject(name: JsValue, logo: JsValue, status: JsValue): JsValue {
    JObject(map["name" := name, "logo" := logo, "status" := status])
  }

  const PayloadKeys: set<string> := {"name", "price", "rating", "image", "restaurant"}

  /** The body `createFood` posts: exactly the five write keys (no id, no
      description or category), the restaurant fields nested back under
      `restaurant`, and the status in the write vocabulary. */
  function CreatePayload(food: FoodData): (p: map<string, JsValue>)
    ensures p.Keys == PayloadKeys
    ensures p["name"] == JString(food.name) && p["image"] == JString(food.image)
    ensures p["price"] == FromNumOrString(food.price)
    ensures p["rating"] == FromNumOrString(food.rating)
    ensures p["restaurant"].JObject? && p["restaurant"].fields.Keys == {"name", "logo", "status"}
    ensures p["restaurant"].fields["name"] == JString(food.restaurant)
    ensures p["restaurant"].fields["logo"] == JString(food.restaurantLogo)
    ensures p["restaurant"].fields["status"] == JString(WireStatus(food.status))
  {
    map[
      "name" := JString(food.name),
      "price" := FromNumOrString(food.price),
      "rating" := FromNumOrString(food.rating),
      "image" := JString(food.image),
      "restaurant" := RestaurantObject(
        JString(food.restaurant), JString(food.restaurantLogo), JString(WireStatus(food.status)))]
  }

  /** What the body `updateFood` builds must be: name and image only when
      truthy, price and rating whenever defined, and the whole restaurant
      object (members possibly undefined) as soon as any of its three fields
      is truthy; nothing else. */
  predicate IsUpdatePayload(food: PartialFood, payload: map<string, JsValue>) {
    && payload.Keys <= PayloadKeys
    && ("name" in payload <==> OptTruthy(food.name))
    && ("name" in payload ==> payload["name"] == JString(food.name.value))
    && ("price" in payload <==> food.price.Some?)
    && ("price" in payload ==> payload["price"] == FromNumOrString(food.price.value))
    && ("rating" in payload <==> food.rating.Some?)
    && ("rating" in payload ==> payload["rating"] == FromNumOrString(food.rating.value))
    && ("image" in payload <==> OptTruthy(food.image))
    && ("image" in payload ==> payload["image"] == JString(food.image.value))
    && ("restaurant" in payload <==>
          OptTruthy(food.restaurant) || OptTruthy(food.restaurantLogo) || OptTruthy(food.status))
    && ("restaurant" in payload ==>
          payload["restaurant"] == RestaurantObject(
            FromOptString(food.restaurant), FromOptString(food.restaurantLogo), WireStatusOf(food.status)))
  }

  /** `updateFood`'s body, built one conditional assignment at a time. */
  method UpdatePayload(food: PartialFood) returns (payload: map<string, JsValue>)
    ensures IsUpdatePayload(food, payload)
  {
    payload := map[];
    if OptTruthy(food.name) {
      payload := payload["name" := JString(food.name.value)];
    }
    if food.price.Some? {
      payload := payload["price" := FromNumOrString(food.price.value)];
    }
    if food.rating.Some? {
      payload := payload["rating" := FromNumOrString(food.rating.value)];
    }
    if OptTruthy(food.image) {
      payload := payload["image" := JString(food.image.value)];
    }
    if OptTruthy(food.restaurant) || OptTruthy(food.restaurantLogo) || OptTruthy(food.status) {
      payload := payload["restaurant" := RestaurantObject(
        FromOptString(food.restaurant), FromOptString(food.restaurantLogo), WireStatusOf(food.status))];
    }
  }

  // ----- the store's side: reading back what was written -----

  function StringMember(m: map<string, JsValue>, key: string): Option<string> {
    if key in m && m[key].JString? then Some(m[key].s) else None
  }

  function ScalarMember(m: map<string, JsValue>, key: string): RawScalar {
    if key !in m then RUndefined
    else match m[key]
      case JNumber(n) => RNumber(n)
      case JString(s) => RString(s)
      case _ => RUndefined
  }

  function RestaurantMember(m: map<string, JsValue>): RawRestaurant {
    if "restaurant" !in m then NoRestaurant
    else match m["restaurant"]
      case JObject(fs) =>
        Nested(StringMember(fs, "name"), StringMember(fs, "logo"), StringMember(fs, "status"))
      case JString(s) => Flat(s)
      case _ => NoRestaurant
  }

  /** The record a store that keeps a JSON body as it is returns for it,
      once it has given it the identifier `id`. */
  function StoredRecord(body: map<string, JsValue>, id: string): RawFood {
    RawFood(
      Some(id), StringMember(body, "name"), ScalarMember(body, "price"), ScalarMember(body, "rating"),
      StringMember(body, "image"), RestaurantMember(body), StringMember(body, "restaurantLogo"),
      StringMember(body, "status"), StringMember(body, "description"), StringMember(body, "category"))
  }

  /** The read vocabulary a write-side or form-side status comes back as. */
  function ReadStatus(status: string): (r: string)
    ensures r == "Closed" <==> status == "Closed"
    ensures r == "Open" <==> status != "Closed"
  {
    if status == "Closed" then "Closed" else "Open"
  }

  // ----- lemmas -----

  /** Writing a meal with `createFood` and reading the stored record back
      through the normaliser gives the same meal under its new id: the write
      shape and the read shape agree, and "Open Now" comes back as "Open". */
  lemma CreateReadBack(food: FoodData, id: string, fallbackId: string)
    requires id != "" && food.name != "" && food.restaurant != ""
    requires food.price.Number? && food.rating.Number?
    ensures NormalizeFood(StoredRecord(CreatePayload(food), id), fallbackId)
         == Food(id, food.name, food.price, food.image, food.rating, food.restaurant,
                 food.restaurantLogo, ReadStatus(food.status), None, None)
  {
    var raw := StoredRecord(CreatePayload(food), id);
    assert raw.restaurant == Nested(Some(food.restaurant), Some(food.restaurantLogo),
                                    Some(WireStatus(food.status)));
    assert raw.status == None;
  }

  /** A record that is already normalised (read back as a flat record, which
      is how a `Food` looks) normalises to itself. */
  lemma NormalizeIdempotent(data: RawFood, fallbackId: string, otherFallbackId: string)
    requires fallbackId != ""
    ensures var f := NormalizeFood(data, fallbackId);
      NormalizeFood(AsRaw(f), otherFallbackId) == f
  {
  }

  /** A `Food` handed to the normaliser as a raw record. */
  function AsRaw(f: Food): RawFood {
    RawFood(
      Some(f.id), Some(f.name),
      if f.price.Number? then RNumber(f.price.n) else RString(f.price.s),
      if f.rating.Number? then RNumber(f.rating.n) else RString(f.rating.s),
      Some(f.image), Flat(f.restaurant), Some(f.restaurantLogo), Some(f.status),
      f.description, f.category)
  }

  /** A price or rating that is missing or null reads as 0: `String` turns it
      into "undefined" or "null", neither of which parses. */
  lemma AbsentNumberIsZero(v: RawScalar)
    requires v == RNull || v == RUndefined
    ensures CoerceRaw(v) == Zero
  {
    ParseNaNs();
  }

  /** A record with a nested, open restaurant and numeric strings for price
      and rating normalises to its own texts and the parsed numbers. */
  lemma NormalizeNestedRecord(id: string, name: string, price: string, rating: string, image: string,
                              restaurant: string, logo: string, p: Num, q: Num, fallbackId: string)
    requires id != "" && name != "" && image != "" && restaurant != "" && logo != ""
    requires ParseFloat(price) == Some(p) && NumTruthy(p)
    requires ParseFloat(rating) == Some(q) && NumTruthy(q)
    ensures NormalizeFood(
      RawFood(Some(id), Some(name), RString(price), RString(rating), Some(image),
              Nested(Some(restaurant), Some(logo), Some("Open")), None, None, None, None), fallbackId)
      == Food(id, name, Number(p), image, Number(q), restaurant, logo, "Open", None, None)
  {
  }

  /** The first record of the normaliser's own test: a nested restaurant
      object and numeric strings. */
  lemma NormalizeNestedTestRecord(fallbackId: string)
    ensures NormalizeFood(
      RawFood(Some("1"), Some("Pasta"), RString("10.5"), RString("4.2"),
              Some("https://example.com/pasta.jpg"),
              Nested(Some("Italian House"), Some("https://example.com/logo.png"), Some("Open")),
              None, None, None, None), fallbackId)
      == Food("1", "Pasta", Number(Num(105, 1)), "https://example.com/pasta.jpg", Number(Num(42, 1)),
              "Italian House", "https://example.com/logo.png", "Open", None, None)
  {
    ParseTenAndAHalf();
    ParseFourPointTwo();
    NormalizeNestedRecord("1", "Pasta", "10.5", "4.2", "https://example.com/pasta.jpg",
      "Italian House", "https://example.com/logo.png", Num(105, 1), Num(42, 1), fallbackId);
  }

  /** The second record of that test: a null restaurant, closed at the top level. */
  lemma NormalizeClosedTestRecord(fallbackId: string)
    ensures NormalizeFood(
      RawFood(Some("2"), Some("Sushi"), RNumber(Num(18, 0)), RNumber(Num(5, 0)),
              Some("https://example.com/sushi.jpg"), NoRestaurant, None, Some("Closed"), None, None),
      fallbackId)
      == Food("2", "Sushi", Number(Num(18, 0)), "https://example.com/sushi.jpg", Number(Num(5, 0)),
              UnknownRestaurant, "", "Closed", None, None)
  {
  }

  /** An update that changes only the logo still sends the whole restaurant
      object, with the name and status members undefined: the store is not
      told the restaurant's name. */
  lemma LogoOnlyUpdate(logo: string, payload: map<string, JsValue>)
    requires logo != ""
    requires IsUpdatePayload(PartialFood(None, None, None, None, None, Some(logo), None), payload)
    ensures payload.Keys == {"restaurant"}
    ensures payload["restaurant"] == RestaurantObject(JUndefined, JString(logo), JUndefined)
  {
    assert "restaurant" in payload;
  }
}
