/** The catalog's record shapes (types/food.ts) and the JavaScript values that
    request payloads are built from. */
module FoodTypes {
  import opened Wrappers
  import opened JsNumber

  /** A field declared `number | string`. */
  datatype NumOrString = Number(n: Num) | Text(s: string)

  /** `String(v)` for a `number | string` field. */
  function ToJsString(v: NumOrString): string {
    match v
    case Number(n) => NumToString(n)
    case Text(s) => s
  }

  /** A meal as the view layer sees it. `status` is one of "Open", "Closed"
      and "Open Now" by its declared type; it is kept as text so that the
      display rules for any other word can be stated. */
  datatype Food = Food(
    id: string,
    name: string,
    price: NumOrString,
    image: string,
    rating: NumOrString,
    restaurant: string,
    restaurantLogo: string,
    status: string,
    description: Option<string>,
    category: Option<string>)

  /** `Omit<Food, "id">`: what the form submits and `createFood` accepts. */
  datatype FoodData = FoodData(
    name: string,
    price: NumOrString,
    image: string,
    rating: NumOrString,
    restaurant: string,
    restaurantLogo: string,
    status: string,
    description: Option<string>,
    category: Option<string>)

  /** `Partial<Food>` as `updateFood` reads it (it never reads `id`). */
  datatype PartialFood = PartialFood(
    name: Option<string>,
    price: Option<NumOrString>,
    image: Option<string>,
    rating: Option<NumOrString>,
    restaurant: Option<string>,
    restaurantLogo: Option<string>,
    status: Option<string>)

  /** A `FoodData` passed where a `Partial<Food>` is expected: every field is present. */
  function AsPartial(d: FoodData): PartialFood {
    PartialFood(Some(d.name), Some(d.price), Some(d.image), Some(d.rating),
                Some(d.restaurant), Some(d.restaurantLogo), Some(d.status))
  }

  /** A JavaScript value inside a request payload. An object member whose value
      is `JUndefined` is present as a key but is dropped when the payload is
      serialised as JSON. */
  datatype JsValue =
    | JUndefined
    | JString(s: string)
    | JNumber(n: Num)
    | JObject(fields: map<string, JsValue>)

  function FromNumOrString(v: NumOrString): JsValue {
    match v
    case Number(n) => JNumber(n)
    case Text(s) => JString(s)
  }

  /** An optional string as a member value: `undefined` when absent. */
  function FromOptString(o: Option<string>): JsValue {
    match o
    case None => JUndefined
    case Some(s) => JString(s)
  }
}
