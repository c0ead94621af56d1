/** components/food-card.tsx: how one meal is shown (price, rating, status
    badge, images with their fallbacks) and the card's own state: the
    three-dot menu and whether the meal's image failed to load. */
module FoodCard {
  import opened Wrappers
  import opened JsString
  import opened JsNumber
  import opened FoodTypes

  /** `isValidUrl`: an empty or white-space-only text is never a URL; any
      other text is one when the platform's URL parser, passed in as
      `parsesAsUrl`, accepts it. */
  function IsValidUrl(url: string, parsesAsUrl: string -> bool): (ok: bool)
    ensures ok <==> !AllSpace(url) && parsesAsUrl(url)
    ensures url == "" ==> !ok
  {
    if url == "" || IsBlank(url) then false else parsesAsUrl(url)
  }

  /** The price or rating the card shows: a number as it is, anything else
      parsed, with NaN and 0 giving 0. */
  function DisplayNumber(v: NumOrString): (n: Num)
    ensures v.Number? ==> n == v.n
    ensures v.Text? ==>
      Value(n) == if ParseFloat(v.s).Some? then Value(ParseFloat(v.s).value) else 0.0
    ensures v.Text? ==> n == Zero || Some(n) == ParseFloat(v.s)
  {
    match v
    case Number(n) => n
    case Text(s) => ParsedOrZero(ToJsString(v))
  }

  /** A status the card treats as open. */
  predicate IsOpenStatus(status: string) {
    status == "Open" || status == "Open Now"
  }

  const OpenClasses: string := "bg-green-100 text-green-600"
  const ClosedClasses: string := "bg-red-100 text-red-600"

  /** The badge text: "Open" for either open word, "Closed" for anything else. */
  function StatusLabel(status: string): (badge: string)
    ensures badge == "Open" <==> IsOpenStatus(status)
    ensures badge == "Closed" <==> !IsOpenStatus(status)
  {
    if status == "Open" then "Open"
    else if status == "Open Now" then "Open"
    else "Closed"
  }

  /** The badge colours: green for either open word, red for anything else. */
  function StatusClasses(status: string): (classes: string)
    ensures classes == OpenClasses <==> IsOpenStatus(status)
    ensures classes == ClosedClasses <==> !IsOpenStatus(status)
  {
    if status == "Open" || status == "Open Now" then OpenClasses else ClosedClasses
  }

  /** What fills the restaurant logo box. */
  datatype LogoView = LogoImage(src: string, alt: string) | LogoInitial(text: string)

  /** The logo when its URL is valid, else the first character of the
      restaurant's name (`charAt(0)`, empty for an empty name). */
  function Logo(food: Food, parsesAsUrl: string -> bool): (v: LogoView)
    ensures v.LogoImage? <==> IsValidUrl(food.restaurantLogo, parsesAsUrl)
    ensures v.LogoImage? ==> v.src == food.restaurantLogo && v.alt == food.restaurant
    ensures v.LogoInitial? ==> |v.text| <= 1 && v.text <= food.restaurant
    ensures v.LogoInitial? ==> (v.text == "" <==> food.restaurant == "")
  {
    if IsValidUrl(food.restaurantLogo, parsesAsUrl) then LogoImage(food.restaurantLogo, food.restaurant)
    else LogoInitial(if food.restaurant == "" then "" else food.restaurant[..1])
  }

  /** The meal's picture is shown unless it failed to load or its URL is not
      valid; otherwise the placeholder is. */
  function ShowsFoodImage(food: Food, imageError: bool, parsesAsUrl: string -> bool): (shown: bool)
    ensures shown <==> !imageError && !AllSpace(food.image) && parsesAsUrl(food.image)
  {
    !imageError && IsValidUrl(food.image, parsesAsUrl)
  }

  /** A call the card makes to its parent. */
  datatype CardEvent = EditRequested(food: Food) | DeleteRequested(id: string)

  /** One rendered card. `emitted` records, in order, the callbacks the card
      has invoked. */
  class FoodCardState {
    const food: Food
    var showMenu: bool
    var imageError: bool
    var emitted: seq<CardEvent>

    constructor(food: Food)
      ensures this.food == food
      ensures !showMenu && !imageError && emitted == []
    {
      this.food := food;
      showMenu := false;
      imageError := false;
      emitted := [];
    }

    /** The three-dot button flips the menu. */
    method ToggleMenu()
      modifies this
      ensures showMenu == !old(showMenu)
      ensures imageError == old(imageError) && emitted == old(emitted)
    {
      showMenu := !showMenu;
    }

    /** "Edit Food", only present while the menu is open: asks the parent to
      edit this meal once and closes the menu. */
    method ClickEdit()
      requires showMenu
      modifies this
      ensures emitted == old(emitted) + [EditRequested(food)]
      ensures !showMenu && imageError == old(imageError)
    {
      emitted := emitted + [EditRequested(food)];
      showMenu := false;
    }

    /** "Delete Food", only present while the menu is open: asks the parent to
      delete this meal's id once and closes the menu. */
    method ClickDelete()
      requires showMenu
      modifies this
      ensures emitted == old(emitted) + [DeleteRequested(food.id)]
      ensures !showMenu && imageError == old(imageError)
    {
      emitted := emitted + [DeleteRequested(food.id)];
      showMenu := false;
    }

    /** The meal's picture failed to load: the placeholder takes its place
      for good. */
    method ImageFailed()
      modifies this
      ensures imageError
      ensures showMenu == old(showMenu) && emitted == old(emitted)
    {
      imageError := true;
    }
  }

  // ----- lemmas -----

  /** The badge's text and colour always agree. */
  lemma LabelMatchesColour(status: string)
    ensures StatusLabel(status) == "Open" <==> StatusClasses(status) == OpenClasses
    ensures StatusLabel(status) == "Closed" <==> StatusClasses(status) == ClosedClasses
  {
    assert OpenClasses != ClosedClasses;
  }

  /** A number written out as text is shown with its own value. */
  lemma DisplayNumberOfPrinted(n: Num)
    ensures Value(DisplayNumber(Text(NumToString(n)))) == Value(n)
  {
    ParsePrintRoundTrip(n);
  }
}
