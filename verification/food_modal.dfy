/** components/food-modal.tsx: the add / edit form. The form keeps a draft
    of seven text fields and a map of error messages; it validates the draft
    on submit and hands the converted meal to its caller only when the draft
    is valid. */
module FoodModal {
  import opened Wrappers
  import opened JsString
  import opened JsNumber
  import opened FoodTypes

  /** The form's text fields. `foodPrice` has no input of its own: it only
      holds what the initial draft put there. */
  datatype Draft = Draft(
    foodName: string,
    foodRating: string,
    foodPrice: string,
    foodImage: string,
    restaurantName: string,
    restaurantLogo: string,
    restaurantStatus: string)

  /** The named inputs of the form, which are also the keys of its error map. */
  datatype InputName = FoodName | FoodRating | FoodImage | RestaurantName | RestaurantLogo | RestaurantStatus

  /** `FormErrors`: an optional message per input; `None` is a member that
      is absent or `undefined`. */
  datatype FormErrors = FormErrors(
    foodName: Option<string>,
    foodRating: Option<string>,
    foodImage: Option<string>,
    restaurantName: Option<string>,
    restaurantLogo: Option<string>,
    restaurantStatus: Option<string>)

  /** `{}`. */
  const NoErrors: FormErrors := FormErrors(None, None, None, None, None, None)

  const NameRequired: string := "Food name is required"
  const RatingNotANumber: string := "Food Rating must be a number"
  const RatingOutOfRange: string := "Food Rating must be between 1 and 5"
  const ImageRequired: string := "Food Image URL is required"
  const RestaurantNameRequired: string := "Restaurant Name is required"
  const LogoRequired: string := "Restaurant Logo URL is required"
  const StatusInvalid: string := "Restaurant Status must be 'Open Now' or 'Closed'"

  /** The two choices of the status select. */
  predicate IsFormStatus(s: string) {
    s == "Open Now" || s == "Closed"
  }

  /** The draft field an input edits. */
  function Field(d: Draft, k: InputName): string {
    match k
    case FoodName => d.foodName
    case FoodRating => d.foodRating
    case FoodImage => d.foodImage
    case RestaurantName => d.restaurantName
    case RestaurantLogo => d.restaurantLogo
    case RestaurantStatus => d.restaurantStatus
  }

  /** `{ ...prev, [name]: value }`: one field replaced, every other kept. */
  function WithField(d: Draft, k: InputName, value: string): (d': Draft)
    ensures Field(d', k) == value
    ensures forall j | j != k :: Field(d', j) == Field(d, j)
    ensures d'.foodPrice == d.foodPrice
  {
    match k
    case FoodName => d.(foodName := value)
    case FoodRating => d.(foodRating := value)
    case FoodImage => d.(foodImage := value)
    case RestaurantName => d.(restaurantName := value)
    case RestaurantLogo => d.(restaurantLogo := value)
    case RestaurantStatus => d.(restaurantStatus := value)
  }

  /** The message an error record holds for an input. */
  function ErrorOf(e: FormErrors, k: InputName): Option<string> {
    match k
    case FoodName => e.foodName
    case FoodRating => e.foodRating
    case FoodImage => e.foodImage
    case RestaurantName => e.restaurantName
    case RestaurantLogo => e.restaurantLogo
    case RestaurantStatus => e.restaurantStatus
  }

  /** `{ ...prev, [name]: undefined }`: one input's message dropped, every
      other kept. */
  function Cleared(e: FormErrors, k: InputName): (e': FormErrors)
    ensures ErrorOf(e', k) == None
    ensures forall j | j != k :: ErrorOf(e', j) == ErrorOf(e, j)
  {
    match k
    case FoodName => e.(foodName := None)
    case FoodRating => e.(foodRating := None)
    case FoodImage => e.(foodImage := None)
    case RestaurantName => e.(restaurantName := None)
    case RestaurantLogo => e.(restaurantLogo := None)
    case RestaurantStatus => e.(restaurantStatus := None)
  }

  /** `getInitialFormData`: an edited meal's fields as text, its status in the
      form vocabulary; a new meal starts blank and "Open Now". */
  function InitialFormData(initialData: Option<Food>): (d: Draft)
    ensures d.restaurantStatus == "Open Now" || d.restaurantStatus == "Closed"
    ensures initialData.Some? ==>
      var food := initialData.value;
      && (d.restaurantStatus == "Closed" <==> food.status == "Closed")
      && d.foodName == food.name && d.foodImage == food.image
      && d.restaurantName == food.restaurant && d.restaurantLogo == food.restaurantLogo
      && d.foodRating == ToJsString(food.rating) && d.foodPrice == ToJsString(food.price)
    ensures initialData.None? ==>
      forall k | k != RestaurantStatus :: Field(d, k) == "" && d.foodPrice == ""
    ensures initialData.None? ==> d.restaurantStatus == "Open Now"
  {
    match initialData
    case Some(food) =>
      Draft(
        food.name, ToJsString(food.rating), ToJsString(food.price), food.image,
        food.restaurant, food.restaurantLogo,
        if food.status == "Closed" then "Closed" else "Open Now")
    case None => Draft("", "", "", "", "", "", "Open Now")
  }

  /** `rating < 1 || rating > 5`. */
  predicate OutOfRange(rating: Num) {
    Value(rating) < 1.0 || Value(rating) > 5.0
  }

  /** A rating the form accepts: it reads as a number from 1 to 5 inclusive. */
  predicate RatingAccepted(rating: string) {
    var p := ParseFloat(rating);
    p.Some? && 1.0 <= Value(p.value) <= 5.0
  }

  /** The draft the form lets through: the four required texts are not
      blank, the rating is accepted and the status is one of the two choices.
      The price is not checked. */
  predicate IsValid(d: Draft) {
    && !AllSpace(d.foodName)
    && RatingAccepted(d.foodRating)
    && !AllSpace(d.foodImage)
    && !AllSpace(d.restaurantName)
    && !AllSpace(d.restaurantLogo)
    && IsFormStatus(d.restaurantStatus)
  }

  /** The rating's message, if any: empty or NaN first, then out of range. */
  function RatingError(rating: string): (e: Option<string>)
    ensures e == None <==> RatingAccepted(rating)
    ensures e == Some(RatingNotANumber) <==> !StartsNumeric(TrimStart(rating))
    ensures e.Some? ==> e.value == RatingNotANumber || e.value == RatingOutOfRange
  {
    var p := ParseFloat(rating);
    if rating == "" || p.None? then
      assert rating == "" ==> p.None? by { ParseNaNs(); }
      Some(RatingNotANumber)
    else if OutOfRange(p.value) then Some(RatingOutOfRange)
    else None
  }

  /** The message `validateForm` records for one input, if any. */
  function FieldError(d: Draft, k: InputName): Option<string> {
    match k
    case FoodName => if IsBlank(d.foodName) then Some(NameRequired) else None
    case FoodRating => RatingError(d.foodRating)
    case FoodImage => if IsBlank(d.foodImage) then Some(ImageRequired) else None
    case RestaurantName => if IsBlank(d.restaurantName) then Some(RestaurantNameRequired) else None
    case RestaurantLogo => if IsBlank(d.restaurantLogo) then Some(LogoRequired) else None
    case RestaurantStatus =>
      if !IsFormStatus(d.restaurantStatus) then Some(StatusInvalid) else None
  }

  /** The errors `validateForm` records for a draft. */
  function ErrorsFor(d: Draft): FormErrors {
    FormErrors(
      FieldError(d, FoodName), FieldError(d, FoodRating), FieldError(d, FoodImage),
      FieldError(d, RestaurantName), FieldError(d, RestaurantLogo), FieldError(d, RestaurantStatus))
  }

  /** `validateForm`'s accumulation into `newErrors`, one check at a time;
      the form is valid when no key was set. */
  method BuildErrors(d: Draft) returns (newErrors: FormErrors)
    ensures forall k :: ErrorOf(newErrors, k) == FieldError(d, k)
    ensures newErrors == NoErrors <==> IsValid(d)
  {
    newErrors := NoErrors;
    if IsBlank(d.foodName) {
      newErrors := newErrors.(foodName := Some(NameRequired));
    }
    var rating := ParseFloat(d.foodRating);
    if d.foodRating == "" || rating.None? {
      newErrors := newErrors.(foodRating := Some(RatingNotANumber));
    } else if OutOfRange(rating.value) {
      newErrors := newErrors.(foodRating := Some(RatingOutOfRange));
    }
    if IsBlank(d.foodImage) {
      newErrors := newErrors.(foodImage := Some(ImageRequired));
    }
    if IsBlank(d.restaurantName) {
      newErrors := newErrors.(restaurantName := Some(RestaurantNameRequired));
    }
    if IsBlank(d.restaurantLogo) {
      newErrors := newErrors.(restaurantLogo := Some(LogoRequired));
    }
    if !IsFormStatus(d.restaurantStatus) {
      newErrors := newErrors.(restaurantStatus := Some(StatusInvalid));
    }
    assert newErrors == ErrorsFor(d);
    ErrorsForKeys(d);
    NoErrorsIffValid(d);
  }

  /** `handleSubmit`'s conversion of a valid draft: texts copied verbatim
      (not trimmed), the price parsed with 0 for NaN, the rating parsed. */
  function SubmitPayload(d: Draft): (food: FoodData)
    requires IsValid(d)
    ensures food.name == d.foodName && food.image == d.foodImage
    ensures food.restaurant == d.restaurantName && food.restaurantLogo == d.restaurantLogo
    ensures food.status == d.restaurantStatus
    ensures food.status == "Open Now" || food.status == "Closed"
    ensures food.name != "" && food.restaurant != ""
    ensures food.price.Number? && food.rating.Number?
    ensures Value(food.price.n) ==
      if ParseFloat(d.foodPrice).Some? then Value(ParseFloat(d.foodPrice).value) else 0.0
    ensures ParseFloat(d.foodRating) == Some(food.rating.n)
    ensures 1.0 <= Value(food.rating.n) <= 5.0
    ensures food.description == None && food.category == None
  {
    FoodData(
      d.foodName, Number(ParsedOrZero(d.foodPrice)), d.foodImage,
      Number(ParseFloat(d.foodRating).value), d.restaurantName, d.restaurantLogo,
      d.restaurantStatus, None, None)
  }

  /** The form's state: the draft and the errors of the last validation. */
  class FoodModalState {
    var formData: Draft
    var errors: FormErrors

    /** The form as first rendered for `initialData`. */
    constructor(initialData: Option<Food>)
      ensures formData == InitialFormData(initialData) && errors == NoErrors
    {
      formData := InitialFormData(initialData);
      errors := NoErrors;
    }

    /** Opening the form (again): the draft is rebuilt and the errors cleared. */
    method Reset(initialData: Option<Food>)
      modifies this
      ensures formData == InitialFormData(initialData) && errors == NoErrors
    {
      formData := InitialFormData(initialData);
      errors := NoErrors;
    }

    /** `validateForm`: stores the draft's errors; valid iff there are none. */
    method ValidateForm() returns (valid: bool)
      modifies this
      ensures formData == old(formData)
      ensures forall k :: ErrorOf(errors, k) == FieldError(formData, k)
      ensures valid <==> IsValid(formData)
      ensures valid <==> errors == NoErrors
    {
      var newErrors := BuildErrors(formData);
      errors := newErrors;
      valid := newErrors == NoErrors;
    }

    /** `handleSubmit`: the meal handed to `onSubmit`, which happens exactly
        when the draft is valid. */
    method HandleSubmit() returns (submitted: Option<FoodData>)
      modifies this
      ensures formData == old(formData)
      ensures forall k :: ErrorOf(errors, k) == FieldError(formData, k)
      ensures submitted.Some? <==> IsValid(formData)
      ensures submitted.Some? ==> submitted.value == SubmitPayload(formData)
    {
      var valid := ValidateForm();
      if !valid {
        return None;
      }
      submitted := Some(SubmitPayload(formData));
    }

    /** `handleChange`: the edited field takes the new text and only that
        field's error goes away. */
    method HandleChange(name: InputName, value: string)
      modifies this
      ensures formData == WithField(old(formData), name, value)
      ensures Field(formData, name) == value && formData.foodPrice == old(formData.foodPrice)
      ensures forall j | j != name :: Field(formData, j) == Field(old(formData), j)
      ensures ErrorOf(errors, name) == None
      ensures forall j | j != name :: ErrorOf(errors, j) == ErrorOf(old(errors), j)
    {
      formData := WithField(formData, name, value);
      if ErrorOf(errors, name).Some? {
        errors := Cleared(errors, name);
      }
    }
  }

  // ----- lemmas -----

  /** Each input's entry in the recorded errors is its own message. */
  lemma ErrorsForKeys(d: Draft)
    ensures forall k :: ErrorOf(ErrorsFor(d), k) == FieldError(d, k)
  {
    forall k ensures ErrorOf(ErrorsFor(d), k) == FieldError(d, k) {
      match k
      case FoodName =>
      case FoodRating =>
      case FoodImage =>
      case RestaurantName =>
      case RestaurantLogo =>
      case RestaurantStatus =>
    }
  }

  /** The form is valid exactly when validation records no message. */
  lemma NoErrorsIffValid(d: Draft)
    ensures ErrorsFor(d) == NoErrors <==> IsValid(d)
  {
    FieldErrorMeaning(d, FoodName);
    FieldErrorMeaning(d, FoodRating);
    FieldErrorMeaning(d, FoodImage);
    FieldErrorMeaning(d, RestaurantName);
    FieldErrorMeaning(d, RestaurantLogo);
    FieldErrorMeaning(d, RestaurantStatus);
  }

  /** What each input's message means: a required text that is empty after
      trimming, the rating's own rule, a status outside the two choices. */
  lemma FieldErrorMeaning(d: Draft, k: InputName)
    ensures k != FoodRating && k != RestaurantStatus ==>
      (FieldError(d, k).Some? <==> AllSpace(Field(d, k)))
    ensures k == FoodRating ==> FieldError(d, k) == RatingError(d.foodRating)
    ensures k == RestaurantStatus ==>
      (FieldError(d, k).Some? <==> !IsFormStatus(d.restaurantStatus))
  {
  }

  /** The rating check on the values its own tests use: 1 and 5 pass, 6 is
      out of range, text and the empty string are not numbers. */
  lemma RatingExamples()
    ensures RatingError("1") == None && RatingError("5") == None
    ensures RatingError("6") == Some(RatingOutOfRange)
    ensures RatingError("abc") == Some(RatingNotANumber)
    ensures RatingError("") == Some(RatingNotANumber)
  {
    ParseSingleDigit(1);
    ParseSingleDigit(5);
    ParseSingleDigit(6);
    assert [DigitChar(1)] == "1" && [DigitChar(5)] == "5" && [DigitChar(6)] == "6";
    ParseNaNs();
  }

  /** Submitting a draft whose required texts are blank and whose rating is
      empty reports the five required inputs and nothing about the status. */
  lemma BlankDraftErrors(d: Draft)
    requires AllSpace(d.foodName) && AllSpace(d.foodImage)
    requires AllSpace(d.restaurantName) && AllSpace(d.restaurantLogo)
    requires d.foodRating == "" && IsFormStatus(d.restaurantStatus)
    ensures ErrorsFor(d) ==
      FormErrors(Some(NameRequired), Some(RatingNotANumber), Some(ImageRequired),
                 Some(RestaurantNameRequired), Some(LogoRequired), None)
  {
    assert RatingError(d.foodRating) == Some(RatingNotANumber) by { ParseNaNs(); }
  }

  /** The blank form of a new meal is such a draft. */
  lemma BlankFormErrors()
    ensures ErrorsFor(InitialFormData(None)) ==
      FormErrors(Some(NameRequired), Some(RatingNotANumber), Some(ImageRequired),
                 Some(RestaurantNameRequired), Some(LogoRequired), None)
  {
    BlankDraftErrors(InitialFormData(None));
  }

  /** Editing a meal whose texts are not blank and whose rating is from 1 to
      5 passes validation untouched, whatever its status word. */
  lemma EditDraftValid(food: Food)
    requires food.rating.Number? && 1.0 <= Value(food.rating.n) <= 5.0
    requires !AllSpace(food.name) && !AllSpace(food.image)
    requires !AllSpace(food.restaurant) && !AllSpace(food.restaurantLogo)
    ensures IsValid(InitialFormData(Some(food)))
  {
    ParsePrintRoundTrip(food.rating.n);
  }

  /** Submitting an edit without changing anything gives back the meal's own
      texts and numbers; only the status is put in the form vocabulary. */
  lemma UnchangedEditRoundTrip(food: Food)
    requires food.price.Number? && food.rating.Number?
    requires IsValid(InitialFormData(Some(food)))
    ensures var sent := SubmitPayload(InitialFormData(Some(food)));
      && sent.name == food.name && sent.image == food.image
      && sent.restaurant == food.restaurant && sent.restaurantLogo == food.restaurantLogo
      && Value(sent.price.n) == Value(food.price.n)
      && Value(sent.rating.n) == Value(food.rating.n)
      && sent.status == (if food.status == "Closed" then "Closed" else "Open Now")
  {
    ParsePrintRoundTrip(food.price.n);
    ParsePrintRoundTrip(food.rating.n);
  }

  /** The form has no price input, so a new meal keeps the blank price it
      started with and is always submitted with price 0. */
  lemma NewMealPriceIsZero(d: Draft)
    requires IsValid(d) && d.foodPrice == InitialFormData(None).foodPrice
    ensures SubmitPayload(d).price == Number(Zero)
  {
    ParseNaNs();
  }
}
