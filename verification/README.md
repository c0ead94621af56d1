# food-wagen in Dafny

food-wagen is a small meal catalogue. It lists meals, searches them by name, and adds, edits and deletes them against a remote food store. This project models the logic under its React markup:

- **The API layer** (`lib/api.ts`). The normaliser turns the store's loosely shaped records into `Food` values. The two writers build the bodies that `createFood` and `updateFood` send.
- **The add / edit form** (`components/food-modal.tsx`). It builds an initial draft from a meal and validates the draft into a record of error messages. A valid draft becomes the meal that is submitted. Editing an input changes that field and clears that field's error.
- **The meal card** (`components/food-card.tsx`):
  - the status badge's text and colours
  - the coercion of the displayed price and rating
  - the URL guard and the logo and picture fallbacks
  - the three-dot menu with its edit and delete actions
- **The home page** (`app/page.tsx`). This is a state machine over the search text, the form and its target, the delete confirmation and its target, and the current list fetch. A flag records that the cached meal lists were invalidated.

JavaScript's own behaviour is written out where the source relies on it:

- **Truthiness.** `""` and `0` are falsy.
- **`String.prototype.trim`** uses the ECMAScript white-space and line-terminator set.
- **`parseFloat`** reads the longest decimal prefix after leading white space. `None` stands for NaN.
- **`String(number)`** is modelled as a plain decimal printer.

Numbers are exact decimals, `Num(mant, exp)` = mant / 10^exp.

There are three status vocabularies:

| vocabulary | words |
|---|---|
| the form | "Open Now" / "Closed" |
| what the store sends back (read) | "Open" / "Closed" |
| what is sent to the store (write) | "Open Now" is sent as "Open" |

The store's read shape and write shape are connected by `Api.StoredRecord`. It stands for a store that keeps a JSON body as it is, and it lets the write-then-read round trip be stated.

Two behaviours of the code are worth stating plainly:

- **Flat or absent restaurant.** A flat or absent restaurant takes its logo from the record's top-level `restaurantLogo` member, or "" when that is falsy.
- **No price input.** The form has no price input. Its `food_price` field only holds what the initial draft put there, so a new meal is always submitted with price 0 (`FoodModal.NewMealPriceIsZero`).

Modules: `Wrappers`, `JsString` and `JsNumber` (js.dfy), `FoodTypes` (food.dfy), `Api` (api.dfy), `FoodModal` (food_modal.dfy), `FoodCard` (food_card.dfy), `Page` (page.dfy), and `Flows` (flows.dfy, properties spanning several files).

## Model

| member | source | states |
|---|---|---|
| JsString.Trim | components/food-modal.tsx:70 | The trimmed text is empty exactly when the whole text is white space. Otherwise it neither starts nor ends with white space. |
| JsNumber.ParseFloat | lib/api.ts:20 | The result is NaN exactly when the text, after leading white space, does not start with an optional sign and then a digit or a point and a digit. |
| JsNumber.OrZero | lib/api.ts:20 | `parseFloat(..) \|\| 0` is either 0 or the parsed number. Its value is the parsed value, or 0 for NaN. |
| JsNumber.ParsePrintRoundTrip | components/food-modal.tsx:34-35 | Parsing `String(n)` gives back n in canonical form with the same value. So `parseFloat(String(n)) \|\| 0` has n's value. |
| JsNumber.ParseTenAndAHalf | __tests__/api.test.ts:14 | "10.5" parses to 10.5. |
| JsNumber.ParseFourPointTwo | __tests__/api.test.ts:15 | "4.2" parses to 4.2. |
| JsNumber.ParseSingleDigit | __tests__/food-modal.test.tsx:217 | A one-digit text parses to that digit. |
| JsNumber.ParseNaNs | lib/api.ts:20 | "", "abc", `String(null)` and `String(undefined)` all parse to NaN. |
| Api.NormalizeFood | lib/api.ts:7-39 | The whole decision table (see below). |
| Api.NormalizeList | lib/api.ts:43-54 | A list fetch yields one normalised meal per response element, in the same order. |
| Api.WireStatus | lib/api.ts:67 | "Open Now" is sent as "Open". Every other word is sent unchanged. The result is never "Open Now". |
| Api.CreatePayload | lib/api.ts:59-69 | The create body has exactly the keys name, price, rating, image and restaurant, with no id. restaurant is `{name, logo, status}` with the write status. |
| Api.UpdatePayload | lib/api.ts:77-88 | The update body is built one conditional assignment at a time (see below). |
| Api.ReadStatus | lib/api.ts:32-35 | A status comes back from the store as "Closed" exactly when it was "Closed", and as "Open" otherwise. |
| Api.CreateReadBack | lib/api.ts:57-72 | A meal that is created and read back normalises to the same meal under its new id. Its status comes back in the read vocabulary. |
| Api.NormalizeIdempotent | lib/api.ts:7-39 | Normalising an already normalised meal, read back as a flat record, gives the same meal. |
| Api.AbsentNumberIsZero | lib/api.ts:17-25 | A missing or null price or rating becomes 0. |
| Api.NormalizeNestedRecord | lib/api.ts:9-35 | A record with a nested open restaurant and numeric price and rating strings normalises to its own texts, the parsed numbers and "Open". |
| Api.NormalizeNestedTestRecord | __tests__/api.test.ts:11-46 | The nested-restaurant test record normalises to the expected meal, with price 10.5 and rating 4.2. |
| Api.NormalizeClosedTestRecord | __tests__/api.test.ts:23-55 | The null-restaurant test record normalises to "Unknown Restaurant", an empty logo and "Closed". |
| Api.LogoOnlyUpdate | lib/api.ts:82-87 | An update that changes only the logo sends the whole restaurant object, with undefined name and status. |
| FoodModal.WithField | components/food-modal.tsx:128-129 | The named field takes the new text. Every other field, including the price, is unchanged. |
| FoodModal.Cleared | components/food-modal.tsx:130-132 | The named input's error becomes undefined. Every other error is unchanged. |
| FoodModal.InitialFormData | components/food-modal.tsx:30-54 | See below. |
| FoodModal.RatingError | components/food-modal.tsx:74-79 | There is no message exactly when the rating parses to a value from 1 to 5. "must be a number" appears exactly when the text does not start like a number, the empty text included. At most one of the two messages appears. |
| FoodModal.BuildErrors | components/food-modal.tsx:67-102 | The error record is built check by check. Each input's entry is its own message, and the record holds no message exactly when the draft is valid. |
| FoodModal.SubmitPayload | components/food-modal.tsx:112-120 | See below. |
| FoodModal.FoodModalState.constructor | components/food-modal.tsx:56-57 | The form starts from the initial draft, with no errors. |
| FoodModal.FoodModalState.Reset | components/food-modal.tsx:59-65 | Reopening the form rebuilds the draft and clears the errors. |
| FoodModal.FoodModalState.ValidateForm | components/food-modal.tsx:67-103 | The stored errors are the draft's messages. The result is valid exactly when the draft is valid, and exactly when no message was recorded. |
| FoodModal.FoodModalState.HandleSubmit | components/food-modal.tsx:105-123 | `onSubmit` receives the converted draft, and it is called exactly when the draft is valid. |
| FoodModal.FoodModalState.HandleChange | components/food-modal.tsx:125-133 | Only the named field changes, and only that field's error is cleared. |
| FoodModal.ErrorsForKeys | components/food-modal.tsx:68-99 | Each input's recorded error is exactly its own check's message. |
| FoodModal.NoErrorsIffValid | components/food-modal.tsx:101-102 | The form is valid exactly when validation records no message. |
| FoodModal.FieldErrorMeaning | components/food-modal.tsx:70-99 | A required text has a message exactly when it is empty after trimming. The rating follows its own rule. The status has a message exactly when it is neither "Open Now" nor "Closed". |
| FoodModal.RatingExamples | __tests__/food-modal.test.tsx:183-237 | "1" and "5" pass. "6" is out of range. "abc" and "" are not numbers. |
| FoodModal.BlankDraftErrors | components/food-modal.tsx:70-99 | Blank required texts and an empty rating give the five "required" / "must be a number" messages, and no status message. |
| FoodModal.BlankFormErrors | __tests__/food-modal.test.tsx:159-177 | Submitting the blank form of a new meal reports those five messages. |
| FoodModal.EditDraftValid | components/food-modal.tsx:30-43 | The draft of a meal passes validation, whatever its status word, if its texts are not blank and its rating is from 1 to 5. |
| FoodModal.UnchangedEditRoundTrip | components/food-modal.tsx:112-120 | Submitting an edit unchanged returns the meal's texts and the values of its price and rating. The status is in the form vocabulary. |
| FoodModal.NewMealPriceIsZero | components/food-modal.tsx:114 | A valid draft whose price is still the initial blank is submitted with price 0. |
| FoodCard.IsValidUrl | components/food-card.tsx:16-24 | A URL is valid exactly when it is not empty or white space only and the URL parser accepts it. |
| FoodCard.DisplayNumber | components/food-card.tsx:48-55 | A number is shown as it is. A text is parsed, with NaN or 0 shown as 0. |
| FoodCard.StatusLabel | components/food-card.tsx:202-206 | The badge reads "Open" exactly for "Open" or "Open Now", and "Closed" for anything else. |
| FoodCard.StatusClasses | components/food-card.tsx:196-200 | The green classes are used exactly for "Open" or "Open Now". The red classes are used otherwise. |
| FoodCard.Logo | components/food-card.tsx:114-128 | The logo image is shown exactly when its URL is valid. Otherwise the name's first character is shown, which is empty for an empty name. |
| FoodCard.ShowsFoodImage | components/food-card.tsx:65-78 | The picture is shown exactly when it has not failed to load, its URL is not blank, and the URL parser accepts it. |
| FoodCard.FoodCardState.constructor | components/food-card.tsx:27-28 | The menu starts closed and no image has failed. |
| FoodCard.FoodCardState.ToggleMenu | components/food-card.tsx:136 | The button flips the menu. |
| FoodCard.FoodCardState.ClickEdit | components/food-card.tsx:146-150 | `onEdit(food)` is called once, and the menu closes. |
| FoodCard.FoodCardState.ClickDelete | components/food-card.tsx:158-162 | `onDelete(food.id)` is called once, and the menu closes. |
| FoodCard.FoodCardState.ImageFailed | components/food-card.tsx:71 | A failed picture sets the error flag. |
| FoodCard.LabelMatchesColour | components/food-card.tsx:196-206 | The badge's text and colour always agree. |
| FoodCard.DisplayNumberOfPrinted | components/food-card.tsx:48-55 | A number written as text is shown with its own value. |
| Page.ListQueryFor | app/page.tsx:29-30 | The list is searched exactly when the search text is not empty, and with that text. |
| Page.QueryKey | app/page.tsx:28 | The key is `["foods", searchQuery]`. |
| Page.FindById | app/page.tsx:82 | A meal is found exactly when some listed meal has the id. The result is the first such meal. |
| Page.ListSections | app/page.tsx:124-158 | The empty message and the grid never both show. One of them shows exactly when the list is neither loading nor failed. The empty message needs no meals, and the grid needs some. |
| Page.Home.constructor | app/page.tsx:16-20 | Nothing is open or targeted, and the search text is empty. |
| Page.Home.DeleteModalName | app/page.tsx:208 | The name is the target's name, or "" when there is none. |
| Page.Home.HandleSearch | app/page.tsx:23-33 | The search text and the query key change. A new key with a cached list shows that list at once. A new key never fetched shows the spinner and no meals until its fetch settles. The same text changes no list state. The forms and the invalidation flag are unchanged. |
| Page.Home.HandleOpenAddModal | app/page.tsx:71-74 | The form opens with no meal under edit. |
| Page.Home.HandleEdit | app/page.tsx:76-79 | The form opens on the meal. |
| Page.Home.HandleDelete | app/page.tsx:81-87 | A listed id opens the confirmation on the first meal with that id. An unknown id changes nothing. |
| Page.Home.HandleConfirmDelete | app/page.tsx:89-98 | A deletion of the target's id is dispatched exactly when there is a target. |
| Page.Home.HandleModalSubmit | app/page.tsx:100-109 | It dispatches an update of the edited meal's id when a meal is being edited, and a creation otherwise. |
| Page.Home.SaveSettled | app/page.tsx:41-56 | On success the lists are invalidated and the form closes with no meal under edit. On failure nothing changes. |
| Page.Home.DeleteSettled | app/page.tsx:60-96 | On success the lists are invalidated and the confirmation closes with no target. On failure it stays open. |
| Page.Home.CloseFoodModal | app/page.tsx:191-194 | The form closes and its target is cleared. |
| Page.Home.CloseDeleteModal | app/page.tsx:203-206 | The confirmation closes and its target is cleared. |
| Page.Home.ListLoaded | app/page.tsx:23-36 | The list becomes the normalised response, and it is no longer loading, failed or stale. The list has one meal per response record, so the grid shows exactly when the response is non-empty and the empty message exactly when it is empty. |
| Page.Home.ListFailed | app/page.tsx:23-33 | The error section shows, and the last data is kept. |
| Page.InvalidationReachesEveryQuery | app/page.tsx:28-42 | Every list key starts with `["foods"]`, and different search texts have different keys. |
| Page.FindByUniqueId | app/page.tsx:81-87 | With distinct ids, a delete request targets exactly the listed meal with that id. |
| Page.FindByRepeatedId | app/page.tsx:82 | With a repeated id, a delete request targets the first meal with it. |
| Flows.EditedWireStatus | components/food-modal.tsx:39-42 | The edited draft's status in the write vocabulary. After an edit, the write status is "Closed" exactly when the meal was "Closed", and "Open" otherwise. |
| Flows.EditedStatusOnCreate | lib/api.ts:67 | A meal that is edited and then created is sent with that status, never "Open Now". |
| Flows.EditedStatusOnUpdate | lib/api.ts:86 | The update body of an edited meal carries the restaurant object with that status. |
| Flows.SubmittedDraftReadsBack | components/food-modal.tsx:112-120 | A valid draft that is submitted, created and read back is the meal the form described. |
| Flows.CardShowsNormalisedFood | components/food-card.tsx:48-55 | A card shows a normalised meal with its own status word and its own numbers. |
| Flows.CardAgreesWithNormaliser | components/food-card.tsx:52-55 | The card coerces a text number exactly as the normaliser does. |
| Flows.EditAndSave | app/page.tsx:76-109 | Editing a meal and saving the form unchanged dispatches an update of that meal's id, exactly when its draft is valid. |
| Flows.DeleteListed | app/page.tsx:81-98 | Deleting a listed meal with a unique id, then confirming, dispatches its deletion. On success the page has nothing to confirm and the lists are stale. |
| Flows.SearchThenDelete | app/page.tsx:23-33 | Searching for a text never fetched shows the spinner and no grid, and a delete request for a meal of the old list then opens no confirmation. |

Longer entries:

- **Api.NormalizeFood**:
  - id and name are kept when truthy. Otherwise they fall back to the fallback id and "Unnamed Meal". image falls back to "".
  - Price and rating are always numbers. A number is kept. Anything else is parsed from its string form, and NaN or 0 gives 0.
  - A nested restaurant gives its name (or "Unknown Restaurant") and its logo (or ""). Otherwise the restaurant is a truthy string (or "Unknown Restaurant") and the logo is the top-level `restaurantLogo` (or "").
  - status is "Closed" exactly when the nested or the top-level status is "Closed", and "Open" otherwise.
  - description and category pass through.
- **Api.UpdatePayload**:
  - name and image are sent only when truthy.
  - price and rating are sent whenever defined.
  - The whole restaurant object is sent exactly when any of its three fields is truthy.
  - Nothing else is sent.
- **FoodModal.InitialFormData**:
  - The status is "Open Now" or "Closed", and it is "Closed" exactly when the meal is "Closed".
  - The texts are copied, and the price and rating are stringified.
  - A new meal starts blank and "Open Now".
- **FoodModal.SubmitPayload**:
  - The texts and status are copied verbatim, without trimming.
  - The price is `parseFloat(price) || 0`.
  - The rating is the parsed rating, which is from 1 to 5.
  - Description and category are absent.

## Left out

- HTTP transport is not modelled: `axios` calls, the base URL, and the `deleteFood` request itself. A fetch is represented by the response it receives and a write by the body it sends. The `Food` returned by `createFood` and `updateFood` is not modelled because the page never uses it. `Api.StoredRecord` stands in for the store.
- Query-library internals are not modelled: retries, `staleTime`, de-duplication, refetch ordering and `isPending`. Invalidation is a flag, a list response is passed to `Page.Home.ListLoaded`, and a mutation's outcome is a success flag.
- `Math.random` is left out because it is randomness. The fallback id is a parameter.
- Some JavaScript number semantics are left out:
  - IEEE doubles: rounding, `Infinity`, `-0` and NaN as a number value. NaN is represented only as a failed parse.
  - `parseFloat("Infinity")`, which the model reads as NaN.
  - The exponent notation of `String(number)` for very large or small values.
  - `toFixed` in the card's price and rating text.
- `new URL(..)` is a foreign parser. It is the parameter `parsesAsUrl`, and only the blank guard in front of it is modelled.
- React machinery is not modelled: the card's document `mousedown` listener that closes the menu on an outside click, the logo's `onError` style change, JSX, styling, animation and the image components.
- Pure presentation components are not modelled: footer, hero, navbar, layout, and the delete confirmation's markup. The confirmation's one rule (a backdrop click closes it unless a deletion is pending) needs `isPending` and is left out with it.
- Api.NormalizeFood only covers raw members of the shapes the store is known to produce. Id, name, image, logo and status are strings or missing. Price and rating are numbers, strings, null or missing. The restaurant is an object, a string, null or missing. Arrays, booleans, numbers in text members and objects in price or rating are not modelled, and a null restaurant is treated the same as a missing one.
- FoodCard.Logo: takes the first character of the restaurant name, where `charAt(0)` takes the first UTF-16 code unit. For a name that starts with a character outside the Basic Multilingual Plane, such as an emoji, the page shows half a surrogate pair and the model shows the whole character. Strings are sequences of characters here, not of UTF-16 code units.
- Page.Home.HandleSearch: a cached list for the new key is taken to be a successful one. The case of a key whose last fetch failed is not modelled: its error status and any background refetch of a stale entry are left to `Page.Home.ListLoaded` and `Page.Home.ListFailed`.
- `description` and `category` are not part of `Partial<Food>` as `updateFood` reads it, because it never sends them. The id of a partial meal is left out for the same reason.

