/** Properties that span several files: a meal's journey from the list,
    through the form, to the body that is sent and back through the
    normaliser, and what the card shows for a normalised meal. */
module Flows {
  import opened Wrappers
  import opened JsString
  import opened JsNumber
  import opened FoodTypes
  import opened Api
  import opened FoodModal
  import opened FoodCard
  import opened Page

  /** The status a meal is sent with after an edit: its draft's status in
      the write vocabulary. It is "Closed" exactly when the meal was
      "Closed", "Open" otherwise, never "Open Now". */
  function EditedWireStatus(food: Food): (w: string)
    ensures w == "Closed" <==> food.status == "Closed"
    ensures w == "Open" <==> food.status != "Closed"
  {
    WireStatus(InitialFormData(Some(food)).restaurantStatus)
  }

  /** Editing a meal and saving it as a new one sends its status in the
      write vocabulary. */
  lemma EditedStatusOnCreate(food: Food)
    requires IsValid(InitialFormData(Some(food)))
    ensures var body := CreatePayload(SubmitPayload(InitialFormData(Some(food))));
      && body["restaurant"].fields["status"] == JString(EditedWireStatus(food))
      && body["restaurant"].fields["status"] != JString("Open Now")
  {
    var sent := SubmitPayload(InitialFormData(Some(food)));
    assert sent.status == (if food.status == "Closed" then "Closed" else "Open Now");
  }

  /** The same holds for the body of the update the page dispatches. */
  lemma EditedStatusOnUpdate(food: Food, body: map<string, JsValue>)
    requires IsValid(InitialFormData(Some(food)))
    requires IsUpdatePayload(AsPartial(SubmitPayload(InitialFormData(Some(food)))), body)
    ensures "restaurant" in body
    ensures body["restaurant"].fields["status"] == JString(EditedWireStatus(food))
  {
    var sent := SubmitPayload(InitialFormData(Some(food)));
    assert sent.status == (if food.status == "Closed" then "Closed" else "Open Now");
    assert OptTruthy(AsPartial(sent).status);
  }

  /** A valid draft, submitted, created and read back through the
      normaliser, is the meal the form described: the texts as typed, the
      price and rating as parsed, the status in the read vocabulary. */
  lemma SubmittedDraftReadsBack(d: Draft, id: string, fallbackId: string)
    requires IsValid(d) && id != ""
    ensures var sent := SubmitPayload(d);
      NormalizeFood(StoredRecord(CreatePayload(sent), id), fallbackId)
        == Food(id, d.foodName, sent.price, d.foodImage, sent.rating, d.restaurantName,
                d.restaurantLogo, if d.restaurantStatus == "Closed" then "Closed" else "Open", None, None)
  {
    var sent := SubmitPayload(d);
    CreateReadBack(sent, id, fallbackId);
  }

  /** A normalised meal is shown with its own status word and its own
      numbers: the card's coercions change nothing. */
  lemma CardShowsNormalisedFood(data: RawFood, fallbackId: string)
    ensures var f := NormalizeFood(data, fallbackId);
      && StatusLabel(f.status) == f.status
      && DisplayNumber(f.price) == f.price.n
      && DisplayNumber(f.rating) == f.rating.n
  {
    var f := NormalizeFood(data, fallbackId);
    assert f.status == "Closed" || f.status == "Open";
  }

  /** The card's rule for a textual number is the normaliser's rule. */
  lemma CardAgreesWithNormaliser(s: string)
    ensures DisplayNumber(Text(s)) == CoerceRaw(RString(s))
  {
  }

  /** Editing a listed meal and saving the form unchanged: the form submits
      exactly when the meal's draft is valid, and what the page then
      dispatches is an update of that meal's id with the form's values. */
  method EditAndSave(home: Home, food: Food) returns (dispatched: Option<Mutation>)
    requires home.Valid()
    modifies home
    ensures home.Valid() && home.isModalOpen && home.editingFood == Some(food)
    ensures dispatched.Some? <==> IsValid(InitialFormData(Some(food)))
    ensures dispatched.Some? ==>
      dispatched.value == UpdateFood(food.id, AsPartial(SubmitPayload(InitialFormData(Some(food)))))
  {
    home.HandleEdit(food);
    var modal := new FoodModalState(home.editingFood);
    var submitted := modal.HandleSubmit();
    if submitted.Some? {
      var m := home.HandleModalSubmit(submitted.value);
      dispatched := Some(m);
    } else {
      dispatched := None;
    }
  }

  /** Asking to delete a listed meal, confirming, and a successful deletion:
      the deletion targets the meal's id and the page ends with nothing to
      confirm and stale lists. */
  method DeleteListed(home: Home, k: nat) returns (dispatched: Option<Mutation>)
    requires home.Valid() && k < |home.foods|
    requires forall i, j | 0 <= i < j < |home.foods| :: home.foods[i].id != home.foods[j].id
    modifies home
    ensures dispatched == Some(DeleteFood(old(home.foods[k].id)))
    ensures home.Valid() && !home.isDeleteModalOpen && home.deletingFood == None
    ensures home.foodsInvalidated
  {
    FindByUniqueId(home.foods, k);
    home.HandleDelete(home.foods[k].id);
    dispatched := home.HandleConfirmDelete();
    home.DeleteSettled(true);
  }

  /** Searching for a text whose results were never fetched hides the
      previous grid: the spinner shows, and a delete request for a meal of
      the old list opens no confirmation. */
  method SearchThenDelete(home: Home, query: string, id: string)
    requires home.Valid() && query != home.searchQuery && !home.isDeleteModalOpen
    modifies home
    ensures home.Valid() && home.View().loading && !home.View().grid
    ensures !home.isDeleteModalOpen && home.deletingFood == None
  {
    home.HandleSearch(query, None);
    home.HandleDelete(id);
  }
}
