/** app/page.tsx: the home page's state machine. It holds the search text,
    the add / edit form and its target, the delete confirmation and its
    target, and the result of the current list fetch. The query library is
    represented by that result and by a flag recording that the cached meal
    lists were invalidated; each mutation is represented by the request it
    dispatches and by its outcome, passed back in as a success flag. */
module Page {
  import opened Wrappers
  import opened FoodTypes
  import opened Api

  /** A write the page dispatches. */
  datatype Mutation =
    | CreateFood(data: FoodData)
    | UpdateFood(id: string, changes: PartialFood)
    | DeleteFood(id: string)

  /** The query function: a search when the search text is truthy, the whole
      list otherwise. */
  function ListQueryFor(searchQuery: string): (q: ListQuery)
    ensures q == AllFoods <==> searchQuery == ""
    ensures q.FoodsNamed? ==> q.name == searchQuery
  {
    if searchQuery != "" then FoodsNamed(searchQuery) else AllFoods
  }

  /** The key every successful write invalidates. */
  const FoodsPrefix: seq<string> := ["foods"]

  /** The cache key of the list query. */
  function QueryKey(searchQuery: string): (key: seq<string>)
    ensures |key| == 2 && key[..1] == FoodsPrefix
    ensures key[1] == searchQuery
  {
    FoodsPrefix + [searchQuery]
  }

  /** `safefoods.find((f) => f.id === id)`: the first meal with that id. */
  function FindById(foods: seq<Food>, id: string): (r: Option<Food>)
    ensures r.Some? <==> exists i | 0 <= i < |foods| :: foods[i].id == id
    ensures r.Some? ==> r.value.id == id && r.value in foods
    ensures r.Some? ==> exists i | 0 <= i < |foods| ::
      foods[i] == r.value && forall j | 0 <= j < i :: foods[j].id != id
  {
    if foods == [] then None
    else if foods[0].id == id then Some(foods[0])
    else
      var r := FindById(foods[1..], id);
      if r.Some? then
        var i :| 0 <= i < |foods[1..]| && foods[1..][i] == r.value
                 && forall j | 0 <= j < i :: foods[1..][j].id != id;
        assert foods[i + 1] == r.value && forall j | 0 <= j < i + 1 :: foods[j].id != id;
        r
      else
        assert forall i | 1 <= i < |foods| :: foods[i] == foods[1..][i - 1];
        r
  }

  /** Which of the list's four sections are on the page. */
  datatype Sections = Sections(loading: bool, error: bool, empty: bool, grid: bool)

  /** The loading and error sections follow the query; the empty message and
      the grid need a fetch that is neither loading nor failed, and then
      exactly one of them shows. */
  function ListSections(isLoading: bool, hasError: bool, count: nat): (s: Sections)
    ensures s.loading == isLoading && s.error == hasError
    ensures !(s.empty && s.grid)
    ensures s.empty || s.grid <==> !isLoading && !hasError
    ensures s.empty ==> count == 0
    ensures s.grid ==> count > 0
  {
    Sections(isLoading, hasError,
      !isLoading && !hasError && count == 0,
      !isLoading && !hasError && count > 0)
  }

  /** The home page. */
  class Home {
    var searchQuery: string
    var isModalOpen: bool
    var editingFood: Option<Food>
    var isDeleteModalOpen: bool
    var deletingFood: Option<Food>
    /** The cached meal lists were invalidated and are due to be fetched again. */
    var foodsInvalidated: bool
    /** The current list query's data (`[]` until it arrives), and its status. */
    var foods: seq<Food>
    var isLoading: bool
    var hasError: bool

    /** The confirmation is open exactly when it has a meal to delete, and
        a meal is only being edited while the form is open. */
    predicate Valid()
      reads this
    {
      && (isDeleteModalOpen <==> deletingFood.Some?)
      && (editingFood.Some? ==> isModalOpen)
    }

    /** The page as first rendered: nothing open, the whole list loading. */
    constructor()
      ensures Valid()
      ensures searchQuery == "" && !isModalOpen && editingFood == None
      ensures !isDeleteModalOpen && deletingFood == None
      ensures !foodsInvalidated && foods == [] && isLoading && !hasError
    {
      searchQuery := "";
      isModalOpen := false;
      editingFood := None;
      isDeleteModalOpen := false;
      deletingFood := None;
      foodsInvalidated := false;
      foods := [];
      isLoading := true;
      hasError := false;
    }

    /** The list the page currently asks for. */
    function CurrentQuery(): ListQuery
      reads this
    {
      ListQueryFor(searchQuery)
    }

    /** The sections on the page. */
    function View(): Sections
      reads this
    {
      ListSections(isLoading, hasError, |foods|)
    }

    /** The name the delete confirmation shows: `deletingFood?.name || ""`. */
    function DeleteModalName(): (name: string)
      reads this
      ensures deletingFood.None? ==> name == ""
      ensures deletingFood.Some? ==> name == deletingFood.value.name
    {
      if deletingFood.Some? then deletingFood.value.name else ""
    }

    /** `handleSearch`: a new search text selects another cache entry,
        `["foods", query]`. `cached` is the list the query cache already
        holds under that key, `None` when the key was never fetched. A held
        list shows at once; otherwise the data is undefined, the list is `[]`
        and the page shows the spinner until the fetch settles. The same
        text keeps the same entry and changes nothing else. */
    method HandleSearch(query: string, cached: Option<seq<Food>>)
      modifies this
      ensures searchQuery == query && CurrentQuery() == ListQueryFor(query)
      ensures query == old(searchQuery) ==>
        foods == old(foods) && isLoading == old(isLoading) && hasError == old(hasError)
      ensures query != old(searchQuery) && cached.Some? ==>
        foods == cached.value && !isLoading && !hasError
      ensures query != old(searchQuery) && cached.None? ==>
        foods == [] && isLoading && !hasError
      ensures query != old(searchQuery) && cached.None? ==>
        View().loading && !View().grid && !View().empty
      ensures isModalOpen == old(isModalOpen) && editingFood == old(editingFood)
      ensures isDeleteModalOpen == old(isDeleteModalOpen) && deletingFood == old(deletingFood)
      ensures foodsInvalidated == old(foodsInvalidated)
    {
      if query != searchQuery {
        if cached.Some? {
          foods := cached.value;
          isLoading := false;
        } else {
          foods := [];
          isLoading := true;
        }
        hasError := false;
      }
      searchQuery := query;
    }

    /** `handleOpenAddModal`: the form opens for a new meal. */
    method HandleOpenAddModal()
      requires Valid()
      modifies this
      ensures Valid()
      ensures isModalOpen && editingFood == None
      ensures searchQuery == old(searchQuery)
      ensures isDeleteModalOpen == old(isDeleteModalOpen) && deletingFood == old(deletingFood)
      ensures foodsInvalidated == old(foodsInvalidated)
      ensures foods == old(foods) && isLoading == old(isLoading) && hasError == old(hasError)
    {
      editingFood := None;
      isModalOpen := true;
    }

    /** `handleEdit`: the form opens on the given meal. */
    method HandleEdit(food: Food)
      requires Valid()
      modifies this
      ensures Valid()
      ensures isModalOpen && editingFood == Some(food)
      ensures searchQuery == old(searchQuery)
      ensures isDeleteModalOpen == old(isDeleteModalOpen) && deletingFood == old(deletingFood)
      ensures foodsInvalidated == old(foodsInvalidated)
      ensures foods == old(foods) && isLoading == old(isLoading) && hasError == old(hasError)
    {
      editingFood := Some(food);
      isModalOpen := true;
    }

    /** `handleDelete`: the confirmation opens on the listed meal with that
        id; an id that is not listed changes nothing. */
    method HandleDelete(id: string)
      requires Valid()
      modifies this
      ensures Valid()
      ensures FindById(foods, id).Some? ==>
        isDeleteModalOpen && deletingFood == FindById(foods, id)
      ensures FindById(foods, id).None? ==>
        isDeleteModalOpen == old(isDeleteModalOpen) && deletingFood == old(deletingFood)
      ensures searchQuery == old(searchQuery)
      ensures isModalOpen == old(isModalOpen) && editingFood == old(editingFood)
      ensures foodsInvalidated == old(foodsInvalidated)
      ensures foods == old(foods) && isLoading == old(isLoading) && hasError == old(hasError)
    {
      var food := FindById(foods, id);
      if food.Some? {
        deletingFood := food;
        isDeleteModalOpen := true;
      }
    }

    /** `handleConfirmDelete`: the deletion it dispatches, if a meal is
        awaiting confirmation. */
    method HandleConfirmDelete() returns (dispatched: Option<Mutation>)
      ensures dispatched.Some? <==> deletingFood.Some?
      ensures dispatched.Some? ==> dispatched.value == DeleteFood(deletingFood.value.id)
    {
      if deletingFood.Some? {
        dispatched := Some(DeleteFood(deletingFood.value.id));
      } else {
        dispatched := None;
      }
    }

    /** `handleModalSubmit`: an update of the meal being edited, or else a
        creation. */
    method HandleModalSubmit(foodData: FoodData) returns (dispatched: Mutation)
      ensures editingFood.Some? <==> dispatched.UpdateFood?
      ensures editingFood.None? <==> dispatched.CreateFood?
      ensures editingFood.Some? ==>
        dispatched == UpdateFood(editingFood.value.id, AsPartial(foodData))
      ensures editingFood.None? ==> dispatched == CreateFood(foodData)
    {
      if editingFood.Some? {
        dispatched := UpdateFood(editingFood.value.id, AsPartial(foodData));
      } else {
        dispatched := CreateFood(foodData);
      }
    }

    /** A create or update finished: on success the lists are invalidated
        and the form closes with no meal under edit; on failure nothing
        changes. */
    method SaveSettled(success: bool)
      requires Valid()
      modifies this
      ensures Valid()
      ensures success ==> foodsInvalidated && !isModalOpen && editingFood == None
      ensures !success ==> foodsInvalidated == old(foodsInvalidated)
      ensures !success ==> isModalOpen == old(isModalOpen) && editingFood == old(editingFood)
      ensures searchQuery == old(searchQuery)
      ensures isDeleteModalOpen == old(isDeleteModalOpen) && deletingFood == old(deletingFood)
      ensures foods == old(foods) && isLoading == old(isLoading) && hasError == old(hasError)
    {
      if success {
        foodsInvalidated := true;
        isModalOpen := false;
        editingFood := None;
      }
    }

    /** A delete finished: on success the lists are invalidated and the
        confirmation closes with no target; on failure it stays open. */
    method DeleteSettled(success: bool)
      requires Valid()
      modifies this
      ensures Valid()
      ensures success ==> foodsInvalidated && !isDeleteModalOpen && deletingFood == None
      ensures !success ==> foodsInvalidated == old(foodsInvalidated)
      ensures !success ==> isDeleteModalOpen == old(isDeleteModalOpen) && deletingFood == old(deletingFood)
      ensures searchQuery == old(searchQuery)
      ensures isModalOpen == old(isModalOpen) && editingFood == old(editingFood)
      ensures foods == old(foods) && isLoading == old(isLoading) && hasError == old(hasError)
    {
      if success {
        foodsInvalidated := true;
        isDeleteModalOpen := false;
        deletingFood := None;
      }
    }

    /** The form's `onClose`: closed, with no meal under edit. */
    method CloseFoodModal()
      requires Valid()
      modifies this
      ensures Valid()
      ensures !isModalOpen && editingFood == None
      ensures searchQuery == old(searchQuery) && foodsInvalidated == old(foodsInvalidated)
      ensures isDeleteModalOpen == old(isDeleteModalOpen) && deletingFood == old(deletingFood)
      ensures foods == old(foods) && isLoading == old(isLoading) && hasError == old(hasError)
    {
      isModalOpen := false;
      editingFood := None;
    }

    /** The confirmation's `onClose`: closed, with no meal to delete. */
    method CloseDeleteModal()
      requires Valid()
      modifies this
      ensures Valid()
      ensures !isDeleteModalOpen && deletingFood == None
      ensures searchQuery == old(searchQuery) && foodsInvalidated == old(foodsInvalidated)
      ensures isModalOpen == old(isModalOpen) && editingFood == old(editingFood)
      ensures foods == old(foods) && isLoading == old(isLoading) && hasError == old(hasError)
    {
      isDeleteModalOpen := false;
      deletingFood := None;
    }

    /** The current query's response arrived: its records, normalised one by
        one, become the list, and the cache is fresh again. */
    method ListLoaded(response: seq<RawFood>, fallbackIds: seq<string>)
      requires Valid()
      requires |fallbackIds| == |response|
      modifies this
      ensures Valid()
      ensures foods == NormalizeList(response, fallbackIds)
      ensures |foods| == |response|
      ensures !isLoading && !hasError && !foodsInvalidated
      ensures View().grid <==> foods != []
      ensures View().empty <==> foods == []
      ensures searchQuery == old(searchQuery)
      ensures isModalOpen == old(isModalOpen) && editingFood == old(editingFood)
      ensures isDeleteModalOpen == old(isDeleteModalOpen) && deletingFood == old(deletingFood)
    {
      foods := NormalizeList(response, fallbackIds);
      isLoading := false;
      hasError := false;
      foodsInvalidated := false;
    }

    /** The current query failed: the error section shows and the last data
        is kept. */
    method ListFailed()
      requires Valid()
      modifies this
      ensures Valid()
      ensures hasError && !isLoading && foods == old(foods)
      ensures foodsInvalidated == old(foodsInvalidated) && searchQuery == old(searchQuery)
      ensures isModalOpen == old(isModalOpen) && editingFood == old(editingFood)
      ensures isDeleteModalOpen == old(isDeleteModalOpen) && deletingFood == old(deletingFood)
    {
      hasError := true;
      isLoading := false;
    }
  }

  // ----- lemmas -----

  /** Every list key starts with the invalidated prefix, so one successful
      write marks the cached results of every search stale; different search
      texts have different keys. */
  lemma InvalidationReachesEveryQuery(q1: string, q2: string)
    ensures QueryKey(q1)[..|FoodsPrefix|] == FoodsPrefix
    ensures QueryKey(q1) == QueryKey(q2) <==> q1 == q2
  {
    if QueryKey(q1) == QueryKey(q2) {
      assert QueryKey(q1)[1] == QueryKey(q2)[1];
    }
  }

  /** With distinct ids, a delete request targets exactly the listed meal
      that carries the id. */
  lemma FindByUniqueId(foods: seq<Food>, k: nat)
    requires k < |foods|
    requires forall i, j | 0 <= i < j < |foods| :: foods[i].id != foods[j].id
    ensures FindById(foods, foods[k].id) == Some(foods[k])
  {
    var r := FindById(foods, foods[k].id);
    var i :| 0 <= i < |foods| && foods[i] == r.value
             && forall j | 0 <= j < i :: foods[j].id != foods[k].id;
    assert i == k;
  }

  /** With a repeated id, a delete request targets the first meal carrying it. */
  lemma FindByRepeatedId(foods: seq<Food>, a: nat, b: nat)
    requires a < b < |foods| && foods[a].id == foods[b].id
    requires forall j | 0 <= j < a :: foods[j].id != foods[a].id
    ensures FindById(foods, foods[b].id) == Some(foods[a])
  {
    var r := FindById(foods, foods[b].id);
    var i :| 0 <= i < |foods| && foods[i] == r.value
             && forall j | 0 <= j < i :: foods[j].id != foods[b].id;
    assert i == a;
  }
}
