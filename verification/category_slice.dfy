/** The `category` slice of the newer store (src/store/slices/categorySlice.ts): the list of
    categories, a loading flag and the last error. */
module CategorySlice {
  import opened Common
  import opened Entities
  import Lists

  datatype CategoryState = CategoryState(categories: seq<Category>, loading: bool, error: Option<string>)

  const Initial := CategoryState([], false, None)

  /** One action per case reducer, carrying its payload. */
  datatype CategoryAction =
    | FetchCategoriesRequest
    | FetchCategoriesSuccess(categories: seq<Category>)
    | FetchCategoriesFailure(message: string)
    | CreateCategoryRequest(newCategory: CreateCategory)
    | CreateCategorySuccess(category: Category)
    | CreateCategoryFailure(message: string)
    | UpdateCategoryRequest(categoryId: string, data: UpdateCategory)
    | UpdateCategorySuccess(category: Category)
    | UpdateCategoryFailure(message: string)
    | DeleteCategoryRequest(categoryId: string)
    | DeleteCategorySuccess(categoryId: string)
    | DeleteCategoryFailure(message: string)
  {
    predicate IsRequest() {
      FetchCategoriesRequest? || CreateCategoryRequest? || UpdateCategoryRequest? || DeleteCategoryRequest?
    }

    predicate IsFailure() {
      FetchCategoriesFailure? || CreateCategoryFailure? || UpdateCategoryFailure? || DeleteCategoryFailure?
    }
  }

  /** The slice reducer: the state after one action. */
  function Reduce(s: CategoryState, a: CategoryAction): CategoryState {
    match a
    case FetchCategoriesRequest => s.(loading := true)
    case FetchCategoriesSuccess(cs) => s.(loading := false, categories := cs)
    case FetchCategoriesFailure(m) => s.(loading := false, error := Some(m))
    case CreateCategoryRequest(_) => s.(loading := true)
    case CreateCategorySuccess(c) => s.(loading := false, categories := s.categories + [c])
    case CreateCategoryFailure(m) => s.(loading := false, error := Some(m))
    case UpdateCategoryRequest(_, _) => s.(loading := true)
    case UpdateCategorySuccess(c) =>
      s.(loading := false, categories := Lists.ReplaceFirstById(s.categories, CategoryId, c))
    case UpdateCategoryFailure(m) => s.(loading := false, error := Some(m))
    case DeleteCategoryRequest(_) => s.(loading := true)
    case DeleteCategorySuccess(id) =>
      s.(loading := false, categories := Lists.RemoveById(s.categories, CategoryId, id))
    case DeleteCategoryFailure(m) => s.(loading := false, error := Some(m))
  }

  function ReduceAll(s: CategoryState, actions: seq<CategoryAction>): CategoryState {
    Fold(Reduce, s, actions)
  }

  /** A request only raises `loading`: the list and a stale error survive it. */
  lemma RequestOnlyRaisesLoading(s: CategoryState, a: CategoryAction)
    requires a.IsRequest()
    ensures Reduce(s, a) == s.(loading := true)
    ensures Reduce(s, a).error == s.error
  {
  }

  /** A failure records its message and keeps the list. */
  lemma FailureKeepsCategories(s: CategoryState, a: CategoryAction)
    requires a.IsFailure()
    ensures Reduce(s, a).categories == s.categories
    ensures Reduce(s, a).error == Some(a.message)
    ensures !Reduce(s, a).loading
  {
  }

  /** Every success or failure ends the loading phase, and only a failure touches `error`. */
  lemma SettledActionsClearLoading(s: CategoryState, a: CategoryAction)
    requires !a.IsRequest()
    ensures !Reduce(s, a).loading
    ensures !a.IsFailure() ==> Reduce(s, a).error == s.error
  {
  }

  lemma FetchReplacesList(s: CategoryState, cs: seq<Category>)
    ensures Reduce(s, FetchCategoriesSuccess(cs)).categories == cs
    ensures !Reduce(s, FetchCategoriesSuccess(cs)).loading
  {
  }

  /** Create appends at the end: one element longer, the earlier elements in place. */
  lemma CreateAppends(s: CategoryState, c: Category)
    ensures var r := Reduce(s, CreateCategorySuccess(c)).categories;
      |r| == |s.categories| + 1 && r[..|s.categories|] == s.categories && r[|s.categories|] == c
  {
  }

  /** Update replaces the first category with the payload's id and nothing else; with no such
      category the list is unchanged. */
  lemma UpdateReplacesFirstMatch(s: CategoryState, c: Category)
    ensures var r := Reduce(s, UpdateCategorySuccess(c)).categories;
      |r| == |s.categories| &&
      (forall i :: 0 <= i < |r| ==>
        r[i] == if Lists.IsFirstMatch(s.categories, CategoryId, c.id, i) then c else s.categories[i])
    ensures !Lists.HasId(s.categories, CategoryId, c.id) ==> Reduce(s, UpdateCategorySuccess(c)) == s.(loading := false)
  {
  }

  /** Delete removes every category with the id, keeps the rest in order, and a second delete
      of the same id changes nothing more. */
  lemma DeleteRemovesAll(s: CategoryState, id: string)
    ensures var r := Reduce(s, DeleteCategorySuccess(id)).categories;
      !Lists.HasId(r, CategoryId, id) && Lists.IsSubsequence(r, s.categories) &&
      forall i :: 0 <= i < |s.categories| && s.categories[i].id != id ==> s.categories[i] in r
    ensures var once := Reduce(s, DeleteCategorySuccess(id));
      Reduce(once, DeleteCategorySuccess(id)) == once
  {
    Lists.RemoveByIdIsSubsequence(s.categories, CategoryId, id);
    Lists.RemoveByIdIdempotent(s.categories, CategoryId, id);
  }

  /** Distinct ids are not an invariant of the slice: they survive an action exactly when a
      fetched list has distinct ids and a created category has a new id. */
  lemma UniqueIdsPreserved(s: CategoryState, a: CategoryAction)
    requires Lists.UniqueIds(s.categories, CategoryId)
    ensures Lists.UniqueIds(Reduce(s, a).categories, CategoryId) <==>
      match a
      case FetchCategoriesSuccess(cs) => Lists.UniqueIds(cs, CategoryId)
      case CreateCategorySuccess(c) => !Lists.HasId(s.categories, CategoryId, c.id)
      case _ => true
  {
    match a
    case CreateCategorySuccess(c) => Lists.AppendKeepsUniqueIds(s.categories, CategoryId, c);
    case UpdateCategorySuccess(c) => Lists.ReplaceFirstKeepsUniqueIds(s.categories, CategoryId, c);
    case DeleteCategorySuccess(id) => Lists.RemoveByIdKeepsUniqueIds(s.categories, CategoryId, id);
    case _ =>
  }

  /** The slice as the store holds it: each case reducer updates the fields in place. */
  class CategoryStore {
    var categories: seq<Category>
    var loading: bool
    var error: Option<string>

    function State(): CategoryState
      reads this
    {
      CategoryState(categories, loading, error)
    }

    constructor ()
      ensures State() == Initial
    {
      categories := [];
      loading := false;
      error := None;
    }

    method FetchCategoriesRequest()
      modifies this
      ensures State() == Reduce(old(State()), CategoryAction.FetchCategoriesRequest)
    {
      loading := true;
    }

    method FetchCategoriesSuccess(payload: seq<Category>)
      modifies this
      ensures State() == Reduce(old(State()), CategoryAction.FetchCategoriesSuccess(payload))
    {
      loading := false;
      categories := payload;
    }

    method FetchCategoriesFailure(payload: string)
      modifies this
      ensures State() == Reduce(old(State()), CategoryAction.FetchCategoriesFailure(payload))
    {
      loading := false;
      error := Some(payload);
    }

    method CreateCategoryRequest(payload: CreateCategory)
      modifies this
      ensures State() == Reduce(old(State()), CategoryAction.CreateCategoryRequest(payload))
    {
      loading := true;
    }

    method CreateCategorySuccess(payload: Category)
      modifies this
      ensures State() == Reduce(old(State()), CategoryAction.CreateCategorySuccess(payload))
    {
      loading := false;
      categories := categories + [payload];
    }

    method CreateCategoryFailure(payload: string)
      modifies this
      ensures State() == Reduce(old(State()), CategoryAction.CreateCategoryFailure(payload))
    {
      loading := false;
      error := Some(payload);
    }

    method UpdateCategoryRequest(categoryId: string, data: UpdateCategory)
      modifies this
      ensures State() == Reduce(old(State()), CategoryAction.UpdateCategoryRequest(categoryId, data))
    {
      loading := true;
    }

    method UpdateCategorySuccess(payload: Category)
      modifies this
      ensures State() == Reduce(old(State()), CategoryAction.UpdateCategorySuccess(payload))
    {
      loading := false;
      var index := Lists.FindIndexById(categories, CategoryId, payload.id);
      if index != -1 {
        categories := categories[index := payload];
      }
    }

    method UpdateCategoryFailure(payload: string)
      modifies this
      ensures State() == Reduce(old(State()), CategoryAction.UpdateCategoryFailure(payload))
    {
      loading := false;
      error := Some(payload);
    }

    method DeleteCategoryRequest(payload: string)
      modifies this
      ensures State() == Reduce(old(State()), CategoryAction.DeleteCategoryRequest(payload))
    {
      loading := true;
    }

    method DeleteCategorySuccess(payload: string)
      modifies this
      ensures State() == Reduce(old(State()), CategoryAction.DeleteCategorySuccess(payload))
    {
      loading := false;
      categories := Lists.RemoveById(categories, CategoryId, payload);
    }

    method DeleteCategoryFailure(payload: string)
      modifies this
      ensures State() == Reduce(old(State()), CategoryAction.DeleteCategoryFailure(payload))
    {
      loading := false;
      error := Some(payload);
    }
  }
}
