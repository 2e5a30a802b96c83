/** The category workers of the newer store (src/store/sagas/categorySaga.ts). Each worker is
    an effect script: the service call it makes, then the actions it puts, given what the
    service replied. A rejected call is reported with the error's own `message`. */
module CategorySaga {
  import opened Common
  import opened Entities
  import opened CategorySlice

  /** The categoryService functions the workers call, with their arguments. */
  datatype CategoryCall =
    | FetchCategoriesCall
    | CreateCategoryCall(newCategory: CreateCategory)
    | UpdateCategoryCall(categoryId: string, data: UpdateCategory)
    | DeleteCategoryCall(categoryId: string)

  type CategoryEffect = Effect<CategoryCall, CategoryAction>

  /** What the service replies to each kind of call during one run. */
  datatype CategoryReplies = CategoryReplies(
    fetch: Outcome<seq<Category>, ApiError>, create: Outcome<Category, ApiError>,
    update: Outcome<Category, ApiError>, delete: Outcome<(), ApiError>)

  function FetchCategoriesSaga(reply: Outcome<seq<Category>, ApiError>): (effects: seq<CategoryEffect>)
    ensures Calls(effects) == [FetchCategoriesCall]
    ensures reply.Ok? ==> Puts(effects) == [FetchCategoriesSuccess(reply.value)]
    ensures reply.Err? ==> Puts(effects) == [FetchCategoriesFailure(reply.error.message)]
  {
    match reply
    case Ok(categories) => CallThen(FetchCategoriesCall, [FetchCategoriesSuccess(categories)])
    case Err(e) => CallThen(FetchCategoriesCall, [FetchCategoriesFailure(e.message)])
  }

  /** A successful write puts its success and then asks for the list again. */
  function CreateCategorySaga(data: CreateCategory, reply: Outcome<Category, ApiError>): (effects: seq<CategoryEffect>)
    ensures Calls(effects) == [CreateCategoryCall(data)]
    ensures reply.Ok? ==> Puts(effects) == [CreateCategorySuccess(reply.value), FetchCategoriesRequest]
    ensures reply.Err? ==> Puts(effects) == [CreateCategoryFailure(reply.error.message)]
  {
    match reply
    case Ok(category) =>
      CallThen(CreateCategoryCall(data), [CreateCategorySuccess(category), FetchCategoriesRequest])
    case Err(e) => CallThen(CreateCategoryCall(data), [CreateCategoryFailure(e.message)])
  }

  function UpdateCategorySaga(categoryId: string, data: UpdateCategory, reply: Outcome<Category, ApiError>)
    : (effects: seq<CategoryEffect>)
    ensures Calls(effects) == [UpdateCategoryCall(categoryId, data)]
    ensures reply.Ok? ==> Puts(effects) == [UpdateCategorySuccess(reply.value), FetchCategoriesRequest]
    ensures reply.Err? ==> Puts(effects) == [UpdateCategoryFailure(reply.error.message)]
  {
    match reply
    case Ok(category) =>
      CallThen(UpdateCategoryCall(categoryId, data), [UpdateCategorySuccess(category), FetchCategoriesRequest])
    case Err(e) => CallThen(UpdateCategoryCall(categoryId, data), [UpdateCategoryFailure(e.message)])
  }

  /** The delete success carries the id that was asked for, not anything from the server. */
  function DeleteCategorySaga(categoryId: string, reply: Outcome<(), ApiError>): (effects: seq<CategoryEffect>)
    ensures Calls(effects) == [DeleteCategoryCall(categoryId)]
    ensures reply.Ok? ==> Puts(effects) == [DeleteCategorySuccess(categoryId), FetchCategoriesRequest]
    ensures reply.Err? ==> Puts(effects) == [DeleteCategoryFailure(reply.error.message)]
  {
    match reply
    case Ok(_) =>
      CallThen(DeleteCategoryCall(categoryId), [DeleteCategorySuccess(categoryId), FetchCategoriesRequest])
    case Err(e) => CallThen(DeleteCategoryCall(categoryId), [DeleteCategoryFailure(e.message)])
  }

  /** The watchers: each request action starts its worker; no other action starts one. */
  function Handle(a: CategoryAction, replies: CategoryReplies): seq<CategoryEffect> {
    match a
    case FetchCategoriesRequest => FetchCategoriesSaga(replies.fetch)
    case CreateCategoryRequest(data) => CreateCategorySaga(data, replies.create)
    case UpdateCategoryRequest(id, data) => UpdateCategorySaga(id, data, replies.update)
    case DeleteCategoryRequest(id) => DeleteCategorySaga(id, replies.delete)
    case _ => []
  }

  /** Whether the service call the request leads to is rejected. */
  predicate ReplyFailed(a: CategoryAction, replies: CategoryReplies) {
    match a
    case FetchCategoriesRequest => replies.fetch.Err?
    case CreateCategoryRequest(_) => replies.create.Err?
    case UpdateCategoryRequest(_, _) => replies.update.Err?
    case DeleteCategoryRequest(_) => replies.delete.Err?
    case _ => false
  }

  /** Only the request actions start a worker, and each worker makes exactly one service
      call. */
  lemma OnlyRequestsStartWorkers(a: CategoryAction, replies: CategoryReplies)
    ensures Handle(a, replies) != [] <==> a.IsRequest()
    ensures a.IsRequest() ==> |Calls(Handle(a, replies))| == 1
  {
    if a.FetchCategoriesRequest? {
      match replies.fetch { case Ok(_) => case Err(_) => }
    } else if a.CreateCategoryRequest? {
      match replies.create { case Ok(_) => case Err(_) => }
    } else if a.UpdateCategoryRequest? {
      match replies.update { case Ok(_) => case Err(_) => }
    } else if a.DeleteCategoryRequest? {
      match replies.delete { case Ok(_) => case Err(_) => }
    }
  }

  /** The puts of a worker that settles exactly once: its first put is a success or a
      failure, a failure exactly when `failed`; the only other put is one refetch request,
      there exactly when `refetches`. */
  predicate SettlesOnce(puts: seq<CategoryAction>, failed: bool, refetches: bool) {
    && 1 <= |puts| <= 2
    && !puts[0].IsRequest()
    && (puts[0].IsFailure() <==> failed)
    && (|puts| == 2 <==> refetches)
    && (|puts| == 2 ==> puts[1] == FetchCategoriesRequest)
  }

  lemma FetchSettlesOnce(reply: Outcome<seq<Category>, ApiError>)
    ensures SettlesOnce(Puts(FetchCategoriesSaga(reply)), reply.Err?, false)
  {
    match reply { case Ok(_) => case Err(_) => }
  }

  lemma CreateSettlesOnce(data: CreateCategory, reply: Outcome<Category, ApiError>)
    ensures SettlesOnce(Puts(CreateCategorySaga(data, reply)), reply.Err?, reply.Ok?)
  {
    match reply { case Ok(_) => case Err(_) => }
  }

  lemma UpdateSettlesOnce(categoryId: string, data: UpdateCategory, reply: Outcome<Category, ApiError>)
    ensures SettlesOnce(Puts(UpdateCategorySaga(categoryId, data, reply)), reply.Err?, reply.Ok?)
  {
    match reply { case Ok(_) => case Err(_) => }
  }

  lemma DeleteSettlesOnce(categoryId: string, reply: Outcome<(), ApiError>)
    ensures SettlesOnce(Puts(DeleteCategorySaga(categoryId, reply)), reply.Err?, reply.Ok?)
  {
    match reply { case Ok(_) => case Err(_) => }
  }

  /** Every worker settles exactly once, with a failure exactly when the call was rejected,
      and refetches after a successful write, never after a fetch or a failure. */
  lemma WorkerSettlesOnce(a: CategoryAction, replies: CategoryReplies)
    ensures a.IsRequest() ==>
      SettlesOnce(Puts(Handle(a, replies)), ReplyFailed(a, replies), !a.FetchCategoriesRequest? && !ReplyFailed(a, replies))
  {
    if a.FetchCategoriesRequest? {
      FetchSettlesOnce(replies.fetch);
    } else if a.CreateCategoryRequest? {
      CreateSettlesOnce(a.newCategory, replies.create);
    } else if a.UpdateCategoryRequest? {
      UpdateSettlesOnce(a.categoryId, a.data, replies.update);
    } else if a.DeleteCategoryRequest? {
      DeleteSettlesOnce(a.categoryId, replies.delete);
    }
  }

  /** A rejected call leaves the list as it was and reports the error's message. */
  lemma {:induction false} FailedWorkerKeepsList(s: CategoryState, a: CategoryAction, replies: CategoryReplies)
    requires a.IsRequest() && ReplyFailed(a, replies)
    ensures var r := ReduceAll(s, Puts(Handle(a, replies)));
      r.categories == s.categories && !r.loading && r.error.Some?
  {
    var puts := Puts(Handle(a, replies));
    WorkerSettlesOnce(a, replies);
    FoldOne(Reduce, s, puts[0]);
    assert puts == [puts[0]];
  }

  /** Refetch convergence: after a successful write and the fetch its refetch request
      triggers, the list is exactly what the server returned, whatever the local patch did. */
  lemma {:induction false} WriteThenRefetchConverges(
    s: CategoryState, a: CategoryAction, replies: CategoryReplies, fetched: seq<Category>)
    requires a.IsRequest() && !a.FetchCategoriesRequest? && !ReplyFailed(a, replies)
    ensures var afterWrite := ReduceAll(s, Puts(Handle(a, replies)));
      var afterRefetch := ReduceAll(afterWrite, Puts(FetchCategoriesSaga(Ok(fetched))));
      afterRefetch.categories == fetched && !afterRefetch.loading && afterRefetch.error == s.error
  {
    var puts := Puts(Handle(a, replies));
    WorkerSettlesOnce(a, replies);
    assert puts == [puts[0], FetchCategoriesRequest];
    FoldTwo(Reduce, s, puts[0], FetchCategoriesRequest);
    var afterWrite := ReduceAll(s, puts);
    FoldOne(Reduce, afterWrite, FetchCategoriesSuccess(fetched));
  }
}
