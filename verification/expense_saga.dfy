/** The expense workers of the newer store (src/store/sagas/expenseSaga.ts). Each worker is
    an effect script: the service call it makes, then the actions it puts, given what the
    service replied. A rejected call is reported with the error's own `message`. */
module ExpenseSaga {
  import opened Common
  import opened Entities
  import opened ExpenseSlice

  /** The expenseService functions the workers call, with their arguments. */
  datatype ExpenseCall =
    | FetchExpensesCall
    | CreateExpenseCall(newExpense: CreateExpense)
    | UpdateExpenseCall(expenseId: string, data: UpdateExpense)
    | DeleteExpenseCall(expenseId: string)

  type ExpenseEffect = Effect<ExpenseCall, ExpenseAction>

  /** What the service replies to each kind of call during one run. */
  datatype ExpenseReplies = ExpenseReplies(
    fetch: Outcome<FetchExpensesResponseData, ApiError>, create: Outcome<ExpenseResponseItem, ApiError>,
    update: Outcome<ExpenseResponseItem, ApiError>, delete: Outcome<(), ApiError>)

  function FetchExpensesSaga(reply: Outcome<FetchExpensesResponseData, ApiError>): (effects: seq<ExpenseEffect>)
    ensures Calls(effects) == [FetchExpensesCall]
    ensures reply.Ok? ==> Puts(effects) == [FetchExpensesSuccess(reply.value)]
    ensures reply.Err? ==> Puts(effects) == [FetchExpensesFailure(reply.error.message)]
  {
    match reply
    case Ok(page) => CallThen(FetchExpensesCall, [FetchExpensesSuccess(page)])
    case Err(e) => CallThen(FetchExpensesCall, [FetchExpensesFailure(e.message)])
  }

  /** A successful write puts its success and then asks for the list again. */
  function CreateExpenseSaga(data: CreateExpense, reply: Outcome<ExpenseResponseItem, ApiError>): (effects: seq<ExpenseEffect>)
    ensures Calls(effects) == [CreateExpenseCall(data)]
    ensures reply.Ok? ==> Puts(effects) == [CreateExpenseSuccess(reply.value), FetchExpensesRequest]
    ensures reply.Err? ==> Puts(effects) == [CreateExpenseFailure(reply.error.message)]
  {
    match reply
    case Ok(expense) =>
      CallThen(CreateExpenseCall(data), [CreateExpenseSuccess(expense), FetchExpensesRequest])
    case Err(e) => CallThen(CreateExpenseCall(data), [CreateExpenseFailure(e.message)])
  }

  /** Update calls the service with the payload's expenseId and data. */
  function UpdateExpenseSaga(payload: UpdateExpensePayload, reply: Outcome<ExpenseResponseItem, ApiError>)
    : (effects: seq<ExpenseEffect>)
    ensures Calls(effects) == [UpdateExpenseCall(payload.expenseId, payload.data)]
    ensures reply.Ok? ==> Puts(effects) == [UpdateExpenseSuccess(reply.value), FetchExpensesRequest]
    ensures reply.Err? ==> Puts(effects) == [UpdateExpenseFailure(reply.error.message)]
  {
    match reply
    case Ok(expense) =>
      CallThen(UpdateExpenseCall(payload.expenseId, payload.data), [UpdateExpenseSuccess(expense), FetchExpensesRequest])
    case Err(e) => CallThen(UpdateExpenseCall(payload.expenseId, payload.data), [UpdateExpenseFailure(e.message)])
  }

  /** The delete success carries the id that was asked for, not anything from the server. */
  function DeleteExpenseSaga(expenseId: string, reply: Outcome<(), ApiError>): (effects: seq<ExpenseEffect>)
    ensures Calls(effects) == [DeleteExpenseCall(expenseId)]
    ensures reply.Ok? ==> Puts(effects) == [DeleteExpenseSuccess(expenseId), FetchExpensesRequest]
    ensures reply.Err? ==> Puts(effects) == [DeleteExpenseFailure(reply.error.message)]
  {
    match reply
    case Ok(_) =>
      CallThen(DeleteExpenseCall(expenseId), [DeleteExpenseSuccess(expenseId), FetchExpensesRequest])
    case Err(e) => CallThen(DeleteExpenseCall(expenseId), [DeleteExpenseFailure(e.message)])
  }

  /** The watchers: each request action starts its worker; no other action starts one. */
  function Handle(a: ExpenseAction, replies: ExpenseReplies): seq<ExpenseEffect> {
    match a
    case FetchExpensesRequest => FetchExpensesSaga(replies.fetch)
    case CreateExpenseRequest(data) => CreateExpenseSaga(data, replies.create)
    case UpdateExpenseRequest(payload) => UpdateExpenseSaga(payload, replies.update)
    case DeleteExpenseRequest(id) => DeleteExpenseSaga(id, replies.delete)
    case _ => []
  }

  /** Whether the service call the request leads to is rejected. */
  predicate ReplyFailed(a: ExpenseAction, replies: ExpenseReplies) {
    match a
    case FetchExpensesRequest => replies.fetch.Err?
    case CreateExpenseRequest(_) => replies.create.Err?
    case UpdateExpenseRequest(_) => replies.update.Err?
    case DeleteExpenseRequest(_) => replies.delete.Err?
    case _ => false
  }

  /** Only the request actions start a worker, and each worker makes exactly one service
      call. */
  lemma OnlyRequestsStartWorkers(a: ExpenseAction, replies: ExpenseReplies)
    ensures Handle(a, replies) != [] <==> a.IsRequest()
    ensures a.IsRequest() ==> |Calls(Handle(a, replies))| == 1
  {
    if a.FetchExpensesRequest? {
      match replies.fetch { case Ok(_) => case Err(_) => }
    } else if a.CreateExpenseRequest? {
      match replies.create { case Ok(_) => case Err(_) => }
    } else if a.UpdateExpenseRequest? {
      match replies.update { case Ok(_) => case Err(_) => }
    } else if a.DeleteExpenseRequest? {
      match replies.delete { case Ok(_) => case Err(_) => }
    }
  }

  /** The puts of a worker that settles exactly once: its first put is a success or a
      failure, a failure exactly when `failed`; the only other put is one refetch request,
      there exactly when `refetches`. */
  predicate SettlesOnce(puts: seq<ExpenseAction>, failed: bool, refetches: bool) {
    && 1 <= |puts| <= 2
    && !puts[0].IsRequest()
    && (puts[0].IsFailure() <==> failed)
    && (|puts| == 2 <==> refetches)
    && (|puts| == 2 ==> puts[1] == FetchExpensesRequest)
  }

  lemma FetchSettlesOnce(reply: Outcome<FetchExpensesResponseData, ApiError>)
    ensures SettlesOnce(Puts(FetchExpensesSaga(reply)), reply.Err?, false)
  {
    match reply { case Ok(_) => case Err(_) => }
  }

  lemma CreateSettlesOnce(data: CreateExpense, reply: Outcome<ExpenseResponseItem, ApiError>)
    ensures SettlesOnce(Puts(CreateExpenseSaga(data, reply)), reply.Err?, reply.Ok?)
  {
    match reply { case Ok(_) => case Err(_) => }
  }

  lemma UpdateSettlesOnce(payload: UpdateExpensePayload, reply: Outcome<ExpenseResponseItem, ApiError>)
    ensures SettlesOnce(Puts(UpdateExpenseSaga(payload, reply)), reply.Err?, reply.Ok?)
  {
    match reply { case Ok(_) => case Err(_) => }
  }

  lemma DeleteSettlesOnce(expenseId: string, reply: Outcome<(), ApiError>)
    ensures SettlesOnce(Puts(DeleteExpenseSaga(expenseId, reply)), reply.Err?, reply.Ok?)
  {
    match reply { case Ok(_) => case Err(_) => }
  }

  /** Every worker settles exactly once, with a failure exactly when the call was rejected,
      and refetches after a successful write, never after a fetch or a failure. */
  lemma WorkerSettlesOnce(a: ExpenseAction, replies: ExpenseReplies)
    ensures a.IsRequest() ==>
      SettlesOnce(Puts(Handle(a, replies)), ReplyFailed(a, replies), !a.FetchExpensesRequest? && !ReplyFailed(a, replies))
  {
    if a.FetchExpensesRequest? {
      FetchSettlesOnce(replies.fetch);
    } else if a.CreateExpenseRequest? {
      CreateSettlesOnce(a.newExpense, replies.create);
    } else if a.UpdateExpenseRequest? {
      UpdateSettlesOnce(a.update, replies.update);
    } else if a.DeleteExpenseRequest? {
      DeleteSettlesOnce(a.expenseId, replies.delete);
    }
  }

  /** A rejected call leaves the page as it was and reports the error's message. */
  lemma {:induction false} FailedWorkerKeepsList(s: ExpenseState, a: ExpenseAction, replies: ExpenseReplies)
    requires a.IsRequest() && ReplyFailed(a, replies)
    ensures var r := ReduceAll(s, Puts(Handle(a, replies)));
      r.expenses == s.expenses && !r.loading && r.error.Some?
  {
    var puts := Puts(Handle(a, replies));
    WorkerSettlesOnce(a, replies);
    FoldOne(Reduce, s, puts[0]);
    assert puts == [puts[0]];
  }

  /** Refetch convergence: after a successful write and the fetch its refetch request
      triggers, the page is exactly what the server returned, whatever the local patch did. */
  lemma {:induction false} WriteThenRefetchConverges(
    s: ExpenseState, a: ExpenseAction, replies: ExpenseReplies, fetched: FetchExpensesResponseData)
    requires a.IsRequest() && !a.FetchExpensesRequest? && !ReplyFailed(a, replies)
    ensures var afterWrite := ReduceAll(s, Puts(Handle(a, replies)));
      var afterRefetch := ReduceAll(afterWrite, Puts(FetchExpensesSaga(Ok(fetched))));
      afterRefetch.expenses == Some(fetched) && !afterRefetch.loading && afterRefetch.error.None?
  {
    var puts := Puts(Handle(a, replies));
    WorkerSettlesOnce(a, replies);
    assert puts == [puts[0], FetchExpensesRequest];
    FoldTwo(Reduce, s, puts[0], FetchExpensesRequest);
    var afterWrite := ReduceAll(s, puts);
    FoldOne(Reduce, afterWrite, FetchExpensesSuccess(fetched));
  }
}
