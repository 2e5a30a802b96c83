/** The legacy expense and group workers (src/store/expenseSagas.ts). Each makes one call to
    the storage-backed expense service and puts exactly one action: the success echoes what was
    asked for, and a throw is reported with the Error's message or, for any other thrown value,
    with a fixed message of the worker's own. Nothing is refetched. */
module LegacyExpenseSagas {
  import opened Common
  import opened LegacyEntities
  import opened LegacyExpenseSlice
  import Lists

  /** The ExpenseService functions the workers call, with their arguments. */
  datatype ExpenseCall =
    | GetExpensesCall
    | AddExpenseCall(expense: Expense)
    | EditExpenseCall(expense: Expense)
    | DeleteExpenseCall(expenseId: string)
    | GetGroupsCall
    | AddGroupCall(group: Group)
    | EditGroupCall(group: Group)
    | DeleteGroupCall(groupId: string)

  type ExpenseEffect = Effect<ExpenseCall, ExpensesAction>

  /** What the service does with each kind of call during one run. */
  datatype ExpenseReplies = ExpenseReplies(
    getExpenses: Outcome<seq<Expense>, Thrown>, addExpense: Outcome<(), Thrown>,
    editExpense: Outcome<(), Thrown>, deleteExpense: Outcome<(), Thrown>,
    getGroups: Outcome<seq<Group>, Thrown>, addGroup: Outcome<(), Thrown>,
    editGroup: Outcome<(), Thrown>, deleteGroup: Outcome<(), Thrown>)

  const FetchExpensesFallback := "An unknown error occurred while fetching expenses."
  const AddExpenseFallback := "An unknown error occurred while adding the expense."
  const EditExpenseFallback := "An unknown error occurred while editing the expense."
  const DeleteExpenseFallback := "An unknown error occurred while deleting the expense."
  const FetchGroupsFallback := "An unknown error occurred while fetching groups."
  const AddGroupFallback := "An unknown error occurred while adding the group."
  const EditGroupFallback := "An unknown error occurred while editing the group."
  const DeleteGroupFallback := "An unknown error occurred while deleting the group."

  function FetchExpensesSaga(reply: Outcome<seq<Expense>, Thrown>): (effects: seq<ExpenseEffect>)
    ensures Calls(effects) == [GetExpensesCall]
    ensures reply.Ok? ==> Puts(effects) == [FetchExpensesSuccess(reply.value)]
    ensures reply.Err? ==> Puts(effects) == [FetchExpensesFailure(ThrownMessageOr(reply.error, FetchExpensesFallback))]
  {
    match reply
    case Ok(expenses) => CallThen(GetExpensesCall, [FetchExpensesSuccess(expenses)])
    case Err(t) => CallThen(GetExpensesCall, [FetchExpensesFailure(ThrownMessageOr(t, FetchExpensesFallback))])
  }

  function AddExpenseSaga(expense: Expense, reply: Outcome<(), Thrown>): (effects: seq<ExpenseEffect>)
    ensures Calls(effects) == [AddExpenseCall(expense)]
    ensures reply.Ok? ==> Puts(effects) == [AddExpenseSuccess(expense)]
    ensures reply.Err? ==> Puts(effects) == [AddExpenseFailure(ThrownMessageOr(reply.error, AddExpenseFallback))]
  {
    match reply
    case Ok(_) => CallThen(AddExpenseCall(expense), [AddExpenseSuccess(expense)])
    case Err(t) => CallThen(AddExpenseCall(expense), [AddExpenseFailure(ThrownMessageOr(t, AddExpenseFallback))])
  }

  function EditExpenseSaga(expense: Expense, reply: Outcome<(), Thrown>): (effects: seq<ExpenseEffect>)
    ensures Calls(effects) == [EditExpenseCall(expense)]
    ensures reply.Ok? ==> Puts(effects) == [EditExpenseSuccess(expense)]
    ensures reply.Err? ==> Puts(effects) == [EditExpenseFailure(ThrownMessageOr(reply.error, EditExpenseFallback))]
  {
    match reply
    case Ok(_) => CallThen(EditExpenseCall(expense), [EditExpenseSuccess(expense)])
    case Err(t) => CallThen(EditExpenseCall(expense), [EditExpenseFailure(ThrownMessageOr(t, EditExpenseFallback))])
  }

  function DeleteExpenseSaga(expenseId: string, reply: Outcome<(), Thrown>): (effects: seq<ExpenseEffect>)
    ensures Calls(effects) == [DeleteExpenseCall(expenseId)]
    ensures reply.Ok? ==> Puts(effects) == [DeleteExpenseSuccess(expenseId)]
    ensures reply.Err? ==> Puts(effects) == [DeleteExpenseFailure(ThrownMessageOr(reply.error, DeleteExpenseFallback))]
  {
    match reply
    case Ok(_) => CallThen(DeleteExpenseCall(expenseId), [DeleteExpenseSuccess(expenseId)])
    case Err(t) =>
      CallThen(DeleteExpenseCall(expenseId), [DeleteExpenseFailure(ThrownMessageOr(t, DeleteExpenseFallback))])
  }

  function FetchGroupsSaga(reply: Outcome<seq<Group>, Thrown>): (effects: seq<ExpenseEffect>)
    ensures Calls(effects) == [GetGroupsCall]
    ensures reply.Ok? ==> Puts(effects) == [FetchGroupsSuccess(reply.value)]
    ensures reply.Err? ==> Puts(effects) == [FetchGroupsFailure(ThrownMessageOr(reply.error, FetchGroupsFallback))]
  {
    match reply
    case Ok(groups) => CallThen(GetGroupsCall, [FetchGroupsSuccess(groups)])
    case Err(t) => CallThen(GetGroupsCall, [FetchGroupsFailure(ThrownMessageOr(t, FetchGroupsFallback))])
  }

  function AddGroupSaga(group: Group, reply: Outcome<(), Thrown>): (effects: seq<ExpenseEffect>)
    ensures Calls(effects) == [AddGroupCall(group)]
    ensures reply.Ok? ==> Puts(effects) == [AddGroupSuccess(group)]
    ensures reply.Err? ==> Puts(effects) == [AddGroupFailure(ThrownMessageOr(reply.error, AddGroupFallback))]
  {
    match reply
    case Ok(_) => CallThen(AddGroupCall(group), [AddGroupSuccess(group)])
    case Err(t) => CallThen(AddGroupCall(group), [AddGroupFailure(ThrownMessageOr(t, AddGroupFallback))])
  }

  function EditGroupSaga(group: Group, reply: Outcome<(), Thrown>): (effects: seq<ExpenseEffect>)
    ensures Calls(effects) == [EditGroupCall(group)]
    ensures reply.Ok? ==> Puts(effects) == [EditGroupSuccess(group)]
    ensures reply.Err? ==> Puts(effects) == [EditGroupFailure(ThrownMessageOr(reply.error, EditGroupFallback))]
  {
    match reply
    case Ok(_) => CallThen(EditGroupCall(group), [EditGroupSuccess(group)])
    case Err(t) => CallThen(EditGroupCall(group), [EditGroupFailure(ThrownMessageOr(t, EditGroupFallback))])
  }

  function DeleteGroupSaga(groupId: string, reply: Outcome<(), Thrown>): (effects: seq<ExpenseEffect>)
    ensures Calls(effects) == [DeleteGroupCall(groupId)]
    ensures reply.Ok? ==> Puts(effects) == [DeleteGroupSuccess(groupId)]
    ensures reply.Err? ==> Puts(effects) == [DeleteGroupFailure(ThrownMessageOr(reply.error, DeleteGroupFallback))]
  {
    match reply
    case Ok(_) => CallThen(DeleteGroupCall(groupId), [DeleteGroupSuccess(groupId)])
    case Err(t) => CallThen(DeleteGroupCall(groupId), [DeleteGroupFailure(ThrownMessageOr(t, DeleteGroupFallback))])
  }

  /** The worker each request starts (every watcher uses takeEvery on the request's type). */
  function Handle(a: ExpensesAction, replies: ExpenseReplies): seq<ExpenseEffect> {
    match a
    case FetchExpenses => FetchExpensesSaga(replies.getExpenses)
    case AddExpense(e) => AddExpenseSaga(e, replies.addExpense)
    case EditExpense(e) => EditExpenseSaga(e, replies.editExpense)
    case DeleteExpense(id) => DeleteExpenseSaga(id, replies.deleteExpense)
    case FetchGroups => FetchGroupsSaga(replies.getGroups)
    case AddGroup(g) => AddGroupSaga(g, replies.addGroup)
    case EditGroup(g) => EditGroupSaga(g, replies.editGroup)
    case DeleteGroup(id) => DeleteGroupSaga(id, replies.deleteGroup)
    case _ => []
  }

  predicate ReplyFailed(a: ExpensesAction, replies: ExpenseReplies) {
    match a
    case FetchExpenses => replies.getExpenses.Err?
    case AddExpense(_) => replies.addExpense.Err?
    case EditExpense(_) => replies.editExpense.Err?
    case DeleteExpense(_) => replies.deleteExpense.Err?
    case FetchGroups => replies.getGroups.Err?
    case AddGroup(_) => replies.addGroup.Err?
    case EditGroup(_) => replies.editGroup.Err?
    case DeleteGroup(_) => replies.deleteGroup.Err?
    case _ => false
  }

  /** The effects of a worker that makes one call and puts exactly one action, never a
      request, and a failure exactly when `failed`. */
  predicate CallsOncePutsOne(effects: seq<ExpenseEffect>, failed: bool) {
    && |Calls(effects)| == 1
    && |Puts(effects)| == 1
    && !Puts(effects)[0].IsRequest()
    && (Puts(effects)[0].IsFailure() <==> failed)
  }

  lemma FetchExpensesPutsOne(reply: Outcome<seq<Expense>, Thrown>)
    ensures CallsOncePutsOne(FetchExpensesSaga(reply), reply.Err?)
  {
    match reply { case Ok(_) => case Err(_) => }
  }

  lemma AddExpensePutsOne(expense: Expense, reply: Outcome<(), Thrown>)
    ensures CallsOncePutsOne(AddExpenseSaga(expense, reply), reply.Err?)
  {
    match reply { case Ok(_) => case Err(_) => }
  }

  lemma EditExpensePutsOne(expense: Expense, reply: Outcome<(), Thrown>)
    ensures CallsOncePutsOne(EditExpenseSaga(expense, reply), reply.Err?)
  {
    match reply { case Ok(_) => case Err(_) => }
  }

  lemma DeleteExpensePutsOne(expenseId: string, reply: Outcome<(), Thrown>)
    ensures CallsOncePutsOne(DeleteExpenseSaga(expenseId, reply), reply.Err?)
  {
    match reply { case Ok(_) => case Err(_) => }
  }

  lemma FetchGroupsPutsOne(reply: Outcome<seq<Group>, Thrown>)
    ensures CallsOncePutsOne(FetchGroupsSaga(reply), reply.Err?)
  {
    match reply { case Ok(_) => case Err(_) => }
  }

  lemma AddGroupPutsOne(group: Group, reply: Outcome<(), Thrown>)
    ensures CallsOncePutsOne(AddGroupSaga(group, reply), reply.Err?)
  {
    match reply { case Ok(_) => case Err(_) => }
  }

  lemma EditGroupPutsOne(group: Group, reply: Outcome<(), Thrown>)
    ensures CallsOncePutsOne(EditGroupSaga(group, reply), reply.Err?)
  {
    match reply { case Ok(_) => case Err(_) => }
  }

  lemma DeleteGroupPutsOne(groupId: string, reply: Outcome<(), Thrown>)
    ensures CallsOncePutsOne(DeleteGroupSaga(groupId, reply), reply.Err?)
  {
    match reply { case Ok(_) => case Err(_) => }
  }

  /** Every request starts a worker that makes one call and puts exactly one action, never a
      request: a failure exactly when the call threw. No other action starts a worker. */
  lemma WorkerPutsOne(a: ExpensesAction, replies: ExpenseReplies)
    ensures Handle(a, replies) != [] <==> a.IsRequest()
    ensures a.IsRequest() ==> CallsOncePutsOne(Handle(a, replies), ReplyFailed(a, replies))
  {
    if a.FetchExpenses? {
      FetchExpensesPutsOne(replies.getExpenses);
    } else if a.AddExpense? {
      AddExpensePutsOne(a.expense, replies.addExpense);
    } else if a.EditExpense? {
      EditExpensePutsOne(a.expense, replies.editExpense);
    } else if a.DeleteExpense? {
      DeleteExpensePutsOne(a.expenseId, replies.deleteExpense);
    } else if a.FetchGroups? {
      FetchGroupsPutsOne(replies.getGroups);
    } else if a.AddGroup? {
      AddGroupPutsOne(a.group, replies.addGroup);
    } else if a.EditGroup? {
      EditGroupPutsOne(a.group, replies.editGroup);
    } else if a.DeleteGroup? {
      DeleteGroupPutsOne(a.groupId, replies.deleteGroup);
    }
  }

  /** A write that goes through puts a success carrying the request's own payload. */
  lemma WriteSuccessEchoesPayload(a: ExpensesAction, replies: ExpenseReplies)
    requires a.IsRequest() && !ReplyFailed(a, replies)
    ensures var puts := Puts(Handle(a, replies));
      |puts| == 1 &&
      match a
      case AddExpense(e) => puts[0] == AddExpenseSuccess(e)
      case EditExpense(e) => puts[0] == EditExpenseSuccess(e)
      case DeleteExpense(id) => puts[0] == DeleteExpenseSuccess(id)
      case AddGroup(g) => puts[0] == AddGroupSuccess(g)
      case EditGroup(g) => puts[0] == EditGroupSuccess(g)
      case DeleteGroup(id) => puts[0] == DeleteGroupSuccess(id)
      case _ => true
  {
    WorkerPutsOne(a, replies);
  }

  /** A request and its worker's put leave the slice settled: loading is down, the error is
      set exactly when the call threw, a success message exactly when it did not (for an edit,
      only when the id was found or the message was already there), and a thrown call leaves
      both lists as they were. */
  lemma {:induction false} RunSettles(s: ExpensesState, a: ExpensesAction, replies: ExpenseReplies)
    requires a.IsRequest()
    ensures var r := ReduceAll(Reduce(s, a), Puts(Handle(a, replies)));
      !r.loading && (r.error.Some? <==> ReplyFailed(a, replies)) &&
      (ReplyFailed(a, replies) ==> r.expenses == s.expenses && r.groups == s.groups && r.success.None?) &&
      (!ReplyFailed(a, replies) && !a.EditExpense? && !a.EditGroup? ==> r.success.Some?)
  {
    var t := Reduce(s, a);
    WorkerPutsOne(a, replies);
    var x := Puts(Handle(a, replies))[0];
    assert Puts(Handle(a, replies)) == [x];
    FoldOne(Reduce, t, x);
  }

  /** An add that goes through appends the payload itself: the slice ends with what was asked
      for, since nothing is read back from the service. */
  lemma {:induction false} AddRunAppendsPayload(s: ExpensesState, e: Expense)
    ensures var r := ReduceAll(Reduce(s, AddExpense(e)), Puts(AddExpenseSaga(e, Ok(()))));
      r.expenses == s.expenses + [e] && r.groups == s.groups && r.success == Some(ExpenseAdded)
  {
    FoldOne(Reduce, Reduce(s, AddExpense(e)), AddExpenseSuccess(e));
  }
}
