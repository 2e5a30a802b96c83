/** The legacy `expenses` slice (src/store/expenseSlice.ts): expenses and groups in one state,
    with one loading flag, an error and a success message shared by both lists. */
module LegacyExpenseSlice {
  import opened Common
  import opened LegacyEntities
  import Lists

  datatype ExpensesState = ExpensesState(
    expenses: seq<Expense>, groups: seq<Group>, loading: bool,
    error: Option<string>, success: Option<string>)

  const Initial := ExpensesState([], [], false, None, None)

  const ExpensesFetched := "Expenses fetched successfully"
  const ExpenseAdded := "Expense added successfully"
  const ExpenseEdited := "Expense edited successfully"
  const ExpenseDeleted := "Expense deleted successfully"
  const GroupsFetched := "Groups fetched successfully"
  const GroupAdded := "Group added successfully"
  const GroupEdited := "Group edited successfully"
  const GroupDeleted := "Group deleted successfully"

  datatype ExpensesAction =
    | FetchExpenses
    | FetchExpensesSuccess(expenses: seq<Expense>)
    | FetchExpensesFailure(message: string)
    | AddExpense(expense: Expense)
    | AddExpenseSuccess(expense: Expense)
    | AddExpenseFailure(message: string)
    | EditExpense(expense: Expense)
    | EditExpenseSuccess(expense: Expense)
    | EditExpenseFailure(message: string)
    | DeleteExpense(expenseId: string)
    | DeleteExpenseSuccess(expenseId: string)
    | DeleteExpenseFailure(message: string)
    | FetchGroups
    | FetchGroupsSuccess(groups: seq<Group>)
    | FetchGroupsFailure(message: string)
    | AddGroup(group: Group)
    | AddGroupSuccess(group: Group)
    | AddGroupFailure(message: string)
    | EditGroup(group: Group)
    | EditGroupSuccess(group: Group)
    | EditGroupFailure(message: string)
    | DeleteGroup(groupId: string)
    | DeleteGroupSuccess(groupId: string)
    | DeleteGroupFailure(message: string)
    | ClearMessages
  {
    predicate IsRequest() {
      FetchExpenses? || AddExpense? || EditExpense? || DeleteExpense? ||
      FetchGroups? || AddGroup? || EditGroup? || DeleteGroup?
    }

    predicate IsFailure() {
      FetchExpensesFailure? || AddExpenseFailure? || EditExpenseFailure? || DeleteExpenseFailure? ||
      FetchGroupsFailure? || AddGroupFailure? || EditGroupFailure? || DeleteGroupFailure?
    }

    predicate IsExpenseAction() {
      FetchExpenses? || FetchExpensesSuccess? || FetchExpensesFailure? ||
      AddExpense? || AddExpenseSuccess? || AddExpenseFailure? ||
      EditExpense? || EditExpenseSuccess? || EditExpenseFailure? ||
      DeleteExpense? || DeleteExpenseSuccess? || DeleteExpenseFailure?
    }

    predicate IsGroupAction() {
      FetchGroups? || FetchGroupsSuccess? || FetchGroupsFailure? ||
      AddGroup? || AddGroupSuccess? || AddGroupFailure? ||
      EditGroup? || EditGroupSuccess? || EditGroupFailure? ||
      DeleteGroup? || DeleteGroupSuccess? || DeleteGroupFailure?
    }
  }

  function Reduce(s: ExpensesState, a: ExpensesAction): ExpensesState {
    if a.IsRequest() then s.(loading := true, error := None, success := None)
    else if a.IsFailure() then s.(loading := false, error := Some(a.message), success := None)
    else match a
      case FetchExpensesSuccess(es) => s.(loading := false, expenses := es, success := Some(ExpensesFetched))
      case AddExpenseSuccess(e) => s.(loading := false, expenses := s.expenses + [e], success := Some(ExpenseAdded))
      case EditExpenseSuccess(e) =>
        if Lists.HasId(s.expenses, ExpenseId, e.id) then
          s.(loading := false, expenses := Lists.ReplaceFirstById(s.expenses, ExpenseId, e), success := Some(ExpenseEdited))
        else s.(loading := false)
      case DeleteExpenseSuccess(id) =>
        s.(loading := false, expenses := Lists.RemoveById(s.expenses, ExpenseId, id), success := Some(ExpenseDeleted))
      case FetchGroupsSuccess(gs) => s.(loading := false, groups := gs, success := Some(GroupsFetched))
      case AddGroupSuccess(g) => s.(loading := false, groups := s.groups + [g], success := Some(GroupAdded))
      case EditGroupSuccess(g) =>
        if Lists.HasId(s.groups, GroupId, g.id) then
          s.(loading := false, groups := Lists.ReplaceFirstById(s.groups, GroupId, g), success := Some(GroupEdited))
        else s.(loading := false)
      case DeleteGroupSuccess(id) =>
        s.(loading := false, groups := Lists.RemoveById(s.groups, GroupId, id), success := Some(GroupDeleted))
      case ClearMessages => s.(error := None, success := None)
      case _ => s
  }

  function ReduceAll(s: ExpensesState, actions: seq<ExpensesAction>): ExpensesState {
    Fold(Reduce, s, actions)
  }

  /** Every request raises loading and clears both messages, and touches neither list. */
  lemma RequestResetsMessages(s: ExpensesState, a: ExpensesAction)
    requires a.IsRequest()
    ensures var r := Reduce(s, a);
      r.loading && r.error.None? && r.success.None? && r.expenses == s.expenses && r.groups == s.groups
  {
  }

  /** The two lists share the status fields but nothing else: expense actions never change
      the groups, group actions never change the expenses. */
  lemma ListsAreIndependent(s: ExpensesState, a: ExpensesAction)
    ensures a.IsExpenseAction() ==> Reduce(s, a).groups == s.groups
    ensures a.IsGroupAction() ==> Reduce(s, a).expenses == s.expenses
    ensures !a.IsExpenseAction() && !a.IsGroupAction() ==>
      Reduce(s, a).expenses == s.expenses && Reduce(s, a).groups == s.groups
  {
  }

  /** Every failure stores its message, drops the success message, and keeps both lists. */
  lemma FailureKeepsLists(s: ExpensesState, a: ExpensesAction)
    requires a.IsFailure()
    ensures var r := Reduce(s, a);
      !r.loading && r.error == Some(a.message) && r.success.None? &&
      r.expenses == s.expenses && r.groups == s.groups
  {
  }

  /** A fetch success replaces its list and, unlike a request, leaves a stale error in place. */
  lemma FetchReplacesList(s: ExpensesState, es: seq<Expense>, gs: seq<Group>)
    ensures var r := Reduce(s, FetchExpensesSuccess(es));
      r.expenses == es && r.groups == s.groups && r.error == s.error && r.success == Some(ExpensesFetched)
    ensures var r := Reduce(s, FetchGroupsSuccess(gs));
      r.groups == gs && r.expenses == s.expenses && r.error == s.error && r.success == Some(GroupsFetched)
  {
  }

  /** Add appends at the end of its list, earlier elements in place, and reports success. */
  lemma AddAppends(s: ExpensesState, e: Expense, g: Group)
    ensures var r := Reduce(s, AddExpenseSuccess(e));
      |r.expenses| == |s.expenses| + 1 && r.expenses[..|s.expenses|] == s.expenses &&
      r.expenses[|s.expenses|] == e && r.success == Some(ExpenseAdded)
    ensures var r := Reduce(s, AddGroupSuccess(g));
      |r.groups| == |s.groups| + 1 && r.groups[..|s.groups|] == s.groups &&
      r.groups[|s.groups|] == g && r.success == Some(GroupAdded)
  {
  }

  /** Edit replaces the first expense with the payload's id and reports success only when
      there is one; otherwise only loading changes, and an earlier success message stays. */
  lemma EditExpenseOnlyOnMatch(s: ExpensesState, e: Expense)
    ensures var r := Reduce(s, EditExpenseSuccess(e));
      |r.expenses| == |s.expenses| &&
      (forall i :: 0 <= i < |r.expenses| ==>
        r.expenses[i] == if Lists.IsFirstMatch(s.expenses, ExpenseId, e.id, i) then e else s.expenses[i]) &&
      (r.success == Some(ExpenseEdited) <==> Lists.HasId(s.expenses, ExpenseId, e.id) || s.success == Some(ExpenseEdited))
    ensures !Lists.HasId(s.expenses, ExpenseId, e.id) ==> Reduce(s, EditExpenseSuccess(e)) == s.(loading := false)
  {
  }

  lemma EditGroupOnlyOnMatch(s: ExpensesState, g: Group)
    ensures var r := Reduce(s, EditGroupSuccess(g));
      |r.groups| == |s.groups| &&
      (forall i :: 0 <= i < |r.groups| ==>
        r.groups[i] == if Lists.IsFirstMatch(s.groups, GroupId, g.id, i) then g else s.groups[i]) &&
      (r.success == Some(GroupEdited) <==> Lists.HasId(s.groups, GroupId, g.id) || s.success == Some(GroupEdited))
    ensures !Lists.HasId(s.groups, GroupId, g.id) ==> Reduce(s, EditGroupSuccess(g)) == s.(loading := false)
  {
  }

  /** Delete removes every expense with the id, keeps the rest in order, and repeating it
      changes nothing more. */
  lemma DeleteExpenseRemovesAll(s: ExpensesState, id: string)
    ensures var r := Reduce(s, DeleteExpenseSuccess(id)).expenses;
      !Lists.HasId(r, ExpenseId, id) && Lists.IsSubsequence(r, s.expenses) &&
      forall i :: 0 <= i < |s.expenses| && s.expenses[i].id != id ==> s.expenses[i] in r
    ensures var once := Reduce(s, DeleteExpenseSuccess(id)); Reduce(once, DeleteExpenseSuccess(id)) == once
  {
    var r := Lists.RemoveById(s.expenses, ExpenseId, id);
    assert Reduce(s, DeleteExpenseSuccess(id)) == s.(loading := false, expenses := r, success := Some(ExpenseDeleted));
    Lists.RemoveByIdIsSubsequence(s.expenses, ExpenseId, id);
    Lists.RemoveByIdIdempotent(s.expenses, ExpenseId, id);
  }

  /** The same for groups. */
  lemma DeleteGroupRemovesAll(s: ExpensesState, id: string)
    ensures var r := Reduce(s, DeleteGroupSuccess(id)).groups;
      !Lists.HasId(r, GroupId, id) && Lists.IsSubsequence(r, s.groups) &&
      forall i :: 0 <= i < |s.groups| && s.groups[i].id != id ==> s.groups[i] in r
    ensures var once := Reduce(s, DeleteGroupSuccess(id)); Reduce(once, DeleteGroupSuccess(id)) == once
  {
    var r := Lists.RemoveById(s.groups, GroupId, id);
    assert Reduce(s, DeleteGroupSuccess(id)) == s.(loading := false, groups := r, success := Some(GroupDeleted));
    Lists.RemoveByIdIsSubsequence(s.groups, GroupId, id);
    Lists.RemoveByIdIdempotent(s.groups, GroupId, id);
  }

  /** clearMessages nulls the error and the success message and nothing else. */
  lemma ClearMessagesOnlyMessages(s: ExpensesState)
    ensures var r := Reduce(s, ClearMessages);
      r.error.None? && r.success.None? && r == s.(error := r.error, success := r.success)
  {
  }

  class ExpensesStore {
    var expenses: seq<Expense>
    var groups: seq<Group>
    var loading: bool
    var error: Option<string>
    var success: Option<string>

    function State(): ExpensesState
      reads this
    {
      ExpensesState(expenses, groups, loading, error, success)
    }

    constructor ()
      ensures State() == Initial
    {
      expenses := [];
      groups := [];
      loading := false;
      error := None;
      success := None;
    }

    /** The body every request reducer shares. */
    method StartRequest()
      modifies this
      ensures State() == old(State()).(loading := true, error := None, success := None)
    {
      loading := true;
      error := None;
      success := None;
    }

    /** The body every failure reducer shares. */
    method Fail(message: string)
      modifies this
      ensures State() == old(State()).(loading := false, error := Some(message), success := None)
    {
      loading := false;
      error := Some(message);
      success := None;
    }

    method FetchExpenses()
      modifies this
      ensures State() == Reduce(old(State()), ExpensesAction.FetchExpenses)
    {
      StartRequest();
    }

    method FetchExpensesSuccess(payload: seq<Expense>)
      modifies this
      ensures State() == Reduce(old(State()), ExpensesAction.FetchExpensesSuccess(payload))
    {
      loading := false;
      expenses := payload;
      success := Some(ExpensesFetched);
    }

    method FetchExpensesFailure(payload: string)
      modifies this
      ensures State() == Reduce(old(State()), ExpensesAction.FetchExpensesFailure(payload))
    {
      Fail(payload);
    }

    method AddExpense(payload: Expense)
      modifies this
      ensures State() == Reduce(old(State()), ExpensesAction.AddExpense(payload))
    {
      StartRequest();
    }

    method AddExpenseSuccess(payload: Expense)
      modifies this
      ensures State() == Reduce(old(State()), ExpensesAction.AddExpenseSuccess(payload))
    {
      loading := false;
      expenses := expenses + [payload];
      success := Some(ExpenseAdded);
    }

    method AddExpenseFailure(payload: string)
      modifies this
      ensures State() == Reduce(old(State()), ExpensesAction.AddExpenseFailure(payload))
    {
      Fail(payload);
    }

    method EditExpense(payload: Expense)
      modifies this
      ensures State() == Reduce(old(State()), ExpensesAction.EditExpense(payload))
    {
      StartRequest();
    }

    method EditExpenseSuccess(payload: Expense)
      modifies this
      ensures State() == Reduce(old(State()), ExpensesAction.EditExpenseSuccess(payload))
    {
      loading := false;
      var index := Lists.FindIndexById(expenses, ExpenseId, payload.id);
      if index != -1 {
        expenses := expenses[index := payload];
        success := Some(ExpenseEdited);
      }
    }

    method EditExpenseFailure(payload: string)
      modifies this
      ensures State() == Reduce(old(State()), ExpensesAction.EditExpenseFailure(payload))
    {
      Fail(payload);
    }

    method DeleteExpense(payload: string)
      modifies this
      ensures State() == Reduce(old(State()), ExpensesAction.DeleteExpense(payload))
    {
      StartRequest();
    }

    method DeleteExpenseSuccess(payload: string)
      modifies this
      ensures State() == Reduce(old(State()), ExpensesAction.DeleteExpenseSuccess(payload))
    {
      loading := false;
      expenses := Lists.RemoveById(expenses, ExpenseId, payload);
      success := Some(ExpenseDeleted);
    }

    method DeleteExpenseFailure(payload: string)
      modifies this
      ensures State() == Reduce(old(State()), ExpensesAction.DeleteExpenseFailure(payload))
    {
      Fail(payload);
    }

    method FetchGroups()
      modifies this
      ensures State() == Reduce(old(State()), ExpensesAction.FetchGroups)
    {
      StartRequest();
    }

    method FetchGroupsSuccess(payload: seq<Group>)
      modifies this
      ensures State() == Reduce(old(State()), ExpensesAction.FetchGroupsSuccess(payload))
    {
      loading := false;
      groups := payload;
      success := Some(GroupsFetched);
    }

    method FetchGroupsFailure(payload: string)
      modifies this
      ensures State() == Reduce(old(State()), ExpensesAction.FetchGroupsFailure(payload))
    {
      Fail(payload);
    }

    method AddGroup(payload: Group)
      modifies this
      ensures State() == Reduce(old(State()), ExpensesAction.AddGroup(payload))
    {
      StartRequest();
    }

    method AddGroupSuccess(payload: Group)
      modifies this
      ensures State() == Reduce(old(State()), ExpensesAction.AddGroupSuccess(payload))
    {
      loading := false;
      groups := groups + [payload];
      success := Some(GroupAdded);
    }

    method AddGroupFailure(payload: string)
      modifies this
      ensures State() == Reduce(old(State()), ExpensesAction.AddGroupFailure(payload))
    {
      Fail(payload);
    }

    method EditGroup(payload: Group)
      modifies this
      ensures State() == Reduce(old(State()), ExpensesAction.EditGroup(payload))
    {
      StartRequest();
    }

    method EditGroupSuccess(payload: Group)
      modifies this
      ensures State() == Reduce(old(State()), ExpensesAction.EditGroupSuccess(payload))
    {
      loading := false;
      var index := Lists.FindIndexById(groups, GroupId, payload.id);
      if index != -1 {
        groups := groups[index := payload];
        success := Some(GroupEdited);
      }
    }

    method EditGroupFailure(payload: string)
      modifies this
      ensures State() == Reduce(old(State()), ExpensesAction.EditGroupFailure(payload))
    {
      Fail(payload);
    }

    method DeleteGroup(payload: string)
      modifies this
      ensures State() == Reduce(old(State()), ExpensesAction.DeleteGroup(payload))
    {
      StartRequest();
    }

    method DeleteGroupSuccess(payload: string)
      modifies this
      ensures State() == Reduce(old(State()), ExpensesAction.DeleteGroupSuccess(payload))
    {
      loading := false;
      groups := Lists.RemoveById(groups, GroupId, payload);
      success := Some(GroupDeleted);
    }

    method DeleteGroupFailure(payload: string)
      modifies this
      ensures State() == Reduce(old(State()), ExpensesAction.DeleteGroupFailure(payload))
    {
      Fail(payload);
    }

    method ClearMessages()
      modifies this
      ensures State() == Reduce(old(State()), ExpensesAction.ClearMessages)
    {
      error := None;
      success := None;
    }
  }
}
