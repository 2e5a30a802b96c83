/** The `expense` slice of the newer store (src/store/slices/expenseSlice.ts): the last page
    of expenses the server returned (null before the first fetch), a loading flag and the last
    error. */
module ExpenseSlice {
  import opened Common
  import opened Entities
  import Lists

  datatype ExpenseState = ExpenseState(
    expenses: Option<FetchExpensesResponseData>, loading: bool, error: Option<string>)

  const Initial := ExpenseState(None, false, None)

  datatype ExpenseAction =
    | FetchExpensesRequest
    | FetchExpensesSuccess(page: FetchExpensesResponseData)
    | FetchExpensesFailure(message: string)
    | CreateExpenseRequest(newExpense: CreateExpense)
    | CreateExpenseSuccess(expense: ExpenseResponseItem)
    | CreateExpenseFailure(message: string)
    | UpdateExpenseRequest(update: UpdateExpensePayload)
    | UpdateExpenseSuccess(expense: ExpenseResponseItem)
    | UpdateExpenseFailure(message: string)
    | DeleteExpenseRequest(expenseId: string)
    | DeleteExpenseSuccess(expenseId: string)
    | DeleteExpenseFailure(message: string)
  {
    predicate IsRequest() {
      FetchExpensesRequest? || CreateExpenseRequest? || UpdateExpenseRequest? || DeleteExpenseRequest?
    }

    predicate IsFailure() {
      FetchExpensesFailure? || CreateExpenseFailure? || UpdateExpenseFailure? || DeleteExpenseFailure?
    }
  }

  /** Applies `f` to the list inside the loaded page; a null page stays null. */
  function MapPage(p: Option<FetchExpensesResponseData>, f: seq<ExpenseResponseItem> -> seq<ExpenseResponseItem>)
    : Option<FetchExpensesResponseData>
  {
    match p
    case None => None
    case Some(page) => Some(page.(expenses := f(page.expenses)))
  }

  /** The update's merge `{ ...item, ...payload }`: every property of an expense is required,
      so the payload overwrites all of them and the merge is the payload itself. The first
      expense with the payload's id is replaced. */
  function ReplaceFirst(xs: seq<ExpenseResponseItem>, e: ExpenseResponseItem): seq<ExpenseResponseItem> {
    Lists.ReplaceFirstById(xs, ExpenseId, e)
  }

  function Reduce(s: ExpenseState, a: ExpenseAction): ExpenseState {
    match a
    case FetchExpensesRequest => s.(loading := true, error := None)
    case FetchExpensesSuccess(page) => s.(loading := false, expenses := Some(page))
    case FetchExpensesFailure(m) => s.(loading := false, error := Some(m))
    case CreateExpenseRequest(_) => s.(loading := true, error := None)
    case CreateExpenseSuccess(e) => s.(loading := false, expenses := MapPage(s.expenses, xs => xs + [e]))
    case CreateExpenseFailure(m) => s.(loading := false, error := Some(m))
    case UpdateExpenseRequest(_) => s.(loading := true, error := None)
    case UpdateExpenseSuccess(e) => s.(loading := false, expenses := MapPage(s.expenses, xs => ReplaceFirst(xs, e)))
    case UpdateExpenseFailure(m) => s.(loading := false, error := Some(m))
    case DeleteExpenseRequest(_) => s.(loading := true, error := None)
    case DeleteExpenseSuccess(id) =>
      s.(loading := false, expenses := MapPage(s.expenses, xs => Lists.RemoveById(xs, ExpenseId, id)))
    case DeleteExpenseFailure(m) => s.(loading := false, error := Some(m))
  }

  function ReduceAll(s: ExpenseState, actions: seq<ExpenseAction>): ExpenseState {
    Fold(Reduce, s, actions)
  }

  /** Unlike the other resource slices, every request here also clears the error; the page
      itself is untouched. */
  lemma RequestClearsError(s: ExpenseState, a: ExpenseAction)
    requires a.IsRequest()
    ensures Reduce(s, a) == s.(loading := true, error := None)
  {
  }

  lemma FailureKeepsExpenses(s: ExpenseState, a: ExpenseAction)
    requires a.IsFailure()
    ensures Reduce(s, a).expenses == s.expenses
    ensures Reduce(s, a).error == Some(a.message) && !Reduce(s, a).loading
  {
  }

  /** The fetched page is stored verbatim, paging fields included. */
  lemma FetchStoresPage(s: ExpenseState, page: FetchExpensesResponseData)
    ensures Reduce(s, FetchExpensesSuccess(page)).expenses == Some(page)
    ensures !Reduce(s, FetchExpensesSuccess(page)).loading
  {
  }

  /** Create appends to the loaded page and leaves its paging fields alone; before the first
      fetch there is no page and it stays null. */
  lemma CreateAppendsToPage(s: ExpenseState, e: ExpenseResponseItem)
    ensures s.expenses.None? ==> Reduce(s, CreateExpenseSuccess(e)).expenses.None?
    ensures s.expenses.Some? ==>
      var r := Reduce(s, CreateExpenseSuccess(e)).expenses;
      r.Some? && r.value.expenses == s.expenses.value.expenses + [e] &&
      r.value.total == s.expenses.value.total && r.value.currentPage == s.expenses.value.currentPage &&
      r.value.totalPages == s.expenses.value.totalPages && r.value.pageSize == s.expenses.value.pageSize
  {
  }

  /** Update replaces only the first expense with the payload's id; with a null page or no such
      expense the data is unchanged. */
  lemma UpdateReplacesFirstMatch(s: ExpenseState, e: ExpenseResponseItem)
    ensures s.expenses.None? || !Lists.HasId(s.expenses.value.expenses, ExpenseId, e.id) ==>
      Reduce(s, UpdateExpenseSuccess(e)) == s.(loading := false)
    ensures s.expenses.Some? ==>
      var before := s.expenses.value.expenses;
      var r := Reduce(s, UpdateExpenseSuccess(e)).expenses;
      r.Some? && r.value == s.expenses.value.(expenses := r.value.expenses) &&
      |r.value.expenses| == |before| &&
      forall i :: 0 <= i < |before| ==>
        r.value.expenses[i] == if Lists.IsFirstMatch(before, ExpenseId, e.id, i) then e else before[i]
  {
  }

  /** Delete filters the list inside the page and does not adjust `total` or the other paging
      fields; a null page stays null; a second delete of the same id changes nothing more. */
  lemma DeleteFiltersPage(s: ExpenseState, id: string)
    ensures s.expenses.None? ==> Reduce(s, DeleteExpenseSuccess(id)).expenses.None?
    ensures s.expenses.Some? ==>
      var r := Reduce(s, DeleteExpenseSuccess(id)).expenses;
      r.Some? && r.value == s.expenses.value.(expenses := r.value.expenses) &&
      !Lists.HasId(r.value.expenses, ExpenseId, id) &&
      Lists.IsSubsequence(r.value.expenses, s.expenses.value.expenses)
    ensures var once := Reduce(s, DeleteExpenseSuccess(id));
      Reduce(once, DeleteExpenseSuccess(id)) == once
  {
    if s.expenses.Some? {
      Lists.RemoveByIdIsSubsequence(s.expenses.value.expenses, ExpenseId, id);
      Lists.RemoveByIdIdempotent(s.expenses.value.expenses, ExpenseId, id);
    }
  }

  class ExpenseStore {
    var expenses: Option<FetchExpensesResponseData>
    var loading: bool
    var error: Option<string>

    function State(): ExpenseState
      reads this
    {
      ExpenseState(expenses, loading, error)
    }

    constructor ()
      ensures State() == Initial
    {
      expenses := None;
      loading := false;
      error := None;
    }

    method FetchExpensesRequest()
      modifies this
      ensures State() == Reduce(old(State()), ExpenseAction.FetchExpensesRequest)
    {
      loading := true;
      error := None;
    }

    method FetchExpensesSuccess(payload: FetchExpensesResponseData)
      modifies this
      ensures State() == Reduce(old(State()), ExpenseAction.FetchExpensesSuccess(payload))
    {
      loading := false;
      expenses := Some(payload);
    }

    method FetchExpensesFailure(payload: string)
      modifies this
      ensures State() == Reduce(old(State()), ExpenseAction.FetchExpensesFailure(payload))
    {
      loading := false;
      error := Some(payload);
    }

    method CreateExpenseRequest(payload: CreateExpense)
      modifies this
      ensures State() == Reduce(old(State()), ExpenseAction.CreateExpenseRequest(payload))
    {
      loading := true;
      error := None;
    }

    method CreateExpenseSuccess(payload: ExpenseResponseItem)
      modifies this
      ensures State() == Reduce(old(State()), ExpenseAction.CreateExpenseSuccess(payload))
    {
      loading := false;
      if expenses.Some? {
        var page := expenses.value;
        expenses := Some(page.(expenses := page.expenses + [payload]));
      }
    }

    method CreateExpenseFailure(payload: string)
      modifies this
      ensures State() == Reduce(old(State()), ExpenseAction.CreateExpenseFailure(payload))
    {
      loading := false;
      error := Some(payload);
    }

    method UpdateExpenseRequest(payload: UpdateExpensePayload)
      modifies this
      ensures State() == Reduce(old(State()), ExpenseAction.UpdateExpenseRequest(payload))
    {
      loading := true;
      error := None;
    }

    method UpdateExpenseSuccess(payload: ExpenseResponseItem)
      modifies this
      ensures State() == Reduce(old(State()), ExpenseAction.UpdateExpenseSuccess(payload))
    {
      loading := false;
      if expenses.Some? {
        var page := expenses.value;
        var index := Lists.FindIndexById(page.expenses, ExpenseId, payload.id);
        if index != -1 {
          expenses := Some(page.(expenses := page.expenses[index := payload]));
        }
      }
    }

    method UpdateExpenseFailure(payload: string)
      modifies this
      ensures State() == Reduce(old(State()), ExpenseAction.UpdateExpenseFailure(payload))
    {
      loading := false;
      error := Some(payload);
    }

    method DeleteExpenseRequest(payload: string)
      modifies this
      ensures State() == Reduce(old(State()), ExpenseAction.DeleteExpenseRequest(payload))
    {
      loading := true;
      error := None;
    }

    method DeleteExpenseSuccess(payload: string)
      modifies this
      ensures State() == Reduce(old(State()), ExpenseAction.DeleteExpenseSuccess(payload))
    {
      loading := false;
      if expenses.Some? {
        var page := expenses.value;
        expenses := Some(page.(expenses := Lists.RemoveById(page.expenses, ExpenseId, payload)));
      }
    }

    method DeleteExpenseFailure(payload: string)
      modifies this
      ensures State() == Reduce(old(State()), ExpenseAction.DeleteExpenseFailure(payload))
    {
      loading := false;
      error := Some(payload);
    }
  }
}
