/** The legacy `settings` slice (src/store/settingsSlice.ts): which categories and payment
    methods are visible, as maps from id to flag, with a loading flag and two messages. */
module LegacySettingsSlice {
  import opened Common

  type Visibility = map<string, bool>

  datatype SettingsState = SettingsState(
    visibleCategories: Visibility, visiblePaymentMethods: Visibility, loading: bool,
    error: Option<string>, success: Option<string>)

  const Initial := SettingsState(map[], map[], false, None, None)

  const SettingsFetched := "Settings fetched successfully"
  const SettingsUpdated := "Settings updated successfully"

  datatype SettingsAction =
    | FetchSettings
    | FetchSettingsSuccess(categories: Visibility, paymentMethods: Visibility)
    | FetchSettingsFailure(message: string)
    | UpdateVisibleCategories(categories: Visibility)
    | UpdateVisiblePaymentMethods(paymentMethods: Visibility)
    | UpdateSettingsSuccess
    | UpdateSettingsFailure(message: string)
    | ClearSettingsMessages

  function Reduce(s: SettingsState, a: SettingsAction): SettingsState {
    match a
    case FetchSettings => s.(loading := true, error := None, success := None)
    case FetchSettingsSuccess(cs, pms) =>
      s.(loading := false, visibleCategories := cs, visiblePaymentMethods := pms, success := Some(SettingsFetched))
    case FetchSettingsFailure(m) => s.(loading := false, error := Some(m), success := None)
    case UpdateVisibleCategories(cs) => s.(visibleCategories := cs)
    case UpdateVisiblePaymentMethods(pms) => s.(visiblePaymentMethods := pms)
    case UpdateSettingsSuccess => s.(loading := false, success := Some(SettingsUpdated))
    case UpdateSettingsFailure(m) => s.(loading := false, error := Some(m), success := None)
    case ClearSettingsMessages => s.(error := None, success := None)
  }

  function ReduceAll(s: SettingsState, actions: seq<SettingsAction>): SettingsState {
    Fold(Reduce, s, actions)
  }

  /** A fetch raises loading and clears both messages, keeping both maps. */
  lemma FetchClearsMessages(s: SettingsState)
    ensures var r := Reduce(s, FetchSettings);
      r.loading && r.error.None? && r.success.None? &&
      r.visibleCategories == s.visibleCategories && r.visiblePaymentMethods == s.visiblePaymentMethods
  {
  }

  /** A fetch success replaces both maps with the payload's; an earlier error survives it. */
  lemma FetchSuccessReplacesBoth(s: SettingsState, cs: Visibility, pms: Visibility)
    ensures var r := Reduce(s, FetchSettingsSuccess(cs, pms));
      r.visibleCategories == cs && r.visiblePaymentMethods == pms && !r.loading &&
      r.success == Some(SettingsFetched) && r.error == s.error
  {
  }

  /** Each update replaces its own map and nothing else, not even loading. */
  lemma UpdatesReplaceOneMap(s: SettingsState, m: Visibility)
    ensures Reduce(s, UpdateVisibleCategories(m)) == s.(visibleCategories := m)
    ensures Reduce(s, UpdateVisiblePaymentMethods(m)) == s.(visiblePaymentMethods := m)
    ensures Reduce(s, UpdateVisibleCategories(m)).visiblePaymentMethods == s.visiblePaymentMethods
    ensures Reduce(s, UpdateVisiblePaymentMethods(m)).visibleCategories == s.visibleCategories
  {
  }

  /** Both failures store the message, drop the success message and keep both maps. */
  lemma FailureKeepsMaps(s: SettingsState, m: string)
    ensures var r := Reduce(s, FetchSettingsFailure(m));
      r.error == Some(m) && r.success.None? && !r.loading &&
      r.visibleCategories == s.visibleCategories && r.visiblePaymentMethods == s.visiblePaymentMethods
    ensures var r := Reduce(s, UpdateSettingsFailure(m));
      r.error == Some(m) && r.success.None? && !r.loading &&
      r.visibleCategories == s.visibleCategories && r.visiblePaymentMethods == s.visiblePaymentMethods
  {
  }

  lemma ClearMessagesOnlyMessages(s: SettingsState)
    ensures var r := Reduce(s, ClearSettingsMessages);
      r.error.None? && r.success.None? && r == s.(error := r.error, success := r.success)
  {
  }

  class SettingsStore {
    var visibleCategories: Visibility
    var visiblePaymentMethods: Visibility
    var loading: bool
    var error: Option<string>
    var success: Option<string>

    function State(): SettingsState
      reads this
    {
      SettingsState(visibleCategories, visiblePaymentMethods, loading, error, success)
    }

    constructor ()
      ensures State() == Initial
    {
      visibleCategories := map[];
      visiblePaymentMethods := map[];
      loading := false;
      error := None;
      success := None;
    }

    method FetchSettings()
      modifies this
      ensures State() == Reduce(old(State()), SettingsAction.FetchSettings)
    {
      loading := true;
      error := None;
      success := None;
    }

    method FetchSettingsSuccess(categories: Visibility, paymentMethods: Visibility)
      modifies this
      ensures State() == Reduce(old(State()), SettingsAction.FetchSettingsSuccess(categories, paymentMethods))
    {
      loading := false;
      visibleCategories := categories;
      visiblePaymentMethods := paymentMethods;
      success := Some(SettingsFetched);
    }

    method FetchSettingsFailure(payload: string)
      modifies this
      ensures State() == Reduce(old(State()), SettingsAction.FetchSettingsFailure(payload))
    {
      loading := false;
      error := Some(payload);
      success := None;
    }

    method UpdateVisibleCategories(payload: Visibility)
      modifies this
      ensures State() == Reduce(old(State()), SettingsAction.UpdateVisibleCategories(payload))
    {
      visibleCategories := payload;
    }

    method UpdateVisiblePaymentMethods(payload: Visibility)
      modifies this
      ensures State() == Reduce(old(State()), SettingsAction.UpdateVisiblePaymentMethods(payload))
    {
      visiblePaymentMethods := payload;
    }

    method UpdateSettingsSuccess()
      modifies this
      ensures State() == Reduce(old(State()), SettingsAction.UpdateSettingsSuccess)
    {
      loading := false;
      success := Some(SettingsUpdated);
    }

    method UpdateSettingsFailure(payload: string)
      modifies this
      ensures State() == Reduce(old(State()), SettingsAction.UpdateSettingsFailure(payload))
    {
      loading := false;
      error := Some(payload);
      success := None;
    }

    method ClearSettingsMessages()
      modifies this
      ensures State() == Reduce(old(State()), SettingsAction.ClearSettingsMessages)
    {
      error := None;
      success := None;
    }
  }
}
