/** The `settings` slice of the newer store (src/store/slices/settingsSlice.ts): the user's
    settings record (null until loaded), a loading flag and the last error. */
module SettingsSlice {
  import opened Common
  import opened Entities

  datatype SettingsState = SettingsState(settingsData: Option<SettingsData>, loading: bool, error: Option<string>)

  const Initial := SettingsState(None, false, None)

  datatype SettingsAction =
    | FetchSettingsRequest(userId: string)
    | FetchSettingsSuccess(settings: SettingsData)
    | FetchSettingsFailure(message: string)
    | SaveSettingsRequest(userId: string, settingsData: SettingsData)
    | SaveSettingsSuccess(settings: SettingsData)
    | SaveSettingsFailure(message: string)
  {
    predicate IsRequest() { FetchSettingsRequest? || SaveSettingsRequest? }

    predicate IsSuccess() { FetchSettingsSuccess? || SaveSettingsSuccess? }

    predicate IsFailure() { FetchSettingsFailure? || SaveSettingsFailure? }
  }

  function Reduce(s: SettingsState, a: SettingsAction): SettingsState {
    match a
    case FetchSettingsRequest(_) => s.(loading := true)
    case FetchSettingsSuccess(d) => s.(loading := false, settingsData := Some(d), error := None)
    case FetchSettingsFailure(m) => s.(loading := false, error := Some(m))
    case SaveSettingsRequest(_, _) => s.(loading := true)
    case SaveSettingsSuccess(d) => s.(loading := false, settingsData := Some(d), error := None)
    case SaveSettingsFailure(m) => s.(loading := false, error := Some(m))
  }

  function ReduceAll(s: SettingsState, actions: seq<SettingsAction>): SettingsState {
    Fold(Reduce, s, actions)
  }

  /** A request raises `loading` and leaves the data and a stale error as they were. */
  lemma RequestOnlyRaisesLoading(s: SettingsState, a: SettingsAction)
    requires a.IsRequest()
    ensures Reduce(s, a) == s.(loading := true)
  {
  }

  /** Both successes store the payload and clear the error. */
  lemma SuccessStoresSettings(s: SettingsState, a: SettingsAction)
    requires a.IsSuccess()
    ensures Reduce(s, a) == SettingsState(Some(a.settings), false, None)
  {
  }

  lemma FailureKeepsSettings(s: SettingsState, a: SettingsAction)
    requires a.IsFailure()
    ensures Reduce(s, a) == s.(loading := false, error := Some(a.message))
  {
  }

  /** Exactly the requests leave the slice loading. */
  lemma LoadingIffRequest(s: SettingsState, a: SettingsAction)
    ensures Reduce(s, a).loading <==> a.IsRequest()
  {
  }

  class SettingsStore {
    var settingsData: Option<SettingsData>
    var loading: bool
    var error: Option<string>

    function State(): SettingsState
      reads this
    {
      SettingsState(settingsData, loading, error)
    }

    constructor ()
      ensures State() == Initial
    {
      settingsData := None;
      loading := false;
      error := None;
    }

    method FetchSettingsRequest(payload: string)
      modifies this
      ensures State() == Reduce(old(State()), SettingsAction.FetchSettingsRequest(payload))
    {
      loading := true;
    }

    method FetchSettingsSuccess(payload: SettingsData)
      modifies this
      ensures State() == Reduce(old(State()), SettingsAction.FetchSettingsSuccess(payload))
    {
      loading := false;
      settingsData := Some(payload);
      error := None;
    }

    method FetchSettingsFailure(payload: string)
      modifies this
      ensures State() == Reduce(old(State()), SettingsAction.FetchSettingsFailure(payload))
    {
      loading := false;
      error := Some(payload);
    }

    method SaveSettingsRequest(userId: string, data: SettingsData)
      modifies this
      ensures State() == Reduce(old(State()), SettingsAction.SaveSettingsRequest(userId, data))
    {
      loading := true;
    }

    method SaveSettingsSuccess(payload: SettingsData)
      modifies this
      ensures State() == Reduce(old(State()), SettingsAction.SaveSettingsSuccess(payload))
    {
      loading := false;
      settingsData := Some(payload);
      error := None;
    }

    method SaveSettingsFailure(payload: string)
      modifies this
      ensures State() == Reduce(old(State()), SettingsAction.SaveSettingsFailure(payload))
    {
      loading := false;
      error := Some(payload);
    }
  }
}
