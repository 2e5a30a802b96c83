/** The `toast` slice of the newer store (src/store/slices/toastSlice.ts): the toast on
    screen, or null when none is. */
module ToastSlice {
  import opened Common
  import opened Entities

  datatype ToastState = ToastState(toast: Option<ToastOptions>)

  const Initial := ToastState(None)

  datatype ToastAction = ShowToast(options: ToastOptions) | HideToast

  /** `{ ...payload, position: payload.position || 'bottom' }` */
  function WithDefaultPosition(options: ToastOptions): (r: ToastOptions)
    ensures r.message == options.message && r.toastType == options.toastType
    ensures r.position == Some(if options.position.Some? then options.position.value else Bottom)
  {
    options.(position := Some(options.position.GetOr(Bottom)))
  }

  function Reduce(s: ToastState, a: ToastAction): ToastState {
    match a
    case ShowToast(options) => ToastState(Some(WithDefaultPosition(options)))
    case HideToast => ToastState(None)
  }

  function ReduceAll(s: ToastState, actions: seq<ToastAction>): ToastState {
    Fold(Reduce, s, actions)
  }

  /** After showToast a toast is on screen with the payload's message and type and a defined
      position: the requested one, or the bottom of the screen. */
  lemma ShowToastShows(s: ToastState, options: ToastOptions)
    ensures var t := Reduce(s, ShowToast(options)).toast;
      t.Some? && t.value.message == options.message && t.value.toastType == options.toastType &&
      t.value.position.Some? &&
      (options.position.Some? ==> t.value.position == options.position) &&
      (options.position.None? ==> t.value.position == Some(Bottom))
  {
  }

  lemma HideToastHides(s: ToastState)
    ensures Reduce(s, HideToast) == Initial
  {
  }

  /** Showing the same toast again changes nothing; neither does hiding twice. */
  lemma ToastIdempotent(s: ToastState, options: ToastOptions)
    ensures Reduce(Reduce(s, ShowToast(options)), ShowToast(options)) == Reduce(s, ShowToast(options))
    ensures Reduce(Reduce(s, HideToast), HideToast) == Reduce(s, HideToast)
  {
  }

  /** Show then hide, from any state, is back where the store started. */
  lemma {:induction false} ShowThenHideIsInitial(s: ToastState, options: ToastOptions)
    ensures ReduceAll(s, [ShowToast(options), HideToast]) == Initial
  {
    var shown := Reduce(s, ShowToast(options));
    assert [ShowToast(options), HideToast][1..] == [HideToast];
    assert ReduceAll(s, [ShowToast(options), HideToast]) == Fold(Reduce, shown, [HideToast]);
    assert Fold(Reduce, shown, [HideToast]) == Reduce(shown, HideToast);
  }

  class ToastStore {
    var toast: Option<ToastOptions>

    function State(): ToastState
      reads this
    {
      ToastState(toast)
    }

    constructor ()
      ensures State() == Initial
    {
      toast := None;
    }

    method ShowToast(payload: ToastOptions)
      modifies this
      ensures State() == Reduce(old(State()), ToastAction.ShowToast(payload))
    {
      var position := if payload.position.Some? then payload.position.value else Bottom;
      toast := Some(payload.(position := Some(position)));
    }

    method HideToast()
      modifies this
      ensures State() == Reduce(old(State()), ToastAction.HideToast)
    {
      toast := None;
    }
  }
}
