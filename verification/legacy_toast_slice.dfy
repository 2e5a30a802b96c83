/** The legacy `toast` slice (src/store/toastSlice.ts): one message whose visibility is a
    flag, so hiding it keeps the text and type. */
module LegacyToastSlice {
  import opened Common

  datatype ToastKind = Success | Error

  datatype ToastState = ToastState(message: string, kind: ToastKind, visible: bool)

  const Initial := ToastState("", Success, false)

  datatype ToastAction =
    | ShowToast(message: string, kind: ToastKind)
    | HideToast

  function Reduce(s: ToastState, a: ToastAction): ToastState {
    match a
    case ShowToast(m, k) => s.(message := m, kind := k, visible := true)
    case HideToast => s.(visible := false)
  }

  function ReduceAll(s: ToastState, actions: seq<ToastAction>): ToastState {
    Fold(Reduce, s, actions)
  }

  /** Showing depends only on the payload: whatever was shown or hidden before, the toast
      afterwards is the payload's, visible. */
  lemma ShowForgetsPrevious(s: ToastState, t: ToastState, m: string, k: ToastKind)
    ensures Reduce(s, ShowToast(m, k)) == Reduce(t, ShowToast(m, k))
    ensures var r := Reduce(s, ShowToast(m, k)); r.visible && r.message == m && r.kind == k
  {
  }

  /** Hiding clears the flag only; message and kind are retained. */
  lemma HideKeepsMessage(s: ToastState)
    ensures var r := Reduce(s, HideToast); !r.visible && r.message == s.message && r.kind == s.kind
  {
  }

  /** Each action applied twice is the same as applied once. */
  lemma {:induction false} ActionsIdempotent(s: ToastState, a: ToastAction)
    ensures ReduceAll(s, [a, a]) == Reduce(s, a)
  {
    FoldTwo(Reduce, s, a, a);
  }

  /** Show after hide shows the new payload, whatever the hidden toast said. */
  lemma {:induction false} ShowAfterHide(s: ToastState, m: string, k: ToastKind)
    ensures ReduceAll(s, [HideToast, ShowToast(m, k)]) == ToastState(m, k, true)
  {
    FoldTwo(Reduce, s, HideToast, ShowToast(m, k));
  }

  class ToastStore {
    var message: string
    var kind: ToastKind
    var visible: bool

    function State(): ToastState
      reads this
    {
      ToastState(message, kind, visible)
    }

    constructor ()
      ensures State() == Initial
    {
      message := "";
      kind := Success;
      visible := false;
    }

    method ShowToast(payloadMessage: string, payloadKind: ToastKind)
      modifies this
      ensures State() == Reduce(old(State()), ToastAction.ShowToast(payloadMessage, payloadKind))
    {
      message := payloadMessage;
      kind := payloadKind;
      visible := true;
    }

    method HideToast()
      modifies this
      ensures State() == Reduce(old(State()), ToastAction.HideToast)
    {
      visible := false;
    }
  }
}
