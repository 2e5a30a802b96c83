/** The `paymentMethod` slice of the newer store (src/store/slices/paymentMethodSlice.ts): the
    list of payment methods, a loading flag and the last error. */
module PaymentMethodSlice {
  import opened Common
  import opened Entities
  import Lists

  datatype PaymentMethodState = PaymentMethodState(paymentMethods: seq<PaymentMethodItem>, loading: bool, error: Option<string>)

  const Initial := PaymentMethodState([], false, None)

  /** One action per case reducer, carrying its payload. */
  datatype PaymentMethodAction =
    | FetchPaymentMethodsRequest
    | FetchPaymentMethodsSuccess(paymentMethods: seq<PaymentMethodItem>)
    | FetchPaymentMethodsFailure(message: string)
    | CreatePaymentMethodRequest(newPaymentMethod: CreatePaymentMethod)
    | CreatePaymentMethodSuccess(paymentMethod: PaymentMethodItem)
    | CreatePaymentMethodFailure(message: string)
    | UpdatePaymentMethodRequest(paymentMethodId: string, data: PaymentMethodPatch)
    | UpdatePaymentMethodSuccess(update: UpdatePaymentMethod)
    | UpdatePaymentMethodFailure(message: string)
    | DeletePaymentMethodRequest(paymentMethodId: string)
    | DeletePaymentMethodSuccess(paymentMethodId: string)
    | DeletePaymentMethodFailure(message: string)
  {
    predicate IsRequest() {
      FetchPaymentMethodsRequest? || CreatePaymentMethodRequest? || UpdatePaymentMethodRequest? || DeletePaymentMethodRequest?
    }

    predicate IsFailure() {
      FetchPaymentMethodsFailure? || CreatePaymentMethodFailure? || UpdatePaymentMethodFailure? || DeletePaymentMethodFailure?
    }
  }

  /** The slice reducer: the state after one action. */
  function Reduce(s: PaymentMethodState, a: PaymentMethodAction): PaymentMethodState {
    match a
    case FetchPaymentMethodsRequest => s.(loading := true)
    case FetchPaymentMethodsSuccess(cs) => s.(loading := false, paymentMethods := cs)
    case FetchPaymentMethodsFailure(m) => s.(loading := false, error := Some(m))
    case CreatePaymentMethodRequest(_) => s.(loading := true)
    case CreatePaymentMethodSuccess(pm) => s.(loading := false, paymentMethods := s.paymentMethods + [pm])
    case CreatePaymentMethodFailure(m) => s.(loading := false, error := Some(m))
    case UpdatePaymentMethodRequest(_, _) => s.(loading := true)
    case UpdatePaymentMethodSuccess(u) => s.(loading := false, paymentMethods := MergeMatching(s.paymentMethods, u))
    case UpdatePaymentMethodFailure(m) => s.(loading := false, error := Some(m))
    case DeletePaymentMethodRequest(_) => s.(loading := true)
    case DeletePaymentMethodSuccess(id) =>
      s.(loading := false, paymentMethods := Lists.RemoveById(s.paymentMethods, PaymentMethodId, id))
    case DeletePaymentMethodFailure(m) => s.(loading := false, error := Some(m))
  }

  /** The update's `map`: the payload merged over every payment method with its id. */
  function MergeMatching(pms: seq<PaymentMethodItem>, u: UpdatePaymentMethod): seq<PaymentMethodItem> {
    Lists.MapMatching(pms, PaymentMethodId, u.id, pm => MergePaymentMethod(pm, u))
  }

  function ReduceAll(s: PaymentMethodState, actions: seq<PaymentMethodAction>): PaymentMethodState {
    Fold(Reduce, s, actions)
  }

  /** A request only raises `loading`: the list and a stale error survive it. */
  lemma RequestOnlyRaisesLoading(s: PaymentMethodState, a: PaymentMethodAction)
    requires a.IsRequest()
    ensures Reduce(s, a) == s.(loading := true)
    ensures Reduce(s, a).error == s.error
  {
  }

  /** A failure records its message and keeps the list. */
  lemma FailureKeepsPaymentMethods(s: PaymentMethodState, a: PaymentMethodAction)
    requires a.IsFailure()
    ensures Reduce(s, a).paymentMethods == s.paymentMethods
    ensures Reduce(s, a).error == Some(a.message)
    ensures !Reduce(s, a).loading
  {
  }

  /** Every success or failure ends the loading phase, and only a failure touches `error`. */
  lemma SettledActionsClearLoading(s: PaymentMethodState, a: PaymentMethodAction)
    requires !a.IsRequest()
    ensures !Reduce(s, a).loading
    ensures !a.IsFailure() ==> Reduce(s, a).error == s.error
  {
  }

  lemma FetchReplacesList(s: PaymentMethodState, cs: seq<PaymentMethodItem>)
    ensures Reduce(s, FetchPaymentMethodsSuccess(cs)).paymentMethods == cs
    ensures !Reduce(s, FetchPaymentMethodsSuccess(cs)).loading
  {
  }

  /** Create appends at the end: one element longer, the earlier elements in place. */
  lemma CreateAppends(s: PaymentMethodState, pm: PaymentMethodItem)
    ensures var r := Reduce(s, CreatePaymentMethodSuccess(pm)).paymentMethods;
      |r| == |s.paymentMethods| + 1 && r[..|s.paymentMethods|] == s.paymentMethods && r[|s.paymentMethods|] == pm
  {
  }

  /** Update merges the payload over EVERY payment method with its id (not only the first):
      id and authorId from the payload, the name from the payload when it has one, the
      timestamps kept. Other entries and the length are unchanged; with no match the list is. */
  lemma UpdateMergesEveryMatch(s: PaymentMethodState, u: UpdatePaymentMethod)
    ensures var r := Reduce(s, UpdatePaymentMethodSuccess(u)).paymentMethods;
      |r| == |s.paymentMethods| &&
      forall i :: 0 <= i < |r| ==>
        if s.paymentMethods[i].id == u.id then
          r[i].id == u.id && r[i].authorId == u.authorId &&
          r[i].name == u.name.GetOr(s.paymentMethods[i].name) &&
          r[i].createdAt == s.paymentMethods[i].createdAt && r[i].updatedAt == s.paymentMethods[i].updatedAt
        else r[i] == s.paymentMethods[i]
    ensures !Lists.HasId(s.paymentMethods, PaymentMethodId, u.id) ==>
      Reduce(s, UpdatePaymentMethodSuccess(u)) == s.(loading := false)
  {
    var r := Reduce(s, UpdatePaymentMethodSuccess(u)).paymentMethods;
    if !Lists.HasId(s.paymentMethods, PaymentMethodId, u.id) {
      forall i | 0 <= i < |r| ensures r[i] == s.paymentMethods[i] {
        assert PaymentMethodId(s.paymentMethods[i]) != u.id;
      }
    }
  }

  /** The merge keeps every id where it was. */
  lemma MergeMatchingKeepsIds(pms: seq<PaymentMethodItem>, u: UpdatePaymentMethod)
    ensures var r := MergeMatching(pms, u);
      |r| == |pms| && forall i :: 0 <= i < |r| ==> r[i].id == pms[i].id
  {
  }

  /** Delete removes every paymentMethod with the id, keeps the rest in order, and a second delete
      of the same id changes nothing more. */
  lemma DeleteRemovesAll(s: PaymentMethodState, id: string)
    ensures var r := Reduce(s, DeletePaymentMethodSuccess(id)).paymentMethods;
      !Lists.HasId(r, PaymentMethodId, id) && Lists.IsSubsequence(r, s.paymentMethods) &&
      forall i :: 0 <= i < |s.paymentMethods| && s.paymentMethods[i].id != id ==> s.paymentMethods[i] in r
    ensures var once := Reduce(s, DeletePaymentMethodSuccess(id));
      Reduce(once, DeletePaymentMethodSuccess(id)) == once
  {
    Lists.RemoveByIdIsSubsequence(s.paymentMethods, PaymentMethodId, id);
    Lists.RemoveByIdIdempotent(s.paymentMethods, PaymentMethodId, id);
  }

  /** Distinct ids are not an invariant of the slice: they survive an action exactly when a
      fetched list has distinct ids and a created paymentMethod has a new id. */
  lemma UniqueIdsPreserved(s: PaymentMethodState, a: PaymentMethodAction)
    requires Lists.UniqueIds(s.paymentMethods, PaymentMethodId)
    ensures Lists.UniqueIds(Reduce(s, a).paymentMethods, PaymentMethodId) <==>
      match a
      case FetchPaymentMethodsSuccess(cs) => Lists.UniqueIds(cs, PaymentMethodId)
      case CreatePaymentMethodSuccess(pm) => !Lists.HasId(s.paymentMethods, PaymentMethodId, pm.id)
      case _ => true
  {
    match a
    case CreatePaymentMethodSuccess(pm) => Lists.AppendKeepsUniqueIds(s.paymentMethods, PaymentMethodId, pm);
    case UpdatePaymentMethodSuccess(u) => MergeMatchingKeepsIds(s.paymentMethods, u);
    case DeletePaymentMethodSuccess(id) => Lists.RemoveByIdKeepsUniqueIds(s.paymentMethods, PaymentMethodId, id);
    case _ =>
  }

  /** The slice as the store holds it: each case reducer updates the fields in place. */
  class PaymentMethodStore {
    var paymentMethods: seq<PaymentMethodItem>
    var loading: bool
    var error: Option<string>

    function State(): PaymentMethodState
      reads this
    {
      PaymentMethodState(paymentMethods, loading, error)
    }

    constructor ()
      ensures State() == Initial
    {
      paymentMethods := [];
      loading := false;
      error := None;
    }

    method FetchPaymentMethodsRequest()
      modifies this
      ensures State() == Reduce(old(State()), PaymentMethodAction.FetchPaymentMethodsRequest)
    {
      loading := true;
    }

    method FetchPaymentMethodsSuccess(payload: seq<PaymentMethodItem>)
      modifies this
      ensures State() == Reduce(old(State()), PaymentMethodAction.FetchPaymentMethodsSuccess(payload))
    {
      loading := false;
      paymentMethods := payload;
    }

    method FetchPaymentMethodsFailure(payload: string)
      modifies this
      ensures State() == Reduce(old(State()), PaymentMethodAction.FetchPaymentMethodsFailure(payload))
    {
      loading := false;
      error := Some(payload);
    }

    method CreatePaymentMethodRequest(payload: CreatePaymentMethod)
      modifies this
      ensures State() == Reduce(old(State()), PaymentMethodAction.CreatePaymentMethodRequest(payload))
    {
      loading := true;
    }

    method CreatePaymentMethodSuccess(payload: PaymentMethodItem)
      modifies this
      ensures State() == Reduce(old(State()), PaymentMethodAction.CreatePaymentMethodSuccess(payload))
    {
      loading := false;
      paymentMethods := paymentMethods + [payload];
    }

    method CreatePaymentMethodFailure(payload: string)
      modifies this
      ensures State() == Reduce(old(State()), PaymentMethodAction.CreatePaymentMethodFailure(payload))
    {
      loading := false;
      error := Some(payload);
    }

    method UpdatePaymentMethodRequest(paymentMethodId: string, data: PaymentMethodPatch)
      modifies this
      ensures State() == Reduce(old(State()), PaymentMethodAction.UpdatePaymentMethodRequest(paymentMethodId, data))
    {
      loading := true;
    }

    method UpdatePaymentMethodSuccess(payload: UpdatePaymentMethod)
      modifies this
      ensures State() == Reduce(old(State()), PaymentMethodAction.UpdatePaymentMethodSuccess(payload))
    {
      loading := false;
      var updatedPaymentMethods := MergeMatching(paymentMethods, payload);
      paymentMethods := updatedPaymentMethods;
    }

    method UpdatePaymentMethodFailure(payload: string)
      modifies this
      ensures State() == Reduce(old(State()), PaymentMethodAction.UpdatePaymentMethodFailure(payload))
    {
      loading := false;
      error := Some(payload);
    }

    method DeletePaymentMethodRequest(payload: string)
      modifies this
      ensures State() == Reduce(old(State()), PaymentMethodAction.DeletePaymentMethodRequest(payload))
    {
      loading := true;
    }

    method DeletePaymentMethodSuccess(payload: string)
      modifies this
      ensures State() == Reduce(old(State()), PaymentMethodAction.DeletePaymentMethodSuccess(payload))
    {
      loading := false;
      paymentMethods := Lists.RemoveById(paymentMethods, PaymentMethodId, payload);
    }

    method DeletePaymentMethodFailure(payload: string)
      modifies this
      ensures State() == Reduce(old(State()), PaymentMethodAction.DeletePaymentMethodFailure(payload))
    {
      loading := false;
      error := Some(payload);
    }
  }
}
