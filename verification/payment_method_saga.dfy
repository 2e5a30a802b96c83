/** The payment-method workers of the newer store (src/store/sagas/paymentMethodSaga.ts). Each worker is
    an effect script: the service call it makes, then the actions it puts, given what the
    service replied. A rejected call is reported with the error's own `message`. */
module PaymentMethodSaga {
  import opened Common
  import opened Entities
  import opened PaymentMethodSlice

  /** The paymentMethodService functions the workers call, with their arguments. */
  datatype PaymentMethodCall =
    | FetchPaymentMethodsCall
    | CreatePaymentMethodCall(newPaymentMethod: CreatePaymentMethod)
    | DeletePaymentMethodCall(paymentMethodId: string)

  type PaymentMethodEffect = Effect<PaymentMethodCall, PaymentMethodAction>

  /** What the service replies to each kind of call during one run. */
  datatype PaymentMethodReplies = PaymentMethodReplies(
    fetch: Outcome<seq<PaymentMethodItem>, ApiError>, create: Outcome<PaymentMethodItem, ApiError>,
    delete: Outcome<(), ApiError>)

  function FetchPaymentMethodsSaga(reply: Outcome<seq<PaymentMethodItem>, ApiError>): (effects: seq<PaymentMethodEffect>)
    ensures Calls(effects) == [FetchPaymentMethodsCall]
    ensures reply.Ok? ==> Puts(effects) == [FetchPaymentMethodsSuccess(reply.value)]
    ensures reply.Err? ==> Puts(effects) == [FetchPaymentMethodsFailure(reply.error.message)]
  {
    match reply
    case Ok(paymentMethods) => CallThen(FetchPaymentMethodsCall, [FetchPaymentMethodsSuccess(paymentMethods)])
    case Err(e) => CallThen(FetchPaymentMethodsCall, [FetchPaymentMethodsFailure(e.message)])
  }

  /** A successful write puts its success and then asks for the list again. */
  function CreatePaymentMethodSaga(data: CreatePaymentMethod, reply: Outcome<PaymentMethodItem, ApiError>): (effects: seq<PaymentMethodEffect>)
    ensures Calls(effects) == [CreatePaymentMethodCall(data)]
    ensures reply.Ok? ==> Puts(effects) == [CreatePaymentMethodSuccess(reply.value), FetchPaymentMethodsRequest]
    ensures reply.Err? ==> Puts(effects) == [CreatePaymentMethodFailure(reply.error.message)]
  {
    match reply
    case Ok(paymentMethod) =>
      CallThen(CreatePaymentMethodCall(data), [CreatePaymentMethodSuccess(paymentMethod), FetchPaymentMethodsRequest])
    case Err(e) => CallThen(CreatePaymentMethodCall(data), [CreatePaymentMethodFailure(e.message)])
  }

  /** The delete success carries the id that was asked for, not anything from the server. */
  function DeletePaymentMethodSaga(paymentMethodId: string, reply: Outcome<(), ApiError>): (effects: seq<PaymentMethodEffect>)
    ensures Calls(effects) == [DeletePaymentMethodCall(paymentMethodId)]
    ensures reply.Ok? ==> Puts(effects) == [DeletePaymentMethodSuccess(paymentMethodId), FetchPaymentMethodsRequest]
    ensures reply.Err? ==> Puts(effects) == [DeletePaymentMethodFailure(reply.error.message)]
  {
    match reply
    case Ok(_) =>
      CallThen(DeletePaymentMethodCall(paymentMethodId), [DeletePaymentMethodSuccess(paymentMethodId), FetchPaymentMethodsRequest])
    case Err(e) => CallThen(DeletePaymentMethodCall(paymentMethodId), [DeletePaymentMethodFailure(e.message)])
  }

  /** The watchers: fetch, create and delete requests start their workers. An update request
      has no worker, and no other action starts one. */
  function Handle(a: PaymentMethodAction, replies: PaymentMethodReplies): seq<PaymentMethodEffect> {
    match a
    case FetchPaymentMethodsRequest => FetchPaymentMethodsSaga(replies.fetch)
    case CreatePaymentMethodRequest(data) => CreatePaymentMethodSaga(data, replies.create)
    case DeletePaymentMethodRequest(id) => DeletePaymentMethodSaga(id, replies.delete)
    case _ => []
  }

  /** Whether the service call the request leads to is rejected. */
  predicate ReplyFailed(a: PaymentMethodAction, replies: PaymentMethodReplies) {
    match a
    case FetchPaymentMethodsRequest => replies.fetch.Err?
    case CreatePaymentMethodRequest(_) => replies.create.Err?
    case DeletePaymentMethodRequest(_) => replies.delete.Err?
    case _ => false
  }

  /** Only the request actions start a worker, and each worker makes exactly one service
      call. */
  lemma OnlyRequestsStartWorkers(a: PaymentMethodAction, replies: PaymentMethodReplies)
    ensures Handle(a, replies) != [] <==> a.IsRequest() && !a.UpdatePaymentMethodRequest?
    ensures a.IsRequest() && !a.UpdatePaymentMethodRequest? ==> |Calls(Handle(a, replies))| == 1
  {
    if a.FetchPaymentMethodsRequest? {
      match replies.fetch { case Ok(_) => case Err(_) => }
    } else if a.CreatePaymentMethodRequest? {
      match replies.create { case Ok(_) => case Err(_) => }
    } else if a.DeletePaymentMethodRequest? {
      match replies.delete { case Ok(_) => case Err(_) => }
    }
  }

  /** The puts of a worker that settles exactly once: its first put is a success or a
      failure, a failure exactly when `failed`; the only other put is one refetch request,
      there exactly when `refetches`. */
  predicate SettlesOnce(puts: seq<PaymentMethodAction>, failed: bool, refetches: bool) {
    && 1 <= |puts| <= 2
    && !puts[0].IsRequest()
    && (puts[0].IsFailure() <==> failed)
    && (|puts| == 2 <==> refetches)
    && (|puts| == 2 ==> puts[1] == FetchPaymentMethodsRequest)
  }

  lemma FetchSettlesOnce(reply: Outcome<seq<PaymentMethodItem>, ApiError>)
    ensures SettlesOnce(Puts(FetchPaymentMethodsSaga(reply)), reply.Err?, false)
  {
    match reply { case Ok(_) => case Err(_) => }
  }

  lemma CreateSettlesOnce(data: CreatePaymentMethod, reply: Outcome<PaymentMethodItem, ApiError>)
    ensures SettlesOnce(Puts(CreatePaymentMethodSaga(data, reply)), reply.Err?, reply.Ok?)
  {
    match reply { case Ok(_) => case Err(_) => }
  }

  lemma DeleteSettlesOnce(paymentMethodId: string, reply: Outcome<(), ApiError>)
    ensures SettlesOnce(Puts(DeletePaymentMethodSaga(paymentMethodId, reply)), reply.Err?, reply.Ok?)
  {
    match reply { case Ok(_) => case Err(_) => }
  }

  /** Every worker settles exactly once, with a failure exactly when the call was rejected,
      and refetches after a successful write, never after a fetch or a failure. */
  lemma WorkerSettlesOnce(a: PaymentMethodAction, replies: PaymentMethodReplies)
    ensures a.IsRequest() && !a.UpdatePaymentMethodRequest? ==>
      SettlesOnce(Puts(Handle(a, replies)), ReplyFailed(a, replies), !a.FetchPaymentMethodsRequest? && !ReplyFailed(a, replies))
  {
    if a.FetchPaymentMethodsRequest? {
      FetchSettlesOnce(replies.fetch);
    } else if a.CreatePaymentMethodRequest? {
      CreateSettlesOnce(a.newPaymentMethod, replies.create);
    } else if a.DeletePaymentMethodRequest? {
      DeleteSettlesOnce(a.paymentMethodId, replies.delete);
    }
  }

  /** A rejected call leaves the list as it was and reports the error's message. */
  lemma {:induction false} FailedWorkerKeepsList(s: PaymentMethodState, a: PaymentMethodAction, replies: PaymentMethodReplies)
    requires a.IsRequest() && !a.UpdatePaymentMethodRequest? && ReplyFailed(a, replies)
    ensures var r := ReduceAll(s, Puts(Handle(a, replies)));
      r.paymentMethods == s.paymentMethods && !r.loading && r.error.Some?
  {
    var puts := Puts(Handle(a, replies));
    WorkerSettlesOnce(a, replies);
    FoldOne(Reduce, s, puts[0]);
    assert puts == [puts[0]];
  }

  /** Refetch convergence: after a successful write and the fetch its refetch request
      triggers, the list is exactly what the server returned, whatever the local patch did. */
  lemma {:induction false} WriteThenRefetchConverges(
    s: PaymentMethodState, a: PaymentMethodAction, replies: PaymentMethodReplies, fetched: seq<PaymentMethodItem>)
    requires a.IsRequest() && !a.FetchPaymentMethodsRequest? && !a.UpdatePaymentMethodRequest? && !ReplyFailed(a, replies)
    ensures var afterWrite := ReduceAll(s, Puts(Handle(a, replies)));
      var afterRefetch := ReduceAll(afterWrite, Puts(FetchPaymentMethodsSaga(Ok(fetched))));
      afterRefetch.paymentMethods == fetched && !afterRefetch.loading && afterRefetch.error == s.error
  {
    var puts := Puts(Handle(a, replies));
    WorkerSettlesOnce(a, replies);
    assert puts == [puts[0], FetchPaymentMethodsRequest];
    FoldTwo(Reduce, s, puts[0], FetchPaymentMethodsRequest);
    var afterWrite := ReduceAll(s, puts);
    FoldOne(Reduce, afterWrite, FetchPaymentMethodsSuccess(fetched));
  }

  /** An update request starts no worker, so nothing settles it: the slice stays loading and
      the list is never patched. */
  lemma UpdateRequestStaysLoading(s: PaymentMethodState, paymentMethodId: string, data: PaymentMethodPatch, replies: PaymentMethodReplies)
    ensures Handle(UpdatePaymentMethodRequest(paymentMethodId, data), replies) == []
    ensures var r := Reduce(s, UpdatePaymentMethodRequest(paymentMethodId, data));
      ReduceAll(r, Puts(Handle(UpdatePaymentMethodRequest(paymentMethodId, data), replies))) == s.(loading := true)
  {
  }
}
