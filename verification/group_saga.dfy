/** The group workers of the newer store (src/store/sagas/groupSaga.ts). Each worker is
    an effect script: the service call it makes, then the actions it puts, given what the
    service replied. A rejected call is reported with the error's own `message`. */
module GroupSaga {
  import opened Common
  import opened Entities
  import opened GroupSlice

  /** The groupService functions the workers call, with their arguments. */
  datatype GroupCall =
    | FetchGroupsCall
    | CreateGroupCall(newGroup: AddGroup)
    | DeleteGroupCall(groupId: string)

  type GroupEffect = Effect<GroupCall, GroupAction>

  /** What the service replies to each kind of call during one run. */
  datatype GroupReplies = GroupReplies(
    fetch: Outcome<seq<GroupItem>, ApiError>, create: Outcome<GroupItem, ApiError>,
    delete: Outcome<(), ApiError>)

  function FetchGroupsSaga(reply: Outcome<seq<GroupItem>, ApiError>): (effects: seq<GroupEffect>)
    ensures Calls(effects) == [FetchGroupsCall]
    ensures reply.Ok? ==> Puts(effects) == [FetchGroupsSuccess(reply.value)]
    ensures reply.Err? ==> Puts(effects) == [FetchGroupsFailure(reply.error.message)]
  {
    match reply
    case Ok(groups) => CallThen(FetchGroupsCall, [FetchGroupsSuccess(groups)])
    case Err(e) => CallThen(FetchGroupsCall, [FetchGroupsFailure(e.message)])
  }

  /** A successful write puts its success and then asks for the list again. */
  function CreateGroupSaga(data: AddGroup, reply: Outcome<GroupItem, ApiError>): (effects: seq<GroupEffect>)
    ensures Calls(effects) == [CreateGroupCall(data)]
    ensures reply.Ok? ==> Puts(effects) == [CreateGroupSuccess(reply.value), FetchGroupsRequest]
    ensures reply.Err? ==> Puts(effects) == [CreateGroupFailure(reply.error.message)]
  {
    match reply
    case Ok(group) =>
      CallThen(CreateGroupCall(data), [CreateGroupSuccess(group), FetchGroupsRequest])
    case Err(e) => CallThen(CreateGroupCall(data), [CreateGroupFailure(e.message)])
  }

  /** The delete success carries the id that was asked for, not anything from the server. */
  function DeleteGroupSaga(groupId: string, reply: Outcome<(), ApiError>): (effects: seq<GroupEffect>)
    ensures Calls(effects) == [DeleteGroupCall(groupId)]
    ensures reply.Ok? ==> Puts(effects) == [DeleteGroupSuccess(groupId), FetchGroupsRequest]
    ensures reply.Err? ==> Puts(effects) == [DeleteGroupFailure(reply.error.message)]
  {
    match reply
    case Ok(_) =>
      CallThen(DeleteGroupCall(groupId), [DeleteGroupSuccess(groupId), FetchGroupsRequest])
    case Err(e) => CallThen(DeleteGroupCall(groupId), [DeleteGroupFailure(e.message)])
  }

  /** The watchers: fetch, create and delete requests start their workers. An update request
      has no worker, and no other action starts one. */
  function Handle(a: GroupAction, replies: GroupReplies): seq<GroupEffect> {
    match a
    case FetchGroupsRequest => FetchGroupsSaga(replies.fetch)
    case CreateGroupRequest(data) => CreateGroupSaga(data, replies.create)
    case DeleteGroupRequest(id) => DeleteGroupSaga(id, replies.delete)
    case _ => []
  }

  /** Whether the service call the request leads to is rejected. */
  predicate ReplyFailed(a: GroupAction, replies: GroupReplies) {
    match a
    case FetchGroupsRequest => replies.fetch.Err?
    case CreateGroupRequest(_) => replies.create.Err?
    case DeleteGroupRequest(_) => replies.delete.Err?
    case _ => false
  }

  /** Only the request actions start a worker, and each worker makes exactly one service
      call. */
  lemma OnlyRequestsStartWorkers(a: GroupAction, replies: GroupReplies)
    ensures Handle(a, replies) != [] <==> a.IsRequest() && !a.UpdateGroupRequest?
    ensures a.IsRequest() && !a.UpdateGroupRequest? ==> |Calls(Handle(a, replies))| == 1
  {
    if a.FetchGroupsRequest? {
      match replies.fetch { case Ok(_) => case Err(_) => }
    } else if a.CreateGroupRequest? {
      match replies.create { case Ok(_) => case Err(_) => }
    } else if a.DeleteGroupRequest? {
      match replies.delete { case Ok(_) => case Err(_) => }
    }
  }

  /** The puts of a worker that settles exactly once: its first put is a success or a
      failure, a failure exactly when `failed`; the only other put is one refetch request,
      there exactly when `refetches`. */
  predicate SettlesOnce(puts: seq<GroupAction>, failed: bool, refetches: bool) {
    && 1 <= |puts| <= 2
    && !puts[0].IsRequest()
    && (puts[0].IsFailure() <==> failed)
    && (|puts| == 2 <==> refetches)
    && (|puts| == 2 ==> puts[1] == FetchGroupsRequest)
  }

  lemma FetchSettlesOnce(reply: Outcome<seq<GroupItem>, ApiError>)
    ensures SettlesOnce(Puts(FetchGroupsSaga(reply)), reply.Err?, false)
  {
    match reply { case Ok(_) => case Err(_) => }
  }

  lemma CreateSettlesOnce(data: AddGroup, reply: Outcome<GroupItem, ApiError>)
    ensures SettlesOnce(Puts(CreateGroupSaga(data, reply)), reply.Err?, reply.Ok?)
  {
    match reply { case Ok(_) => case Err(_) => }
  }

  lemma DeleteSettlesOnce(groupId: string, reply: Outcome<(), ApiError>)
    ensures SettlesOnce(Puts(DeleteGroupSaga(groupId, reply)), reply.Err?, reply.Ok?)
  {
    match reply { case Ok(_) => case Err(_) => }
  }

  /** Every worker settles exactly once, with a failure exactly when the call was rejected,
      and refetches after a successful write, never after a fetch or a failure. */
  lemma WorkerSettlesOnce(a: GroupAction, replies: GroupReplies)
    ensures a.IsRequest() && !a.UpdateGroupRequest? ==>
      SettlesOnce(Puts(Handle(a, replies)), ReplyFailed(a, replies), !a.FetchGroupsRequest? && !ReplyFailed(a, replies))
  {
    if a.FetchGroupsRequest? {
      FetchSettlesOnce(replies.fetch);
    } else if a.CreateGroupRequest? {
      CreateSettlesOnce(a.newGroup, replies.create);
    } else if a.DeleteGroupRequest? {
      DeleteSettlesOnce(a.groupId, replies.delete);
    }
  }

  /** A rejected call leaves the list as it was and reports the error's message. */
  lemma {:induction false} FailedWorkerKeepsList(s: GroupState, a: GroupAction, replies: GroupReplies)
    requires a.IsRequest() && !a.UpdateGroupRequest? && ReplyFailed(a, replies)
    ensures var r := ReduceAll(s, Puts(Handle(a, replies)));
      r.groups == s.groups && !r.loading && r.error.Some?
  {
    var puts := Puts(Handle(a, replies));
    WorkerSettlesOnce(a, replies);
    FoldOne(Reduce, s, puts[0]);
    assert puts == [puts[0]];
  }

  /** Refetch convergence: after a successful write and the fetch its refetch request
      triggers, the list is exactly what the server returned, whatever the local patch did. */
  lemma {:induction false} WriteThenRefetchConverges(
    s: GroupState, a: GroupAction, replies: GroupReplies, fetched: seq<GroupItem>)
    requires a.IsRequest() && !a.FetchGroupsRequest? && !a.UpdateGroupRequest? && !ReplyFailed(a, replies)
    ensures var afterWrite := ReduceAll(s, Puts(Handle(a, replies)));
      var afterRefetch := ReduceAll(afterWrite, Puts(FetchGroupsSaga(Ok(fetched))));
      afterRefetch.groups == fetched && !afterRefetch.loading && afterRefetch.error == s.error
  {
    var puts := Puts(Handle(a, replies));
    WorkerSettlesOnce(a, replies);
    assert puts == [puts[0], FetchGroupsRequest];
    FoldTwo(Reduce, s, puts[0], FetchGroupsRequest);
    var afterWrite := ReduceAll(s, puts);
    FoldOne(Reduce, afterWrite, FetchGroupsSuccess(fetched));
  }

  /** An update request starts no worker, so nothing settles it: the slice stays loading and
      the list is never patched. */
  lemma UpdateRequestStaysLoading(s: GroupState, groupId: string, data: GroupPatch, replies: GroupReplies)
    ensures Handle(UpdateGroupRequest(groupId, data), replies) == []
    ensures var r := Reduce(s, UpdateGroupRequest(groupId, data));
      ReduceAll(r, Puts(Handle(UpdateGroupRequest(groupId, data), replies))) == s.(loading := true)
  {
  }
}
