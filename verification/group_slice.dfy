/** The `group` slice of the newer store (src/store/slices/groupSlice.ts): the list of
    groups, a loading flag and the last error. */
module GroupSlice {
  import opened Common
  import opened Entities
  import Lists

  datatype GroupState = GroupState(groups: seq<GroupItem>, loading: bool, error: Option<string>)

  const Initial := GroupState([], false, None)

  /** One action per case reducer, carrying its payload. */
  datatype GroupAction =
    | FetchGroupsRequest
    | FetchGroupsSuccess(groups: seq<GroupItem>)
    | FetchGroupsFailure(message: string)
    | CreateGroupRequest(newGroup: AddGroup)
    | CreateGroupSuccess(group: GroupItem)
    | CreateGroupFailure(message: string)
    | UpdateGroupRequest(groupId: string, data: GroupPatch)
    | UpdateGroupSuccess(group: GroupItem)
    | UpdateGroupFailure(message: string)
    | DeleteGroupRequest(groupId: string)
    | DeleteGroupSuccess(groupId: string)
    | DeleteGroupFailure(message: string)
  {
    predicate IsRequest() {
      FetchGroupsRequest? || CreateGroupRequest? || UpdateGroupRequest? || DeleteGroupRequest?
    }

    predicate IsFailure() {
      FetchGroupsFailure? || CreateGroupFailure? || UpdateGroupFailure? || DeleteGroupFailure?
    }
  }

  /** The slice reducer: the state after one action. */
  function Reduce(s: GroupState, a: GroupAction): GroupState {
    match a
    case FetchGroupsRequest => s.(loading := true)
    case FetchGroupsSuccess(cs) => s.(loading := false, groups := cs)
    case FetchGroupsFailure(m) => s.(loading := false, error := Some(m))
    case CreateGroupRequest(_) => s.(loading := true)
    case CreateGroupSuccess(g) => s.(loading := false, groups := s.groups + [g])
    case CreateGroupFailure(m) => s.(loading := false, error := Some(m))
    case UpdateGroupRequest(_, _) => s.(loading := true)
    case UpdateGroupSuccess(g) =>
      s.(loading := false, groups := Lists.ReplaceFirstById(s.groups, GroupId, g))
    case UpdateGroupFailure(m) => s.(loading := false, error := Some(m))
    case DeleteGroupRequest(_) => s.(loading := true)
    case DeleteGroupSuccess(id) =>
      s.(loading := false, groups := Lists.RemoveById(s.groups, GroupId, id))
    case DeleteGroupFailure(m) => s.(loading := false, error := Some(m))
  }

  function ReduceAll(s: GroupState, actions: seq<GroupAction>): GroupState {
    Fold(Reduce, s, actions)
  }

  /** A request only raises `loading`: the list and a stale error survive it. */
  lemma RequestOnlyRaisesLoading(s: GroupState, a: GroupAction)
    requires a.IsRequest()
    ensures Reduce(s, a) == s.(loading := true)
    ensures Reduce(s, a).error == s.error
  {
  }

  /** A failure records its message and keeps the list. */
  lemma FailureKeepsGroups(s: GroupState, a: GroupAction)
    requires a.IsFailure()
    ensures Reduce(s, a).groups == s.groups
    ensures Reduce(s, a).error == Some(a.message)
    ensures !Reduce(s, a).loading
  {
  }

  /** Every success or failure ends the loading phase, and only a failure touches `error`. */
  lemma SettledActionsClearLoading(s: GroupState, a: GroupAction)
    requires !a.IsRequest()
    ensures !Reduce(s, a).loading
    ensures !a.IsFailure() ==> Reduce(s, a).error == s.error
  {
  }

  lemma FetchReplacesList(s: GroupState, cs: seq<GroupItem>)
    ensures Reduce(s, FetchGroupsSuccess(cs)).groups == cs
    ensures !Reduce(s, FetchGroupsSuccess(cs)).loading
  {
  }

  /** Create appends at the end: one element longer, the earlier elements in place. */
  lemma CreateAppends(s: GroupState, g: GroupItem)
    ensures var r := Reduce(s, CreateGroupSuccess(g)).groups;
      |r| == |s.groups| + 1 && r[..|s.groups|] == s.groups && r[|s.groups|] == g
  {
  }

  /** Update replaces the first group with the payload's id and nothing else; with no such
      group the list is unchanged. */
  lemma UpdateReplacesFirstMatch(s: GroupState, g: GroupItem)
    ensures var r := Reduce(s, UpdateGroupSuccess(g)).groups;
      |r| == |s.groups| &&
      (forall i :: 0 <= i < |r| ==>
        r[i] == if Lists.IsFirstMatch(s.groups, GroupId, g.id, i) then g else s.groups[i])
    ensures !Lists.HasId(s.groups, GroupId, g.id) ==> Reduce(s, UpdateGroupSuccess(g)) == s.(loading := false)
  {
  }

  /** Delete removes every group with the id, keeps the rest in order, and a second delete
      of the same id changes nothing more. */
  lemma DeleteRemovesAll(s: GroupState, id: string)
    ensures var r := Reduce(s, DeleteGroupSuccess(id)).groups;
      !Lists.HasId(r, GroupId, id) && Lists.IsSubsequence(r, s.groups) &&
      forall i :: 0 <= i < |s.groups| && s.groups[i].id != id ==> s.groups[i] in r
    ensures var once := Reduce(s, DeleteGroupSuccess(id));
      Reduce(once, DeleteGroupSuccess(id)) == once
  {
    Lists.RemoveByIdIsSubsequence(s.groups, GroupId, id);
    Lists.RemoveByIdIdempotent(s.groups, GroupId, id);
  }

  /** Distinct ids are not an invariant of the slice: they survive an action exactly when a
      fetched list has distinct ids and a created group has a new id. */
  lemma UniqueIdsPreserved(s: GroupState, a: GroupAction)
    requires Lists.UniqueIds(s.groups, GroupId)
    ensures Lists.UniqueIds(Reduce(s, a).groups, GroupId) <==>
      match a
      case FetchGroupsSuccess(cs) => Lists.UniqueIds(cs, GroupId)
      case CreateGroupSuccess(g) => !Lists.HasId(s.groups, GroupId, g.id)
      case _ => true
  {
    match a
    case CreateGroupSuccess(g) => Lists.AppendKeepsUniqueIds(s.groups, GroupId, g);
    case UpdateGroupSuccess(g) => Lists.ReplaceFirstKeepsUniqueIds(s.groups, GroupId, g);
    case DeleteGroupSuccess(id) => Lists.RemoveByIdKeepsUniqueIds(s.groups, GroupId, id);
    case _ =>
  }

  /** The slice as the store holds it: each case reducer updates the fields in place. */
  class GroupStore {
    var groups: seq<GroupItem>
    var loading: bool
    var error: Option<string>

    function State(): GroupState
      reads this
    {
      GroupState(groups, loading, error)
    }

    constructor ()
      ensures State() == Initial
    {
      groups := [];
      loading := false;
      error := None;
    }

    method FetchGroupsRequest()
      modifies this
      ensures State() == Reduce(old(State()), GroupAction.FetchGroupsRequest)
    {
      loading := true;
    }

    method FetchGroupsSuccess(payload: seq<GroupItem>)
      modifies this
      ensures State() == Reduce(old(State()), GroupAction.FetchGroupsSuccess(payload))
    {
      loading := false;
      groups := payload;
    }

    method FetchGroupsFailure(payload: string)
      modifies this
      ensures State() == Reduce(old(State()), GroupAction.FetchGroupsFailure(payload))
    {
      loading := false;
      error := Some(payload);
    }

    method CreateGroupRequest(payload: AddGroup)
      modifies this
      ensures State() == Reduce(old(State()), GroupAction.CreateGroupRequest(payload))
    {
      loading := true;
    }

    method CreateGroupSuccess(payload: GroupItem)
      modifies this
      ensures State() == Reduce(old(State()), GroupAction.CreateGroupSuccess(payload))
    {
      loading := false;
      groups := groups + [payload];
    }

    method CreateGroupFailure(payload: string)
      modifies this
      ensures State() == Reduce(old(State()), GroupAction.CreateGroupFailure(payload))
    {
      loading := false;
      error := Some(payload);
    }

    method UpdateGroupRequest(groupId: string, data: GroupPatch)
      modifies this
      ensures State() == Reduce(old(State()), GroupAction.UpdateGroupRequest(groupId, data))
    {
      loading := true;
    }

    method UpdateGroupSuccess(payload: GroupItem)
      modifies this
      ensures State() == Reduce(old(State()), GroupAction.UpdateGroupSuccess(payload))
    {
      loading := false;
      var index := Lists.FindIndexById(groups, GroupId, payload.id);
      if index != -1 {
        groups := groups[index := payload];
      }
    }

    method UpdateGroupFailure(payload: string)
      modifies this
      ensures State() == Reduce(old(State()), GroupAction.UpdateGroupFailure(payload))
    {
      loading := false;
      error := Some(payload);
    }

    method DeleteGroupRequest(payload: string)
      modifies this
      ensures State() == Reduce(old(State()), GroupAction.DeleteGroupRequest(payload))
    {
      loading := true;
    }

    method DeleteGroupSuccess(payload: string)
      modifies this
      ensures State() == Reduce(old(State()), GroupAction.DeleteGroupSuccess(payload))
    {
      loading := false;
      groups := Lists.RemoveById(groups, GroupId, payload);
    }

    method DeleteGroupFailure(payload: string)
      modifies this
      ensures State() == Reduce(old(State()), GroupAction.DeleteGroupFailure(payload))
    {
      loading := false;
      error := Some(payload);
    }
  }
}
