/** The legacy user workers (src/store/userSagas.ts). Each puts its start action before the
    call, then one success echoing the request's payload or one failure with a fixed message,
    whatever was thrown. */
module LegacyUserSagas {
  import opened Common
  import opened LegacyEntities
  import opened LegacyUserSlice
  import Lists

  /** The UserService functions the workers call, with their arguments. */
  datatype UserCall =
    | GetUsersCall
    | AddUserCall(user: User)
    | EditUserCall(user: User)
    | DeleteUserCall(userId: string)

  type UserEffect = Effect<UserCall, UsersAction>

  const FetchUsersFailed := "Failed to fetch users."
  const AddUserFailed := "Failed to add user."
  const EditUserFailed := "Failed to edit user."
  const DeleteUserFailed := "Failed to delete user."

  function FetchUsersSaga(reply: Outcome<seq<User>, Thrown>): (effects: seq<UserEffect>)
    ensures |effects| == 3 && effects[0] == Put(FetchUsersStart) && effects[1] == Call(GetUsersCall)
    ensures Calls(effects) == [GetUsersCall]
    ensures reply.Ok? ==> Puts(effects) == [FetchUsersStart, FetchUsersSuccess(reply.value)]
    ensures reply.Err? ==> Puts(effects) == [FetchUsersStart, FetchUsersFailure(FetchUsersFailed)]
  {
    match reply
    case Ok(users) => PutThen(FetchUsersStart, CallThen(GetUsersCall, [FetchUsersSuccess(users)]))
    case Err(_) => PutThen(FetchUsersStart, CallThen(GetUsersCall, [FetchUsersFailure(FetchUsersFailed)]))
  }

  function AddUserSaga(user: User, reply: Outcome<(), Thrown>): (effects: seq<UserEffect>)
    ensures |effects| == 3 && effects[0] == Put(AddUserStart) && effects[1] == Call(AddUserCall(user))
    ensures Calls(effects) == [AddUserCall(user)]
    ensures reply.Ok? ==> Puts(effects) == [AddUserStart, AddUserSuccess(user)]
    ensures reply.Err? ==> Puts(effects) == [AddUserStart, AddUserFailure(AddUserFailed)]
  {
    match reply
    case Ok(_) => PutThen(AddUserStart, CallThen(AddUserCall(user), [AddUserSuccess(user)]))
    case Err(_) => PutThen(AddUserStart, CallThen(AddUserCall(user), [AddUserFailure(AddUserFailed)]))
  }

  function EditUserSaga(user: User, reply: Outcome<(), Thrown>): (effects: seq<UserEffect>)
    ensures |effects| == 3 && effects[0] == Put(EditUserStart) && effects[1] == Call(EditUserCall(user))
    ensures Calls(effects) == [EditUserCall(user)]
    ensures reply.Ok? ==> Puts(effects) == [EditUserStart, EditUserSuccess(user)]
    ensures reply.Err? ==> Puts(effects) == [EditUserStart, EditUserFailure(EditUserFailed)]
  {
    match reply
    case Ok(_) => PutThen(EditUserStart, CallThen(EditUserCall(user), [EditUserSuccess(user)]))
    case Err(_) => PutThen(EditUserStart, CallThen(EditUserCall(user), [EditUserFailure(EditUserFailed)]))
  }

  function DeleteUserSaga(userId: string, reply: Outcome<(), Thrown>): (effects: seq<UserEffect>)
    ensures |effects| == 3 && effects[0] == Put(DeleteUserStart) && effects[1] == Call(DeleteUserCall(userId))
    ensures Calls(effects) == [DeleteUserCall(userId)]
    ensures reply.Ok? ==> Puts(effects) == [DeleteUserStart, DeleteUserSuccess(userId)]
    ensures reply.Err? ==> Puts(effects) == [DeleteUserStart, DeleteUserFailure(DeleteUserFailed)]
  {
    match reply
    case Ok(_) => PutThen(DeleteUserStart, CallThen(DeleteUserCall(userId), [DeleteUserSuccess(userId)]))
    case Err(_) => PutThen(DeleteUserStart, CallThen(DeleteUserCall(userId), [DeleteUserFailure(DeleteUserFailed)]))
  }

  /** A whole add run from any state: the start clears an old error, and then either the
      payload is appended with no error, or the list is kept and the fixed message is shown. */
  lemma {:induction false} AddRunOutcome(s: UsersState, user: User, reply: Outcome<(), Thrown>)
    ensures var r := ReduceAll(s, Puts(AddUserSaga(user, reply)));
      !r.loading &&
      (reply.Ok? ==> r.users == s.users + [user] && r.error.None?) &&
      (reply.Err? ==> r.users == s.users && r.error == Some(AddUserFailed))
  {
    var second := if reply.Ok? then AddUserSuccess(user) else AddUserFailure(AddUserFailed);
    FoldTwo(Reduce, s, AddUserStart, second);
  }

  /** A whole delete run: on success no user with the id remains, on failure the list is kept;
      a thrown value's own message is never shown. */
  lemma {:induction false} DeleteRunOutcome(s: UsersState, userId: string, reply: Outcome<(), Thrown>)
    ensures var r := ReduceAll(s, Puts(DeleteUserSaga(userId, reply)));
      !r.loading &&
      (reply.Ok? ==> !Lists.HasId(r.users, UserId, userId) && r.error.None?) &&
      (reply.Err? ==> r.users == s.users && r.error == Some(DeleteUserFailed))
  {
    var second := if reply.Ok? then DeleteUserSuccess(userId) else DeleteUserFailure(DeleteUserFailed);
    FoldTwo(Reduce, s, DeleteUserStart, second);
  }

  /** The fetch and edit runs end the same way: not loading, and an error exactly when the
      call threw, always the worker's fixed message. */
  lemma {:induction false} FetchAndEditRunsSettle(s: UsersState, user: User, fetched: Outcome<seq<User>, Thrown>,
                                                  edited: Outcome<(), Thrown>)
    ensures var r := ReduceAll(s, Puts(FetchUsersSaga(fetched)));
      !r.loading && (fetched.Ok? ==> r.users == fetched.value && r.error.None?) &&
      (fetched.Err? ==> r.users == s.users && r.error == Some(FetchUsersFailed))
    ensures var r := ReduceAll(s, Puts(EditUserSaga(user, edited)));
      !r.loading && |r.users| == |s.users| && (edited.Ok? ==> r.error.None?) &&
      (edited.Err? ==> r.users == s.users && r.error == Some(EditUserFailed))
  {
    var f := if fetched.Ok? then FetchUsersSuccess(fetched.value) else FetchUsersFailure(FetchUsersFailed);
    FoldTwo(Reduce, s, FetchUsersStart, f);
    var e := if edited.Ok? then EditUserSuccess(user) else EditUserFailure(EditUserFailed);
    FoldTwo(Reduce, s, EditUserStart, e);
  }
}
