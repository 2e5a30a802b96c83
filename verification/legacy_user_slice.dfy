/** The legacy `user` slice (src/store/userSlice.ts): a list of users with a loading flag and
    an error. The `*Start` reducers take no payload. */
module LegacyUserSlice {
  import opened Common
  import opened LegacyEntities
  import Lists

  datatype UsersState = UsersState(users: seq<User>, loading: bool, error: Option<string>)

  const Initial := UsersState([], false, None)

  datatype UsersAction =
    | FetchUsersStart
    | FetchUsersSuccess(users: seq<User>)
    | FetchUsersFailure(message: string)
    | AddUserStart
    | AddUserSuccess(user: User)
    | AddUserFailure(message: string)
    | EditUserStart
    | EditUserSuccess(user: User)
    | EditUserFailure(message: string)
    | DeleteUserStart
    | DeleteUserSuccess(userId: string)
    | DeleteUserFailure(message: string)
    | ClearError
  {
    predicate IsStart() {
      FetchUsersStart? || AddUserStart? || EditUserStart? || DeleteUserStart?
    }

    predicate IsFailure() {
      FetchUsersFailure? || AddUserFailure? || EditUserFailure? || DeleteUserFailure?
    }
  }

  function Reduce(s: UsersState, a: UsersAction): UsersState {
    match a
    case FetchUsersStart => s.(loading := true, error := None)
    case FetchUsersSuccess(us) => s.(users := us, loading := false)
    case FetchUsersFailure(m) => s.(loading := false, error := Some(m))
    case AddUserStart => s.(loading := true, error := None)
    case AddUserSuccess(u) => s.(users := s.users + [u], loading := false)
    case AddUserFailure(m) => s.(loading := false, error := Some(m))
    case EditUserStart => s.(loading := true, error := None)
    case EditUserSuccess(u) => s.(users := Lists.ReplaceFirstById(s.users, UserId, u), loading := false)
    case EditUserFailure(m) => s.(loading := false, error := Some(m))
    case DeleteUserStart => s.(loading := true, error := None)
    case DeleteUserSuccess(id) => s.(users := Lists.RemoveById(s.users, UserId, id), loading := false)
    case DeleteUserFailure(m) => s.(loading := false, error := Some(m))
    case ClearError => s.(error := None)
  }

  function ReduceAll(s: UsersState, actions: seq<UsersAction>): UsersState {
    Fold(Reduce, s, actions)
  }

  /** Every start raises loading, clears the error and leaves the list alone. */
  lemma StartClearsError(s: UsersState, a: UsersAction)
    requires a.IsStart()
    ensures var r := Reduce(s, a); r.loading && r.error.None? && r.users == s.users
  {
  }

  /** Every failure stores its message, ends loading and keeps the list. */
  lemma FailureKeepsUsers(s: UsersState, a: UsersAction)
    requires a.IsFailure()
    ensures var r := Reduce(s, a); !r.loading && r.error == Some(a.message) && r.users == s.users
  {
  }

  /** Success reducers end loading and leave any error in place. */
  lemma SuccessKeepsError(s: UsersState, a: UsersAction)
    requires !a.IsStart() && !a.IsFailure() && !a.ClearError?
    ensures !Reduce(s, a).loading && Reduce(s, a).error == s.error
  {
  }

  lemma FetchReplacesList(s: UsersState, us: seq<User>)
    ensures Reduce(s, FetchUsersSuccess(us)).users == us && !Reduce(s, FetchUsersSuccess(us)).loading
  {
  }

  lemma AddAppends(s: UsersState, u: User)
    ensures var r := Reduce(s, AddUserSuccess(u)).users;
      |r| == |s.users| + 1 && r[..|s.users|] == s.users && r[|s.users|] == u
  {
  }

  /** Edit replaces the first user with the payload's id; with none, only loading changes. */
  lemma EditReplacesFirstMatch(s: UsersState, u: User)
    ensures var r := Reduce(s, EditUserSuccess(u)).users;
      |r| == |s.users| &&
      forall i :: 0 <= i < |r| ==> r[i] == if Lists.IsFirstMatch(s.users, UserId, u.id, i) then u else s.users[i]
    ensures !Lists.HasId(s.users, UserId, u.id) ==> Reduce(s, EditUserSuccess(u)) == s.(loading := false)
  {
  }

  lemma DeleteRemovesAll(s: UsersState, id: string)
    ensures var r := Reduce(s, DeleteUserSuccess(id)).users;
      !Lists.HasId(r, UserId, id) && Lists.IsSubsequence(r, s.users) &&
      forall i :: 0 <= i < |s.users| && s.users[i].id != id ==> s.users[i] in r
    ensures var once := Reduce(s, DeleteUserSuccess(id)); Reduce(once, DeleteUserSuccess(id)) == once
  {
    Lists.RemoveByIdIsSubsequence(s.users, UserId, id);
    Lists.RemoveByIdIdempotent(s.users, UserId, id);
  }

  class UsersStore {
    var users: seq<User>
    var loading: bool
    var error: Option<string>

    function State(): UsersState
      reads this
    {
      UsersState(users, loading, error)
    }

    constructor ()
      ensures State() == Initial
    {
      users := [];
      loading := false;
      error := None;
    }

    method FetchUsersStart()
      modifies this
      ensures State() == Reduce(old(State()), UsersAction.FetchUsersStart)
    {
      loading := true;
      error := None;
    }

    method FetchUsersSuccess(payload: seq<User>)
      modifies this
      ensures State() == Reduce(old(State()), UsersAction.FetchUsersSuccess(payload))
    {
      users := payload;
      loading := false;
    }

    method FetchUsersFailure(payload: string)
      modifies this
      ensures State() == Reduce(old(State()), UsersAction.FetchUsersFailure(payload))
    {
      loading := false;
      error := Some(payload);
    }

    method AddUserStart()
      modifies this
      ensures State() == Reduce(old(State()), UsersAction.AddUserStart)
    {
      loading := true;
      error := None;
    }

    method AddUserSuccess(payload: User)
      modifies this
      ensures State() == Reduce(old(State()), UsersAction.AddUserSuccess(payload))
    {
      users := users + [payload];
      loading := false;
    }

    method AddUserFailure(payload: string)
      modifies this
      ensures State() == Reduce(old(State()), UsersAction.AddUserFailure(payload))
    {
      loading := false;
      error := Some(payload);
    }

    method EditUserStart()
      modifies this
      ensures State() == Reduce(old(State()), UsersAction.EditUserStart)
    {
      loading := true;
      error := None;
    }

    method EditUserSuccess(payload: User)
      modifies this
      ensures State() == Reduce(old(State()), UsersAction.EditUserSuccess(payload))
    {
      var index := Lists.FindIndexById(users, UserId, payload.id);
      if index != -1 {
        users := users[index := payload];
      }
      loading := false;
    }

    method EditUserFailure(payload: string)
      modifies this
      ensures State() == Reduce(old(State()), UsersAction.EditUserFailure(payload))
    {
      loading := false;
      error := Some(payload);
    }

    method DeleteUserStart()
      modifies this
      ensures State() == Reduce(old(State()), UsersAction.DeleteUserStart)
    {
      loading := true;
      error := None;
    }

    method DeleteUserSuccess(payload: string)
      modifies this
      ensures State() == Reduce(old(State()), UsersAction.DeleteUserSuccess(payload))
    {
      users := Lists.RemoveById(users, UserId, payload);
      loading := false;
    }

    method DeleteUserFailure(payload: string)
      modifies this
      ensures State() == Reduce(old(State()), UsersAction.DeleteUserFailure(payload))
    {
      loading := false;
      error := Some(payload);
    }

    method ClearError()
      modifies this
      ensures State() == Reduce(old(State()), UsersAction.ClearError)
    {
      error := None;
    }
  }
}
