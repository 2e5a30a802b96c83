/** The `user` slice of the newer store (src/store/slices/userSlice.ts): the viewed profile
    with its own loading flag and error, and a list of users with a separate loading flag and
    error. */
module UserSlice {
  import opened Common
  import opened Entities

  datatype UserState = UserState(
    profile: Option<User>, users: seq<User>, usersLoading: bool, loading: bool,
    error: Option<string>, usersError: Option<string>)

  const Initial := UserState(None, [], false, false, None, None)

  datatype UserAction =
    | FetchProfileRequest(username: string)
    | FetchProfileSuccess(user: User)
    | FetchProfileFailure(message: string)
      // The case reducer takes no payload; the action object carries whatever argument the
      // action creator was called with (None when called, as typed, with none).
    | FetchProfileByUsernameRequest(byUsername: Option<string>)
    | FetchProfileByUsernameSuccess(user: User)
    | FetchProfileByUsernameFailure(message: string)
    | UpdateProfileRequest(update: UpdateProfilePayload)
    | UpdateProfileSuccess(user: User)
    | UpdateProfileFailure(message: string)
    | FetchUsersRequest(query: FetchUsersPayload)
    | FetchUsersSuccess(users: seq<User>)
    | FetchUsersFailure(message: string)
    | FetchUsersWithFieldsRequest(fields: string)
    | FetchUsersWithFieldsSuccess(users: seq<User>)
    | FetchUsersWithFieldsFailure(message: string)
    | ClearUserError
    | ResetUserProfile
  {
    /** The actions that work on the profile half of the state. */
    predicate IsProfileAction() {
      FetchProfileRequest? || FetchProfileSuccess? || FetchProfileFailure? ||
      FetchProfileByUsernameRequest? || FetchProfileByUsernameSuccess? || FetchProfileByUsernameFailure? ||
      UpdateProfileRequest? || UpdateProfileSuccess? || UpdateProfileFailure? || ResetUserProfile?
    }

    /** The actions that work on the users-list half of the state. */
    predicate IsUsersAction() {
      FetchUsersRequest? || FetchUsersSuccess? || FetchUsersFailure? ||
      FetchUsersWithFieldsRequest? || FetchUsersWithFieldsSuccess? || FetchUsersWithFieldsFailure?
    }
  }

  /** `{ ...state.profile, ...payload }`: spreading a null profile contributes nothing. */
  function OverlayProfile(profile: Option<User>, payload: User): User {
    match profile
    case None => payload
    case Some(p) => SpreadUser(p, payload)
  }

  function Reduce(s: UserState, a: UserAction): UserState {
    match a
    case FetchProfileRequest(_) => s.(loading := true, error := None)
    case FetchProfileSuccess(u) => s.(loading := false, profile := Some(u), error := None)
    case FetchProfileFailure(m) => s.(loading := false, error := Some(m))
    case FetchProfileByUsernameRequest(_) => s.(loading := true, error := None)
    case FetchProfileByUsernameSuccess(u) => s.(loading := false, profile := Some(u), error := None)
    case FetchProfileByUsernameFailure(m) => s.(loading := false, error := Some(m))
    case UpdateProfileRequest(_) => s.(loading := true, error := None)
    case UpdateProfileSuccess(u) => s.(loading := false, profile := Some(OverlayProfile(s.profile, u)), error := None)
    case UpdateProfileFailure(m) => s.(loading := false, error := Some(m))
    case FetchUsersRequest(_) => s.(usersLoading := true, usersError := None)
    case FetchUsersSuccess(us) => s.(usersLoading := false, users := us, usersError := None)
    case FetchUsersFailure(m) => s.(usersLoading := false, usersError := Some(m))
    case FetchUsersWithFieldsRequest(_) => s.(usersLoading := true, usersError := None)
    case FetchUsersWithFieldsSuccess(us) => s.(usersLoading := false, users := us, usersError := None)
    case FetchUsersWithFieldsFailure(m) => s.(usersLoading := false, usersError := Some(m))
    case ClearUserError => s.(error := None, usersError := None)
    case ResetUserProfile => s.(profile := None, loading := false, error := None)
  }

  function ReduceAll(s: UserState, actions: seq<UserAction>): UserState {
    Fold(Reduce, s, actions)
  }

  /** The two halves of the state are independent: profile actions never touch the users
      list, its loading flag or its error, and users-list actions never touch the profile, its
      loading flag or its error. */
  lemma HalvesAreIndependent(s: UserState, a: UserAction)
    ensures a.IsProfileAction() ==>
      var r := Reduce(s, a); r.users == s.users && r.usersLoading == s.usersLoading && r.usersError == s.usersError
    ensures a.IsUsersAction() ==>
      var r := Reduce(s, a); r.profile == s.profile && r.loading == s.loading && r.error == s.error
  {
  }

  /** The profile update overlays the payload on the current profile: the required properties
      and every optional one the payload has come from the payload, the other optional ones
      are kept. */
  lemma UpdateProfileOverlays(s: UserState, u: User)
    ensures var r := Reduce(s, UpdateProfileSuccess(u));
      r.profile.Some? && r.profile.value.id == u.id && r.profile.value.username == u.username &&
      r.profile.value.email == u.email && r.profile.value.firstName == u.firstName &&
      (forall k :: k in u.optional ==> k in r.profile.value.optional && r.profile.value.optional[k] == u.optional[k]) &&
      (s.profile.Some? ==> forall k :: k in s.profile.value.optional && k !in u.optional ==>
        k in r.profile.value.optional && r.profile.value.optional[k] == s.profile.value.optional[k]) &&
      (s.profile.None? ==> r.profile.value == u)
  {
  }

  /** Overlaying the same payload twice is the same as once. */
  lemma UpdateProfileIdempotent(s: UserState, u: User)
    ensures var once := Reduce(s, UpdateProfileSuccess(u));
      Reduce(once, UpdateProfileSuccess(u)) == once
  {
    var once := Reduce(s, UpdateProfileSuccess(u));
    var p := once.profile.value;
    var twice := SpreadUser(p, u);
    assert twice.optional == p.optional by {
      assert twice.optional.Keys == p.optional.Keys;
    }
  }

  lemma ProfileFailureKeepsProfile(s: UserState, m: string)
    ensures Reduce(s, FetchProfileFailure(m)).profile == s.profile
    ensures Reduce(s, FetchProfileByUsernameFailure(m)).profile == s.profile
    ensures Reduce(s, UpdateProfileFailure(m)).profile == s.profile
    ensures Reduce(s, FetchProfileFailure(m)).error == Some(m)
  {
  }

  lemma FetchUsersReplacesList(s: UserState, us: seq<User>)
    ensures var r := Reduce(s, FetchUsersSuccess(us));
      r.users == us && r.usersError.None? && !r.usersLoading && r.profile == s.profile
  {
  }

  /** clearUserError nulls both errors and nothing else. */
  lemma ClearUserErrorOnlyErrors(s: UserState)
    ensures Reduce(s, ClearUserError) == s.(error := None, usersError := None)
  {
  }

  /** resetUserProfile forgets the profile and its status; the users list is untouched. */
  lemma ResetKeepsUsers(s: UserState)
    ensures var r := Reduce(s, ResetUserProfile);
      r.profile.None? && !r.loading && r.error.None? &&
      r.users == s.users && r.usersLoading == s.usersLoading && r.usersError == s.usersError
  {
  }

  class UserStore {
    var profile: Option<User>
    var users: seq<User>
    var usersLoading: bool
    var loading: bool
    var error: Option<string>
    var usersError: Option<string>

    function State(): UserState
      reads this
    {
      UserState(profile, users, usersLoading, loading, error, usersError)
    }

    constructor ()
      ensures State() == Initial
    {
      profile := None;
      users := [];
      usersLoading := false;
      loading := false;
      error := None;
      usersError := None;
    }

    method FetchProfileRequest(username: string)
      modifies this
      ensures State() == Reduce(old(State()), UserAction.FetchProfileRequest(username))
    {
      loading := true;
      error := None;
    }

    method FetchProfileSuccess(payload: User)
      modifies this
      ensures State() == Reduce(old(State()), UserAction.FetchProfileSuccess(payload))
    {
      loading := false;
      profile := Some(payload);
      error := None;
    }

    method FetchProfileFailure(payload: string)
      modifies this
      ensures State() == Reduce(old(State()), UserAction.FetchProfileFailure(payload))
    {
      loading := false;
      error := Some(payload);
    }

    method FetchProfileByUsernameRequest(byUsername: Option<string>)
      modifies this
      ensures State() == Reduce(old(State()), UserAction.FetchProfileByUsernameRequest(byUsername))
    {
      loading := true;
      error := None;
    }

    method FetchProfileByUsernameSuccess(payload: User)
      modifies this
      ensures State() == Reduce(old(State()), UserAction.FetchProfileByUsernameSuccess(payload))
    {
      loading := false;
      profile := Some(payload);
      error := None;
    }

    method FetchProfileByUsernameFailure(payload: string)
      modifies this
      ensures State() == Reduce(old(State()), UserAction.FetchProfileByUsernameFailure(payload))
    {
      loading := false;
      error := Some(payload);
    }

    method UpdateProfileRequest(payload: UpdateProfilePayload)
      modifies this
      ensures State() == Reduce(old(State()), UserAction.UpdateProfileRequest(payload))
    {
      loading := true;
      error := None;
    }

    method UpdateProfileSuccess(payload: User)
      modifies this
      ensures State() == Reduce(old(State()), UserAction.UpdateProfileSuccess(payload))
    {
      loading := false;
      profile := Some(OverlayProfile(profile, payload));
      error := None;
    }

    method UpdateProfileFailure(payload: string)
      modifies this
      ensures State() == Reduce(old(State()), UserAction.UpdateProfileFailure(payload))
    {
      loading := false;
      error := Some(payload);
    }

    method FetchUsersRequest(payload: FetchUsersPayload)
      modifies this
      ensures State() == Reduce(old(State()), UserAction.FetchUsersRequest(payload))
    {
      usersLoading := true;
      usersError := None;
    }

    method FetchUsersSuccess(payload: seq<User>)
      modifies this
      ensures State() == Reduce(old(State()), UserAction.FetchUsersSuccess(payload))
    {
      usersLoading := false;
      users := payload;
      usersError := None;
    }

    method FetchUsersFailure(payload: string)
      modifies this
      ensures State() == Reduce(old(State()), UserAction.FetchUsersFailure(payload))
    {
      usersLoading := false;
      usersError := Some(payload);
    }

    method FetchUsersWithFieldsRequest(payload: string)
      modifies this
      ensures State() == Reduce(old(State()), UserAction.FetchUsersWithFieldsRequest(payload))
    {
      usersLoading := true;
      usersError := None;
    }

    method FetchUsersWithFieldsSuccess(payload: seq<User>)
      modifies this
      ensures State() == Reduce(old(State()), UserAction.FetchUsersWithFieldsSuccess(payload))
    {
      usersLoading := false;
      users := payload;
      usersError := None;
    }

    method FetchUsersWithFieldsFailure(payload: string)
      modifies this
      ensures State() == Reduce(old(State()), UserAction.FetchUsersWithFieldsFailure(payload))
    {
      usersLoading := false;
      usersError := Some(payload);
    }

    method ClearUserError()
      modifies this
      ensures State() == Reduce(old(State()), UserAction.ClearUserError)
    {
      error := None;
      usersError := None;
    }

    method ResetUserProfile()
      modifies this
      ensures State() == Reduce(old(State()), UserAction.ResetUserProfile)
    {
      profile := None;
      loading := false;
      error := None;
    }
  }
}
