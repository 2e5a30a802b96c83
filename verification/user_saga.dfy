/** The user workers of the newer store (src/store/sagas/userSaga.ts). A rejected call is
    reported with the server's message (`error.response.data.message`) or, when that is
    missing or empty, with a fixed message of the worker's own. */
module UserSaga {
  import opened Common
  import opened Entities
  import opened UserSlice

  /** The userService functions the workers call, with their arguments. */
  datatype UserCall =
    | GetProfileCall(username: string)
    | GetProfileByUsernameCall(username: string)
    | UpdateProfileCall(username: string, data: UserFields)
    | GetUsersCall(fields: Option<seq<string>>)

  type UserEffect = Effect<UserCall, UserAction>

  datatype UserReplies = UserReplies(
    profile: Outcome<User, ApiError>, byUsername: Outcome<User, ApiError>,
    update: Outcome<User, ApiError>, users: Outcome<seq<User>, ApiError>)

  const FetchProfileFallback := "Failed to fetch user profile."
  const FetchProfileByUsernameFallback := "Failed to fetch user profile by username."
  const UpdateProfileFallback := "Failed to update user profile."
  const FetchUsersFallback := "Failed to fetch users."

  function FetchProfileSaga(username: string, reply: Outcome<User, ApiError>): (effects: seq<UserEffect>)
    ensures Calls(effects) == [GetProfileCall(username)]
    ensures reply.Ok? ==> Puts(effects) == [FetchProfileSuccess(reply.value)]
    ensures reply.Err? ==> Puts(effects) == [FetchProfileFailure(ResponseMessageOr(reply.error, FetchProfileFallback))]
  {
    match reply
    case Ok(profile) => CallThen(GetProfileCall(username), [FetchProfileSuccess(profile)])
    case Err(e) => CallThen(GetProfileCall(username), [FetchProfileFailure(ResponseMessageOr(e, FetchProfileFallback))])
  }

  /** The worker reads `action.payload.username`. Dispatched as its action creator is typed,
      with no payload, that read throws before any call is made; the thrown TypeError has no
      response, so the failure carries the fixed message. */
  function FetchProfileByUsernameSaga(byUsername: Option<string>, reply: Outcome<User, ApiError>)
    : (effects: seq<UserEffect>)
    ensures byUsername.None? ==>
      Calls(effects) == [] && Puts(effects) == [FetchProfileByUsernameFailure(FetchProfileByUsernameFallback)]
    ensures byUsername.Some? ==> Calls(effects) == [GetProfileByUsernameCall(byUsername.value)]
    ensures byUsername.Some? && reply.Ok? ==> Puts(effects) == [FetchProfileByUsernameSuccess(reply.value)]
    ensures byUsername.Some? && reply.Err? ==>
      Puts(effects) == [FetchProfileByUsernameFailure(ResponseMessageOr(reply.error, FetchProfileByUsernameFallback))]
  {
    match byUsername
    case None =>
      PutAllPuts<UserCall, UserAction>([FetchProfileByUsernameFailure(FetchProfileByUsernameFallback)]);
      PutAll([FetchProfileByUsernameFailure(FetchProfileByUsernameFallback)])
    case Some(username) =>
      match reply
      case Ok(profile) => CallThen(GetProfileByUsernameCall(username), [FetchProfileByUsernameSuccess(profile)])
      case Err(e) =>
        CallThen(GetProfileByUsernameCall(username),
                 [FetchProfileByUsernameFailure(ResponseMessageOr(e, FetchProfileByUsernameFallback))])
  }

  /** The update forwards the payload's username and data and puts the profile the service
      returns. */
  function UpdateProfileSaga(payload: UpdateProfilePayload, reply: Outcome<User, ApiError>): (effects: seq<UserEffect>)
    ensures Calls(effects) == [UpdateProfileCall(payload.username, payload.data)]
    ensures reply.Ok? ==> Puts(effects) == [UpdateProfileSuccess(reply.value)]
    ensures reply.Err? ==> Puts(effects) == [UpdateProfileFailure(ResponseMessageOr(reply.error, UpdateProfileFallback))]
  {
    var call := UpdateProfileCall(payload.username, payload.data);
    match reply
    case Ok(profile) => CallThen(call, [UpdateProfileSuccess(profile)])
    case Err(e) => CallThen(call, [UpdateProfileFailure(ResponseMessageOr(e, UpdateProfileFallback))])
  }

  /** Only the requested fields are forwarded to the service. */
  function FetchUsersSaga(query: FetchUsersPayload, reply: Outcome<seq<User>, ApiError>): (effects: seq<UserEffect>)
    ensures Calls(effects) == [GetUsersCall(query.fields)]
    ensures reply.Ok? ==> Puts(effects) == [FetchUsersSuccess(reply.value)]
    ensures reply.Err? ==> Puts(effects) == [FetchUsersFailure(ResponseMessageOr(reply.error, FetchUsersFallback))]
  {
    match reply
    case Ok(users) => CallThen(GetUsersCall(query.fields), [FetchUsersSuccess(users)])
    case Err(e) => CallThen(GetUsersCall(query.fields), [FetchUsersFailure(ResponseMessageOr(e, FetchUsersFallback))])
  }

  /** The four requests the watchers take. */
  predicate Watched(a: UserAction) {
    a.FetchProfileRequest? || a.FetchProfileByUsernameRequest? || a.UpdateProfileRequest? || a.FetchUsersRequest?
  }

  function Handle(a: UserAction, replies: UserReplies): seq<UserEffect> {
    match a
    case FetchProfileRequest(username) => FetchProfileSaga(username, replies.profile)
    case FetchProfileByUsernameRequest(byUsername) => FetchProfileByUsernameSaga(byUsername, replies.byUsername)
    case UpdateProfileRequest(payload) => UpdateProfileSaga(payload, replies.update)
    case FetchUsersRequest(query) => FetchUsersSaga(query, replies.users)
    case _ => []
  }

  /** Whether the worker the request starts ends in its failure. */
  predicate WorkerFails(a: UserAction, replies: UserReplies) {
    match a
    case FetchProfileRequest(_) => replies.profile.Err?
    case FetchProfileByUsernameRequest(byUsername) => byUsername.None? || replies.byUsername.Err?
    case UpdateProfileRequest(_) => replies.update.Err?
    case FetchUsersRequest(_) => replies.users.Err?
    case _ => false
  }

  /** A profile request followed by its worker's single put settles the profile half: the
      loading flag is down again, the error is set exactly when the worker failed, never to an
      empty message, and the user list half is as it was. No worker refetches. */
  lemma {:induction false} ProfileWorkerSettles(s: UserState, a: UserAction, replies: UserReplies)
    requires Watched(a) && !a.FetchUsersRequest?
    ensures |Puts(Handle(a, replies))| == 1
    ensures var r := ReduceAll(Reduce(s, a), Puts(Handle(a, replies)));
      !r.loading && (r.error.Some? <==> WorkerFails(a, replies)) &&
      (r.error.Some? ==> r.error.value != "") &&
      r.users == s.users && r.usersLoading == s.usersLoading && r.usersError == s.usersError
  {
    var t := Reduce(s, a);
    match a
    case FetchProfileRequest(_) =>
      match replies.profile {
        case Ok(p) => FoldOne(Reduce, t, FetchProfileSuccess(p));
        case Err(e) => FoldOne(Reduce, t, FetchProfileFailure(ResponseMessageOr(e, FetchProfileFallback)));
      }
    case FetchProfileByUsernameRequest(byUsername) =>
      if byUsername.None? {
        FoldOne(Reduce, t, FetchProfileByUsernameFailure(FetchProfileByUsernameFallback));
      } else {
        match replies.byUsername {
          case Ok(p) => FoldOne(Reduce, t, FetchProfileByUsernameSuccess(p));
          case Err(e) =>
            FoldOne(Reduce, t, FetchProfileByUsernameFailure(ResponseMessageOr(e, FetchProfileByUsernameFallback)));
        }
      }
    case UpdateProfileRequest(_) =>
      match replies.update {
        case Ok(p) => FoldOne(Reduce, t, UpdateProfileSuccess(p));
        case Err(e) => FoldOne(Reduce, t, UpdateProfileFailure(ResponseMessageOr(e, UpdateProfileFallback)));
      }
  }

  /** The users request and its worker's single put settle the list half the same way and
      leave the profile half alone. */
  lemma {:induction false} UsersWorkerSettles(s: UserState, query: FetchUsersPayload, replies: UserReplies)
    ensures |Puts(Handle(FetchUsersRequest(query), replies))| == 1
    ensures var r := ReduceAll(Reduce(s, FetchUsersRequest(query)), Puts(Handle(FetchUsersRequest(query), replies)));
      !r.usersLoading && (r.usersError.Some? <==> replies.users.Err?) &&
      (r.usersError.Some? ==> r.usersError.value != "") &&
      r.profile == s.profile && r.loading == s.loading && r.error == s.error
  {
    var t := Reduce(s, FetchUsersRequest(query));
    match replies.users
    case Ok(us) => FoldOne(Reduce, t, FetchUsersSuccess(us));
    case Err(e) => FoldOne(Reduce, t, FetchUsersFailure(ResponseMessageOr(e, FetchUsersFallback)));
  }

  /** Dispatched without a payload, as typed, fetchProfileByUsername never reaches the
      service and always fails, whatever the service would have answered. */
  lemma ByUsernameWithoutPayloadAlwaysFails(s: UserState, replies: UserReplies)
    ensures Calls(Handle(FetchProfileByUsernameRequest(None), replies)) == []
    ensures var r := ReduceAll(Reduce(s, FetchProfileByUsernameRequest(None)),
                               Puts(Handle(FetchProfileByUsernameRequest(None), replies)));
      r.error == Some(FetchProfileByUsernameFallback) && r.profile == s.profile
  {
    ProfileWorkerSettles(s, FetchProfileByUsernameRequest(None), replies);
    FoldOne(Reduce, Reduce(s, FetchProfileByUsernameRequest(None)),
            FetchProfileByUsernameFailure(FetchProfileByUsernameFallback));
  }
}
