/** The legacy auth workers (src/store/authSagas.ts). Login looks the user up in local storage
    and, when found, writes its token under 'authToken' before putting the success; logout
    removes the token and then puts the slice's `logout`; the forgot-password worker calls
    nothing and puts a start and a success. */
module LegacyAuthSagas {
  import opened Common
  import opened LegacyEntities
  import opened LegacyAuthSlice

  const TokenKey := "authToken"
  const InvalidCredentials := "Invalid credentials"
  const LoginFailed := "Login failed. Please try again."
  const ResetLinkFailed := "Failed to send password reset link."

  /** The calls the workers make: the AuthService lookup and the two storage helpers. */
  datatype AuthCall =
    | LookupCall(identifier: string, password: string)
    | StoreTokenCall(key: string, token: string)
    | RemoveTokenCall(key: string)

  type AuthEffect = Effect<AuthCall, AuthAction>

  /** `user.token || ''`: a missing token is stored and put as the empty string. */
  function TokenOf(u: User): (token: string)
    ensures u.token.Some? ==> token == u.token.value
    ensures u.token.None? ==> token == ""
  {
    u.token.GetOr("")
  }

  /** `lookup` is what the AuthService lookup resolves to (a user or null) or throws; `store`
      is what the token write does. */
  function LoginSaga(identifier: string, password: string, lookup: Outcome<Option<User>, Thrown>,
                     store: Outcome<(), Thrown>): (effects: seq<AuthEffect>)
    ensures |effects| >= 2 && effects[0] == Call(LookupCall(identifier, password))
    ensures lookup.Err? ==> Calls(effects) == [LookupCall(identifier, password)] && Puts(effects) == [LoginFailure(LoginFailed)]
    ensures lookup == Ok(None) ==>
      Calls(effects) == [LookupCall(identifier, password)] && Puts(effects) == [LoginFailure(InvalidCredentials)]
    ensures lookup.Ok? && lookup.value.Some? ==>
      var u := lookup.value.value;
      Calls(effects) == [LookupCall(identifier, password), StoreTokenCall(TokenKey, TokenOf(u))] &&
      |effects| == 3 && effects[1] == Call(StoreTokenCall(TokenKey, TokenOf(u))) &&
      effects[2] == Put(if store.Ok? then LoginSuccess(u, TokenOf(u)) else LoginFailure(LoginFailed))
  {
    var lookupCall := LookupCall(identifier, password);
    match lookup
    case Err(_) => CallThen(lookupCall, [LoginFailure(LoginFailed)])
    case Ok(None) => CallThen(lookupCall, [LoginFailure(InvalidCredentials)])
    case Ok(Some(u)) =>
      var outcome := if store.Ok? then LoginSuccess(u, TokenOf(u)) else LoginFailure(LoginFailed);
      CallBefore(lookupCall, CallThen(StoreTokenCall(TokenKey, TokenOf(u)), [outcome]))
  }

  /** A throw from the token removal is only logged: the worker then puts nothing. */
  function LogoutSaga(remove: Outcome<(), Thrown>): (effects: seq<AuthEffect>)
    ensures Calls(effects) == [RemoveTokenCall(TokenKey)] && effects[0] == Call(RemoveTokenCall(TokenKey))
    ensures remove.Ok? ==> Puts(effects) == [Logout]
    ensures remove.Err? ==> Puts(effects) == []
  {
    match remove
    case Ok(_) => CallThen(RemoveTokenCall(TokenKey), [Logout])
    case Err(_) => CallThen(RemoveTokenCall(TokenKey), [])
  }

  /** The service call is commented out in the source, so nothing can throw and the failure
      branch is unreachable. */
  function ForgotPasswordSaga(email: string): (effects: seq<AuthEffect>)
    ensures Calls(effects) == []
    ensures Puts(effects) == [ForgotPasswordStart, ForgotPasswordSuccess]
  {
    PutAllPuts<AuthCall, AuthAction>([ForgotPasswordStart, ForgotPasswordSuccess]);
    PutAll([ForgotPasswordStart, ForgotPasswordSuccess])
  }

  /** A successful lookup signs in with the stored token; an unknown user or a throw leaves
      the session as it was, with the matching message. */
  lemma {:induction false} LoginRunOutcome(s: AuthState, identifier: string, password: string,
                                           lookup: Outcome<Option<User>, Thrown>)
    ensures var r := ReduceAll(Reduce(s, LoginStart(identifier, password)), Puts(LoginSaga(identifier, password, lookup, Ok(()))));
      !r.loading &&
      (lookup.Ok? && lookup.value.Some? ==>
        r.user == Some(lookup.value.value) && r.token == Some(TokenOf(lookup.value.value)) && r.isAuthenticated &&
        r.error.None?) &&
      (lookup == Ok(None) ==>
        r.user == s.user && r.token == s.token && r.isAuthenticated == s.isAuthenticated &&
        r.error == Some(InvalidCredentials)) &&
      (lookup.Err? ==>
        r.user == s.user && r.token == s.token && r.error == Some(LoginFailed))
  {
    var t := Reduce(s, LoginStart(identifier, password));
    var puts := Puts(LoginSaga(identifier, password, lookup, Ok(())));
    var x := match lookup
      case Err(_) => LoginFailure(LoginFailed)
      case Ok(None) => LoginFailure(InvalidCredentials)
      case Ok(Some(u)) => LoginSuccess(u, TokenOf(u));
    assert puts == [x];
    FoldOne(Reduce, t, x);
  }

  /** The forgot-password run always ends with the reset flag raised and no error. */
  lemma {:induction false} ForgotPasswordRunSucceeds(s: AuthState, email: string)
    ensures var r := ReduceAll(s, Puts(ForgotPasswordSaga(email)));
      r.passwordResetSuccess && !r.loading && r.error.None? && r.user == s.user
  {
    FoldTwo(Reduce, s, ForgotPasswordStart, ForgotPasswordSuccess);
  }

  /** The type string createSlice gives each action of the 'auth' slice. */
  function TypeOf(a: AuthAction): string {
    match a
    case LoginStart(_, _) => "auth/loginStart"
    case LoginSuccess(_, _) => "auth/loginSuccess"
    case LoginFailure(_) => "auth/loginFailure"
    case Logout => "auth/logout"
    case SetUser(_) => "auth/setUser"
    case SetError(_) => "auth/setError"
    case ClearError => "auth/clearError"
    case ForgotPasswordStart => "auth/forgotPasswordStart"
    case ForgotPasswordSuccess => "auth/forgotPasswordSuccess"
    case ForgotPasswordFailure(_) => "auth/forgotPasswordFailure"
  }

  /** The types the watchers take, as written: the logout worker is started by 'auth/logout',
      the type of the very action it puts. */
  const WatchedTypes: set<string> := {"auth/loginStart", "auth/logout", "auth/forgotPassword"}

  /** As written, a successful logout run puts an action its own watcher takes, so every run
      starts the next one and logging out never stops removing the token and putting logout. */
  lemma LogoutRetriggersItself()
    ensures var puts := Puts(LogoutSaga(Ok(())));
      puts == [Logout] && TypeOf(puts[0]) in WatchedTypes && TypeOf(puts[0]) == "auth/logout"
  {
  }

  /** As written, the forgot-password watcher takes a type that no action of the slice has, so
      its worker never starts: every type has a length other than that of 'auth/forgotPassword'. */
  lemma ForgotPasswordWatcherNeverStarts(a: AuthAction)
    ensures "auth/forgotPassword" in WatchedTypes
    ensures TypeOf(a) != "auth/forgotPassword"
  {
    assert |"auth/forgotPassword"| == 19;
    match a
    case LoginStart(_, _) => assert |TypeOf(a)| == 15;
    case LoginSuccess(_, _) => assert |TypeOf(a)| == 17;
    case LoginFailure(_) => assert |TypeOf(a)| == 17;
    case Logout => assert |TypeOf(a)| == 11;
    case SetUser(_) => assert |TypeOf(a)| == 12;
    case SetError(_) => assert |TypeOf(a)| == 13;
    case ClearError => assert |TypeOf(a)| == 15;
    case ForgotPasswordStart => assert |TypeOf(a)| == 24;
    case ForgotPasswordSuccess => assert |TypeOf(a)| == 26;
    case ForgotPasswordFailure(_) => assert |TypeOf(a)| == 26;
  }

  /** The evidently intended wiring: logout is started by a request type of its own, and the
      forgot-password watcher's type belongs to a request action that carries the email. */
  const CorrectedWatchedTypes: set<string> := {"auth/loginStart", "auth/logoutRequest", "auth/forgotPassword"}

  /** The actions of the intended wiring: the slice's own, plus the two request actions. The
      slice has no reducer for either request, so they leave its state as it is. */
  datatype CorrectedAction =
    | SliceAction(action: AuthAction)
    | LogoutRequest
    | ForgotPasswordRequest(email: string)

  function CorrectedTypeOf(c: CorrectedAction): string {
    match c
    case SliceAction(a) => TypeOf(a)
    case LogoutRequest => "auth/logoutRequest"
    case ForgotPasswordRequest(_) => "auth/forgotPassword"
  }

  function CorrectedReduce(s: AuthState, c: CorrectedAction): AuthState {
    match c
    case SliceAction(a) => Reduce(s, a)
    case _ => s
  }

  /** What the auth service and the storage helpers do during one run. */
  datatype AuthReplies = AuthReplies(
    lookup: Outcome<Option<User>, Thrown>, store: Outcome<(), Thrown>, remove: Outcome<(), Thrown>)

  /** The worker each watcher of the intended wiring starts; any other action starts none. */
  function CorrectedHandle(c: CorrectedAction, replies: AuthReplies): seq<AuthEffect> {
    match c
    case SliceAction(LoginStart(identifier, password)) => LoginSaga(identifier, password, replies.lookup, replies.store)
    case LogoutRequest => LogoutSaga(replies.remove)
    case ForgotPasswordRequest(email) => ForgotPasswordSaga(email)
    case _ => []
  }

  /** Of the slice's own actions, only loginStart has a watched type in the intended wiring. */
  lemma CorrectedWatchesOnlyLoginStart(a: AuthAction)
    ensures TypeOf(a) in CorrectedWatchedTypes <==> a.LoginStart?
  {
    match a
    case LoginStart(_, _) =>
    case LoginSuccess(_, _) => assert |TypeOf(a)| == 17;
    case LoginFailure(_) => assert |TypeOf(a)| == 17;
    case Logout => assert |TypeOf(a)| == 11;
    case SetUser(_) => assert TypeOf(a)[5] == 's';
    case SetError(_) => assert TypeOf(a)[5] == 's';
    case ClearError => assert TypeOf(a)[5] == 'c';
    case ForgotPasswordStart => assert |TypeOf(a)| == 24;
    case ForgotPasswordSuccess => assert |TypeOf(a)| == 26;
    case ForgotPasswordFailure(_) => assert |TypeOf(a)| == 26 && TypeOf(a)[19] == 'F';
  }

  /** In the intended wiring an action is watched exactly when it is loginStart or one of the
      two requests, and exactly those start a worker. */
  lemma CorrectedWatchesOnlyRequests(c: CorrectedAction, replies: AuthReplies)
    ensures CorrectedTypeOf(c) in CorrectedWatchedTypes <==>
      (c.SliceAction? && c.action.LoginStart?) || c.LogoutRequest? || c.ForgotPasswordRequest?
    ensures CorrectedHandle(c, replies) != [] <==> CorrectedTypeOf(c) in CorrectedWatchedTypes
  {
    if c.SliceAction? {
      CorrectedWatchesOnlyLoginStart(c.action);
    }
  }

  /** The logout request starts the logout worker, and no worker run of the intended wiring
      puts an action whose type is watched, so no run starts another. */
  lemma CorrectedRunsDoNotChain(c: CorrectedAction, replies: AuthReplies)
    ensures CorrectedTypeOf(LogoutRequest) in CorrectedWatchedTypes
    ensures Calls(CorrectedHandle(LogoutRequest, replies)) == [RemoveTokenCall(TokenKey)]
    ensures Puts(CorrectedHandle(LogoutRequest, replies)) == if replies.remove.Ok? then [Logout] else []
    ensures forall x :: x in Puts(CorrectedHandle(c, replies)) ==> CorrectedTypeOf(SliceAction(x)) !in CorrectedWatchedTypes
  {
    forall x: AuthAction ensures TypeOf(x) in CorrectedWatchedTypes <==> x.LoginStart? {
      CorrectedWatchesOnlyLoginStart(x);
    }
  }

  /** A logout request whose token removal succeeds ends signed out, with loading, error and
      the reset flag as they were; a failed removal leaves the state as it was. */
  lemma {:induction false} CorrectedLogoutRunSignsOut(s: AuthState, replies: AuthReplies)
    ensures var r := ReduceAll(CorrectedReduce(s, LogoutRequest), Puts(CorrectedHandle(LogoutRequest, replies)));
      (replies.remove.Ok? ==>
        r.user.None? && r.token.None? && !r.isAuthenticated &&
        r.loading == s.loading && r.error == s.error && r.passwordResetSuccess == s.passwordResetSuccess) &&
      (replies.remove.Err? ==> r == s)
  {
    if replies.remove.Ok? {
      FoldOne(Reduce, s, Logout);
    } else {
      assert Puts(CorrectedHandle(LogoutRequest, replies)) == [];
    }
  }

  /** A forgot-password request starts its worker, which ends with the reset flag raised and no
      error, the session untouched. */
  lemma {:induction false} CorrectedForgotPasswordRunSucceeds(s: AuthState, email: string, replies: AuthReplies)
    ensures CorrectedTypeOf(ForgotPasswordRequest(email)) in CorrectedWatchedTypes
    ensures var r := ReduceAll(CorrectedReduce(s, ForgotPasswordRequest(email)),
                               Puts(CorrectedHandle(ForgotPasswordRequest(email), replies)));
      r.passwordResetSuccess && !r.loading && r.error.None? && r.user == s.user && r.token == s.token
  {
    FoldTwo(Reduce, s, ForgotPasswordStart, ForgotPasswordSuccess);
  }
}
