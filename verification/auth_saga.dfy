/** The auth workers of the newer store (src/store/sagas/authSaga.ts). Their puts reach slices
    other than auth: a successful login asks every resource slice to load. A rejected call is
    reported with the server's message or, when that is missing or empty, a fixed message. */
module AuthSaga {
  import opened Common
  import opened Entities
  import opened AppStore
  import AuthSlice
  import CategorySlice
  import GroupSlice
  import PaymentMethodSlice
  import ExpenseSlice
  import UserSlice
  import SettingsSlice

  /** The authService functions the workers call, with their arguments. */
  datatype AuthCall =
    | LoginCall(username: string, password: string)
    | RegisterCall(registration: RegisterRequestPayload)
    | LogoutCall
    | ForgotPasswordCall(email: string)

  type AuthEffect = Effect<AuthCall, AppAction>

  datatype AuthReplies = AuthReplies(
    login: Outcome<AuthData, ApiError>, register: Outcome<AuthData, ApiError>,
    logout: Outcome<(), ApiError>, forgotPassword: Outcome<(), ApiError>)

  const LoginFallback := "Login failed. Please try again."
  const RegisterFallback := "Registration failed. Please try again."
  const LogoutFallback := "Logout failed. Please try again."
  const ForgotPasswordFallback := "Failed to reset password."
  const LogoutSuccessReason := "Logout successful"

  /** The requests a successful login puts after its success, in order. The settings request
      and the profile request both carry the signed-in user's id; the profile request passes
      it as the username to look up. */
  function WarmUp(userId: string): (requests: seq<AppAction>)
    ensures |requests| == 6
    ensures forall i :: 0 <= i < 6 ==> !requests[i].ForAuth? && !requests[i].ForToast?
  {
    [ForCategory(CategorySlice.FetchCategoriesRequest),
     ForGroup(GroupSlice.FetchGroupsRequest),
     ForPaymentMethod(PaymentMethodSlice.FetchPaymentMethodsRequest),
     ForSettings(SettingsSlice.FetchSettingsRequest(userId)),
     ForExpense(ExpenseSlice.FetchExpensesRequest),
     ForUser(UserSlice.FetchProfileRequest(userId))]
  }

  function LoginSaga(credentials: LoginRequestPayload, reply: Outcome<AuthData, ApiError>)
    : (effects: seq<AuthEffect>)
    ensures Calls(effects) == [LoginCall(credentials.username, credentials.password)]
    ensures reply.Ok? ==>
      Puts(effects) == [ForAuth(AuthSlice.LoginSuccess(reply.value))] + WarmUp(reply.value.userProfile.id)
    ensures reply.Err? ==>
      Puts(effects) == [ForAuth(AuthSlice.LoginFailure(ResponseMessageOr(reply.error, LoginFallback)))]
  {
    var call := LoginCall(credentials.username, credentials.password);
    match reply
    case Ok(data) => CallThen(call, [ForAuth(AuthSlice.LoginSuccess(data))] + WarmUp(data.userProfile.id))
    case Err(e) => CallThen(call, [ForAuth(AuthSlice.LoginFailure(ResponseMessageOr(e, LoginFallback)))])
  }

  /** Registering signs in but, unlike login, loads nothing. */
  function RegisterSaga(registration: RegisterRequestPayload, reply: Outcome<AuthData, ApiError>)
    : (effects: seq<AuthEffect>)
    ensures Calls(effects) == [RegisterCall(registration)]
    ensures reply.Ok? ==> Puts(effects) == [ForAuth(AuthSlice.RegisterSuccess(reply.value))]
    ensures reply.Err? ==>
      Puts(effects) == [ForAuth(AuthSlice.RegisterFailure(ResponseMessageOr(reply.error, RegisterFallback)))]
  {
    match reply
    case Ok(data) => CallThen(RegisterCall(registration), [ForAuth(AuthSlice.RegisterSuccess(data))])
    case Err(e) =>
      CallThen(RegisterCall(registration), [ForAuth(AuthSlice.RegisterFailure(ResponseMessageOr(e, RegisterFallback)))])
  }

  function LogoutSaga(reply: Outcome<(), ApiError>): (effects: seq<AuthEffect>)
    ensures Calls(effects) == [LogoutCall]
    ensures reply.Ok? ==> Puts(effects) == [ForAuth(AuthSlice.LogoutSuccess(LogoutSuccessReason))]
    ensures reply.Err? ==>
      Puts(effects) == [ForAuth(AuthSlice.LogoutFailure(ResponseMessageOr(reply.error, LogoutFallback)))]
  {
    match reply
    case Ok(_) => CallThen(LogoutCall, [ForAuth(AuthSlice.LogoutSuccess(LogoutSuccessReason))])
    case Err(e) => CallThen(LogoutCall, [ForAuth(AuthSlice.LogoutFailure(ResponseMessageOr(e, LogoutFallback)))])
  }

  function ForgotPasswordSaga(email: string, reply: Outcome<(), ApiError>): (effects: seq<AuthEffect>)
    ensures Calls(effects) == [ForgotPasswordCall(email)]
    ensures reply.Ok? ==> Puts(effects) == [ForAuth(AuthSlice.ForgotPasswordSuccess)]
    ensures reply.Err? ==>
      Puts(effects) == [ForAuth(AuthSlice.ForgotPasswordFailure(ResponseMessageOr(reply.error, ForgotPasswordFallback)))]
  {
    match reply
    case Ok(_) => CallThen(ForgotPasswordCall(email), [ForAuth(AuthSlice.ForgotPasswordSuccess)])
    case Err(e) =>
      CallThen(ForgotPasswordCall(email),
               [ForAuth(AuthSlice.ForgotPasswordFailure(ResponseMessageOr(e, ForgotPasswordFallback)))])
  }

  /** The watchers: login, register, logout and forgot-password requests start a worker; no
      other action does, the refresh-token request included. */
  function Handle(a: AuthSlice.AuthAction, replies: AuthReplies): seq<AuthEffect> {
    match a
    case LoginRequest(credentials) => LoginSaga(credentials, replies.login)
    case RegisterRequest(registration) => RegisterSaga(registration, replies.register)
    case LogoutRequest => LogoutSaga(replies.logout)
    case ForgotPasswordRequest(email) => ForgotPasswordSaga(email, replies.forgotPassword)
    case _ => []
  }

  predicate ReplyFailed(a: AuthSlice.AuthAction, replies: AuthReplies) {
    match a
    case LoginRequest(_) => replies.login.Err?
    case RegisterRequest(_) => replies.register.Err?
    case LogoutRequest => replies.logout.Err?
    case ForgotPasswordRequest(_) => replies.forgotPassword.Err?
    case _ => false
  }

  /** Every worker makes one call and settles the auth slice exactly once, with its first put:
      a failure exactly when the call was rejected, never with an empty message. Only a
      successful login puts more, and none of the rest is addressed to the auth slice. */
  lemma WorkerSettlesOnce(a: AuthSlice.AuthAction, replies: AuthReplies)
    ensures Handle(a, replies) != [] <==> a.IsRequest() && !a.RefreshTokenRequest?
    ensures a.IsRequest() && !a.RefreshTokenRequest? ==>
      var puts := Puts(Handle(a, replies));
      |Calls(Handle(a, replies))| == 1 && 1 <= |puts| &&
      puts[0].ForAuth? && !puts[0].authAction.IsRequest() &&
      (puts[0].authAction.IsFailure() <==> ReplyFailed(a, replies)) &&
      (puts[0].authAction.IsFailure() ==> puts[0].authAction.message != "") &&
      (|puts| > 1 <==> a.LoginRequest? && !ReplyFailed(a, replies)) &&
      (forall i :: 1 <= i < |puts| ==> !puts[i].ForAuth?)
  {
    if a.LoginRequest? && !ReplyFailed(a, replies) {
      var puts := Puts(Handle(a, replies));
      var warm := WarmUp(replies.login.value.userProfile.id);
      assert forall i :: 1 <= i < |puts| ==> puts[i] == warm[i - 1];
    }
  }

  /** A successful login signs in and leaves every resource slice loading: categories, groups,
      payment methods, settings, expenses and the profile are all requested, the expense and
      profile errors are cleared, and nothing cached is replaced yet. */
  lemma {:induction false} LoginWarmsEveryCache(s: AppState, credentials: LoginRequestPayload, d: AuthData)
    ensures var r := ReduceAll(s, Puts(LoginSaga(credentials, Ok(d))));
      AuthSlice.SignedInAs(r.auth, d) && !r.auth.loading &&
      r.category == s.category.(loading := true) &&
      r.group == s.group.(loading := true) &&
      r.paymentMethod == s.paymentMethod.(loading := true) &&
      r.settings == s.settings.(loading := true) &&
      r.expense == s.expense.(loading := true, error := None) &&
      r.user == s.user.(loading := true, error := None) &&
      r.toast == s.toast
  {
    var w := WarmUp(d.userProfile.id);
    var s1 := Reduce(s, ForAuth(AuthSlice.LoginSuccess(d)));
    FoldCons(Reduce, s, ForAuth(AuthSlice.LoginSuccess(d)), w);
    var s2 := Reduce(s1, w[0]);
    FoldCons(Reduce, s1, w[0], w[1..]);
    assert [w[0]] + w[1..] == w;
    var s3 := Reduce(s2, w[1]);
    FoldCons(Reduce, s2, w[1], w[2..]);
    assert [w[1]] + w[2..] == w[1..];
    var s4 := Reduce(s3, w[2]);
    FoldCons(Reduce, s3, w[2], w[3..]);
    assert [w[2]] + w[3..] == w[2..];
    var s5 := Reduce(s4, w[3]);
    FoldCons(Reduce, s4, w[3], w[4..]);
    assert [w[3]] + w[4..] == w[3..];
    var s6 := Reduce(s5, w[4]);
    assert w[4..] == [w[4], w[5]];
    FoldTwo(Reduce, s5, w[4], w[5]);
  }

  /** A failed login puts nothing but its failure: no slice other than auth changes, and the
      stale user and token stay while the session is marked unauthenticated. */
  lemma LoginFailureLoadsNothing(s: AppState, credentials: LoginRequestPayload, e: ApiError)
    ensures var r := ReduceAll(s, Puts(LoginSaga(credentials, Err(e))));
      r == s.(auth := r.auth) && !r.auth.isAuthenticated && r.auth.user == s.auth.user &&
      r.auth.token == s.auth.token && r.auth.error.Some? && r.auth.error.value != ""
  {
    FoldOne(Reduce, s, ForAuth(AuthSlice.LoginFailure(ResponseMessageOr(e, LoginFallback))));
  }

  /** A successful logout signs out with the reason 'Logout successful' and leaves every other
      slice, cached data included, as it was. */
  lemma LogoutKeepsOtherSlices(s: AppState)
    ensures var r := ReduceAll(s, Puts(LogoutSaga(Ok(()))));
      AuthSlice.SignedOut(r.auth) && r.auth.logoutReason == Some(LogoutSuccessReason) &&
      r == s.(auth := r.auth)
  {
    FoldOne(Reduce, s, ForAuth(AuthSlice.LogoutSuccess(LogoutSuccessReason)));
  }

  /** A rejected logout keeps the session signed in and reports a non-empty message. */
  lemma FailedLogoutKeepsSession(s: AppState, d: AuthData, e: ApiError)
    requires AuthSlice.SignedInAs(s.auth, d)
    ensures var r := ReduceAll(s, Puts(LogoutSaga(Err(e))));
      AuthSlice.SignedInAs(r.auth, d) && r == s.(auth := r.auth) &&
      r.auth.error.Some? && r.auth.error.value != ""
  {
    FoldOne(Reduce, s, ForAuth(AuthSlice.LogoutFailure(ResponseMessageOr(e, LogoutFallback))));
  }
}
