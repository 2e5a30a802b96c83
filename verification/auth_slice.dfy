/** The `auth` slice of the newer store (src/store/slices/authSlice.ts): the signed-in user
    and token, whether the session counts as authenticated, the progress of the last auth
    request, and why the last session ended. */
module AuthSlice {
  import opened Common
  import opened Entities

  datatype AuthState = AuthState(
    user: Option<User>, token: Option<string>, isAuthenticated: bool, loading: bool,
    error: Option<string>, passwordResetSuccess: bool, logoutReason: Option<string>)

  const Initial := AuthState(None, None, false, false, None, false, None)

  datatype AuthAction =
    | SetAuthStatus(status: bool)
    | LoginRequest(credentials: LoginRequestPayload)
    | LoginSuccess(data: AuthData)
    | LoginFailure(message: string)
    | RegisterRequest(registration: RegisterRequestPayload)
    | RegisterSuccess(data: AuthData)
    | RegisterFailure(message: string)
    | LogoutRequest
    | LogoutSuccess(reason: string)
    | LogoutFailure(message: string)
    | RefreshTokenRequest
    | RefreshTokenSuccess(data: AuthData)
    | RefreshTokenFailure(message: string)
    | ForgotPasswordRequest(email: string)
    | ForgotPasswordSuccess
    | ForgotPasswordFailure(message: string)
    | ClearError
  {
    predicate IsRequest() {
      LoginRequest? || RegisterRequest? || LogoutRequest? || RefreshTokenRequest? || ForgotPasswordRequest?
    }

    predicate IsFailure() {
      LoginFailure? || RegisterFailure? || LogoutFailure? || RefreshTokenFailure? || ForgotPasswordFailure?
    }
  }

  /** The user and token of a session, the fields a login sets and a logout clears. */
  predicate SignedInAs(s: AuthState, data: AuthData) {
    s.user == Some(data.userProfile) && s.token == Some(data.token) && s.isAuthenticated
  }

  predicate SignedOut(s: AuthState) {
    s.user.None? && s.token.None? && !s.isAuthenticated
  }

  /** The slice reducer. The writes to device storage that loginSuccess and logoutSuccess
      make are not state and are left out. */
  function Reduce(s: AuthState, a: AuthAction): AuthState {
    match a
    case SetAuthStatus(b) => s.(isAuthenticated := b)
    case LoginRequest(_) => s.(loading := true, error := None)
    case LoginSuccess(d) =>
      s.(loading := false, user := Some(d.userProfile), token := Some(d.token), isAuthenticated := true,
         error := None, logoutReason := None)
    case LoginFailure(m) => s.(loading := false, error := Some(m), isAuthenticated := false, logoutReason := None)
    case RegisterRequest(_) => s.(loading := true, error := None)
    case RegisterSuccess(d) =>
      s.(loading := false, user := Some(d.userProfile), token := Some(d.token), isAuthenticated := true,
         error := None)
    case RegisterFailure(m) => s.(loading := false, error := Some(m), isAuthenticated := false)
    case LogoutRequest => s.(loading := true, error := None)
    case LogoutSuccess(reason) =>
      s.(loading := false, user := None, token := None, isAuthenticated := false, error := None,
         logoutReason := Some(reason))
    case LogoutFailure(m) => s.(loading := false, error := Some(m))
    case RefreshTokenRequest => s.(loading := true, error := None)
    case RefreshTokenSuccess(d) =>
      // `{ ...user, ...payload }` adds the keys userProfile and token, which are not
      // properties of a User: the user's own properties stay as they were.
      if s.user.Some? then s.(loading := false, token := Some(d.token), error := None)
      else s.(loading := false, error := None)
    case RefreshTokenFailure(m) => s.(loading := false, error := Some(m))
    case ForgotPasswordRequest(_) => s.(loading := true, error := None)
    case ForgotPasswordSuccess => s.(loading := false, passwordResetSuccess := true, error := None)
    case ForgotPasswordFailure(m) => s.(loading := false, error := Some(m), passwordResetSuccess := false)
    case ClearError => s.(error := None)
  }

  function ReduceAll(s: AuthState, actions: seq<AuthAction>): AuthState {
    Fold(Reduce, s, actions)
  }

  /** Every request raises `loading` and clears `error`, and touches nothing of the session. */
  lemma RequestStartsLoading(s: AuthState, a: AuthAction)
    requires a.IsRequest()
    ensures Reduce(s, a) == s.(loading := true, error := None)
  {
  }

  /** Every failure stores its message and ends loading; only login and register failures
      drop the authenticated flag, and no failure touches the user or the token. */
  lemma FailureKeepsSession(s: AuthState, a: AuthAction)
    requires a.IsFailure()
    ensures var r := Reduce(s, a);
      r.error == Some(a.message) && !r.loading && r.user == s.user && r.token == s.token &&
      r.isAuthenticated == (s.isAuthenticated && !a.LoginFailure? && !a.RegisterFailure?)
  {
  }

  /** Login signs in with the payload's user and token and forgets any earlier error and
      logout reason. */
  lemma LoginSignsIn(s: AuthState, d: AuthData)
    ensures var r := Reduce(s, LoginSuccess(d));
      SignedInAs(r, d) && r.error.None? && r.logoutReason.None? && !r.loading &&
      r.passwordResetSuccess == s.passwordResetSuccess
  {
  }

  /** Register signs in the same way, but the reason the previous session ended survives. */
  lemma RegisterSignsInKeepingReason(s: AuthState, d: AuthData)
    ensures var r := Reduce(s, RegisterSuccess(d));
      SignedInAs(r, d) && r.error.None? && r.logoutReason == s.logoutReason && !r.loading
    ensures Reduce(s, RegisterSuccess(d)) == Reduce(s, LoginSuccess(d)).(logoutReason := s.logoutReason)
  {
  }

  /** A failed login leaves the session unauthenticated but keeps the stale user and token. */
  lemma LoginFailureKeepsUserAndToken(s: AuthState, m: string)
    ensures var r := Reduce(s, LoginFailure(m));
      !r.isAuthenticated && r.error == Some(m) && r.user == s.user && r.token == s.token &&
      r.logoutReason.None?
  {
  }

  /** Logout success signs out from any state and records why. */
  lemma LogoutSignsOut(s: AuthState, reason: string)
    ensures var r := Reduce(s, LogoutSuccess(reason));
      SignedOut(r) && r.logoutReason == Some(reason) && r.error.None? && !r.loading &&
      r.passwordResetSuccess == s.passwordResetSuccess
  {
  }

  /** A signed-in session survives a failed logout intact. */
  lemma LogoutFailureKeepsSession(s: AuthState, d: AuthData, m: string)
    requires SignedInAs(s, d)
    ensures SignedInAs(Reduce(s, LogoutFailure(m)), d)
    ensures Reduce(s, LogoutFailure(m)) == s.(loading := false, error := Some(m))
  {
  }

  /** Refresh replaces the token only when a user is signed in, and never changes the user. */
  lemma RefreshTokenNeedsUser(s: AuthState, d: AuthData)
    ensures var r := Reduce(s, RefreshTokenSuccess(d));
      r.user == s.user && r.isAuthenticated == s.isAuthenticated && r.error.None? &&
      (if s.user.Some? then r.token == Some(d.token) else r.token == s.token)
  {
  }

  lemma ForgotPasswordOutcome(s: AuthState, m: string)
    ensures Reduce(s, ForgotPasswordSuccess).passwordResetSuccess
    ensures !Reduce(s, ForgotPasswordFailure(m)).passwordResetSuccess
    ensures Reduce(s, ForgotPasswordSuccess).user == s.user && Reduce(s, ForgotPasswordFailure(m)).user == s.user
  {
  }

  /** A login followed by a logout leaves no user or token behind, whatever came before. */
  lemma {:induction false} LoginThenLogout(s: AuthState, d: AuthData, reason: string)
    ensures var r := ReduceAll(s, [LoginSuccess(d), LogoutSuccess(reason)]);
      SignedOut(r) && r.logoutReason == Some(reason)
  {
    var actions := [LoginSuccess(d), LogoutSuccess(reason)];
    var signedIn := Reduce(s, LoginSuccess(d));
    assert actions[1..] == [LogoutSuccess(reason)];
    assert ReduceAll(s, actions) == Fold(Reduce, signedIn, [LogoutSuccess(reason)]);
    assert Fold(Reduce, signedIn, [LogoutSuccess(reason)]) == Reduce(signedIn, LogoutSuccess(reason));
  }

  class AuthStore {
    var user: Option<User>
    var token: Option<string>
    var isAuthenticated: bool
    var loading: bool
    var error: Option<string>
    var passwordResetSuccess: bool
    var logoutReason: Option<string>

    function State(): AuthState
      reads this
    {
      AuthState(user, token, isAuthenticated, loading, error, passwordResetSuccess, logoutReason)
    }

    constructor ()
      ensures State() == Initial
    {
      user := None;
      token := None;
      isAuthenticated := false;
      loading := false;
      error := None;
      passwordResetSuccess := false;
      logoutReason := None;
    }

    method SetAuthStatus(payload: bool)
      modifies this
      ensures State() == Reduce(old(State()), AuthAction.SetAuthStatus(payload))
    {
      isAuthenticated := payload;
    }

    method LoginRequest(payload: LoginRequestPayload)
      modifies this
      ensures State() == Reduce(old(State()), AuthAction.LoginRequest(payload))
    {
      loading := true;
      error := None;
    }

    method LoginSuccess(payload: AuthData)
      modifies this
      ensures State() == Reduce(old(State()), AuthAction.LoginSuccess(payload))
    {
      loading := false;
      user := Some(payload.userProfile);
      token := Some(payload.token);
      isAuthenticated := true;
      error := None;
      logoutReason := None;
    }

    method LoginFailure(payload: string)
      modifies this
      ensures State() == Reduce(old(State()), AuthAction.LoginFailure(payload))
    {
      loading := false;
      error := Some(payload);
      isAuthenticated := false;
      logoutReason := None;
    }

    method RegisterRequest(payload: RegisterRequestPayload)
      modifies this
      ensures State() == Reduce(old(State()), AuthAction.RegisterRequest(payload))
    {
      loading := true;
      error := None;
    }

    method RegisterSuccess(payload: AuthData)
      modifies this
      ensures State() == Reduce(old(State()), AuthAction.RegisterSuccess(payload))
    {
      loading := false;
      user := Some(payload.userProfile);
      token := Some(payload.token);
      isAuthenticated := true;
      error := None;
    }

    method RegisterFailure(payload: string)
      modifies this
      ensures State() == Reduce(old(State()), AuthAction.RegisterFailure(payload))
    {
      loading := false;
      error := Some(payload);
      isAuthenticated := false;
    }

    method LogoutRequest()
      modifies this
      ensures State() == Reduce(old(State()), AuthAction.LogoutRequest)
    {
      loading := true;
      error := None;
    }

    method LogoutSuccess(payload: string)
      modifies this
      ensures State() == Reduce(old(State()), AuthAction.LogoutSuccess(payload))
    {
      loading := false;
      user := None;
      token := None;
      isAuthenticated := false;
      error := None;
      logoutReason := Some(payload);
    }

    method LogoutFailure(payload: string)
      modifies this
      ensures State() == Reduce(old(State()), AuthAction.LogoutFailure(payload))
    {
      loading := false;
      error := Some(payload);
    }

    method RefreshTokenRequest()
      modifies this
      ensures State() == Reduce(old(State()), AuthAction.RefreshTokenRequest)
    {
      loading := true;
      error := None;
    }

    method RefreshTokenSuccess(payload: AuthData)
      modifies this
      ensures State() == Reduce(old(State()), AuthAction.RefreshTokenSuccess(payload))
    {
      loading := false;
      if user.Some? {
        token := Some(payload.token);
      }
      error := None;
    }

    method RefreshTokenFailure(payload: string)
      modifies this
      ensures State() == Reduce(old(State()), AuthAction.RefreshTokenFailure(payload))
    {
      loading := false;
      error := Some(payload);
    }

    method ForgotPasswordRequest(email: string)
      modifies this
      ensures State() == Reduce(old(State()), AuthAction.ForgotPasswordRequest(email))
    {
      loading := true;
      error := None;
    }

    method ForgotPasswordSuccess()
      modifies this
      ensures State() == Reduce(old(State()), AuthAction.ForgotPasswordSuccess)
    {
      loading := false;
      passwordResetSuccess := true;
      error := None;
    }

    method ForgotPasswordFailure(payload: string)
      modifies this
      ensures State() == Reduce(old(State()), AuthAction.ForgotPasswordFailure(payload))
    {
      loading := false;
      error := Some(payload);
      passwordResetSuccess := false;
    }

    method ClearError()
      modifies this
      ensures State() == Reduce(old(State()), AuthAction.ClearError)
    {
      error := None;
    }
  }
}
