/** The legacy `auth` slice (src/store/authSlice.ts). Unlike the newer slice, its login
    success does not clear an earlier error, and its logout touches only the session fields. */
module LegacyAuthSlice {
  import opened Common
  import opened LegacyEntities

  datatype AuthState = AuthState(
    user: Option<User>, token: Option<string>, isAuthenticated: bool, loading: bool,
    error: Option<string>, passwordResetSuccess: bool)

  const Initial := AuthState(None, None, false, false, None, false)

  datatype AuthAction =
    | LoginStart(identifier: string, password: string)
    | LoginSuccess(user: User, token: string)
    | LoginFailure(message: string)
    | Logout
    | SetUser(user: User)
    | SetError(message: string)
    | ClearError
    | ForgotPasswordStart
    | ForgotPasswordSuccess
    | ForgotPasswordFailure(message: string)

  function Reduce(s: AuthState, a: AuthAction): AuthState {
    match a
    case LoginStart(_, _) => s.(loading := true, error := None)
    case LoginSuccess(u, t) => s.(user := Some(u), token := Some(t), isAuthenticated := true, loading := false)
    case LoginFailure(m) => s.(loading := false, error := Some(m))
    case Logout => s.(user := None, token := None, isAuthenticated := false)
    case SetUser(u) => s.(user := Some(u), isAuthenticated := true)
    case SetError(m) => s.(error := Some(m))
    case ClearError => s.(error := None)
    case ForgotPasswordStart => s.(loading := true, error := None, passwordResetSuccess := false)
    case ForgotPasswordSuccess => s.(loading := false, passwordResetSuccess := true)
    case ForgotPasswordFailure(m) => s.(loading := false, error := Some(m))
  }

  function ReduceAll(s: AuthState, actions: seq<AuthAction>): AuthState {
    Fold(Reduce, s, actions)
  }

  /** Login success signs in with the payload's user and token; an error left by an earlier
      failure survives it. */
  lemma LoginSuccessKeepsError(s: AuthState, u: User, t: string)
    ensures var r := Reduce(s, LoginSuccess(u, t));
      r.user == Some(u) && r.token == Some(t) && r.isAuthenticated && !r.loading &&
      r.error == s.error && r.passwordResetSuccess == s.passwordResetSuccess
  {
  }

  /** A failed login changes neither the session nor the authenticated flag. */
  lemma LoginFailureKeepsSession(s: AuthState, m: string)
    ensures var r := Reduce(s, LoginFailure(m));
      r.error == Some(m) && !r.loading && r.user == s.user && r.token == s.token &&
      r.isAuthenticated == s.isAuthenticated
  {
  }

  /** Logout clears the session fields only: loading, error and the reset flag stay. */
  lemma LogoutClearsOnlySession(s: AuthState)
    ensures var r := Reduce(s, Logout);
      r.user.None? && r.token.None? && !r.isAuthenticated &&
      r.loading == s.loading && r.error == s.error && r.passwordResetSuccess == s.passwordResetSuccess
  {
  }

  /** setUser marks the session authenticated with the given user and keeps the token. */
  lemma SetUserAuthenticates(s: AuthState, u: User)
    ensures var r := Reduce(s, SetUser(u));
      r.user == Some(u) && r.isAuthenticated && r.token == s.token && r.loading == s.loading &&
      r.error == s.error
  {
  }

  /** setError and clearError touch the error only. */
  lemma ErrorSettersOnlyError(s: AuthState, m: string)
    ensures Reduce(s, SetError(m)) == s.(error := Some(m))
    ensures Reduce(s, ClearError) == s.(error := None)
  {
  }

  /** The reset flag: a start drops it, a success raises it, a failure leaves it. */
  lemma ForgotPasswordFlag(s: AuthState, m: string)
    ensures !Reduce(s, ForgotPasswordStart).passwordResetSuccess
    ensures Reduce(s, ForgotPasswordSuccess).passwordResetSuccess
    ensures Reduce(s, ForgotPasswordFailure(m)).passwordResetSuccess == s.passwordResetSuccess
    ensures Reduce(s, ForgotPasswordFailure(m)).error == Some(m)
  {
  }

  class AuthStore {
    var user: Option<User>
    var token: Option<string>
    var isAuthenticated: bool
    var loading: bool
    var error: Option<string>
    var passwordResetSuccess: bool

    function State(): AuthState
      reads this
    {
      AuthState(user, token, isAuthenticated, loading, error, passwordResetSuccess)
    }

    constructor ()
      ensures State() == Initial
    {
      user := None;
      token := None;
      isAuthenticated := false;
      loading := false;
      error := None;
      passwordResetSuccess := false;
    }

    method LoginStart(identifier: string, password: string)
      modifies this
      ensures State() == Reduce(old(State()), AuthAction.LoginStart(identifier, password))
    {
      loading := true;
      error := None;
    }

    method LoginSuccess(payloadUser: User, payloadToken: string)
      modifies this
      ensures State() == Reduce(old(State()), AuthAction.LoginSuccess(payloadUser, payloadToken))
    {
      user := Some(payloadUser);
      token := Some(payloadToken);
      isAuthenticated := true;
      loading := false;
    }

    method LoginFailure(payload: string)
      modifies this
      ensures State() == Reduce(old(State()), AuthAction.LoginFailure(payload))
    {
      loading := false;
      error := Some(payload);
    }

    method Logout()
      modifies this
      ensures State() == Reduce(old(State()), AuthAction.Logout)
    {
      user := None;
      token := None;
      isAuthenticated := false;
    }

    method SetUser(payload: User)
      modifies this
      ensures State() == Reduce(old(State()), AuthAction.SetUser(payload))
    {
      user := Some(payload);
      isAuthenticated := true;
    }

    method SetError(payload: string)
      modifies this
      ensures State() == Reduce(old(State()), AuthAction.SetError(payload))
    {
      error := Some(payload);
    }

    method ClearError()
      modifies this
      ensures State() == Reduce(old(State()), AuthAction.ClearError)
    {
      error := None;
    }

    method ForgotPasswordStart()
      modifies this
      ensures State() == Reduce(old(State()), AuthAction.ForgotPasswordStart)
    {
      loading := true;
      error := None;
      passwordResetSuccess := false;
    }

    method ForgotPasswordSuccess()
      modifies this
      ensures State() == Reduce(old(State()), AuthAction.ForgotPasswordSuccess)
    {
      loading := false;
      passwordResetSuccess := true;
    }

    method ForgotPasswordFailure(payload: string)
      modifies this
      ensures State() == Reduce(old(State()), AuthAction.ForgotPasswordFailure(payload))
    {
      loading := false;
      error := Some(payload);
    }
  }
}
