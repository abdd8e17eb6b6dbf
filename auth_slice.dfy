/** The authentication state (src/store/slices/authSlice/index.ts): the
  * signed-in user, the token and the request flags, updated in place by the
  * reducers of each request's pending, fulfilled and rejected cases. */
module AuthSlice {
  import opened Wrappers
  import opened Entities

  /** The requests the slice tracks. */
  datatype Request = Login | Register | Logout | GetCurrentUser | ForgotPassword | ChangePassword | UpdateProfile

  /** Requests whose pending case marks loading and clears the error. */
  predicate ShowsProgress(r: Request)
  {
    r != Logout && r != GetCurrentUser
  }

  /** The message a rejected request records when the error carries none;
    * `None` for the requests whose rejection records no error. */
  function Fallback(r: Request): (m: Option<string>)
    ensures m.Some? <==> ShowsProgress(r)
    ensures m.Some? ==> m.value != ""
  {
    match r
    case Login => Some("Erro no login")
    case Register => Some("Erro no registro")
    case ForgotPassword => Some("Erro ao enviar email de recuperação")
    case ChangePassword => Some("Erro ao alterar senha")
    case UpdateProfile => Some("Erro ao atualizar perfil")
    case _ => None
  }

  /** The error a rejection of `r` records: `action.error.message || fallback`. */
  function RejectionError(r: Request, message: Option<string>): (e: Option<string>)
    requires ShowsProgress(r)
    ensures e.Some? && e.value != ""
    ensures Truthy(message) ==> e == message
  {
    Some(OrElse(message, Fallback(r).value))
  }

  class AuthState {
    var user: Option<User>
    var token: Option<string>
    var loading: bool
    var error: Option<string>
    var isAuthenticated: bool

    /** Nobody is signed in; loading until the stored session is checked. */
    constructor ()
      ensures user.None? && token.None? && loading && error.None? && !isAuthenticated
    {
      user := None;
      token := None;
      loading := true;
      error := None;
      isAuthenticated := false;
    }

    method ClearError()
      modifies this
      ensures error.None?
      ensures user == old(user) && token == old(token) && loading == old(loading)
      ensures isAuthenticated == old(isAuthenticated)
    {
      error := None;
    }

    /** Authenticated exactly when the token is non-empty. */
    method SetToken(t: string)
      modifies this
      ensures token == Some(t) && isAuthenticated == (t != "") && !loading
      ensures user == old(user) && error == old(error)
    {
      token := Some(t);
      isAuthenticated := t != "";
      loading := false;
    }

    method Pending(r: Request)
      modifies this
      ensures ShowsProgress(r) ==> loading && error.None?
      ensures !ShowsProgress(r) ==> loading == old(loading) && error == old(error)
      ensures user == old(user) && token == old(token) && isAuthenticated == old(isAuthenticated)
    {
      if ShowsProgress(r) {
        loading := true;
        error := None;
      }
    }

    /** Login and registration both answer a user and a token. */
    method SignedIn(u: User, t: string)
      modifies this
      ensures user == Some(u) && token == Some(t) && isAuthenticated && !loading
      ensures error == old(error)
    {
      loading := false;
      user := Some(u);
      token := Some(t);
      isAuthenticated := true;
    }

    method LogoutFulfilled()
      modifies this
      ensures user.None? && token.None? && !isAuthenticated && !loading
      ensures error == old(error)
    {
      user := None;
      token := None;
      isAuthenticated := false;
      loading := false;
    }

    /** The current user, which the use case may answer as `null`: the
      * state is marked authenticated either way. */
    method CurrentUserFulfilled(u: Option<User>)
      modifies this
      ensures user == u && isAuthenticated && !loading
      ensures token == old(token) && error == old(error)
    {
      user := u;
      isAuthenticated := true;
      loading := false;
    }

    /** Password reset and change answer nothing. */
    method Done()
      modifies this
      ensures !loading
      ensures user == old(user) && token == old(token) && error == old(error)
      ensures isAuthenticated == old(isAuthenticated)
    {
      loading := false;
    }

    method ProfileUpdated(u: User)
      modifies this
      ensures user == Some(u) && !loading
      ensures token == old(token) && error == old(error) && isAuthenticated == old(isAuthenticated)
    {
      loading := false;
      user := Some(u);
    }

    /** A rejected request: the tracked ones record an error, a failed
      * current-user check only signs out the flag, and a failed logout
      * changes nothing. */
    method Rejected(r: Request, message: Option<string>)
      modifies this
      ensures ShowsProgress(r) ==> !loading && error == RejectionError(r, message)
                                   && isAuthenticated == old(isAuthenticated)
      ensures r == GetCurrentUser ==> !loading && !isAuthenticated && error == old(error)
      ensures r == Logout ==> loading == old(loading) && error == old(error) && isAuthenticated == old(isAuthenticated)
      ensures user == old(user) && token == old(token)
    {
      if ShowsProgress(r) {
        loading := false;
        error := RejectionError(r, message);
      } else if r == GetCurrentUser {
        loading := false;
        isAuthenticated := false;
      }
    }
  }

  /** A request that shows progress and then fails ends with an error and
    * without the loading flag, whatever the state before. */
  method PendingThenRejected(st: AuthState, r: Request, message: Option<string>)
    requires ShowsProgress(r)
    modifies st
    ensures !st.loading && st.error.Some? && st.error.value != ""
    ensures st.user == old(st.user) && st.token == old(st.token) && st.isAuthenticated == old(st.isAuthenticated)
  {
    st.Pending(r);
    st.Rejected(r, message);
  }
}
