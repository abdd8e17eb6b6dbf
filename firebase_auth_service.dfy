/** The Firebase account client (src/services/firebaseAuthService/index.ts).
  * Each SDK call is an input: its outcome is either a value or an error
  * carrying an optional `code`. What the client adds is the
  * error-code table, the shaping of the profile it returns, and the
  * answers it gives when nobody is signed in. */
module FirebaseAuthService {
  import opened Wrappers
  import opened Entities
  import Text
  import AuthUseCases

  /** An error thrown by the SDK; `code` is `error.code`, which a plain
    * `Error` does not have. */
  datatype SdkError = SdkError(code: Option<string>)

  /** The outcome of an awaited SDK call. */
  datatype Outcome<T> = Done(value: T) | Failed(error: SdkError)

  /** The fields of a Firebase `User` the client reads. */
  datatype Account = Account(uid: string, displayName: Option<string>, email: Option<string>)

  /** The `{ user, token }` answer of login and registration. */
  datatype SignedIn = SignedIn(user: User, token: string)

  const GENERIC_ERROR: string := "Erro de autenticação"
  const NOT_AUTHENTICATED: string := "Usuário não autenticado"
  const LOGOUT_ERROR: string := "Erro ao fazer logout"
  const USER_DATA_ERROR: string := "Erro ao buscar dados do usuário"
  const DEFAULT_NAME: string := "Usuário"

  /** The table of `getErrorMessage`. */
  const ERROR_MESSAGES: map<string, string> := map[
    "auth/user-not-found" := "Usuário não encontrado",
    "auth/wrong-password" := "Senha incorreta",
    "auth/email-already-in-use" := "Este email já está em uso",
    "auth/weak-password" := "A senha deve ter pelo menos 6 caracteres",
    "auth/invalid-email" := "Email inválido",
    "auth/user-disabled" := "Usuário desabilitado",
    "auth/too-many-requests" := "Muitas tentativas. Tente novamente mais tarde",
    "auth/network-request-failed" := "Erro de conexão. Verifique sua internet",
    "auth/invalid-credential" := "Credenciais inválidas"
  ]

  /** `getErrorMessage(errorCode)`: the table's message, or the generic one
    * for an unknown or missing code. */
  function ErrorMessage(code: Option<string>): (r: string)
    ensures code.Some? && code.value in ERROR_MESSAGES ==> r == ERROR_MESSAGES[code.value]
    ensures code.None? || code.value !in ERROR_MESSAGES ==> r == GENERIC_ERROR
    ensures r != ""
  {
    if code.Some? && code.value in ERROR_MESSAGES && ERROR_MESSAGES[code.value] != "" then ERROR_MESSAGES[code.value]
    else GENERIC_ERROR
  }

  /** No known code maps to the generic message, so the generic message
    * means exactly that the code is unknown. */
  lemma {:induction false} GenericMeansUnknown(code: Option<string>)
    ensures ErrorMessage(code) == GENERIC_ERROR <==> code.None? || code.value !in ERROR_MESSAGES
  {
    if code.Some? && code.value in ERROR_MESSAGES {
      assert forall k :: k in ERROR_MESSAGES ==> ERROR_MESSAGES[k] != GENERIC_ERROR;
    }
  }

  /** The weak-password and invalid-e-mail messages are the ones the use
    * cases throw themselves. */
  lemma SharedMessages()
    ensures ErrorMessage(Some("auth/weak-password")) == AuthUseCases.PASSWORD_TOO_SHORT
    ensures ErrorMessage(Some("auth/invalid-email")) == AuthUseCases.INVALID_EMAIL
  {
  }

  /** `user.email?.split('@')[0]`: the text before the first `@`, when
    * there is an e-mail. */
  function LocalPart(email: Option<string>): (r: Option<string>)
    ensures email.None? <==> r.None?
    ensures r.Some? ==> '@' !in r.value
  {
    if email.None? then None
    else
      var parts := Text.Split(email.value, '@');
      Text.CountZeroIff(parts[0], '@');
      Some(parts[0])
  }

  /** An address `local@domain` with no `@` in `local` has local part
    * `local`. */
  lemma {:induction false} LocalPartOf(local: string, domain: string)
    requires '@' !in local
    ensures LocalPart(Some(local + "@" + domain)) == Some(local)
  {
    Text.CountZeroIff(local, '@');
    Text.SplitFirstPiece(local, '@', domain);
    Text.SplitNoSeparator(local, '@');
    assert local + "@" + domain == local + ['@'] + domain;
  }

  /** The login name: the account's display name, else the stored profile
    * name, else the e-mail's local part, else `Usuário`; empty strings are
    * skipped like missing ones. */
  function LoginName(account: Account, storedName: Option<string>): (r: string)
    ensures r != ""
    ensures Truthy(account.displayName) ==> r == account.displayName.value
    ensures !Truthy(account.displayName) && Truthy(storedName) ==> r == storedName.value
    ensures !Truthy(account.displayName) && !Truthy(storedName) && Truthy(LocalPart(account.email)) ==>
      r == LocalPart(account.email).value
    ensures !Truthy(account.displayName) && !Truthy(storedName) && !Truthy(LocalPart(account.email)) ==> r == DEFAULT_NAME
  {
    OrElse(account.displayName, OrElse(storedName, OrElse(LocalPart(account.email), DEFAULT_NAME)))
  }

  /** `login(credentials)`: sign in, read the token, read the stored profile
    * name (a failed read counts as no profile), and shape the user. Any SDK
    * error becomes its table message. */
  function Login(signIn: Outcome<Account>, token: Outcome<string>, storedName: Option<string>): (r: Result<SignedIn>)
    ensures signIn.Failed? ==> r == Err(ErrorMessage(signIn.error.code))
    ensures signIn.Done? && token.Failed? ==> r == Err(ErrorMessage(token.error.code))
    ensures r.Ok? <==> signIn.Done? && token.Done?
    ensures r.Ok? ==>
      r.value.token == token.value && r.value.user.id == signIn.value.uid &&
      r.value.user.name == LoginName(signIn.value, storedName) &&
      r.value.user.email == OrElse(signIn.value.email, "")
  {
    match signIn
    case Failed(e) => Err(ErrorMessage(e.code))
    case Done(account) =>
      match token
      case Failed(e) => Err(ErrorMessage(e.code))
      case Done(t) =>
        Ok(SignedIn(User(account.uid, LoginName(account, storedName), OrElse(account.email, "")), t))
  }

  /** Without a display name or a stored name, an account `ana@example.com`
    * is greeted as `ana`; an account whose e-mail starts with `@` falls back
    * to `Usuário`. */
  lemma {:induction false} LoginNameFromEmail(uid: string, local: string, domain: string)
    requires '@' !in local
    ensures LoginName(Account(uid, None, Some(local + "@" + domain)), None) ==
      if local == "" then DEFAULT_NAME else local
  {
    LocalPartOf(local, domain);
  }

  /** `register(data)`: the password check throws a plain `Error` inside the
    * `try`, whose missing code the `catch` turns into the generic message.
    * The profile writes after account creation swallow their own errors
    * and so are not inputs. */
  function Register(data: RegisterData, signUp: Outcome<Account>, token: Outcome<string>): (r: Result<SignedIn>)
    ensures data.password != data.confirmPassword ==> r == Err(GENERIC_ERROR)
    ensures data.password == data.confirmPassword && signUp.Failed? ==> r == Err(ErrorMessage(signUp.error.code))
    ensures r.Ok? <==> data.password == data.confirmPassword && signUp.Done? && token.Done?
    ensures r.Ok? ==> r.value == SignedIn(User(signUp.value.uid, data.name, data.email), token.value)
  {
    if data.password != data.confirmPassword then Err(ErrorMessage(None))
    else
      match signUp
      case Failed(e) => Err(ErrorMessage(e.code))
      case Done(account) =>
        match token
        case Failed(e) => Err(ErrorMessage(e.code))
        case Done(t) => Ok(SignedIn(User(account.uid, data.name, data.email), t))
  }

  /** Registration as the application runs it: the use case's rules first,
    * then the client. A mismatch is reported by the use case with its own
    * message, so the client's generic answer to it is never seen; a
    * registration the use case accepts is never refused by the client's
    * own check. */
  function RegisterFlow(data: RegisterData, signUp: Outcome<Account>, token: Outcome<string>): (r: Result<SignedIn>)
    ensures data.password != data.confirmPassword ==> r == Err(AuthUseCases.PASSWORDS_DIFFER)
    ensures AuthUseCases.Register(data).Err? ==> r == Err(AuthUseCases.Register(data).message)
    ensures AuthUseCases.Register(data).Ok? ==> r == Register(data, signUp, token)
  {
    match AuthUseCases.Register(data)
    case Err(m) => Err(m)
    case Ok(_) => Register(data, signUp, token)
  }

  /** The client's password check is unreachable behind the use case: a
    * mismatch never gets to it, and the client alone would have hidden the
    * reason behind the generic message. */
  lemma {:induction false} MismatchReported(data: RegisterData, signUp: Outcome<Account>, token: Outcome<string>)
    requires data.password != data.confirmPassword
    ensures Register(data, signUp, token) == Err(GENERIC_ERROR)
    ensures RegisterFlow(data, signUp, token) == Err(AuthUseCases.PASSWORDS_DIFFER)
    ensures AuthUseCases.PASSWORDS_DIFFER != GENERIC_ERROR
  {
  }

  /** `getCurrentUser()`: `null` when nobody is signed in; otherwise the
    * stored profile is read (a failed read throws) and the name is the
    * display name, else the stored name, else empty. */
  function CurrentUser(current: Option<Account>, stored: Outcome<Option<string>>): (r: Result<Option<User>>)
    ensures current.None? ==> r == Ok(None)
    ensures current.Some? && stored.Failed? ==> r == Err(USER_DATA_ERROR)
    ensures current.Some? && stored.Done? ==> r.Ok? && r.value.Some?
    ensures r.Ok? && r.value.Some? ==>
      current.Some? && stored.Done? &&
      r.value.value == User(current.value.uid, OrElse(current.value.displayName, OrElse(stored.value, "")), OrElse(current.value.email, ""))
  {
    match current
    case None => Ok(None)
    case Some(account) =>
      match stored
      case Failed(_) => Err(USER_DATA_ERROR)
      case Done(name) =>
        Ok(Some(User(account.uid, OrElse(account.displayName, OrElse(name, "")), OrElse(account.email, ""))))
  }

  /** `getToken()`: `null` when nobody is signed in or the token cannot be
    * read; never an error. */
  function GetToken(current: Option<Account>, token: Outcome<string>): (r: Option<string>)
    ensures r.Some? <==> current.Some? && token.Done?
    ensures r.Some? ==> r.value == token.value
  {
    if current.None? then None
    else if token.Failed? then None
    else Some(token.value)
  }

  /** `logout()` */
  function Logout(signOut: Outcome<()>): (r: Result<()>)
    ensures r.Err? <==> signOut.Failed?
    ensures r.Err? ==> r.message == LOGOUT_ERROR
  {
    if signOut.Failed? then Err(LOGOUT_ERROR) else Ok(())
  }

  /** `forgotPassword(email)` */
  function ForgotPassword(send: Outcome<()>): (r: Result<()>)
    ensures r.Err? <==> send.Failed?
    ensures r.Err? ==> r.message == ErrorMessage(send.error.code)
  {
    if send.Failed? then Err(ErrorMessage(send.error.code)) else Ok(())
  }

  /** `changePassword(currentPassword, newPassword)`: refused without a
    * signed-in account that has an e-mail; then reauthentication and the
    * update, whose first error becomes its table message. */
  function ChangePassword(current: Option<Account>, reauthenticate: Outcome<()>, update: Outcome<()>): (r: Result<()>)
    ensures current.None? || !Truthy(current.value.email) ==> r == Err(NOT_AUTHENTICATED)
    ensures r.Ok? <==> current.Some? && Truthy(current.value.email) && reauthenticate.Done? && update.Done?
    ensures current.Some? && Truthy(current.value.email) && reauthenticate.Failed? ==>
      r == Err(ErrorMessage(reauthenticate.error.code))
    ensures current.Some? && Truthy(current.value.email) && reauthenticate.Done? && update.Failed? ==>
      r == Err(ErrorMessage(update.error.code))
  {
    if current.None? || !Truthy(current.value.email) then Err(NOT_AUTHENTICATED)
    else if reauthenticate.Failed? then Err(ErrorMessage(reauthenticate.error.code))
    else if update.Failed? then Err(ErrorMessage(update.error.code))
    else Ok(())
  }

  /** Every error the SDK-backed operations report is a table message or
    * the generic one. */
  lemma {:induction false} LoginErrorsFromTable(signIn: Outcome<Account>, token: Outcome<string>, storedName: Option<string>)
    ensures Login(signIn, token, storedName).Err? ==>
      Login(signIn, token, storedName).message in ERROR_MESSAGES.Values + {GENERIC_ERROR}
  {
    if signIn.Failed? {
      GenericMeansUnknown(signIn.error.code);
    } else if token.Failed? {
      GenericMeansUnknown(token.error.code);
    }
  }
}
