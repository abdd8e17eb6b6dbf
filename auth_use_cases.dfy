/** `AuthUseCases` (src/domain/usecases/AuthUseCases.ts): the checks made
  * on credentials and profile data before an account operation reaches the
  * repository. Each use case answers the repository call it makes or the
  * message of the `Error` it throws. The e-mail rule is the regular
  * expression the form validator uses: a local part, an `@`, a domain
  * and a dot-separated suffix, none containing white space or `@`. */
module AuthUseCases {
  import opened Wrappers
  import opened Entities
  import Text
  import Validation

  const CREDENTIALS_REQUIRED: string := "Email e senha são obrigatórios"
  const INVALID_EMAIL: string := "Email inválido"
  const PASSWORDS_DIFFER: string := "As senhas não coincidem"
  const PASSWORD_TOO_SHORT: string := "A senha deve ter pelo menos 6 caracteres"
  const NAME_REQUIRED: string := "Nome é obrigatório"
  const EMAIL_REQUIRED: string := "Email é obrigatório"

  /** The shortest password accepted. */
  const MIN_PASSWORD_LENGTH: nat := 6

  /** A call on `IAuthRepository` that carries a checked argument. */
  datatype RepositoryCall =
    | SignIn(credentials: LoginCredentials)
    | SignUp(data: RegisterData)
    | SendPasswordReset(email: string)
    | SetPassword(currentPassword: string, newPassword: string)
    | SaveProfile(patch: ProfilePatch)

  /** `emailRegex.test(s)` */
  predicate EmailMatches(s: string)
    ensures EmailMatches(s) <==> Validation.EmailPattern(s)
  {
    Validation.IsEmailIsPattern(s);
    Validation.IsEmail(s)
  }

  /** `login(credentials)`: missing fields are reported before a malformed
    * e-mail. */
  function Login(credentials: LoginCredentials): (r: Result<RepositoryCall>)
    ensures (credentials.email == "" || credentials.password == "") ==> r == Err(CREDENTIALS_REQUIRED)
    ensures (credentials.email != "" && credentials.password != "" && !Validation.EmailPattern(credentials.email)) ==>
      r == Err(INVALID_EMAIL)
    ensures r.Ok? <==> credentials.password != "" && Validation.EmailPattern(credentials.email)
    ensures r.Ok? ==> r.value == SignIn(credentials)
  {
    if credentials.email == "" || credentials.password == "" then Err(CREDENTIALS_REQUIRED)
    else if !EmailMatches(credentials.email) then Err(INVALID_EMAIL)
    else Ok(SignIn(credentials))
  }

  /** `register(data)`: mismatch, then length, then name, then e-mail. */
  function Register(data: RegisterData): (r: Result<RepositoryCall>)
    ensures data.password != data.confirmPassword ==> r == Err(PASSWORDS_DIFFER)
    ensures (data.password == data.confirmPassword && |data.password| < MIN_PASSWORD_LENGTH) ==> r == Err(PASSWORD_TOO_SHORT)
    ensures (data.password == data.confirmPassword && |data.password| >= MIN_PASSWORD_LENGTH && Text.AllWhite(data.name)) ==>
      r == Err(NAME_REQUIRED)
    ensures r.Ok? <==>
      data.password == data.confirmPassword && |data.password| >= MIN_PASSWORD_LENGTH &&
      !Text.AllWhite(data.name) && Validation.EmailPattern(data.email)
    ensures r.Ok? ==> r.value == SignUp(data)
  {
    if data.password != data.confirmPassword then Err(PASSWORDS_DIFFER)
    else if |data.password| < MIN_PASSWORD_LENGTH then Err(PASSWORD_TOO_SHORT)
    else if Text.Blank(data.name) then Err(NAME_REQUIRED)
    else if !EmailMatches(data.email) then Err(INVALID_EMAIL)
    else Ok(SignUp(data))
  }

  /** `forgotPassword(email)` */
  function ForgotPassword(email: string): (r: Result<RepositoryCall>)
    ensures email == "" ==> r == Err(EMAIL_REQUIRED)
    ensures (email != "" && !Validation.EmailPattern(email)) ==> r == Err(INVALID_EMAIL)
    ensures r.Ok? <==> Validation.EmailPattern(email)
    ensures r.Ok? ==> r.value == SendPasswordReset(email)
  {
    if email == "" then Err(EMAIL_REQUIRED)
    else if !EmailMatches(email) then Err(INVALID_EMAIL)
    else Ok(SendPasswordReset(email))
  }

  /** `changePassword(currentPassword, newPassword)`: only the new password
    * is checked. */
  function ChangePassword(currentPassword: string, newPassword: string): (r: Result<RepositoryCall>)
    ensures r.Err? <==> |newPassword| < MIN_PASSWORD_LENGTH
    ensures r.Err? ==> r.message == PASSWORD_TOO_SHORT
    ensures r.Ok? ==> r.value == SetPassword(currentPassword, newPassword)
  {
    if |newPassword| < MIN_PASSWORD_LENGTH then Err(PASSWORD_TOO_SHORT)
    else Ok(SetPassword(currentPassword, newPassword))
  }

  /** `updateProfile(data)`: the e-mail is checked only when it is truthy;
    * an absent or empty e-mail is passed on unchecked. */
  function UpdateProfile(patch: ProfilePatch): (r: Result<RepositoryCall>)
    ensures r.Err? <==> Truthy(patch.email) && !Validation.EmailPattern(patch.email.value)
    ensures r.Err? ==> r.message == INVALID_EMAIL
    ensures r.Ok? ==> r.value == SaveProfile(patch)
  {
    if Truthy(patch.email) && !EmailMatches(patch.email.value) then Err(INVALID_EMAIL)
    else Ok(SaveProfile(patch))
  }

  /** The registration rules are the form validators' rules, in the order
    * of the form, and report the validators' own messages. */
  lemma {:induction false} RegisterAgreesWithValidators(data: RegisterData)
    ensures Register(data).Ok? <==>
      Validation.ValidatePasswordMatch(data.password, data.confirmPassword) == None &&
      Validation.ValidatePassword(data.password) == None &&
      !Text.AllWhite(data.name) &&
      Validation.ValidateEmail(data.email) == None
    ensures Validation.ValidatePasswordMatch(data.password, data.confirmPassword).Some? ==>
      Register(data) == Err(Validation.ValidatePasswordMatch(data.password, data.confirmPassword).value)
    ensures (Validation.ValidatePasswordMatch(data.password, data.confirmPassword) == None &&
             Validation.ValidatePassword(data.password).Some?) ==>
      Register(data) == Err(Validation.ValidatePassword(data.password).value)
    ensures (Validation.ValidatePasswordMatch(data.password, data.confirmPassword) == None &&
             Validation.ValidatePassword(data.password) == None && !Text.AllWhite(data.name) &&
             Validation.ValidateEmail(data.email).Some?) ==>
      Register(data) == Err(Validation.ValidateEmail(data.email).value)
  {
  }

  /** Login, password recovery and profile update accept the same e-mail
    * addresses the form validator accepts. */
  lemma {:induction false} EmailRuleShared(email: string, password: string)
    requires password != ""
    ensures Login(LoginCredentials(email, password)).Ok? <==> Validation.ValidateEmail(email) == None
    ensures ForgotPassword(email).Ok? <==> Validation.ValidateEmail(email) == None
    ensures email != "" ==> (UpdateProfile(ProfilePatch(None, Some(email))).Ok? <==> Validation.ValidateEmail(email) == None)
  {
  }

  /** An empty e-mail in a profile update is not checked, although login
    * and recovery would refuse it. */
  lemma EmptyProfileEmailPasses(name: Option<string>)
    ensures UpdateProfile(ProfilePatch(name, Some(""))) == Ok(SaveProfile(ProfilePatch(name, Some(""))))
    ensures ForgotPassword("") == Err(EMAIL_REQUIRED)
  {
  }

  /** A password good enough to register with is good enough to change to,
    * and the current password never matters. */
  lemma {:induction false} RegisteredPasswordChangeable(data: RegisterData, current: string)
    requires Register(data).Ok?
    ensures ChangePassword(current, data.password) == Ok(SetPassword(current, data.password))
  {
  }
}
