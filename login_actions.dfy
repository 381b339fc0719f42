/**
 * The `login` and `signup` server actions: a chain of credential checks whose
 * first failure decides the error redirect, then the auth provider's answer
 * mapped to where the user is sent. `redirect` ends the action, so each
 * action is a function from its inputs to one redirect.
 */
module LoginActions {
  import opened Wrappers
  import opened JsString

  const Required := "Email and password are required"
  const InvalidEmail := "Invalid email format"
  const ShortPassword := "Password must be at least 6 characters"
  const AlreadyRegistered := "This email is already registered"
  const MinPasswordLength := 6

  /**
   * Where an action sends the user: back to `/login` with an error message
   * (carried as `?error=` and percent-encoded), to `/private`, or to
   * `/auth/confirm` to wait for the confirmation email.
   */
  datatype Redirect = LoginError(message: string) | Private | ConfirmEmail

  /** The provider's answer to a sign-in: an error with its message, or none. */
  datatype SignInResult = SignInError(message: string) | SignedIn

  /** The parts of a sign-up user the action inspects. */
  datatype User = User(identities: Option<nat>, confirmationSentAt: Option<string>)

  /** The provider's answer to a sign-up: an error with its message, or the (possibly absent) user. */
  datatype SignUpResult = SignUpError(message: string) | SignedUp(user: Option<User>)

  /** `!value` for a form field read with `formData.get`: absent or empty. */
  predicate Missing(field: Option<string>)
  {
    field.None? || field.value == ""
  }

  /** The shared checks, in order; the message of the first that fails, or None. */
  function Validate(email: Option<string>, password: Option<string>): (r: Option<string>)
    ensures r == Some(Required) <==> Missing(email) || Missing(password)
    ensures r == Some(InvalidEmail) <==>
      !Missing(email) && !Missing(password) && ('@' !in email.value || '.' !in email.value)
    ensures r == Some(ShortPassword) <==>
      !Missing(email) && !Missing(password) && '@' in email.value && '.' in email.value &&
      |password.value| < MinPasswordLength
    ensures r.None? <==>
      !Missing(email) && !Missing(password) && '@' in email.value && '.' in email.value &&
      |password.value| >= MinPasswordLength
  {
    if Missing(email) || Missing(password) then Some(Required)
    else
      IncludesChar(email.value, '@');
      IncludesChar(email.value, '.');
      if !Includes(email.value, "@") || !Includes(email.value, ".") then Some(InvalidEmail)
      else if |password.value| < MinPasswordLength then Some(ShortPassword)
      else None
  }

  /** `email.includes(c)` for a one-character `c` is membership of `c`. */
  lemma IncludesChar(s: string, c: char)
    ensures Includes(s, [c]) <==> c in s
  {
    if c in s {
      var i :| 0 <= i < |s| && s[i] == c;
      assert OccursAt(s, [c], i);
    } else {
      MissingCharExcludes(s, [c], c);
    }
  }

  /** `login`: the provider is consulted only when every check passed. */
  function Login(email: Option<string>, password: Option<string>, signIn: SignInResult): (r: Redirect)
    ensures Validate(email, password).Some? ==> r == LoginError(Validate(email, password).value)
    ensures Validate(email, password).None? && signIn.SignInError? ==> r == LoginError(signIn.message)
    ensures Validate(email, password).None? && signIn.SignedIn? ==> r == Private
  {
    match Validate(email, password)
    case Some(message) => LoginError(message)
    case None =>
      match signIn
      case SignInError(message) => LoginError(message)
      case SignedIn => Private
  }

  /** `signup`: the same checks, then the provider's error, then the user it returned. */
  function Signup(email: Option<string>, password: Option<string>, signUp: SignUpResult): (r: Redirect)
    ensures Validate(email, password).Some? ==> r == LoginError(Validate(email, password).value)
    ensures Validate(email, password).None? && signUp.SignUpError? ==> r == LoginError(signUp.message)
    ensures Validate(email, password).None? && signUp.SignedUp? ==>
      r == SignedUpRedirect(signUp.user)
  {
    match Validate(email, password)
    case Some(message) => LoginError(message)
    case None =>
      match signUp
      case SignUpError(message) => LoginError(message)
      case SignedUp(user) => SignedUpRedirect(user)
  }

  /**
   * A successful sign-up: an empty `identities` list means the address is
   * taken; otherwise a set `confirmation_sent_at` means an email is on its
   * way; otherwise the user is in.
   */
  function SignedUpRedirect(user: Option<User>): (r: Redirect)
    ensures r == LoginError(AlreadyRegistered) <==>
      user.Some? && user.value.identities == Some(0)
    ensures r == ConfirmEmail <==>
      user.Some? && user.value.identities != Some(0) &&
      user.value.confirmationSentAt.Some? && user.value.confirmationSentAt.value != ""
    ensures r.LoginError? ==> r.message == AlreadyRegistered
  {
    if user.Some? && user.value.identities == Some(0) then LoginError(AlreadyRegistered)
    else if user.Some? && user.value.confirmationSentAt.Some? && user.value.confirmationSentAt.value != "" then ConfirmEmail
    else Private
  }

  /** Login and signup reject the same inputs with the same message, whatever the provider says. */
  lemma SameValidation(email: Option<string>, password: Option<string>, signIn: SignInResult, signUp: SignUpResult)
    requires Validate(email, password).Some?
    ensures Login(email, password, signIn) == Signup(email, password, signUp)
    ensures Login(email, password, signIn).LoginError?
  {
  }
}
