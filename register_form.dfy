/**
 * The registration page (app/auth/register/page.tsx): two client-side
 * checks, then a sign-up call to the auth service whose confirmation link
 * leads back to the e-mail verification page. No profile row is written here.
 */
module RegisterForm {
  import opened Types
  import opened Backend
  import opened Guards

  const PasswordsDifferMsg := "Las contraseñas no coinciden"
  const RoleMissingMsg := "Por favor selecciona un tipo de usuario"
  const SignUpFailedMsg := "Error al registrarse"

  /** The form fields as typed; an unselected role or level is `None`. */
  datatype RegisterFormData = RegisterFormData(
    email: string,
    password: string,
    confirmPassword: string,
    fullName: string,
    age: string,
    role: Option<UserRole>,
    educationLevel: Option<EducationLevel>)

  const EmptyRegisterForm := RegisterFormData("", "", "", "", "", None, None)

  /** The arguments of the sign-up call. */
  datatype SignUpRequest = SignUpRequest(email: string, password: string, emailRedirectTo: string)

  /** The confirmation link target: the configured development URL when it is
      set to a non-empty value, otherwise the verification page on the
      current origin. */
  function RedirectUrl(devUrl: Option<string>, origin: string): (url: string)
    ensures devUrl.Some? && devUrl.value != "" ==> url == devUrl.value
    ensures devUrl.None? || devUrl.value == "" ==> url == origin + Path(VerifyEmail)
  {
    if devUrl.Some? && devUrl.value != "" then devUrl.value else origin + "/auth/verify-email"
  }

  /** The checks of `handleRegister` in their order, and the sign-up call it
      makes: matching passwords first, a chosen role second. */
  function ValidateRegistration(form: RegisterFormData, devUrl: Option<string>, origin: string): (r: Result<SignUpRequest>)
    ensures form.password != form.confirmPassword ==> r == Err(PasswordsDifferMsg)
    ensures form.password == form.confirmPassword && form.role.None? ==> r == Err(RoleMissingMsg)
    ensures r.Ok? <==> form.password == form.confirmPassword && form.role.Some?
    ensures r.Ok? ==>
      && r.value.email == form.email
      && r.value.password == form.password
      && r.value.emailRedirectTo == RedirectUrl(devUrl, origin)
  {
    if form.password != form.confirmPassword then Err(PasswordsDifferMsg)
    else if form.role.None? then Err(RoleMissingMsg)
    else Ok(SignUpRequest(form.email, form.password, RedirectUrl(devUrl, origin)))
  }

  /** The name, age, level and even which role was chosen never reach the
      auth service: the sign-up call depends only on e-mail and passwords. */
  lemma ProfileFieldsNotSent(form: RegisterFormData, fullName: string, age: string, role: UserRole,
                             level: Option<EducationLevel>, devUrl: Option<string>, origin: string)
    requires form.role.Some?
    ensures ValidateRegistration(form.(fullName := fullName, age := age, role := Some(role), educationLevel := level),
                                 devUrl, origin)
         == ValidateRegistration(form, devUrl, origin)
  {
  }

  /** What the auth service answers: a thrown error, or data whose user may
      be absent. */
  datatype SignUpOutcome = SignUpFailed(thrown: Thrown) | SignedUp(user: Option<User>)

  class RegisterPage {
    var form: RegisterFormData
    var error: Option<string>
    var isLoading: bool

    constructor ()
      ensures form == EmptyRegisterForm && error == None && !isLoading
    {
      form := EmptyRegisterForm;
      error := None;
      isLoading := false;
    }

    /** `handleRegister`: `outcome` is the service's answer to the call in
        `sent`. Only a returned user moves on to the verification page. */
    method HandleRegister(devUrl: Option<string>, origin: string, outcome: SignUpOutcome)
      returns (sent: Option<SignUpRequest>, nav: Option<Route>)
      modifies this`error, this`isLoading
      ensures !isLoading
      ensures match ValidateRegistration(form, devUrl, origin)
        case Err(m) => sent == None && nav == None && error == Some(m)
        case Ok(req) =>
          && sent == Some(req)
          && (outcome.SignUpFailed? ==>
                nav == None && error == Some(CaughtMessage(outcome.thrown, SignUpFailedMsg)))
          && (outcome.SignedUp? ==>
                error == None && nav == (if outcome.user.Some? then Some(VerifyEmail) else None))
    {
      isLoading := true;
      error := None;
      sent, nav := None, None;

      if form.password != form.confirmPassword {
        error := Some(PasswordsDifferMsg);
        isLoading := false;
        return;
      }

      if form.role.None? {
        error := Some(RoleMissingMsg);
        isLoading := false;
        return;
      }

      sent := Some(SignUpRequest(form.email, form.password, RedirectUrl(devUrl, origin)));
      match outcome {
        case SignUpFailed(t) =>
          error := Some(CaughtMessage(t, SignUpFailedMsg));
        case SignedUp(user) =>
          if user.Some? {
            nav := Some(VerifyEmail);
          }
      }
      isLoading := false;
    }
  }
}
