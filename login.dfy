/**
 * The login page: the validators of its two controls, the per-field error text,
 * the mapping of sign-in error codes to messages, and the submit flow.
 */
module Login {
  import opened Wrappers

  /** A form control: its text and whether the user has touched it. */
  datatype Control = Control(value: string, touched: bool)

  /** The errors object of a control; every flag false stands for `null`. */
  datatype FieldErrors = FieldErrors(required: bool, email: bool, minlength: bool)

  predicate HasErrors(e: FieldErrors) {
    e.required || e.email || e.minlength
  }

  /** The login form. The e-mail pattern check is not modelled: `emailFormatOk`
      says whether the text matches it. */
  datatype LoginForm = LoginForm(email: Control, password: Control, emailFormatOk: bool)

  /** `Validators.required` and `Validators.email`; the pattern is only checked on
      a non-empty value. */
  function EmailErrors(f: LoginForm): (e: FieldErrors)
    ensures e.required <==> f.email.value == ""
    ensures e.email <==> f.email.value != "" && !f.emailFormatOk
    ensures !e.minlength
  {
    FieldErrors(f.email.value == "", f.email.value != "" && !f.emailFormatOk, false)
  }

  /** `Validators.required` and `Validators.minLength(6)`; the length is only checked
      on a non-empty value. */
  function PasswordErrors(f: LoginForm): (e: FieldErrors)
    ensures e.required <==> f.password.value == ""
    ensures e.minlength <==> f.password.value != "" && |f.password.value| < 6
    ensures !e.email
  {
    FieldErrors(f.password.value == "", false, f.password.value != "" && |f.password.value| < 6)
  }

  predicate LoginFormValid(f: LoginForm) {
    !HasErrors(EmailErrors(f)) && !HasErrors(PasswordErrors(f))
  }

  /** `loginForm.get(name)`: the control and its errors, `None` for an unknown name. */
  function FieldOf(f: LoginForm, name: string): Option<(Control, FieldErrors)> {
    if name == "email" then Some((f.email, EmailErrors(f)))
    else if name == "password" then Some((f.password, PasswordErrors(f)))
    else None
  }

  const EmailRequiredText := "El correo electrónico es requerido"
  const PasswordRequiredText := "La contraseña es requerida"
  const EmailFormatText := "Ingresa un correo electrónico válido"
  const MinLengthText := "La contraseña debe tener al menos 6 caracteres"

  /** `hasFieldError`: the field has errors and has been touched. Only the two
      controls of the form can have one. */
  predicate HasFieldError(f: LoginForm, name: string): (b: bool)
    ensures b ==> name == "email" || name == "password"
    ensures b ==> FieldOf(f, name).value.0.touched
  {
    FieldOf(f, name).Some? && HasErrors(FieldOf(f, name).value.1) && FieldOf(f, name).value.0.touched
  }

  /** `getFieldError`: `''` unless the field has errors and was touched; then the
      text of its first error in the order required, email, minlength. */
  function GetFieldError(f: LoginForm, name: string): (msg: string)
    ensures !HasFieldError(f, name) ==> msg == ""
    ensures HasFieldError(f, name) && FieldOf(f, name).value.1.required ==>
              msg == (if name == "email" then EmailRequiredText else PasswordRequiredText)
    ensures HasFieldError(f, name) && !FieldOf(f, name).value.1.required && FieldOf(f, name).value.1.email ==>
              msg == EmailFormatText
    ensures HasFieldError(f, name) && !FieldOf(f, name).value.1.required && !FieldOf(f, name).value.1.email ==>
              msg == MinLengthText
  {
    match FieldOf(f, name)
    case None => ""
    case Some((control, errors)) =>
      if HasErrors(errors) && control.touched then
        if errors.required then (if name == "email" then EmailRequiredText else PasswordRequiredText)
        else if errors.email then EmailFormatText
        else if errors.minlength then MinLengthText
        else ""
      else ""
  }

  /** A message is shown exactly when `hasFieldError` holds. */
  lemma FieldErrorShownIffHasFieldError(f: LoginForm, name: string)
    ensures GetFieldError(f, name) != "" <==> HasFieldError(f, name)
  {
  }

  /** The validators never raise two errors on one control, so the order in which
      `getFieldError` checks them never decides which text is shown. */
  lemma AtMostOneErrorPerField(f: LoginForm, name: string)
    requires FieldOf(f, name).Some?
    ensures var e := FieldOf(f, name).value.1;
      !(e.required && e.email) && !(e.required && e.minlength) && !(e.email && e.minlength)
  {
  }

  /** The seven sign-in error codes with their own message. */
  const LoginErrors: map<string, string> := map[
    "auth/user-not-found" := "No existe una cuenta con este correo electrónico",
    "auth/wrong-password" := "Contraseña incorrecta",
    "auth/invalid-email" := "El formato del correo electrónico no es válido",
    "auth/user-disabled" := "Esta cuenta ha sido deshabilitada",
    "auth/too-many-requests" := "Demasiados intentos fallidos. Intenta más tarde",
    "auth/network-request-failed" := "Error de conexión. Verifica tu internet",
    "auth/invalid-credential" := "Credenciales inválidas. Verifica tu correo y contraseña"]

  const DefaultLoginError := "Error inesperado. Intenta nuevamente"

  /** `handleLoginError`: the code's own message, else the error's message when it
      is not empty, else the default; so some text is always shown. */
  function LoginErrorMessage(code: string, message: string): (r: string)
    ensures code in LoginErrors ==> r == LoginErrors[code]
    ensures code !in LoginErrors && message != "" ==> r == message
    ensures code !in LoginErrors && message == "" ==> r == DefaultLoginError
    ensures r != ""
  {
    if code in LoginErrors then LoginErrors[code]
    else if message != "" then message
    else DefaultLoginError
  }

  /** How the sign-in call ends: success, or an error with its code and message
      (`""` when the error has none). */
  datatype LoginOutcome = SignedIn | LoginFailed(code: string, message: string)

  class LoginPage {
    var form: LoginForm
    var loading: bool
    var errorMessage: string
    var showPassword: bool
    /** The route the page asked the router for, if any. */
    var navigation: Option<string>

    constructor (form: LoginForm)
      ensures this.form == form && !loading && errorMessage == "" && !showPassword && navigation.None?
    {
      this.form := form;
      loading := false;
      errorMessage := "";
      showPassword := false;
      navigation := None;
    }

    /** `onLogin` with the outcome of the sign-in call. An invalid form only marks
        both controls touched; otherwise the call is made (`attempted`), the old
        error is cleared, a failure shows its message, success heads for the
        dashboard, and `loading` ends false either way. */
    method OnLogin(outcome: LoginOutcome) returns (attempted: bool)
      modifies this
      ensures attempted <==> LoginFormValid(old(form))
      ensures !attempted ==> form == old(form).(email := old(form).email.(touched := true), password := old(form).password.(touched := true))
                             && loading == old(loading) && errorMessage == old(errorMessage) && navigation == old(navigation)
      ensures attempted ==> form == old(form) && !loading
      ensures attempted && outcome.SignedIn? ==> errorMessage == "" && navigation == Some("/dashboard")
      ensures attempted && outcome.LoginFailed? ==>
                errorMessage == LoginErrorMessage(outcome.code, outcome.message) && errorMessage != "" && navigation == old(navigation)
      ensures showPassword == old(showPassword)
    {
      if !LoginFormValid(form) {
        MarkFormGroupTouched();
        return false;
      }
      attempted := true;
      loading := true;
      errorMessage := "";
      match outcome {
        case SignedIn =>
          navigation := Some("/dashboard");
        case LoginFailed(code, message) =>
          HandleLoginError(code, message);
      }
      loading := false;
    }

    /** `markFormGroupTouched`. */
    method MarkFormGroupTouched()
      modifies this`form
      ensures form == old(form).(email := old(form).email.(touched := true), password := old(form).password.(touched := true))
      ensures HasFieldError(form, "email") <==> HasErrors(EmailErrors(form))
      ensures HasFieldError(form, "password") <==> HasErrors(PasswordErrors(form))
    {
      form := form.(email := form.email.(touched := true), password := form.password.(touched := true));
    }

    /** `handleLoginError`. */
    method HandleLoginError(code: string, message: string)
      modifies this`errorMessage
      ensures errorMessage == LoginErrorMessage(code, message)
    {
      errorMessage := LoginErrorMessage(code, message);
    }

    /** `togglePassword`: twice is no change. */
    method TogglePassword()
      modifies this`showPassword
      ensures showPassword == !old(showPassword)
    {
      showPassword := !showPassword;
    }
  }
}
