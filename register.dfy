/**
 * The register page: the form's validators, including the group validator that
 * compares the two passwords, and the submit flow.
 */
module Register {
  import opened Wrappers

  /** The register form's values. The e-mail pattern check is not modelled:
      `emailFormatOk` says whether the text matches it. */
  datatype RegisterForm = RegisterForm(email: string, emailFormatOk: bool, password: string, confirmPassword: string)

  /** The error object `{ notMatching: true }`. */
  datatype MatchError = NotMatching

  /** `passwordsMatchValidator`: `null` (here `None`) exactly when both passwords are
      equal. */
  function PasswordsMatchValidator(f: RegisterForm): (r: Option<MatchError>)
    ensures r.None? <==> f.password == f.confirmPassword
    ensures r.Some? ==> r.value == NotMatching
  {
    if f.password == f.confirmPassword then None else Some(NotMatching)
  }

  /** Swapping the two password fields does not change the verdict. */
  lemma PasswordsMatchSymmetric(f: RegisterForm)
    ensures PasswordsMatchValidator(f) == PasswordsMatchValidator(f.(password := f.confirmPassword, confirmPassword := f.password))
  {
  }

  /** The control validators (e-mail required and well-formed, password required
      with at least 6 characters, confirmation required) and the group validator. */
  predicate RegisterFormValid(f: RegisterForm) {
    && f.email != "" && f.emailFormatOk
    && f.password != "" && |f.password| >= 6
    && f.confirmPassword != ""
    && PasswordsMatchValidator(f).None?
  }

  /** A valid form's confirmation is the password, so it too has at least 6
      characters. */
  lemma ValidConfirmationIsLongEnough(f: RegisterForm)
    requires RegisterFormValid(f)
    ensures f.confirmPassword == f.password && |f.confirmPassword| >= 6
  {
  }

  const DefaultRegisterError := "Error en registro"

  /** The text shown after a failed registration: the error's message, or the
      default when it has none. */
  function RegisterErrorMessage(message: string): (r: string)
    ensures message != "" ==> r == message
    ensures message == "" ==> r == DefaultRegisterError
    ensures r != ""
  {
    if message != "" then message else DefaultRegisterError
  }

  /** How the registration call ends (`""` for an error without message). */
  datatype RegisterOutcome = Registered | RegisterFailed(message: string)

  class RegisterPage {
    var form: RegisterForm
    var loading: bool
    var errorMessage: string
    /** The route the page asked the router for, if any. */
    var navigation: Option<string>

    constructor (form: RegisterForm)
      ensures this.form == form && !loading && errorMessage == "" && navigation.None?
    {
      this.form := form;
      loading := false;
      errorMessage := "";
      navigation := None;
    }

    /** `onRegister` with the outcome of the registration call: nothing at all when
        the form is invalid; otherwise the call is made, success heads for the login
        page, a failure shows its message, and `loading` ends false either way. */
    method OnRegister(outcome: RegisterOutcome) returns (attempted: bool)
      modifies this`loading, this`errorMessage, this`navigation
      ensures attempted <==> RegisterFormValid(form)
      ensures !attempted ==> loading == old(loading) && errorMessage == old(errorMessage) && navigation == old(navigation)
      ensures attempted ==> !loading
      ensures attempted && outcome.Registered? ==> errorMessage == "" && navigation == Some("/login")
      ensures attempted && outcome.RegisterFailed? ==>
                errorMessage == RegisterErrorMessage(outcome.message) && navigation == old(navigation)
    {
      if !RegisterFormValid(form) {
        return false;
      }
      attempted := true;
      loading := true;
      errorMessage := "";
      match outcome {
        case Registered =>
          navigation := Some("/login");
        case RegisterFailed(message) =>
          errorMessage := RegisterErrorMessage(message);
      }
      loading := false;
    }
  }
}
