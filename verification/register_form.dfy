/**
 * The registration form: five text inputs, a password check chain that
 * shows at most one warning, and a submission that registers the account
 * and then logs in with the same username and password. The outcomes of the
 * two API calls are parameters.
 */
module RegisterForm {
  import opened Wrappers
  import opened Js

  datatype RegisterField = Email | Username | Password | ConfirmPassword | FullName

  datatype RegisterData = RegisterData(email: string, username: string, password: string, confirmPassword: string, fullName: string)

  const InitialData := RegisterData("", "", "", "", "")

  const MismatchWarning := "Passwords do not match"
  const ShortWarning := "Password must be at least 6 characters long"
  /** The minimum `password.length`, counted in UTF-16 code units. */
  const MinPasswordLength := 6

  /** `setFormData({...formData, [name]: value})` */
  function With(data: RegisterData, field: RegisterField, value: string): RegisterData {
    match field
    case Email => data.(email := value)
    case Username => data.(username := value)
    case Password => data.(password := value)
    case ConfirmPassword => data.(confirmPassword := value)
    case FullName => data.(fullName := value)
  }

  /**
   * `validateForm`: the warning it shows, or None when it returns true. The
   * mismatch is checked first, so a short mismatched password shows only the
   * mismatch warning.
   */
  function ValidateForm(data: RegisterData): (warning: Option<string>)
    ensures warning.None? <==> data.password == data.confirmPassword && Utf16Length(data.password) >= MinPasswordLength
    ensures warning == Some(MismatchWarning) <==> data.password != data.confirmPassword
    ensures warning == Some(ShortWarning) <==>
      (data.password == data.confirmPassword && Utf16Length(data.password) < MinPasswordLength)
  {
    if data.password != data.confirmPassword then Some(MismatchWarning)
    else if Utf16Length(data.password) < MinPasswordLength then Some(ShortWarning)
    else None
  }

  /** Editing the e-mail, username or full name never changes what `validateForm` says. */
  lemma ValidationIgnoresOtherFields(data: RegisterData, field: RegisterField, value: string)
    requires field != Password && field != ConfirmPassword
    ensures ValidateForm(With(data, field, value)) == ValidateForm(data)
  {
    var edited := With(data, field, value);
    assert edited.password == data.password && edited.confirmPassword == data.confirmPassword;
  }

  /** Any password of at least six characters, typed twice, is accepted. */
  lemma MatchingLongPasswordAccepted(data: RegisterData)
    requires data.password == data.confirmPassword && |data.password| >= MinPasswordLength
    ensures ValidateForm(data).None?
  {
    assert Utf16Length(data.password) >= |data.password|;
  }

  /** The body of `registerUser`: `fullName` is sent as `full_name`. */
  datatype UserCreate = UserCreate(email: string, username: string, password: string, full_name: string)

  /** The form data of the auto-login. */
  datatype Credentials = Credentials(username: string, password: string)

  function RegistrationPayload(data: RegisterData): UserCreate {
    UserCreate(data.email, data.username, data.password, data.fullName)
  }

  function LoginCredentials(data: RegisterData): Credentials {
    Credentials(data.username, data.password)
  }

  /**
   * How a submission ends: stopped by `validateForm` with its warning, or
   * sent; a sent form always registers, logs in only after the registration
   * succeeds, and is signed in when both calls succeed.
   */
  datatype SubmitOutcome =
    | NotSent(warning: string)
    | Sent(registered: UserCreate, login: Option<Credentials>, signedIn: bool)

  class RegisterFormState {
    var formData: RegisterData
    var loading: bool

    constructor()
      ensures formData == InitialData && !loading
    {
      formData := InitialData;
      loading := false;
    }

    method HandleChange(field: RegisterField, value: string)
      modifies this`formData
      ensures formData == With(old(formData), field, value)
    {
      formData := With(formData, field, value);
    }

    /**
     * `handleSubmit`: an invalid form makes no call and leaves `loading`
     * alone; otherwise `loading` is set for the calls and ends false.
     */
    method HandleSubmit(registerSucceeds: bool, loginSucceeds: bool) returns (outcome: SubmitOutcome)
      modifies this`loading
      ensures outcome.NotSent? <==> ValidateForm(formData).Some?
      ensures outcome.NotSent? ==> Some(outcome.warning) == ValidateForm(formData) && loading == old(loading)
      ensures outcome.Sent? ==>
        && outcome.registered == RegistrationPayload(formData)
        && outcome.registered.full_name == formData.fullName
        && outcome.login == (if registerSucceeds then Some(LoginCredentials(formData)) else None)
        && (outcome.login.Some? ==> outcome.login.value == Credentials(outcome.registered.username, outcome.registered.password))
        && outcome.signedIn == (registerSucceeds && loginSucceeds)
        && !loading
    {
      var warning := ValidateForm(formData);
      if warning.Some? {
        return NotSent(warning.value);
      }
      loading := true;
      var registered := RegistrationPayload(formData);
      var login: Option<Credentials> := None;
      var signedIn := false;
      if registerSucceeds {
        login := Some(LoginCredentials(formData));
        signedIn := loginSucceeds;
      }
      loading := false;
      outcome := Sent(registered, login, signedIn);
    }
  }
}
