/**
 * The sign-up and login screen (src/components/AuthPage.jsx): its form state, the
 * checks a registration must pass before the session store is asked to register, the
 * payload it builds, and the messages it shows for the store's answers.
 */
module AuthPage {
  import opened Wrappers
  import opened Text
  import opened Api
  import opened AuthStore

  /** The sign-up form. */
  datatype RegisterData = RegisterData(
    fullName: string,
    email: string,
    password: string,
    confirmPassword: string,
    mobileNumber: string,
    gender: string,
    dateOfBirth: string)

  /** The login form. */
  datatype LoginData = LoginData(email: string, password: string)

  const EmptyRegisterData: RegisterData := RegisterData("", "", "", "", "", "", "")
  const EmptyLoginData: LoginData := LoginData("", "")

  const PasswordsMismatch: string := "Passwords do not match"
  const PasswordTooShort: string := "Password must be at least 8 characters long"
  const MinPasswordLength: nat := 8
  const RegistrationFailed: string := "Registration failed. Please try again."
  const RegistrationSucceeded: string := "Registration successful! Redirecting to login..."
  const LoginFailed: string := "Login failed. Please try again."

  /** The checks of `handleRegister`, in order: the message of the first that fails, if any. */
  function Validate(d: RegisterData): (problem: Option<string>)
    ensures problem == None <==> d.password == d.confirmPassword && |d.password| >= MinPasswordLength
    ensures d.password != d.confirmPassword ==> problem == Some(PasswordsMismatch)
    ensures d.password == d.confirmPassword && |d.password| < MinPasswordLength ==> problem == Some(PasswordTooShort)
  {
    if d.password != d.confirmPassword then Some(PasswordsMismatch)
    else if |d.password| < MinPasswordLength then Some(PasswordTooShort)
    else None
  }

  /** `cleanedData`: what is sent to `register`; there is no `confirmPassword` in it. */
  datatype Payload = Payload(
    fullName: string,
    email: string,
    password: string,
    mobileNumber: Option<string>,
    gender: Option<string>,
    dateOfBirth: Option<string>)

  /** The payload built from the sign-up form. */
  function PayloadOf(d: RegisterData): Payload
  {
    Payload(
      d.fullName, d.email, d.password,
      if Trim(d.mobileNumber) != "" then Some(Trim(d.mobileNumber)) else None,
      if Trim(d.gender) != "" then Some(d.gender) else None,
      if d.dateOfBirth != "" then Some(d.dateOfBirth) else None)
  }

  /**
   * The payload always carries the name, e-mail and password; each optional field is
   * present exactly when the form's value is not blank, the mobile number trimmed.
   */
  lemma PayloadFields(d: RegisterData)
    ensures var p := PayloadOf(d);
      p.fullName == d.fullName && p.email == d.email && p.password == d.password
    ensures var p := PayloadOf(d);
      (p.mobileNumber.Some? <==> Trim(d.mobileNumber) != "")
      && (p.mobileNumber.Some? ==> p.mobileNumber.value == Trim(d.mobileNumber))
    ensures var p := PayloadOf(d);
      (p.gender.Some? <==> Trim(d.gender) != "") && (p.gender.Some? ==> p.gender.value == d.gender)
    ensures var p := PayloadOf(d);
      (p.dateOfBirth.Some? <==> d.dateOfBirth != "")
      && (p.dateOfBirth.Some? ==> p.dateOfBirth.value == d.dateOfBirth)
  {
  }

  /**
   * The mobile number sent is already trimmed and never blank; the gender sent is not
   * blank but may still carry its surrounding white space.
   */
  lemma PayloadOptionalFields(d: RegisterData)
    ensures var p := PayloadOf(d);
      p.mobileNumber.Some? ==> Trim(p.mobileNumber.value) == p.mobileNumber.value && p.mobileNumber.value != ""
    ensures var p := PayloadOf(d);
      p.gender.Some? ==> Trim(p.gender.value) != ""
  {
    TrimIdempotent(d.mobileNumber);
  }

  /** A sign-up form that is blank apart from its required fields sends only those. */
  lemma PayloadOfRequiredOnly(d: RegisterData)
    requires d.mobileNumber == "" && d.gender == "" && d.dateOfBirth == ""
    ensures PayloadOf(d) == Payload(d.fullName, d.email, d.password, None, None, None)
  {
  }

  /**
   * The message `handleRegister` shows for a rejected `register`: a list message is
   * joined with ", ", a non-empty text message is shown as it is, and anything else
   * (no response body, no message, an empty text) gives the default.
   */
  function RegisterErrorMessage(e: ApiError): (m: string)
    ensures ResponseMessage(e).None? ==> m == RegistrationFailed
    ensures ResponseMessage(e).Some? && ResponseMessage(e).value.MessageList? ==>
      m == Join(ResponseMessage(e).value.items, ", ")
    ensures ResponseMessage(e).Some? && ResponseMessage(e).value.MessageText? ==>
      m == ResponseMessage(e).value.text
  {
    match e.responseData
    case None => RegistrationFailed
    case Some(data) =>
      match data.message
      case Some(MessageList(items)) => Join(items, ", ")
      case Some(MessageText(t)) => if t != "" then t else RegistrationFailed
      case None => RegistrationFailed
  }

  /**
   * The message shown for a rejected registration is empty exactly when the response
   * carries an empty list or a list holding one empty string.
   */
  lemma RegisterErrorMessageEmpty(e: ApiError)
    ensures RegisterErrorMessage(e) == "" <==>
      ResponseMessage(e) == Some(MessageList([])) || ResponseMessage(e) == Some(MessageList([""]))
  {
    match ResponseMessage(e)
    case Some(MessageList(items)) =>
      if |items| >= 2 {
        assert Join(items, ", ") == items[0] + ", " + Join(items[1..], ", ");
      } else if |items| == 1 {
        assert items == [items[0]];
      }
    case _ =>
  }

  /**
   * Whenever the backend sends a message, the screen shows the message the session
   * store records: the same one after a failed login, and the same text after a
   * failed registration; a list is joined on the screen and kept whole in the store.
   */
  lemma ScreenMatchesStore(e: ApiError)
    ensures ResponseMessage(e).Some? ==> LoginErrorMessage(e) == ErrorMessage(e, "Login failed")
    ensures ResponseMessage(e).Some? && ResponseMessage(e).value.MessageText? ==>
      MessageText(RegisterErrorMessage(e)) == ErrorMessage(e, "Registration failed")
    ensures ResponseMessage(e).Some? && ResponseMessage(e).value.MessageList? ==>
      ErrorMessage(e, "Registration failed") == ResponseMessage(e).value
      && RegisterErrorMessage(e) == Join(ResponseMessage(e).value.items, ", ")
  {
  }

  /**
   * A one-item list is shown as its item, and an empty list as no text at all; with the
   * disabled backend, the default is shown.
   */
  lemma RegisterErrorMessageCases(item: string, text: string)
    ensures RegisterErrorMessage(ApiError(Some(ResponseData(Some(MessageList([item])))), "")) == item
    ensures RegisterErrorMessage(ApiError(Some(ResponseData(Some(MessageList([])))), "")) == ""
    ensures text != "" ==> RegisterErrorMessage(ApiError(Some(ResponseData(Some(MessageText(text)))), "")) == text
    ensures RegisterErrorMessage(Disabled) == RegistrationFailed
  {
  }

  /** `err.response?.data?.message || 'Login failed. Please try again.'`. */
  function LoginErrorMessage(e: ApiError): (m: Message)
    ensures Truthy(m)
    ensures ResponseMessage(e).None? ==> m == MessageText(LoginFailed)
    ensures ResponseMessage(e).Some? ==> m == ResponseMessage(e).value
  {
    ResponseMessage(e).GetOr(MessageText(LoginFailed))
  }

  /**
   * With the disabled backend the screen shows its own fallback for a failed login,
   * while the session store records the backend's message.
   */
  lemma DisabledLoginMessages(s: Session, codec: Codec)
    ensures LoginErrorMessage(Disabled) == MessageText(LoginFailed)
    ensures AfterLogin(s, codec, DisabledReply()).error == Some(MessageText(DisabledMessage))
  {
  }

  /** The inputs of the sign-up form, by their `name` attribute. */
  datatype RegisterField = FullNameField | EmailField | PasswordField | ConfirmPasswordField
    | MobileNumberField | GenderField | DateOfBirthField

  /** `{...registerData, [name]: value}`. */
  function WithRegisterField(d: RegisterData, field: RegisterField, value: string): (r: RegisterData)
    ensures r.fullName == if field == FullNameField then value else d.fullName
    ensures r.email == if field == EmailField then value else d.email
    ensures r.password == if field == PasswordField then value else d.password
    ensures r.confirmPassword == if field == ConfirmPasswordField then value else d.confirmPassword
    ensures r.mobileNumber == if field == MobileNumberField then value else d.mobileNumber
    ensures r.gender == if field == GenderField then value else d.gender
    ensures r.dateOfBirth == if field == DateOfBirthField then value else d.dateOfBirth
  {
    match field
    case FullNameField => d.(fullName := value)
    case EmailField => d.(email := value)
    case PasswordField => d.(password := value)
    case ConfirmPasswordField => d.(confirmPassword := value)
    case MobileNumberField => d.(mobileNumber := value)
    case GenderField => d.(gender := value)
    case DateOfBirthField => d.(dateOfBirth := value)
  }

  /** The inputs of the login form. */
  datatype LoginField = LoginEmailField | LoginPasswordField

  /** `{...loginData, [name]: value}`. */
  function WithLoginField(d: LoginData, field: LoginField, value: string): (r: LoginData)
    ensures r.email == if field == LoginEmailField then value else d.email
    ensures r.password == if field == LoginPasswordField then value else d.password
  {
    match field
    case LoginEmailField => d.(email := value)
    case LoginPasswordField => d.(password := value)
  }

  /** No error is shown: the empty string. */
  const NoError: Message := MessageText("")

  /** The `AuthPage` component's state. */
  class AuthPageState {
    var activeTab: string
    var loginData: LoginData
    var registerData: RegisterData
    var error: Message
    var success: string
    var isLoading: bool

    constructor (initialTab: string)
      ensures activeTab == initialTab && loginData == EmptyLoginData && registerData == EmptyRegisterData
      ensures error == NoError && success == "" && !isLoading
    {
      activeTab := initialTab;
      loginData := EmptyLoginData;
      registerData := EmptyRegisterData;
      error := NoError;
      success := "";
      isLoading := false;
    }

    /** `handleRegisterChange`: one field changes and the error is cleared. */
    method HandleRegisterChange(field: RegisterField, value: string)
      modifies this
      ensures registerData == WithRegisterField(old(registerData), field, value) && error == NoError
      ensures loginData == old(loginData) && success == old(success)
      ensures isLoading == old(isLoading) && activeTab == old(activeTab)
    {
      registerData := WithRegisterField(registerData, field, value);
      error := NoError;
    }

    /** `handleLoginChange`: one field changes and the error is cleared. */
    method HandleLoginChange(field: LoginField, value: string)
      modifies this
      ensures loginData == WithLoginField(old(loginData), field, value) && error == NoError
      ensures registerData == old(registerData) && success == old(success)
      ensures isLoading == old(isLoading) && activeTab == old(activeTab)
    {
      loginData := WithLoginField(loginData, field, value);
      error := NoError;
    }

    /** The effect on a new `initialTab`: the tab follows it; nothing else changes. */
    method SyncInitialTab(initialTab: string)
      modifies this
      ensures activeTab == initialTab
      ensures error == old(error) && success == old(success) && isLoading == old(isLoading)
      ensures loginData == old(loginData) && registerData == old(registerData)
    {
      activeTab := initialTab;
    }

    /** A tab button: switches the tab and clears both messages. */
    method SelectTab(tab: string)
      modifies this
      ensures activeTab == tab && error == NoError && success == ""
      ensures loginData == old(loginData) && registerData == old(registerData)
      ensures isLoading == old(isLoading)
    {
      activeTab := tab;
      error := NoError;
      success := "";
    }

    /**
     * `handleRegister`, `reply` being the backend's answer to the registration. A form
     * that fails a check shows that check's message and the store is not asked
     * (`sent` is `None`); otherwise the payload is sent through the store's `register`,
     * whose answer decides between the success message and an error message.
     */
    method HandleRegister(auth: AuthProvider, reply: Reply<User>) returns (sent: Option<Payload>)
      modifies this, auth
      ensures registerData == old(registerData) && loginData == old(loginData) && activeTab == old(activeTab)
      ensures Validate(registerData).Some? ==>
        sent == None && error == MessageText(Validate(registerData).value)
        && auth.State() == old(auth.State()) && isLoading == old(isLoading) && success == old(success)
      ensures Validate(registerData).None? ==>
        sent == Some(PayloadOf(registerData)) && !isLoading
        && auth.State() == AfterRegister(old(auth.State()), reply)
      ensures Validate(registerData).None? && reply.Resolved? ==>
        error == NoError && success == RegistrationSucceeded
      ensures Validate(registerData).None? && reply.Rejected? ==>
        error == MessageText(RegisterErrorMessage(reply.error)) && success == old(success)
    {
      error := NoError;
      var problem := Validate(registerData);
      if problem.Some? {
        error := MessageText(problem.value);
        return None;
      }
      isLoading := true;
      var payload := PayloadOf(registerData);
      var outcome := auth.Register(reply);
      match outcome {
        case Resolved(_) =>
          success := RegistrationSucceeded;
        case Rejected(e) =>
          error := MessageText(RegisterErrorMessage(e));
      }
      isLoading := false;
      sent := Some(payload);
    }

    /** The delayed step after a successful registration: to the login tab, message cleared. */
    method FinishRegistration()
      modifies this
      ensures activeTab == "login" && success == ""
      ensures error == old(error) && loginData == old(loginData) && registerData == old(registerData)
      ensures isLoading == old(isLoading)
    {
      activeTab := "login";
      success := "";
    }

    /** `handleLogin`, `reply` being the backend's answer to the login. */
    method HandleLogin(auth: AuthProvider, reply: Reply<LoginResponse>)
      modifies this, auth
      ensures auth.State() == AfterLogin(old(auth.State()), auth.codec, reply)
      ensures reply.Resolved? ==> error == NoError
      ensures reply.Rejected? ==> error == LoginErrorMessage(reply.error)
      ensures !isLoading && success == old(success)
      ensures registerData == old(registerData) && loginData == old(loginData) && activeTab == old(activeTab)
    {
      error := NoError;
      isLoading := true;
      var outcome := auth.Login(reply);
      match outcome {
        case Resolved(_) =>
        case Rejected(e) =>
          error := LoginErrorMessage(e);
      }
      isLoading := false;
    }
  }
}
