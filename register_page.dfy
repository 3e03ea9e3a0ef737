/** The registration page: the form with its defaults, the ordered checks
    run before any account is created, the messages for sign-up failures,
    and the hand-off to the new user's dashboard. */
module RegisterForm {
  import opened Wrappers
  import opened Types
  import Text
  import AuthSession
  import RouteGuard

  const MissingFields: string := "Please fill out all required fields"
  const PasswordMismatch: string := "Passwords do not match"
  const WeakPassword: string := "Password must be at least 6 characters long"
  const EmailTaken: string := "Email is already in use. Try logging in or use a different email."
  const InvalidEmail: string := "Invalid email address."
  const RegistrationFailed: string := "Registration failed. Please try again."

  /** The shortest accepted password, in UTF-16 code units. */
  const MinPasswordLength: nat := 6

  /** The form's fields; the role comes from a selector and is always one
      of the three roles. */
  datatype RegisterData = RegisterData(name: string, email: string, password: string,
                                       confirmPassword: string, role: Role, phone: string)

  const InitialData: RegisterData := RegisterData("", "", "", "", Volunteer, "")

  /** The text inputs, by their `name` attribute. */
  datatype Field = NameField | EmailField | PasswordField | ConfirmPasswordField | PhoneField

  /** The submit-time checks, first failing one wins: required fields,
      matching confirmation, minimum length. */
  function ValidateRegistration(f: RegisterData): (r: Outcome)
    ensures r.Pass? <==> (f.name != "" && f.email != "" && f.password != ""
      && f.password == f.confirmPassword && Text.Utf16Length(f.password) >= MinPasswordLength)
    ensures f.name == "" || f.email == "" || f.password == "" ==> r == Fail(MissingFields)
    ensures r == Fail(PasswordMismatch) <==>
      f.name != "" && f.email != "" && f.password != "" && f.password != f.confirmPassword
    ensures r == Fail(WeakPassword) <==> (f.name != "" && f.email != "" && f.password != ""
      && f.password == f.confirmPassword && Text.Utf16Length(f.password) < MinPasswordLength)
  {
    if f.name == "" || f.email == "" || f.password == "" then Fail(MissingFields)
    else if f.password != f.confirmPassword then Fail(PasswordMismatch)
    else if Text.Utf16Length(f.password) < MinPasswordLength then Fail(WeakPassword)
    else Pass
  }

  /** The length rule counts UTF-16 code units: three characters outside
      the Basic Multilingual Plane (three emoji, say) already make a valid
      password, while a password of at least six characters always passes
      the rule and, inside the plane, only such a password does. */
  lemma PasswordLengthInCodeUnits(f: RegisterData)
    requires f.name != "" && f.email != "" && f.password == f.confirmPassword
    ensures |f.password| >= MinPasswordLength ==> ValidateRegistration(f).Pass?
    ensures ValidateRegistration(f).Pass? ==> |f.password| >= MinPasswordLength / 2
    ensures (forall i :: 0 <= i < |f.password| ==> f.password[i] as int <= 0xFFFF) ==>
      (ValidateRegistration(f).Pass? <==> |f.password| >= MinPasswordLength)
    ensures (|f.password| == MinPasswordLength / 2
             && forall i :: 0 <= i < |f.password| ==> f.password[i] as int > 0xFFFF) ==>
      ValidateRegistration(f).Pass?
  {
    if forall i :: 0 <= i < |f.password| ==> f.password[i] as int <= 0xFFFF {
      Text.Utf16LengthOfBmp(f.password);
    }
    if forall i :: 0 <= i < |f.password| ==> f.password[i] as int > 0xFFFF {
      Text.Utf16LengthOfAstral(f.password);
    }
  }

  /** The message for a sign-up error code. */
  function RegisterErrorMessage(code: string): (m: string)
    ensures m in {EmailTaken, InvalidEmail, RegistrationFailed}
    ensures m == EmailTaken <==> code == AuthSession.EmailInUse
    ensures m == InvalidEmail <==> code == "auth/invalid-email"
  {
    if code == AuthSession.EmailInUse then EmailTaken
    else if code == "auth/invalid-email" then InvalidEmail
    else RegistrationFailed
  }

  /** A newly registered user is sent to the route named after the chosen
      role, which the route guard admits once the session has settled. */
  lemma RegisteredUserLandsOnDashboard(uid: string, name: string, email: string, role: Role)
    ensures RouteGuard.RouteRoles("/" + RoleName(role)).Some?
    ensures RouteGuard.Guard(false, Some(uid), Some(User(uid, name, email, RoleName(role))),
                             RouteGuard.RouteRoles("/" + RoleName(role)).value) == RouteGuard.RenderChildren
  {
    RouteGuard.HomesAreOwnRoutes(role);
    RoleNameRoundTrip(role);
    assert RouteGuard.Admits([role], RoleName(role)) by {
      assert RoleName([role][0]) == RoleName(role);
    }
  }

  class RegisterPage {
    const session: AuthSession.Session
    var formData: RegisterData
    var isLoading: bool
    /** The description of the last toast, if any. */
    var toast: Option<string>
    var navigatedTo: Option<string>

    constructor (session: AuthSession.Session)
      ensures this.session == session && formData == InitialData && !isLoading
      ensures toast.None? && navigatedTo.None?
    {
      this.session := session;
      formData, isLoading, toast, navigatedTo := InitialData, false, None, None;
    }

    /** A signed-in visitor is sent to the home page. */
    method Render() returns (shown: bool)
      modifies this`navigatedTo
      ensures shown <==> session.currentUser.None?
      ensures !shown ==> navigatedTo == Some("/")
      ensures shown ==> navigatedTo == old(navigatedTo)
    {
      if session.currentUser.Some? {
        navigatedTo := Some("/");
        return false;
      }
      shown := true;
    }

    /** `handleChange`: an input sets exactly the field it names. */
    method HandleChange(field: Field, value: string)
      modifies this`formData
      ensures formData == match field
        case NameField => old(formData).(name := value)
        case EmailField => old(formData).(email := value)
        case PasswordField => old(formData).(password := value)
        case ConfirmPasswordField => old(formData).(confirmPassword := value)
        case PhoneField => old(formData).(phone := value)
      ensures formData.role == old(formData).role
    {
      match field
      case NameField => formData := formData.(name := value);
      case EmailField => formData := formData.(email := value);
      case PasswordField => formData := formData.(password := value);
      case ConfirmPasswordField => formData := formData.(confirmPassword := value);
      case PhoneField => formData := formData.(phone := value);
    }

    method HandleRoleChange(role: Role)
      modifies this`formData
      ensures formData == old(formData).(role := role)
    {
      formData := formData.(role := role);
    }

    /** `handleSubmit`: a form failing a check is refused with that check's
        message and no account is created; otherwise the account is
        registered with the form's email, password, name and role (the phone
        number is not passed on), and on success the page goes to the role's
        dashboard. */
    method HandleSubmit() returns (r: Outcome)
      requires session.Valid()
      modifies this`isLoading, this`toast, this`navigatedTo,
        session`accounts, session`authUser, session`profiles, session`userProfile
      ensures session.Valid()
      ensures ValidateRegistration(formData).Fail? ==> (r == ValidateRegistration(formData)
        && toast == Some(r.error) && isLoading == old(isLoading) && navigatedTo == old(navigatedTo)
        && session.accounts == old(session.accounts) && session.profiles == old(session.profiles))
      ensures ValidateRegistration(formData).Pass? ==> !isLoading
      ensures ValidateRegistration(formData).Pass? && r.Fail? ==> (toast == Some(RegisterErrorMessage(r.error))
        && navigatedTo == old(navigatedTo))
      ensures r.Pass? ==> (navigatedTo == Some("/" + RoleName(formData.role))
        && formData.email in session.accounts && session.authUser == Some(session.accounts[formData.email].uid)
        && session.userProfile == Some(User(session.accounts[formData.email].uid, formData.name,
                                            formData.email, RoleName(formData.role))))
    {
      var check := ValidateRegistration(formData);
      if check.Fail? {
        toast := Some(check.error);
        return check;
      }
      isLoading := true;
      r := session.Register(formData.email, formData.password, formData.name, formData.role);
      if r.Pass? {
        toast := Some("Your account has been created");
        navigatedTo := Some("/" + RoleName(formData.role));
      } else {
        toast := Some(RegisterErrorMessage(r.error));
      }
      isLoading := false;
    }
  }
}
