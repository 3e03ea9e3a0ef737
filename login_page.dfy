/** The sign-in page: a two-field form, the check that both fields are
    filled, and the message shown for each kind of sign-in failure. */
module LoginForm {
  import opened Wrappers
  import opened Types
  import AuthSession

  const MissingCredentials: string := "Please enter both email and password"
  const InvalidCredentials: string := "Invalid email or password."
  const TooManyAttempts: string := "Too many failed login attempts. Please try again later."
  const LoginFailed: string := "Login failed. Please check your credentials and try again."

  /** The submit-time check: both fields must be non-empty (whitespace
      counts as content). */
  function ValidateLogin(email: string, password: string): (r: Outcome)
    ensures r.Pass? <==> email != "" && password != ""
    ensures r.Fail? ==> r.error == MissingCredentials
  {
    if email == "" || password == "" then Fail(MissingCredentials) else Pass
  }

  /** The message for a sign-in error code. */
  function LoginErrorMessage(code: string): (m: string)
    ensures m in {InvalidCredentials, TooManyAttempts, LoginFailed}
    ensures m == InvalidCredentials <==> code == "auth/user-not-found" || code == "auth/wrong-password"
    ensures m == TooManyAttempts <==> code == "auth/too-many-requests"
  {
    if code == "auth/user-not-found" || code == "auth/wrong-password" then InvalidCredentials
    else if code == "auth/too-many-requests" then TooManyAttempts
    else LoginFailed
  }

  datatype Field = EmailField | PasswordField

  class LoginPage {
    const session: AuthSession.Session
    var email: string
    var password: string
    var isLoading: bool
    /** The description of the last error toast, if any. */
    var toast: Option<string>
    var navigatedTo: Option<string>

    constructor (session: AuthSession.Session)
      ensures this.session == session && email == "" && password == "" && !isLoading
      ensures toast.None? && navigatedTo.None?
    {
      this.session := session;
      email, password, isLoading, toast, navigatedTo := "", "", false, None, None;
    }

    /** A signed-in visitor is sent to the home page. */
    method Render() returns (shown: bool)
      modifies this`navigatedTo
      ensures shown <==> session.currentUser.None?
      ensures shown ==> navigatedTo == old(navigatedTo)
      ensures !shown ==> navigatedTo == Some("/")
    {
      if session.currentUser.Some? {
        navigatedTo := Some("/");
        return false;
      }
      shown := true;
    }

    method HandleChange(field: Field, value: string)
      modifies this`email, this`password
      ensures field == EmailField ==> email == value && password == old(password)
      ensures field == PasswordField ==> password == value && email == old(email)
    {
      match field
      case EmailField => email := value;
      case PasswordField => password := value;
    }

    /** `handleSubmit`: an incomplete form is refused before any sign-in;
        otherwise the session signs in, a failure shows the mapped message,
        and the loading flag is cleared either way. */
    method HandleSubmit() returns (r: Outcome)
      requires session.Valid()
      modifies this`isLoading, this`toast, session`authUser, session`userProfile
      ensures session.Valid()
      ensures ValidateLogin(email, password).Fail? ==> (r == Fail(MissingCredentials)
        && toast == Some(MissingCredentials) && isLoading == old(isLoading)
        && session.authUser == old(session.authUser) && session.userProfile == old(session.userProfile))
      ensures ValidateLogin(email, password).Pass? ==> !isLoading
      ensures ValidateLogin(email, password).Pass? && r.Fail? ==> (toast == Some(LoginErrorMessage(r.error))
        && session.authUser == old(session.authUser))
      ensures r.Pass? ==> (email in session.accounts && session.accounts[email].password == password
        && session.authUser == Some(session.accounts[email].uid) && toast == old(toast))
    {
      var check := ValidateLogin(email, password);
      if check.Fail? {
        toast := Some(check.error);
        return check;
      }
      isLoading := true;
      r := session.SignIn(email, password);
      if r.Fail? {
        toast := Some(LoginErrorMessage(r.error));
      }
      isLoading := false;
    }
  }
}
