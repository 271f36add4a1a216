/** The sign-in and sign-up pages: each submit clears the previous outcome,
    runs the form checks, and only when they all pass calls the session
    provider, then records success or the failure message. */
module AuthPages {
  import opened JsValues
  import opened Api
  import opened AuthContext
  import opened Validation
  import AppRoutes

  const LoginFailed := "Login failed. Please try again."
  const RegistrationFailed := "Registration failed. Please try again."
  const SignupSucceeded := "Account created successfully! Redirecting to login..."

  /** The sign-in page's state. `navigatedTo` records the last navigation. */
  class LoginPage {
    var email: string
    var password: string
    var error: string
    var loading: bool
    var navigatedTo: Option<string>
    const auth: AuthProvider

    constructor (auth: AuthProvider)
      ensures this.auth == auth
      ensures email == "" && password == "" && error == "" && !loading && navigatedTo == None
    {
      this.auth := auth;
      email, password, error, loading, navigatedTo := "", "", "", false, None;
    }

    /** `handleSubmit`; `reply` is the outcome of the login call, used only
        when the checks pass. */
    method HandleSubmit(reply: Reply<LoginData>)
      modifies this, auth, auth.api, auth.api.store
      ensures email == old(email) && password == old(password)
      ensures LoginError(email, password).Some? ==>
                error == LoginError(email, password).value &&
                loading == old(loading) && navigatedTo == old(navigatedTo) &&
                auth.api.sent == old(auth.api.sent) && auth.State() == old(auth.State())
      ensures LoginError(email, password).None? ==>
                !loading &&
                auth.api.sent == old(auth.api.sent) + [Outgoing(LoginUser(email, password), old(auth.api.store.slot))]
      ensures LoginError(email, password).None? && reply.Ok? ==>
                error == "" && navigatedTo == Some(AppRoutes.DashboardPath) &&
                auth.State() == AfterLogin(old(auth.State()), reply.data)
      ensures LoginError(email, password).None? && reply.Fail? ==>
                error == ErrorText(reply.message, LoginFailed) && navigatedTo == old(navigatedTo) &&
                auth.State() == old(auth.State())
    {
      error := "";
      if email == "" || password == "" {
        error := FillAllFields;
        return;
      }
      if !EmailLooksValid(email) {
        error := InvalidEmail;
        return;
      }
      loading := true;
      var r := auth.Login(email, password, reply);
      if r.Ok? {
        navigatedTo := Some(AppRoutes.DashboardPath);
      } else {
        error := ErrorText(r.message, LoginFailed);
      }
      loading := false;
    }
  }

  /** The sign-up page's state. `redirect` records the navigation the page
      schedules after a successful registration. */
  class SignupPage {
    var name: string
    var email: string
    var password: string
    var confirmPassword: string
    var error: string
    var success: string
    var loading: bool
    var redirect: Option<string>
    const auth: AuthProvider

    constructor (auth: AuthProvider)
      ensures this.auth == auth
      ensures name == "" && email == "" && password == "" && confirmPassword == ""
      ensures error == "" && success == "" && !loading && redirect == None
    {
      this.auth := auth;
      name, email, password, confirmPassword := "", "", "", "";
      error, success, loading, redirect := "", "", false, None;
    }

    /** `handleSubmit`; `reply` is the outcome of the register call, used
        only when the checks pass. The session is never changed. */
    method HandleSubmit<D>(reply: Reply<D>)
      modifies this, auth.api
      ensures name == old(name) && email == old(email)
      ensures password == old(password) && confirmPassword == old(confirmPassword)
      ensures auth.State() == old(auth.State())
      ensures SignupError(name, email, password, confirmPassword).Some? ==>
                error == SignupError(name, email, password, confirmPassword).value && success == "" &&
                loading == old(loading) && redirect == old(redirect) &&
                auth.api.sent == old(auth.api.sent)
      ensures SignupError(name, email, password, confirmPassword).None? ==>
                !loading &&
                auth.api.sent == old(auth.api.sent) + [Outgoing(RegisterUser(name, email, password), auth.api.store.slot)]
      ensures SignupError(name, email, password, confirmPassword).None? && reply.Ok? ==>
                error == "" && success == SignupSucceeded && redirect == Some(AppRoutes.LoginPath)
      ensures SignupError(name, email, password, confirmPassword).None? && reply.Fail? ==>
                error == ErrorText(reply.message, RegistrationFailed) && success == "" &&
                redirect == old(redirect)
    {
      error := "";
      success := "";
      if name == "" || email == "" || password == "" || confirmPassword == "" {
        error := FillAllFields;
        return;
      }
      if !EmailLooksValid(email) {
        error := InvalidEmail;
        return;
      }
      if |password| < MinPasswordLength {
        error := PasswordTooShort;
        return;
      }
      if password != confirmPassword {
        error := PasswordsDiffer;
        return;
      }
      loading := true;
      var r := auth.Register(name, email, password, reply);
      if r.Ok? {
        success := SignupSucceeded;
        redirect := Some(AppRoutes.LoginPath);
      } else {
        error := ErrorText(r.message, RegistrationFailed);
      }
      loading := false;
    }
  }

  /** A sign-in with an address that has no '.' after its '@' is stopped by
      the format check: the message is set and nothing is sent. */
  method MalformedAddressSendsNothing() returns (error: string, sent: seq<Request>)
    ensures error == InvalidEmail
    ensures sent == []
  {
    var store := new Browser.CredentialStore(None);
    var api := new ApiClient(store);
    var auth := new AuthProvider(api);
    var page := new LoginPage(auth);
    page.email, page.password := "a@b", "secret1";
    NoDotAfterAtFails();
    page.HandleSubmit(Ok(LoginData(Str("abc123"))));
    error, sent := page.error, api.sent;
  }

  /** A successful registration neither logs in nor out: a signed-in
      session stays signed in with the same token. */
  method SignupKeepsSession(t: string) returns (before: Session, after: Session, success: string)
    requires t != ""
    ensures before == after && Authenticated(after)
    ensures success == SignupSucceeded
  {
    var store := new Browser.CredentialStore(Some(t));
    var api := new ApiClient(store);
    var auth := new AuthProvider(api);
    auth.Mount();
    var page := new SignupPage(auth);
    page.name, page.email, page.password, page.confirmPassword := "Ada", "ada@example.com", "secret1", "secret1";
    AnchorsGiveMatch("ada@example.com", 3, 11);
    before := auth.State();
    page.HandleSubmit<bool>(Ok(true));
    after, success := auth.State(), page.success;
  }
}
