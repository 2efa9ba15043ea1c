/** The sign-in and registration form: its checks, the request it sends and the state it leaves. */
module AuthForm {
  import opened Wrappers
  import opened Text
  import opened Domain
  import Cart
  import ClientServices

  datatype Mode = SignIn | Register

  datatype Request =
    | LoginRequest(username: string, password: string)
    | RegisterRequest(payload: ClientServices.RegisterPayload)

  /** The outcome of the form's own checks: an error shown to the user, or a request to send. */
  datatype Check = Invalid(error: string) | Ready(request: Request)

  /** The display name sent on registration: trimmed, and left out when blank. */
  function DisplayNameSent(displayName: string): (r: Option<string>)
    ensures r.None? <==> JsTrim(displayName) == ""
    ensures r.Some? ==> r.value == JsTrim(displayName)
  {
    if JsTrim(displayName) == "" then None else Some(JsTrim(displayName))
  }

  /**
   * `handleLogin` and `handleRegister` before the request: blank fields,
   * then (registering) a short password, then a mismatched confirmation.
   * The username is sent trimmed and the password as typed.
   */
  function Validate(mode: Mode, username: string, password: string, confirm: string, displayName: string): Check
  {
    match mode
    case SignIn =>
      if JsTrim(username) == "" || JsTrim(password) == "" then Invalid("Please enter both username and password")
      else Ready(LoginRequest(JsTrim(username), password))
    case Register =>
      if JsTrim(username) == "" || JsTrim(password) == "" then Invalid("Please enter username and password")
      else if Utf16Length(password) < 6 then Invalid("Password must be at least 6 characters")
      else if password != confirm then Invalid("Passwords do not match")
      else Ready(RegisterRequest(ClientServices.RegisterPayloadOf(
        JsTrim(username), password, DisplayNameSent(displayName), None, None)))
  }

  /** The checks in order, and what each request carries. */
  lemma {:induction false} ValidateChecks(mode: Mode, username: string, password: string, confirm: string, displayName: string)
    ensures var r := Validate(mode, username, password, confirm, displayName);
      (mode == SignIn ==> (r.Ready? <==> JsTrim(username) != "" && JsTrim(password) != "")) &&
      (mode == SignIn && r.Ready? ==> r.request == LoginRequest(JsTrim(username), password)) &&
      (mode == SignIn && r.Invalid? ==> r.error == "Please enter both username and password") &&
      (mode == Register ==> (r.Ready? <==>
        JsTrim(username) != "" && JsTrim(password) != "" && Utf16Length(password) >= 6 && password == confirm)) &&
      (mode == Register && (JsTrim(username) == "" || JsTrim(password) == "") ==>
        r == Invalid("Please enter username and password")) &&
      (mode == Register && JsTrim(username) != "" && JsTrim(password) != "" && Utf16Length(password) < 6 ==>
        r == Invalid("Password must be at least 6 characters")) &&
      ((mode == Register && JsTrim(username) != "" && JsTrim(password) != "" && Utf16Length(password) >= 6 &&
        password != confirm) ==> r == Invalid("Passwords do not match")) &&
      (mode == Register && r.Ready? ==> (
        r.request.RegisterRequest? &&
        r.request.payload.username == JsTrim(username) && r.request.payload.password == password &&
        r.request.payload.name == (if JsTrim(displayName) == "" then "New User" else JsTrim(displayName)) &&
        r.request.payload.phone == "" && r.request.payload.address == ""))
  {
  }

  /** The submit button is disabled while loading or while a required field is blank. */
  predicate SubmitDisabled(loading: bool, mode: Mode, username: string, password: string, confirm: string) {
    loading || JsTrim(username) == "" || JsTrim(password) == "" || (mode == Register && JsTrim(confirm) == "")
  }

  /** Signing in, an enabled button and a passing check are the same thing. */
  lemma {:induction false} SignInButtonMatchesCheck(username: string, password: string, confirm: string, displayName: string)
    ensures !SubmitDisabled(false, SignIn, username, password, confirm) <==>
      Validate(SignIn, username, password, confirm, displayName).Ready?
  {
  }

  /** Registering, every form that passes the checks has an enabled button. */
  lemma {:induction false} RegisterReadyEnablesButton(username: string, password: string, confirm: string, displayName: string)
    ensures Validate(Register, username, password, confirm, displayName).Ready? ==>
      !SubmitDisabled(false, Register, username, password, confirm)
  {
  }

  /** The converse fails: the button ignores the password's length, so a short password is only caught on submit. */
  lemma {:induction false} ShortPasswordPassesButton(username: string, password: string, displayName: string)
    requires JsTrim(username) != "" && JsTrim(password) != "" && Utf16Length(password) < 6
    ensures !SubmitDisabled(false, Register, username, password, password)
    ensures Validate(Register, username, password, password, displayName) == Invalid("Password must be at least 6 characters")
  {
  }

  /** The username a request carries. */
  function SentUsername(request: Request): string {
    if request.LoginRequest? then request.username else request.payload.username
  }

  /** The username of every request is nonempty and has no white space at either end. */
  lemma {:induction false} SentUsernameIsTrimmed(mode: Mode, username: string, password: string, confirm: string, displayName: string)
    ensures var r := Validate(mode, username, password, confirm, displayName);
      r.Ready? ==> var u := SentUsername(r.request); u != "" && u[0] !in JsSpace && u[|u| - 1] !in JsSpace
  {
    var t := JsTrim(username);
    if t != "" {
      TrimEnds(username, JsSpace);
      assert t[0] !in JsSpace && t[|t| - 1] !in JsSpace;
    }
    var r := Validate(mode, username, password, confirm, displayName);
    if r.Ready? {
      if mode == SignIn {
        assert r.request == LoginRequest(t, password);
      } else {
        assert r.request.payload.username == t;
      }
    }
  }

  /** The error shown when the request fails: the server's message, or the mode's fallback when it is blank. */
  function FailureText(mode: Mode, message: string): (r: string)
    ensures message != "" ==> r == message
    ensures message == "" ==> r != ""
  {
    if message != "" then message
    else if mode == SignIn then "Invalid username or password" else "Registration failed"
  }

  /** The back end's answer: the user it returned (None when it returned none), or a thrown error's message. */
  datatype Reply = Answered(user: Option<User>) | Failed(message: string)

  class AuthPage {
    var mode: Mode
    var username: string
    var password: string
    var confirmPassword: string
    var displayName: string
    var error: string
    var loading: bool
    /** The application's authentication state, which `login` sets. */
    var auth: AuthState

    constructor(auth0: AuthState)
      ensures mode == SignIn && username == "" && password == "" && confirmPassword == "" && displayName == ""
      ensures error == "" && !loading && auth == auth0
    {
      mode := SignIn;
      username := "";
      password := "";
      confirmPassword := "";
      displayName := "";
      error := "";
      loading := false;
      auth := auth0;
    }

    /** The switch links: the other mode, with the error cleared and the fields kept. */
    method SwitchMode(to: Mode)
      modifies this
      ensures mode == to && error == ""
      ensures username == old(username) && password == old(password) && confirmPassword == old(confirmPassword)
      ensures displayName == old(displayName) && loading == old(loading) && auth == old(auth)
    {
      mode := to;
      error := "";
    }

    /**
     * Submitting the form: a failed check shows its error and sends nothing;
     * otherwise the request is sent and `reply` is its answer. A thrown
     * error is shown; a signed-in answer with a user signs that user in,
     * and a registration answer signs in whatever it holds.
     */
    method Submit(reply: Reply) returns (sent: Option<Request>)
      modifies this
      ensures mode == old(mode) && username == old(username) && password == old(password)
      ensures confirmPassword == old(confirmPassword) && displayName == old(displayName)
      ensures var check := Validate(mode, username, password, confirmPassword, displayName);
        (check.Invalid? ==> sent.None? && error == check.error && auth == old(auth) && loading == old(loading)) &&
        (check.Ready? ==> (
          sent == Some(check.request) && !loading &&
          error == (if reply.Failed? then FailureText(mode, reply.message) else "") &&
          auth == SignedInAfter(mode, old(auth), reply)))
    {
      error := "";
      var check := Validate(mode, username, password, confirmPassword, displayName);
      if check.Invalid? {
        error := check.error;
        sent := None;
        return;
      }
      sent := Some(check.request);
      loading := true;
      if reply.Failed? {
        error := FailureText(mode, reply.message);
      }
      auth := SignedInAfter(mode, auth, reply);
      loading := false;
    }
  }

  /**
   * The authentication state after an answer: a returned user is signed in;
   * a registration with no user still marks the application authenticated
   * (`login(undefined)`); a sign-in with no user or a failure changes nothing.
   */
  function SignedInAfter(mode: Mode, auth: AuthState, reply: Reply): (r: AuthState)
    ensures reply.Answered? && reply.user.Some? ==> Cart.Consistent(r) && r.user == reply.user
    ensures reply.Failed? || (mode == SignIn && reply.user.None?) ==> r == auth
    ensures mode == Register && reply.Answered? ==> r.isAuthenticated
  {
    match reply
    case Failed(_) => auth
    case Answered(user) =>
      if user.Some? then Cart.Login(user.value)
      else if mode == Register then AuthState(None, true)
      else auth
  }

  /** A registration whose answer holds no user leaves the application marked authenticated with no user. */
  lemma {:induction false} RegisterWithoutUserIsInconsistent()
    ensures !Cart.Consistent(AuthState(None, true))
  {
  }
}
