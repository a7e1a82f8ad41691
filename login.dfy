/**
 * The sign-in page: choosing a role, signing in or up, where each role is
 * routed afterwards, and how authentication errors are worded.
 */
module Login {
  import opened Wrappers
  import opened Text

  datatype Role = Patient | HealthWorker | Doctor

  datatype Step = RoleStep | CredentialsStep

  /** Which branch of the error wording applies, in the order the page tests them. */
  datatype ErrorKind =
    | InvalidCredentials | Unconfirmed | AlreadyRegistered | ShortPassword
    | ConnectionTrouble | TimedOut | Verbatim | Default

  const PatientHome := "/patientdashboard"
  const HealthWorkerHome := "/healthworkerdashboard"
  const DoctorHome := "/doctordashboard"
  const SiteRoot := "/"
  const NameRequiredText := "Name is required"

  const DefaultErrorText := "Authentication failed. Please try again."
  const InvalidCredentialsText := "Invalid email or password. Please check your credentials and try again."
  const UnconfirmedText := "Please check your email and confirm your account before signing in."
  const AlreadyRegisteredText := "An account with this email already exists. Please sign in instead."
  const ShortPasswordText := "Password must be at least 6 characters long."
  const ConnectionText := "Connection timeout. Please check your internet connection and try again."
  const TimedOutText := "Request timed out. Please try again."

  function RoleName(r: Role): string
  {
    match r
    case Patient => "patient"
    case HealthWorker => "health-worker"
    case Doctor => "doctor"
  }

  /** Where a signed-up user of a role lands. */
  function HomeOf(r: Role): (path: string)
    ensures path != SiteRoot
  {
    match r
    case Patient => PatientHome
    case HealthWorker => HealthWorkerHome
    case Doctor => DoctorHome
  }

  /** Where a signed-in user lands, by the role stored for the account: an unknown role goes to the site root. */
  function HomeOfStoredRole(role: string): (path: string)
    ensures (exists r :: RoleName(r) == role) <==> path != SiteRoot
    ensures forall r :: RoleName(r) == role ==> path == HomeOf(r)
  {
    if role == "patient" then assert RoleName(Patient) == role; PatientHome
    else if role == "health-worker" then assert RoleName(HealthWorker) == role; HealthWorkerHome
    else if role == "doctor" then assert RoleName(Doctor) == role; DoctorHome
    else
      assert forall r :: RoleName(r) != role;
      SiteRoot
  }

  /** Signing in and signing up lead a user of the same role to the same place. */
  lemma LoginAndSignupAgree(r: Role)
    ensures HomeOfStoredRole(RoleName(r)) == HomeOf(r)
  {
  }

  /** `error.message?.includes(t)`. */
  predicate Mentions(message: Option<string>, t: string)
  {
    message.Some? && Contains(message.value, t)
  }

  /** The branch the page takes, in its own order: the generic 'timeout' test comes first. */
  function ErrorKindAsWritten(message: Option<string>): (b: ErrorKind)
    ensures b == Default <==> message.None? || message.value == ""
    ensures b == Verbatim ==> !Mentions(message, "timeout") && !Mentions(message, "fetch")
  {
    assert message == Some("") ==> (
      && !Mentions(message, "timeout") && !Mentions(message, "fetch")
      && !Mentions(message, "Invalid login credentials") && !Mentions(message, "Email not confirmed")
      && !Mentions(message, "User already registered") && !Mentions(message, "Password should be at least"));
    if Mentions(message, "Invalid login credentials") then InvalidCredentials
    else if Mentions(message, "Email not confirmed") then Unconfirmed
    else if Mentions(message, "User already registered") then AlreadyRegistered
    else if Mentions(message, "Password should be at least") then ShortPassword
    else if Mentions(message, "timeout") || Mentions(message, "fetch") then ConnectionTrouble
    else if Mentions(message, "Login timeout") || Mentions(message, "Signup timeout") then TimedOut
    else if message.Some? && message.value != "" then Verbatim
    else Default
  }

  lemma MentionsTimeout(message: Option<string>)
    requires Mentions(message, "Login timeout") || Mentions(message, "Signup timeout")
    ensures Mentions(message, "timeout")
  {
    if Mentions(message, "Login timeout") {
      ContainsAt("Login timeout", "timeout", 6);
      ContainsTransitive(message.value, "Login timeout", "timeout");
    } else {
      ContainsAt("Signup timeout", "timeout", 7);
      ContainsTransitive(message.value, "Signup timeout", "timeout");
    }
  }

  /** The request-timed-out wording can never be chosen: both its triggers already mention 'timeout'. */
  lemma TimedOutBranchUnreachable(message: Option<string>)
    ensures ErrorKindAsWritten(message) != TimedOut
  {
    if Mentions(message, "Login timeout") || Mentions(message, "Signup timeout") {
      MentionsTimeout(message);
    }
  }

  /** The branch order evidently intended: the specific timeouts come before the generic one. */
  function ErrorKindOf(message: Option<string>): (b: ErrorKind)
    ensures b == TimedOut <==> ((!Mentions(message, "Invalid login credentials")
      && !Mentions(message, "Email not confirmed") && !Mentions(message, "User already registered")
      && !Mentions(message, "Password should be at least")
      && (Mentions(message, "Login timeout") || Mentions(message, "Signup timeout"))))
    ensures b == Default <==> message.None? || message.value == ""
  {
    if message.Some? && message.value == "" then
      assert !Mentions(message, "Login timeout") && !Mentions(message, "Signup timeout");
      assert !Mentions(message, "timeout") && !Mentions(message, "fetch");
      assert !Mentions(message, "Invalid login credentials") && !Mentions(message, "Email not confirmed");
      assert !Mentions(message, "User already registered") && !Mentions(message, "Password should be at least");
      Default
    else if Mentions(message, "Invalid login credentials") then InvalidCredentials
    else if Mentions(message, "Email not confirmed") then Unconfirmed
    else if Mentions(message, "User already registered") then AlreadyRegistered
    else if Mentions(message, "Password should be at least") then ShortPassword
    else if Mentions(message, "Login timeout") || Mentions(message, "Signup timeout") then TimedOut
    else if Mentions(message, "timeout") || Mentions(message, "fetch") then ConnectionTrouble
    else if message.Some? then Verbatim
    else Default
  }

  /**
   * A sign-in timeout (a message mentioning 'Login timeout' and none of the
   * other wordings' triggers) reads as a connection problem as written and
   * gets its own wording in the intended order.
   */
  lemma LoginTimeoutWording(m: string)
    requires Contains(m, "Login timeout")
    requires 'I' !in m && 'E' !in m && 'U' !in m && 'P' !in m
    ensures ErrorKindAsWritten(Some(m)) == ConnectionTrouble
    ensures ErrorKindOf(Some(m)) == TimedOut
  {
    NotContainsChar(m, "Invalid login credentials", 0);
    NotContainsChar(m, "Email not confirmed", 0);
    NotContainsChar(m, "User already registered", 0);
    NotContainsChar(m, "Password should be at least", 0);
    MentionsTimeout(Some(m));
  }

  /** The message a stalled sign-in raises is the witness: the two orders word it differently. */
  lemma LoginTimeoutReadsDifferently()
    ensures ErrorKindAsWritten(Some("Login timeout")) == ConnectionTrouble
    ensures ErrorKindOf(Some("Login timeout")) == TimedOut
  {
    ContainsAt("Login timeout", "Login timeout", 0);
    LoginTimeoutWording("Login timeout");
  }

  /** The two orders differ only on messages that mention one of the specific timeouts. */
  lemma OrdersAgreeElsewhere(message: Option<string>)
    requires !Mentions(message, "Login timeout") && !Mentions(message, "Signup timeout")
    ensures ErrorKindOf(message) == ErrorKindAsWritten(message)
  {
  }

  /** The text shown for a branch. */
  function ErrorText(b: ErrorKind, message: Option<string>): (r: string)
    ensures b == Verbatim && message.Some? ==> r == message.value
    ensures r == "" ==> b == Verbatim && message == Some("")
  {
    match b
    case InvalidCredentials => InvalidCredentialsText
    case Unconfirmed => UnconfirmedText
    case AlreadyRegistered => AlreadyRegisteredText
    case ShortPassword => ShortPasswordText
    case ConnectionTrouble => ConnectionText
    case TimedOut => TimedOutText
    case Verbatim => if message.Some? then message.value else DefaultErrorText
    case Default => DefaultErrorText
  }

  /** A message that matches none of the known wordings is shown as it is. */
  lemma UnrecognisedShownVerbatim(m: string)
    requires m != ""
    requires !Contains(m, "Invalid login credentials") && !Contains(m, "Email not confirmed")
    requires !Contains(m, "User already registered") && !Contains(m, "Password should be at least")
    requires !Contains(m, "timeout") && !Contains(m, "fetch")
    ensures ErrorText(ErrorKindOf(Some(m)), Some(m)) == m
    ensures ErrorText(ErrorKindAsWritten(Some(m)), Some(m)) == m
  {
    if Contains(m, "Login timeout") || Contains(m, "Signup timeout") {
      MentionsTimeout(Some(m));
    }
    OrdersAgreeElsewhere(Some(m));
    assert ErrorKindAsWritten(Some(m)) == Verbatim;
  }

  /** A message lacking one letter of each known trigger is shown as it is. */
  lemma ShownVerbatimWithoutKeyLetters(m: string)
    requires m != ""
    requires 'v' !in m && 'E' !in m && 'U' !in m && 'P' !in m && 't' !in m && 'f' !in m
    ensures ErrorText(ErrorKindAsWritten(Some(m)), Some(m)) == m
    ensures ErrorText(ErrorKindOf(Some(m)), Some(m)) == m
  {
    NotContainsChar(m, "Invalid login credentials", 2);
    NotContainsChar(m, "Email not confirmed", 0);
    NotContainsChar(m, "User already registered", 0);
    NotContainsChar(m, "Password should be at least", 0);
    NotContainsChar(m, "timeout", 0);
    NotContainsChar(m, "fetch", 0);
    UnrecognisedShownVerbatim(m);
  }

  /** The missing-name error matches none of the known wordings, so it is shown as it is. */
  lemma NameRequiredShownVerbatim()
    ensures ErrorText(ErrorKindAsWritten(Some(NameRequiredText)), Some(NameRequiredText)) == NameRequiredText
    ensures ErrorText(ErrorKindOf(Some(NameRequiredText)), Some(NameRequiredText)) == NameRequiredText
  {
    ShownVerbatimWithoutKeyLetters(NameRequiredText);
  }

  /** Every outcome shows some text. */
  lemma ErrorTextNonEmpty(message: Option<string>)
    ensures ErrorText(ErrorKindOf(message), message) != ""
  {
    if ErrorKindOf(message) == Verbatim {
      assert message.Some? && message.value != "";
    }
  }

  class LoginPage {
    var step: Step
    var selectedRole: Option<Role>
    var email: string
    var password: string
    var name: string
    var isLogin: bool
    var loading: bool
    var error: string
    /** The paths navigated to, and the calls made to the authentication service, in order. */
    var navigations: seq<string>
    var loginCalls: seq<(string, string)>
    var signupCalls: seq<(string, string, string, Role)>

    ghost predicate Valid()
      reads this
    {
      (step == CredentialsStep ==> selectedRole.Some?) && !loading
    }

    constructor()
      ensures Valid() && step == RoleStep && selectedRole.None? && isLogin && !loading && error == ""
      ensures email == "" && password == "" && name == ""
      ensures navigations == [] && loginCalls == [] && signupCalls == []
    {
      step := RoleStep;
      selectedRole := None;
      email := "";
      password := "";
      name := "";
      isLogin := true;
      loading := false;
      error := "";
      navigations := [];
      loginCalls := [];
      signupCalls := [];
    }

    method HandleRoleSelect(r: Role)
      requires Valid()
      modifies this`selectedRole, this`step
      ensures Valid() && selectedRole == Some(r) && step == CredentialsStep
    {
      selectedRole := Some(r);
      step := CredentialsStep;
    }

    /** Back to the role choice clears the error. */
    method BackToRoles()
      requires Valid()
      modifies this`step, this`error
      ensures Valid() && step == RoleStep && error == ""
    {
      step := RoleStep;
      error := "";
    }

    /** Switching between sign-in and sign-up clears the error. */
    method ToggleMode()
      requires Valid()
      modifies this`isLogin, this`error
      ensures Valid() && isLogin == !old(isLogin) && error == ""
    {
      isLogin := !isLogin;
      error := "";
    }

    method SetFields(newEmail: string, newPassword: string, newName: string)
      requires Valid()
      modifies this`email, this`password, this`name
      ensures Valid() && email == newEmail && password == newPassword && name == newName
    {
      email := newEmail;
      password := newPassword;
      name := newName;
    }

    /**
     * handleSubmit: nothing without a chosen role. Signing in routes by the
     * stored role; signing up first requires a non-blank name, sends it
     * trimmed and routes by the chosen role. Any failure shows its wording.
     * `loginResult` is the stored role or the thrown message; `signupResult`
     * holds the thrown message, if any.
     */
    method HandleSubmit(loginResult: Settled<string>, signupResult: Option<string>)
      requires Valid()
      modifies this`loading, this`error, this`navigations, this`loginCalls, this`signupCalls
      ensures Valid()
      ensures old(selectedRole).None? ==> (error == old(error) && navigations == old(navigations)
        && loginCalls == old(loginCalls) && signupCalls == old(signupCalls))
      ensures selectedRole.Some? && isLogin ==> (loginCalls == old(loginCalls) + [(email, password)]
        && signupCalls == old(signupCalls))
      ensures selectedRole.Some? && isLogin && loginResult.Resolved? ==> (
        navigations == old(navigations) + [HomeOfStoredRole(loginResult.value)] && error == "")
      ensures selectedRole.Some? && isLogin && loginResult.Rejected? ==> (navigations == old(navigations)
        && error == ErrorText(ErrorKindOf(Some(loginResult.message)), Some(loginResult.message)))
      ensures selectedRole.Some? && !isLogin && Blank(name) ==> (signupCalls == old(signupCalls)
        && navigations == old(navigations) && error == ErrorText(ErrorKindOf(Some(NameRequiredText)), Some(NameRequiredText)))
      ensures selectedRole.Some? && !isLogin && !Blank(name) ==> (loginCalls == old(loginCalls)
        && signupCalls == old(signupCalls) + [(email, password, Trim(name), selectedRole.value)])
      ensures selectedRole.Some? && !isLogin && !Blank(name) && signupResult.None? ==> (
        navigations == old(navigations) + [HomeOf(selectedRole.value)] && error == "")
      ensures selectedRole.Some? && !isLogin && !Blank(name) && signupResult.Some? ==> (
        navigations == old(navigations) && error == ErrorText(ErrorKindOf(signupResult), signupResult))
    {
      if selectedRole.None? {
        return;
      }
      loading := true;
      error := "";
      if isLogin {
        SubmitLogin(loginResult);
      } else {
        SubmitSignup(signupResult);
      }
      loading := false;
    }

    /** The sign-in half of handleSubmit: one signIn call, then the stored role's home or the worded failure. */
    method SubmitLogin(loginResult: Settled<string>)
      requires isLogin
      modifies this`error, this`navigations, this`loginCalls
      ensures loginCalls == old(loginCalls) + [(email, password)]
      ensures loginResult.Resolved? ==> (navigations == old(navigations) + [HomeOfStoredRole(loginResult.value)]
        && error == old(error))
      ensures loginResult.Rejected? ==> (navigations == old(navigations)
        && error == ErrorText(ErrorKindOf(Some(loginResult.message)), Some(loginResult.message)))
    {
      loginCalls := loginCalls + [(email, password)];
      if loginResult.Resolved? {
        navigations := navigations + [HomeOfStoredRole(loginResult.value)];
      } else {
        // The rejection is thrown into the one catch block, which words it.
        error := ErrorText(ErrorKindOf(Some(loginResult.message)), Some(loginResult.message));
      }
    }

    /**
     * The sign-up half of handleSubmit: a blank name is refused before any call; otherwise one
     * signUp call with the trimmed name, then the chosen role's home or the worded failure.
     */
    method SubmitSignup(signupResult: Option<string>)
      requires !isLogin && selectedRole.Some?
      modifies this`error, this`navigations, this`signupCalls
      ensures Blank(name) ==> (signupCalls == old(signupCalls) && navigations == old(navigations)
        && error == ErrorText(ErrorKindOf(Some(NameRequiredText)), Some(NameRequiredText)))
      ensures !Blank(name) ==> signupCalls == old(signupCalls) + [(email, password, Trim(name), selectedRole.value)]
      ensures !Blank(name) && signupResult.None? ==> (navigations == old(navigations) + [HomeOf(selectedRole.value)]
        && error == old(error))
      ensures !Blank(name) && signupResult.Some? ==> (navigations == old(navigations)
        && error == ErrorText(ErrorKindOf(signupResult), signupResult))
    {
      if Blank(name) {
        // The missing name is thrown into the same catch block.
        error := ErrorText(ErrorKindOf(Some(NameRequiredText)), Some(NameRequiredText));
      } else {
        signupCalls := signupCalls + [(email, password, Trim(name), selectedRole.value)];
        if signupResult.None? {
          navigations := navigations + [HomeOf(selectedRole.value)];
        } else {
          error := ErrorText(ErrorKindOf(signupResult), signupResult);
        }
      }
    }
  }
}
