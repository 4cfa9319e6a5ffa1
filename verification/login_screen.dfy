/**
 * The login screen of src/screens/LoginScreen.tsx: its two input fields,
 * the sign-in/register mode flag, and what a submission does to the session
 * store.
 */
module LoginScreen {
  import opened Wrappers
  import opened Text
  import opened SessionStore

  datatype LoginView = LoginView(username: string, password: string, isRegistering: bool)

  /** What the user sees after a submission: an alert, or the screen replaced by another route. */
  datatype Feedback = Alert(title: string, message: string) | ReplacedBy(route: string)

  /** The arguments `login` was called with. */
  datatype LoginCall = LoginCall(username: string, password: string)

  /** The outcome of one submission: what `login` received (if it was called), the feedback, and the session afterwards. */
  datatype Submission = Submission(call: Option<LoginCall>, feedback: Feedback, auth: AuthState, storage: Storage)

  const BlankFieldsAlert := Alert("Error", "Please enter both username and password")
  const RejectedAlert := Alert("Error", "Invalid credentials. Please try again.")
  const MainRoute := "Main"

  /**
   * `handleLogin`: when either field is blank after trimming, an alert and no
   * call; otherwise `login` with the trimmed username and the password as
   * typed, then the main route on success or an alert on failure. The mode
   * flag plays no part: a submission always signs in, never registers.
   */
  function HandleLogin(v: LoginView, auth: AuthState, storage: Storage, write: StorageCall): (s: Submission)
    ensures IsBlank(v.username) || IsBlank(v.password) ==>
      s == Submission(None, BlankFieldsAlert, auth, storage)
    ensures !IsBlank(v.username) && !IsBlank(v.password) ==>
      && s.call == Some(LoginCall(Trim(v.username), v.password))
      && s.auth.user == Some(SignedInUser(Trim(v.username)))
      && (write.Completes? ==> s.feedback == ReplacedBy(MainRoute))
      && (write.Throws? ==> s.feedback == RejectedAlert)
  {
    var name := Trim(v.username);
    if name == [] || Trim(v.password) == [] then
      Submission(None, BlankFieldsAlert, auth, storage)
    else
      var step := Login(auth, storage, name, v.password, write);
      Submission(Some(LoginCall(name, v.password)),
        if step.ok then ReplacedBy(MainRoute) else RejectedAlert,
        step.state, step.storage)
  }

  /** The sign-in button is disabled while the session store is loading. */
  predicate SignInDisabled(auth: AuthState) {
    auth.isLoading
  }

  /**
   * Pressing the sign-in button: no submission while it is disabled,
   * otherwise `handleLogin`.
   */
  function PressSignIn(v: LoginView, auth: AuthState, storage: Storage, write: StorageCall): (s: Option<Submission>)
    ensures auth.isLoading <==> s.None?
    ensures !auth.isLoading ==> s == Some(HandleLogin(v, auth, storage, write))
  {
    if SignInDisabled(auth) then None else Some(HandleLogin(v, auth, storage, write))
  }

  /**
   * Before the stored user has been looked at, a press submits nothing; once
   * it has, whatever its outcome, a press with both fields filled signs in.
   */
  lemma SignInWaitsForStartup(v: LoginView, storage: Storage, read: StorageCall, write: StorageCall)
    ensures PressSignIn(v, Initial(), storage, write).None?
    ensures var auth := LoadStoredUser(Initial(), storage, read);
      !IsBlank(v.username) && !IsBlank(v.password) ==>
        && PressSignIn(v, auth, storage, write).Some?
        && PressSignIn(v, auth, storage, write).value.call.Some?
  {
  }

  /** `handleRegister`: only flips the mode flag. */
  function HandleRegister(v: LoginView): (w: LoginView)
    ensures w.isRegistering == !v.isRegistering
    ensures w.username == v.username && w.password == v.password
  {
    v.(isRegistering := !v.isRegistering)
  }

  /** Toggling the mode twice restores the original view. */
  lemma RegisterToggleInvolution(v: LoginView)
    ensures HandleRegister(HandleRegister(v)) == v
  {
  }

  /** A submission does the same in either mode: a signed-in user always gets the derived address, never one of their own. */
  lemma SubmissionIgnoresMode(v: LoginView, auth: AuthState, storage: Storage, write: StorageCall)
    ensures HandleLogin(v, auth, storage, write) == HandleLogin(HandleRegister(v), auth, storage, write)
    ensures var s := HandleLogin(v, auth, storage, write);
      s.call.Some? ==> s.auth.user.Some? && s.auth.user.value.email == Trim(v.username) + "@example.com"
  {
  }

  /** A successful submission leaves a signed-in session that the next start restores. */
  lemma SuccessfulSubmissionPersists(v: LoginView, auth: AuthState, storage: Storage)
    requires !IsBlank(v.username) && !IsBlank(v.password)
    ensures var s := HandleLogin(v, auth, storage, Completes);
      && s.feedback == ReplacedBy(MainRoute)
      && IsAuthenticated(s.auth)
      && LoadStoredUser(Initial(), s.storage, Completes).user == s.auth.user
  {
  }
}
