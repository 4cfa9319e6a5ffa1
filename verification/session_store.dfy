/**
 * The session store of src/context/AuthContext.tsx. The persisted key-value
 * storage is a map from keys to slots; serialising a user and parsing it back
 * is abstracted into the slot holding the user itself, and each storage call
 * is given its outcome (it completes or it throws).
 */
module SessionStore {
  import opened Wrappers
  import opened AccountTypes

  /** What a key of the storage holds: a user written by this store, or text that does not parse. */
  datatype Slot = Stored(user: User) | Corrupt

  /** Absent keys are missing values. */
  type Storage = map<string, Slot>

  /** Whether a storage call completed or threw. */
  datatype StorageCall = Completes | Throws

  /** The one key the session is persisted under. */
  const UserKey: string := "user"

  datatype AuthState = AuthState(user: Option<User>, isLoading: bool)

  /** The result of a login or registration: new state, new storage, and the value returned to the caller. */
  datatype AuthStep = AuthStep(state: AuthState, storage: Storage, ok: bool)

  /** Before the stored user has been looked at: nobody signed in, loading. */
  function Initial(): (s: AuthState)
    ensures s.user.None? && s.isLoading
  {
    AuthState(None, true)
  }

  /** `isAuthenticated`: a user object is present (every object is truthy). */
  predicate IsAuthenticated(s: AuthState) {
    s.user.Some?
  }

  /**
   * `loadStoredUser`: a stored, parseable user replaces the current one; a
   * missing key, an unparseable value and a failing read all leave the user
   * as it was. Loading ends in every case.
   */
  function LoadStoredUser(s: AuthState, storage: Storage, read: StorageCall): (t: AuthState)
    ensures !t.isLoading
    ensures read.Completes? && UserKey in storage && storage[UserKey].Stored? ==> t.user == Some(storage[UserKey].user)
    ensures read.Throws? || UserKey !in storage || storage[UserKey].Corrupt? ==> t.user == s.user
  {
    if read.Completes? && UserKey in storage && storage[UserKey].Stored? then
      AuthState(Some(storage[UserKey].user), false)
    else
      s.(isLoading := false)
  }

  /** The user `login` builds: id '1', the username, a derived address, no claims, no empires. */
  function SignedInUser(username: string): (u: User)
    ensures u.id == "1" && u.username == username && u.email == username + "@example.com"
    ensures u.avatar.None? && u.claims == [] && u.empires == []
  {
    User("1", username, username + "@example.com", None, [], [])
  }

  /** The user `register` builds: as for a login, with the supplied address. */
  function RegisteredUser(username: string, email: string): (u: User)
    ensures u.id == "1" && u.username == username && u.email == email
    ensures u.avatar.None? && u.claims == [] && u.empires == []
  {
    User("1", username, email, None, [], [])
  }

  /**
   * The common body of `login` and `register`: the user is set in memory
   * first, then written under the user key; the call returns true exactly
   * when the write completes, and loading ends either way.
   */
  function Establish(s: AuthState, storage: Storage, u: User, write: StorageCall): (step: AuthStep)
    ensures step.state == AuthState(Some(u), false)
    ensures step.ok <==> write.Completes?
    ensures write.Completes? ==> step.storage == storage[UserKey := Stored(u)]
    ensures write.Throws? ==> step.storage == storage
  {
    match write
    case Completes => AuthStep(AuthState(Some(u), false), storage[UserKey := Stored(u)], true)
    case Throws => AuthStep(AuthState(Some(u), false), storage, false)
  }

  /** `login`: the password is not consulted. */
  function Login(s: AuthState, storage: Storage, username: string, password: string, write: StorageCall): (step: AuthStep)
    ensures step.state.user == Some(SignedInUser(username)) && !step.state.isLoading
    ensures step.ok <==> write.Completes?
    ensures IsAuthenticated(step.state)
    ensures write.Completes? ==> step.storage == storage[UserKey := Stored(SignedInUser(username))]
    ensures write.Throws? ==> step.storage == storage
  {
    Establish(s, storage, SignedInUser(username), write)
  }

  /** `register`: as `login`, keeping the supplied email; the password is not consulted. */
  function Register(s: AuthState, storage: Storage, username: string, email: string, password: string, write: StorageCall): (step: AuthStep)
    ensures step.state.user == Some(RegisteredUser(username, email)) && !step.state.isLoading
    ensures step.ok <==> write.Completes?
    ensures IsAuthenticated(step.state)
    ensures write.Completes? ==> step.storage == storage[UserKey := Stored(RegisteredUser(username, email))]
    ensures write.Throws? ==> step.storage == storage
  {
    Establish(s, storage, RegisteredUser(username, email), write)
  }

  /**
   * `logout`: the in-memory user is cleared first and unconditionally; the
   * slot is removed only if the removal completes, and a failing removal is
   * swallowed. The loading flag is not touched.
   */
  function Logout(s: AuthState, storage: Storage, remove: StorageCall): (r: (AuthState, Storage))
    ensures r.0.user.None? && !IsAuthenticated(r.0) && r.0.isLoading == s.isLoading
    ensures remove.Completes? ==> UserKey !in r.1 && forall k <- storage :: k != UserKey ==> k in r.1 && r.1[k] == storage[k]
    ensures remove.Completes? ==> r.1.Keys == storage.Keys - {UserKey}
    ensures remove.Throws? ==> r.1 == storage
  {
    var cleared := s.(user := None);
    match remove
    case Completes => (cleared, storage - {UserKey})
    case Throws => (cleared, storage)
  }

  /** `refreshUserData`: only a log line, with or without a user; the state is unchanged. */
  function RefreshUserData(s: AuthState): (t: AuthState)
    ensures t.user == s.user && t.isLoading == s.isLoading
  {
    s
  }

  /** A login persisted and then restored at the next start yields the very same user. */
  lemma LoginRoundTrip(s: AuthState, storage: Storage, username: string, password: string)
    ensures var step := Login(s, storage, username, password, Completes);
      LoadStoredUser(Initial(), step.storage, Completes).user == step.state.user
  {
  }

  /** A registration persisted and then restored at the next start yields the very same user. */
  lemma RegisterRoundTrip(s: AuthState, storage: Storage, username: string, email: string, password: string)
    ensures var step := Register(s, storage, username, email, password, Completes);
      LoadStoredUser(Initial(), step.storage, Completes).user == step.state.user
  {
  }

  /**
   * A login whose write throws reports failure, yet the user is signed in for
   * this run; the next start restores whatever the slot held before the login
   * (an earlier user, or nobody), never the user of this login unless it was
   * already stored.
   */
  lemma LoginWriteFailure(s: AuthState, storage: Storage, username: string, password: string)
    ensures var step := Login(s, storage, username, password, Throws);
      && !step.ok
      && IsAuthenticated(step.state)
      && LoadStoredUser(Initial(), step.storage, Completes) == LoadStoredUser(Initial(), storage, Completes)
  {
  }

  /**
   * At start-up the session becomes authenticated exactly when the read
   * completes and the slot holds a parseable user; every other outcome
   * leaves the app signed out.
   */
  lemma StartupAuthenticated(storage: Storage, read: StorageCall)
    ensures IsAuthenticated(LoadStoredUser(Initial(), storage, read))
      <==> read.Completes? && UserKey in storage && storage[UserKey].Stored?
  {
  }

  /** A completed logout leaves nothing to restore; a failed removal brings the old user back at the next start. */
  lemma LogoutThenRestart(s: AuthState, storage: Storage)
    ensures LoadStoredUser(Initial(), Logout(s, storage, Completes).1, Completes).user.None?
    ensures UserKey in storage && storage[UserKey].Stored? ==>
      LoadStoredUser(Initial(), Logout(s, storage, Throws).1, Completes).user == Some(storage[UserKey].user)
  {
  }

  /** Writing and removing the user slot leaves every other key alone. */
  lemma OtherKeysUntouched(s: AuthState, storage: Storage, username: string, password: string, write: StorageCall, k: string)
    requires k != UserKey
    ensures var step := Login(s, storage, username, password, write);
      (k in step.storage <==> k in storage) && (k in storage ==> step.storage[k] == storage[k])
    ensures var r := Logout(s, storage, write);
      (k in r.1 <==> k in storage) && (k in storage ==> r.1[k] == storage[k])
  {
  }
}
