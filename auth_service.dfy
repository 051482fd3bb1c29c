/**
 * `AuthService`: reconciles the sign-in state reported by the OpenID Connect
 * client with a record persisted in the browser's storage, so that a page
 * reload does not sign the user out. The OIDC client's events, its token
 * lookups and its `checkAuth` answer are inputs here.
 */
module Auth {
  import opened Wrappers
  import opened Text

  /** The claims of the signed-in user; claims beyond these are not modelled. */
  datatype UserData = UserData(
    name: Option<string>,
    givenName: Option<string>,
    familyName: Option<string>,
    email: Option<string>,
    preferredUsername: Option<string>,
    roles: Option<seq<string>>)

  /** The `isAuthenticated` property of a stored record: exactly `true`, some other truthy value, or falsy. */
  datatype Flag = ExactlyTrue | OtherTruthy | Falsy

  /** The stored entry under `auth_state`: a parsed record, or text that does not parse into one. */
  datatype StoredEntry = Unreadable | Record(flag: Flag, userData: Option<UserData>)

  /** The service's signals and the storage entry (absent when removed or never written). */
  datatype AuthServiceState = AuthServiceState(isAuthenticated: bool, userData: Option<UserData>, storage: Option<StoredEntry>)

  /** `hasPersistedAuthState`: a readable record whose flag is exactly `true`. */
  predicate HasPersistedAuthState(s: AuthServiceState) {
    s.storage.Some? && s.storage.value.Record? && s.storage.value.flag == ExactlyTrue
  }

  /** The service's invariant: while an exactly-true record is stored, the service reports the user as signed in. */
  predicate Consistent(s: AuthServiceState) {
    HasPersistedAuthState(s) ==> s.isAuthenticated
  }

  /** `loadPersistedAuthState` at startup: a record with a truthy flag restores both signals; anything else keeps the defaults. */
  function LoadPersistedAuthState(storage: Option<StoredEntry>): (s: AuthServiceState)
    ensures s.storage == storage
    ensures s.isAuthenticated <==> storage.Some? && storage.value.Record? && storage.value.flag != Falsy
    ensures s.isAuthenticated ==> s.userData == storage.value.userData
    ensures !s.isAuthenticated ==> s.userData.None?
    ensures Consistent(s)
  {
    match storage
    case Some(Record(flag, userData)) =>
      if flag != Falsy then AuthServiceState(true, userData, storage) else AuthServiceState(false, None, storage)
    case _ => AuthServiceState(false, None, storage)
  }

  /** `persistAuthState`: the current signals are written only while signed in; a signed-out state is never stored. */
  function PersistAuthState(s: AuthServiceState): (t: AuthServiceState)
    ensures t.isAuthenticated == s.isAuthenticated && t.userData == s.userData
    ensures s.isAuthenticated ==> t.storage == Some(Record(ExactlyTrue, s.userData))
    ensures !s.isAuthenticated ==> t.storage == s.storage
  {
    if s.isAuthenticated then s.(storage := Some(Record(ExactlyTrue, s.userData))) else s
  }

  /**
   * The handler of the OIDC `isAuthenticated$` stream: `true` always signs
   * in; `false` signs out and removes the stored record, unless an
   * exactly-true record is stored, in which case it is ignored.
   */
  function OnAuthenticatedEvent(s: AuthServiceState, authenticated: bool): (t: AuthServiceState)
    ensures authenticated ==> t == s.(isAuthenticated := true)
    ensures !authenticated && HasPersistedAuthState(s) ==> t == s
    ensures !authenticated && !HasPersistedAuthState(s) ==> t == s.(isAuthenticated := false, storage := None)
  {
    if authenticated || !HasPersistedAuthState(s) then
      var t := s.(isAuthenticated := authenticated);
      if !authenticated then t.(storage := None) else t
    else s
  }

  /**
   * The handler of the OIDC `userData$` stream: the claims are taken, and
   * persisted, when there are some or the user is signed out; empty claims
   * do not wipe a signed-in user's data.
   */
  function OnUserDataEvent(s: AuthServiceState, userData: Option<UserData>): (t: AuthServiceState)
    ensures userData.Some? || !s.isAuthenticated ==> t == PersistAuthState(s.(userData := userData))
    ensures userData.None? && s.isAuthenticated ==> t == s
    ensures t.isAuthenticated == s.isAuthenticated
  {
    if userData.Some? || !s.isAuthenticated then PersistAuthState(s.(userData := userData)) else s
  }

  /** `logout`, either branch: the stored record is removed and both signals reset. */
  function Logout(s: AuthServiceState): (t: AuthServiceState)
    ensures !t.isAuthenticated && t.userData.None? && t.storage.None?
  {
    AuthServiceState(false, None, None)
  }

  /** Every transition keeps the invariant. */
  lemma TransitionsKeepConsistent(s: AuthServiceState, authenticated: bool, userData: Option<UserData>)
    requires Consistent(s)
    ensures Consistent(OnAuthenticatedEvent(s, authenticated))
    ensures Consistent(OnUserDataEvent(s, userData))
    ensures Consistent(PersistAuthState(s))
    ensures Consistent(Logout(s))
  {
  }

  /** A stored session survives the client reporting `false`: the user stays signed in and the record stays. */
  lemma PersistedSessionSurvivesFalse(s: AuthServiceState)
    requires HasPersistedAuthState(s) && Consistent(s)
    ensures OnAuthenticatedEvent(s, false).isAuthenticated
    ensures OnAuthenticatedEvent(s, false).storage == s.storage
  {
  }

  /** After a reload, a session that was persisted while signed in comes back with the same claims. */
  lemma ReloadRestoresPersisted(s: AuthServiceState)
    requires s.isAuthenticated
    ensures var t := LoadPersistedAuthState(PersistAuthState(s).storage);
      t.isAuthenticated && t.userData == s.userData
  {
  }

  /** After signing out and reloading, the user is signed out. */
  lemma ReloadAfterLogout(s: AuthServiceState)
    ensures !LoadPersistedAuthState(Logout(s).storage).isAuthenticated
  {
  }

  /** `token || ''`, as `getAccessToken` and `getIdToken` return it. */
  function TokenOrEmpty(token: Option<string>): (r: string)
    ensures token.Some? ==> r == token.value
    ensures token.None? ==> r == ""
  {
    token.GetOr("")
  }

  /** `name.split(' ')[0]`: the text before the first space character. */
  function FirstWord(name: string): (r: string)
    ensures |r| <= |name| && r == name[..|r|]
    ensures ' ' !in r
    ensures |r| < |name| ==> name[|r|] == ' '
  {
    if name == [] || name[0] == ' ' then "" else [name[0]] + FirstWord(name[1..])
  }

  /** `userData?.given_name || ''`. */
  function GivenName(userData: Option<UserData>): string {
    if userData.Some? then userData.value.givenName.GetOr("") else ""
  }

  /** `userData?.name?.split(' ')[0] || ''`. */
  function NameFirstWord(userData: Option<UserData>): string {
    if userData.Some? && userData.value.name.Some? then FirstWord(userData.value.name.value) else ""
  }

  /** `given_name || name?.split(' ')[0] || 'User'`. */
  function UserFirstName(userData: Option<UserData>): (r: string)
    ensures r != "" && ' ' !in NameFirstWord(userData)
    ensures GivenName(userData) != "" ==> r == GivenName(userData)
    ensures GivenName(userData) == "" && NameFirstWord(userData) != "" ==> r == NameFirstWord(userData)
    ensures GivenName(userData) == "" && NameFirstWord(userData) == "" ==> r == "User"
  {
    var given := GivenName(userData);
    var first := NameFirstWord(userData);
    if given != "" then given else if first != "" then first else "User"
  }

  /** A name that begins with a space has an empty first word, so without a given name the greeting falls back to 'User'. */
  lemma LeadingSpaceNameIsUser(name: string, email: Option<string>)
    requires name != [] && name[0] == ' '
    ensures UserFirstName(Some(UserData(Some(name), None, None, email, None, None))) == "User"
  {
  }

  /** The result of the OIDC client's `checkAuth`: its answer, or an error. */
  datatype OidcCheck = Answer(isAuthenticated: bool) | Failure

  /**
   * The `checkAuth` decision: on a redirect back from the identity provider
   * (both `code` and `state` in the URL) the client's answer, false on error;
   * otherwise true when already signed in, and else the client's answer,
   * false on error.
   */
  function CheckAuthDecision(hasCode: bool, hasState: bool, current: bool, oidc: OidcCheck): (r: bool)
    ensures hasCode && hasState ==> (r <==> oidc == Answer(true))
    ensures !(hasCode && hasState) ==> (r <==> current || oidc == Answer(true))
  {
    if hasCode && hasState then
      match oidc
      case Answer(b) => b
      case Failure => false
    else if current then true
    else
      match oidc
      case Answer(b) => b || current
      case Failure => current
  }

  /** The client is consulted on a redirect back, or when not signed in. */
  predicate ConsultsClient(hasCode: bool, hasState: bool, current: bool) {
    (hasCode && hasState) || !current
  }

  /** When the client is not consulted, its answer does not matter. */
  lemma UnconsultedClientIgnored(hasCode: bool, hasState: bool, current: bool, a: OidcCheck, b: OidcCheck)
    requires !ConsultsClient(hasCode, hasState, current)
    ensures CheckAuthDecision(hasCode, hasState, current, a) == CheckAuthDecision(hasCode, hasState, current, b)
  {
  }

  /** A redirect back ignores the current sign-in state: a failed callback denies even a signed-in user. */
  lemma CallbackFailureDenies(current: bool)
    ensures !CheckAuthDecision(true, true, current, Failure)
  {
  }

  class AuthService {
    var state: AuthServiceState

    /** Startup: the signals start signed out and are then restored from the given storage entry. */
    constructor (storage: Option<StoredEntry>)
      ensures state == LoadPersistedAuthState(storage)
      ensures Consistent(state)
    {
      state := LoadPersistedAuthState(storage);
    }

    /** The OIDC client reports whether the user is authenticated. */
    method AuthenticatedChanged(authenticated: bool)
      requires Consistent(state)
      modifies this
      ensures state == OnAuthenticatedEvent(old(state), authenticated)
      ensures Consistent(state)
    {
      if authenticated || !HasPersistedAuthState(state) {
        state := state.(isAuthenticated := authenticated);
        if !authenticated {
          state := state.(storage := None);
        }
      }
    }

    /** The OIDC client reports the user's claims. */
    method UserDataChanged(userData: Option<UserData>)
      requires Consistent(state)
      modifies this
      ensures state == OnUserDataEvent(old(state), userData)
      ensures Consistent(state)
    {
      if userData.Some? || !state.isAuthenticated {
        state := state.(userData := userData);
        PersistState();
      }
    }

    /** `persistAuthState`. */
    method PersistState()
      modifies this
      ensures state == PersistAuthState(old(state))
    {
      if state.isAuthenticated {
        state := state.(storage := Some(Record(ExactlyTrue, state.userData)));
      }
    }

    /**
     * `logout`, once the ID token is known: with a token the browser is sent
     * to the provider's logout page, without one the client signs off
     * locally; the local state is cleared either way.
     */
    method SignOut(idToken: string) returns (serverLogout: bool)
      modifies this
      ensures serverLogout <==> idToken != ""
      ensures state == Logout(old(state))
    {
      serverLogout := idToken != "";
      state := AuthServiceState(false, None, None);
    }

    /** `checkAuth`, with the URL's parameters and the client's answer given. */
    method CheckAuth(hasCode: bool, hasState: bool, oidc: OidcCheck) returns (r: bool)
      ensures r == CheckAuthDecision(hasCode, hasState, state.isAuthenticated, oidc)
    {
      if hasCode && hasState {
        r := oidc == Answer(true);
        return;
      }
      var current := state.isAuthenticated;
      if current {
        return true;
      }
      r := oidc == Answer(true) || current;
    }
  }
}
