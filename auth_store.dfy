/**
 * `AuthStore`: the application's view of the sign-in state. It mirrors the
 * authentication service's signals and adds a loading flag and an error;
 * its selectors derive the greeting name, the full name, the e-mail and the
 * roles from the user's claims.
 */
module AuthStores {
  import opened Wrappers
  import opened Text
  import opened Notifications
  import opened Auth

  datatype AuthState = AuthState(isAuthenticated: bool, userData: Option<UserData>, loading: bool, error: Option<string>)

  /** A `Partial<AuthState>`: `None` for a property the update does not mention. */
  datatype AuthPatch = AuthPatch(
    isAuthenticated: Option<bool>, userData: Option<Option<UserData>>, loading: Option<bool>, error: Option<Option<string>>)

  /** `{ ...current, ...patch }`: the mentioned properties replaced, the others kept. */
  function Merge(s: AuthState, p: AuthPatch): (t: AuthState)
    ensures t.isAuthenticated == (if p.isAuthenticated.Some? then p.isAuthenticated.value else s.isAuthenticated)
    ensures t.userData == (if p.userData.Some? then p.userData.value else s.userData)
    ensures t.loading == (if p.loading.Some? then p.loading.value else s.loading)
    ensures t.error == (if p.error.Some? then p.error.value else s.error)
  {
    AuthState(p.isAuthenticated.GetOr(s.isAuthenticated), p.userData.GetOr(s.userData),
              p.loading.GetOr(s.loading), p.error.GetOr(s.error))
  }

  /** Applying the same update twice is applying it once; the empty update changes nothing. */
  lemma MergeIdempotent(s: AuthState, p: AuthPatch)
    ensures Merge(Merge(s, p), p) == Merge(s, p)
    ensures Merge(s, AuthPatch(None, None, None, None)) == s
  {
  }

  /** `userFirstName`: the given name, else the first word of the name, else 'User'. */
  function FirstName(s: AuthState): (r: string)
    ensures r != ""
    ensures GivenName(s.userData) != "" ==> r == GivenName(s.userData)
    ensures GivenName(s.userData) == "" && NameFirstWord(s.userData) != "" ==> r == NameFirstWord(s.userData)
    ensures GivenName(s.userData) == "" && NameFirstWord(s.userData) == "" ==> r == "User"
  {
    UserFirstName(s.userData)
  }

  /** `userEmail`: the e-mail claim, '' when absent. */
  function UserEmail(s: AuthState): (r: string)
    ensures s.userData.Some? && s.userData.value.email.Some? ==> r == s.userData.value.email.value
    ensures s.userData.None? || s.userData.value.email.None? ==> r == ""
  {
    if s.userData.Some? then s.userData.value.email.GetOr("") else ""
  }

  /** `userRoles`: the roles claim, [] when absent. */
  function UserRoles(s: AuthState): (r: seq<string>)
    ensures s.userData.Some? && s.userData.value.roles.Some? ==> r == s.userData.value.roles.value
    ensures s.userData.None? || s.userData.value.roles.None? ==> r == []
  {
    if s.userData.Some? then s.userData.value.roles.GetOr([]) else []
  }

  /**
   * `userFullName`: '' without claims; else the trimmed "given family",
   * and when that is empty the `name` claim, or ''.
   */
  function UserFullName(s: AuthState): (r: string)
    ensures s.userData.None? ==> r == ""
    ensures s.userData.Some? && !(AllSpace(GivenName(s.userData)) && AllSpace(FamilyName(s.userData))) ==>
      r == JoinTrimmed(GivenName(s.userData), FamilyName(s.userData)) && r != ""
    ensures s.userData.Some? && AllSpace(GivenName(s.userData)) && AllSpace(FamilyName(s.userData)) ==>
      r == s.userData.value.name.GetOr("")
  {
    if s.userData.None? then ""
    else
      var joined := JoinTrimmed(GivenName(s.userData), FamilyName(s.userData));
      JoinTrimmedEmptyIff(GivenName(s.userData), FamilyName(s.userData));
      if joined != "" then joined else s.userData.value.name.GetOr("")
  }

  /** `userData?.family_name || ''`. */
  function FamilyName(userData: Option<UserData>): string {
    if userData.Some? then userData.value.familyName.GetOr("") else ""
  }

  /** A given name without white space at its ends is both the greeting and the start of the full name. */
  lemma FirstNameOpensFullName(s: AuthState)
    requires var g := GivenName(s.userData); g != [] && !IsSpace(g[0]) && !IsSpace(g[|g| - 1])
    ensures var g := GivenName(s.userData);
      && FirstName(s) == g
      && |UserFullName(s)| >= |g| && UserFullName(s)[..|g|] == g
  {
    var g := GivenName(s.userData);
    JoinTrimmedPrefix(g, FamilyName(s.userData));
    assert !AllSpace(g) by { assert !IsSpace(g[0]); }
  }

  class AuthStore {
    var state: AuthState

    constructor ()
      ensures state == AuthState(false, None, false, None)
    {
      state := AuthState(false, None, false, None);
    }

    /** `setState`: the partial update merged into the current state. */
    method SetState(p: AuthPatch)
      modifies this
      ensures state == Merge(old(state), p)
    {
      state := Merge(state, p);
    }

    /** The store's effect: the service's two signals copied in, loading and error kept. */
    method Sync(service: AuthService)
      modifies this
      ensures state == old(state).(isAuthenticated := service.state.isAuthenticated, userData := service.state.userData)
    {
      SetState(AuthPatch(Some(service.state.isAuthenticated), Some(service.state.userData), None, None));
    }

    /** `login`: loading starts and the error is cleared before the provider's sign-in page is requested. */
    method Login()
      modifies this
      ensures state == old(state).(loading := true, error := None)
    {
      SetState(AuthPatch(None, None, Some(true), Some(None)));
    }

    /**
     * `logout`: loading starts and the error is cleared, the service signs
     * out (given the ID token it looks up) and a notice is shown. The store's
     * copy of the signals follows through its effect.
     */
    method Logout(service: AuthService, idToken: string, notifier: NotificationService) returns (serverLogout: bool)
      requires notifier.Valid()
      modifies this, service, notifier
      ensures state == old(state).(loading := true, error := None)
      ensures service.state == Auth.Logout(old(service.state))
      ensures serverLogout <==> idToken != ""
      ensures notifier.Valid()
      ensures notifier.notifications == old(notifier.notifications) +
        [Notification(IdFor(old(notifier.nextId)), Info, None, "You have been logged out successfully", 3000)]
    {
      SetState(AuthPatch(None, None, Some(true), Some(None)));
      serverLogout := service.SignOut(idToken);
      notifier.ShowInfo("You have been logged out successfully", None, None);
    }

    /** `checkAuth` starts: loading, no error. */
    method CheckAuth()
      modifies this
      ensures state == old(state).(loading := true, error := None)
    {
      SetState(AuthPatch(None, None, Some(true), Some(None)));
    }

    /** The check answered: only loading ends; the answer itself is not stored. */
    method OnCheckAuthSuccess(isAuthenticated: bool)
      modifies this
      ensures state == old(state).(loading := false)
    {
      SetState(AuthPatch(None, None, Some(false), None));
    }

    method OnCheckAuthError()
      modifies this
      ensures state == old(state).(loading := false, error := Some("Authentication check failed"))
    {
      SetState(AuthPatch(None, None, Some(false), Some(Some("Authentication check failed"))));
    }

    /** `clearError`: the error goes, nothing else changes. */
    method ClearError()
      modifies this
      ensures state == old(state).(error := None)
    {
      SetState(AuthPatch(None, None, None, Some(None)));
    }
  }
}
