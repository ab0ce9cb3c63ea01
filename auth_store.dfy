/**
  The dashboard's session store: the signed-in user, the token, the authenticated flag and the
  loading flag, and the actions that merge a change into it.
*/
module AuthStore {
  import opened Wrappers
  import Store

  /** The user as the frontend holds it. */
  datatype SessionUser = SessionUser(
    id: string, email: string, name: string, role: Store.Role, plan: Store.Plan, status: Store.Activity)

  datatype AuthState = AuthState(user: Option<SessionUser>, token: Option<string>, isAuthenticated: bool, isLoading: bool)

  /** No user, no token, not authenticated, not loading. */
  const InitialAuthState := AuthState(None, None, false, false)

  /** Signed in: a user is present and the flag says so. */
  predicate SignedIn(s: AuthState) {
    s.user.Some? && s.isAuthenticated
  }

  /** `set({ user, isAuthenticated: true })`: the token is left alone. */
  function SetUser(s: AuthState, u: SessionUser): (r: AuthState)
    ensures SignedIn(r) && r.user == Some(u)
    ensures r.token == s.token && r.isLoading == s.isLoading
  {
    s.(user := Some(u), isAuthenticated := true)
  }

  /** `set({ token })`: the authenticated flag does not follow the token. */
  function SetToken(s: AuthState, t: string): (r: AuthState)
    ensures r.token == Some(t)
    ensures r.user == s.user && r.isAuthenticated == s.isAuthenticated && r.isLoading == s.isLoading
  {
    s.(token := Some(t))
  }

  /** `set({ user: null, token: null, isAuthenticated: false })` */
  function Logout(s: AuthState): (r: AuthState)
    ensures !SignedIn(r) && r.user.None? && r.token.None? && !r.isAuthenticated
    ensures r.isLoading == s.isLoading
  {
    s.(user := None, token := None, isAuthenticated := false)
  }

  function SetLoading(s: AuthState, loading: bool): (r: AuthState)
    ensures r.isLoading == loading
    ensures r.user == s.user && r.token == s.token && r.isAuthenticated == s.isAuthenticated
  {
    s.(isLoading := loading)
  }

  /** The actions in sequence. */
  datatype AuthAction = DoSetUser(u: SessionUser) | DoSetToken(t: string) | DoLogout | DoSetLoading(b: bool)

  function Apply(s: AuthState, a: AuthAction): AuthState {
    match a
    case DoSetUser(u) => SetUser(s, u)
    case DoSetToken(t) => SetToken(s, t)
    case DoLogout => Logout(s)
    case DoSetLoading(b) => SetLoading(s, b)
  }

  function Run(s: AuthState, actions: seq<AuthAction>): AuthState
    decreases |actions|
  {
    if actions == [] then s else Run(Apply(s, actions[0]), actions[1..])
  }

  /** The invariant every action keeps: the authenticated flag is set exactly when a user is. */
  predicate Consistent(s: AuthState) {
    s.isAuthenticated <==> s.user.Some?
  }

  lemma {:induction false} RunConsistent(s: AuthState, actions: seq<AuthAction>)
    requires Consistent(s)
    ensures Consistent(Run(s, actions))
    decreases |actions|
  {
    if actions != [] {
      assert Consistent(Apply(s, actions[0]));
      RunConsistent(Apply(s, actions[0]), actions[1..]);
    }
  }

  /** Every reachable state is consistent. */
  lemma ReachableConsistent(actions: seq<AuthAction>)
    ensures Consistent(Run(InitialAuthState, actions))
  {
    RunConsistent(InitialAuthState, actions);
  }

  /** Logging out undoes signing in and setting a token, apart from the loading flag. */
  lemma LogoutResets(s: AuthState, u: SessionUser, t: string)
    ensures Logout(SetToken(SetUser(s, u), t)) == InitialAuthState.(isLoading := s.isLoading)
  {
  }

  /** A token alone does not authenticate: setting one neither signs a session in nor out, so from
      the initial state the session stays signed out. */
  lemma TokenDoesNotSignIn(s: AuthState, t: string)
    ensures SignedIn(SetToken(s, t)) <==> SignedIn(s)
    ensures !SignedIn(SetToken(InitialAuthState, t))
  {
  }
}
