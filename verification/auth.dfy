/** The authentication state of frontend/src/contexts/AuthContext.jsx, the
    route guard of frontend/src/components/ProtectedRoute.jsx and the
    navigation bar of frontend/src/components/Navbar.jsx. Requests are
    inputs: `None` stands for a request that raised. `localStorage` is the
    `stored` field. */
module Auth {
  import opened Wrappers
  import opened Records

  /** The provider's state, with the token kept in local storage. */
  datatype AuthState = AuthState(
    user: Option<User>, token: Option<string>, loading: bool, stored: Option<string>)

  /** The state at mount: the token is read from storage, nobody is signed in
      yet and the provider is loading. */
  function Mount(stored: Option<string>): (s: AuthState)
    ensures s.token == s.stored == stored && s.user.None? && s.loading
  {
    AuthState(None, stored, true, stored)
  }

  /** `isAuthenticated: !!user`. */
  predicate IsAuthenticated(s: AuthState) {
    s.user.Some?
  }

  /** `logout`: the stored token and both state fields are cleared. */
  function Logout(s: AuthState): (r: AuthState)
    ensures r.user.None? && r.token.None? && r.stored.None?
    ensures r.loading == s.loading
    ensures !IsAuthenticated(r)
  {
    AuthState(None, None, s.loading, None)
  }

  /** `fetchUserData`: `/auth/me` answered with `me`, or raised and the
      provider logs out; loading ends either way. */
  function FetchUserData(s: AuthState, me: Option<User>): (r: AuthState)
    ensures !r.loading
    ensures me.Some? ==> r == s.(user := me, loading := false)
    ensures me.None? ==> r == Logout(s).(loading := false)
  {
    match me
    case Some(_) => s.(user := me, loading := false)
    case None => Logout(s).(loading := false)
  }

  /** The effect on `[token]`: with a token the user is fetched (`me` is that
      request's outcome), otherwise loading simply ends. */
  function TokenEffect(s: AuthState, me: Option<User>): (r: AuthState)
    ensures !r.loading
    ensures !TruthyText(s.token) ==> r == s.(loading := false)
    ensures TruthyText(s.token) ==> (IsAuthenticated(r) <==> me.Some?)
    ensures TruthyText(s.token) && me.None? ==> r.token.None? && r.stored.None?
  {
    if TruthyText(s.token) then FetchUserData(s, me) else s.(loading := false)
  }

  /** Without a token nobody is fetched: the outcome of `/auth/me` does not
      matter. */
  lemma NoTokenNoFetch(s: AuthState, me1: Option<User>, me2: Option<User>)
    requires !TruthyText(s.token)
    ensures TokenEffect(s, me1) == TokenEffect(s, me2)
    ensures IsAuthenticated(TokenEffect(s, me1)) == IsAuthenticated(s)
  {
  }

  /** Why `login` rejects: the login request or the user request raised. */
  datatype LoginError = LoginRejected | UserFetchFailed

  /** `login(username, password)`: `issued` is the token the login request
      returned and `me` the outcome of the user request. The token is stored
      before the user is fetched, so a failed user request leaves the new
      token in place and the user as it was. */
  function Login(s: AuthState, issued: Option<string>, me: Option<User>)
    : (r: (AuthState, Result<User, LoginError>))
    ensures issued.None? ==> r == (s, Err(LoginRejected))
    ensures issued.Some? ==> r.0.token == r.0.stored == issued && r.0.loading == s.loading
    ensures issued.Some? && me.None? ==> r.0.user == s.user && r.1 == Err(UserFetchFailed)
    ensures issued.Some? && me.Some? ==> r.0.user == me && r.1 == Ok(me.value)
  {
    match issued
    case None => (s, Err(LoginRejected))
    case Some(t) =>
      var withToken := s.(token := issued, stored := issued);
      match me
      case None => (withToken, Err(UserFetchFailed))
      case Some(u) => (withToken.(user := me), Ok(u))
  }

  /** Signing in from a signed-out state and failing the user request leaves
      a stored token with nobody authenticated, until the `[token]` effect
      runs (`LoginSettles`). */
  lemma LoginHalfway(s: AuthState, t: string)
    requires s.user.None?
    ensures var r := Login(s, Some(t), None).0;
            r.stored == Some(t) && !IsAuthenticated(r)
  {
  }

  /** A new non-empty token re-runs the `[token]` effect, whose own user
      request (`me2`) decides: after it the user is signed in exactly when
      that request succeeds, and otherwise token and storage are cleared. So
      the halfway state of `LoginHalfway` does not last. An empty token, or
      the token already held, does not re-run a fetch. */
  lemma LoginSettles(s: AuthState, t: string, me: Option<User>, me2: Option<User>)
    requires t != "" && s.token != Some(t)
    ensures var r := TokenEffect(Login(s, Some(t), me).0, me2);
            && !r.loading
            && (IsAuthenticated(r) <==> me2.Some?)
            && (me2.None? ==> r.token.None? && r.stored.None?)
            && (me2.Some? ==> r.token == r.stored == Some(t))
  {
  }

  /** Being authenticated depends on the user alone, never on the token. */
  lemma AuthenticatedIgnoresToken(s: AuthState, t: Option<string>)
    ensures IsAuthenticated(s.(token := t)) == IsAuthenticated(s)
    ensures IsAuthenticated(s) <==> s.user.Some?
  {
  }

  /** `useAuth`: outside a provider it throws this message. */
  const OutsideProvider: string := "useAuth must be used within an AuthProvider"

  function UseAuth(context: Option<AuthState>): (r: Result<AuthState, string>)
    ensures context.None? <==> r == Err(OutsideProvider)
    ensures context.Some? ==> r == Ok(context.value)
  {
    match context
    case None => Err(OutsideProvider)
    case Some(s) => Ok(s)
  }

  // ---------------------------------------------------------------------
  // ProtectedRoute.
  // ---------------------------------------------------------------------

  datatype Guard = Spinner | Redirect(to: string) | Children

  /** The guard's decision. */
  function Protect(s: AuthState, requireAdmin: bool): (g: Guard)
    ensures s.loading ==> g == Spinner
    ensures !s.loading && !IsAuthenticated(s) ==> g == Redirect("/login")
    ensures !s.loading && IsAuthenticated(s) ==>
              (g == Redirect("/") <==> requireAdmin && !IsAdmin(s.user))
    ensures g == Children <==> !s.loading && IsAuthenticated(s) && (!requireAdmin || IsAdmin(s.user))
  {
    if s.loading then Spinner
    else if !IsAuthenticated(s) then Redirect("/login")
    else if requireAdmin && !IsAdmin(s.user) then Redirect("/")
    else Children
  }

  /** The guard as the routes use it without `requireAdmin` (default false). */
  function ProtectDefault(s: AuthState): (g: Guard)
    ensures g != Redirect("/")
    ensures g == Children <==> !s.loading && IsAuthenticated(s)
  {
    Protect(s, false)
  }

  /** An admin route lets through exactly the admins a plain route lets
      through. */
  lemma AdminRouteNarrowsPlain(s: AuthState)
    ensures Protect(s, true) == Children <==> ProtectDefault(s) == Children && IsAdmin(s.user)
  {
  }

  // ---------------------------------------------------------------------
  // Navbar.
  // ---------------------------------------------------------------------

  datatype Link = DashboardLink | StationsLink | DroneLink | ReportsLink {
    function Path(): string {
      match this
      case DashboardLink => "/"
      case StationsLink => "/stations"
      case DroneLink => "/drone"
      case ReportsLink => "/reports"
    }
  }

  /** What the bar shows: the links in order, and whether the user box with
      the logout button is shown. */
  datatype NavBar = NavBar(links: seq<Link>, userBox: bool)

  /** `Navbar`: nothing on "/login"; otherwise links and the user box only
      when authenticated, the admin links only for admins. */
  function Nav(path: string, s: AuthState): (r: Option<NavBar>)
    ensures r.None? <==> path == "/login"
    ensures r.Some? ==> (r.value.userBox <==> IsAuthenticated(s))
    ensures r.Some? ==> (|r.value.links| > 0 <==> IsAuthenticated(s))
    ensures r.Some? && IsAuthenticated(s) ==>
              r.value.links[0] == DashboardLink && r.value.links[|r.value.links| - 1] == ReportsLink
    ensures r.Some? ==> (StationsLink in r.value.links <==> IsAuthenticated(s) && IsAdmin(s.user))
    ensures r.Some? ==> (DroneLink in r.value.links <==> IsAuthenticated(s) && IsAdmin(s.user))
  {
    if path == "/login" then None
    else if !IsAuthenticated(s) then Some(NavBar([], false))
    else
      var admin := if IsAdmin(s.user) then [StationsLink, DroneLink] else [];
      Some(NavBar([DashboardLink] + admin + [ReportsLink], true))
  }

  /** Every link the bar offers leads to a route whose guard lets the user
      through. */
  lemma NavLinksPassGuard(path: string, s: AuthState, l: Link)
    requires !s.loading
    requires Nav(path, s).Some? && l in Nav(path, s).value.links
    ensures Protect(s, l == StationsLink || l == DroneLink) == Children
  {
  }

  /** `handleLogout`: log out, then go to "/login". */
  function HandleLogout(s: AuthState): (r: (AuthState, string))
    ensures r.0 == Logout(s) && r.1 == "/login"
    ensures Nav(r.1, r.0).None?
  {
    (Logout(s), "/login")
  }
}
