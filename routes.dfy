/** The route table of the application and what a navigation to a path
    decides, gates and screen guards together. */
module Routes {
  import opened Wrappers
  import opened AuthTypes
  import opened Navigation
  import opened TokenExpiry
  import ProtectedRoute
  import PublicAuthRoute
  import LoginPage
  import RegisterPage
  import ResetPasswordPage
  import VerifyEmailPage

  /** The gate a route is wrapped in. */
  datatype Gate = PublicOnly | Protected(req: ProtectedRoute.Requirements)

  /** The screens a route can show; the forgot-password screen is not part
      of this model and renders unconditionally. */
  datatype Screen =
    | LoginScreen | RegisterScreen | ForgotPasswordScreen | ResetPasswordScreen
    | VerifyEmailScreen | DashboardScreen | ProfileScreen | EditProfileScreen
    | UnauthorizedScreen | NotFoundScreen

  /** What a route's element does: show a screen, or `<Navigate>` elsewhere. */
  datatype Element = Show(screen: Screen) | NavigateTo(to: string, replace: bool)

  datatype Route = Route(gate: Gate, element: Element)

  /** Every path the table names; any other path falls to a catch-all. */
  const NamedPaths: set<string> := {
    "/login", "/register", "/forgot-password", "/reset-password", "/verify-email",
    "/unauthorized", "/", "/dashboard", "/profile", "/profile/edit"
  }

  /** The route a path matches. The catch-all inside the protected group is
      ranked before the global one (equal rank, earlier in the table), so an
      unknown path lands on the protected not-found screen and the global
      catch-all is never matched. */
  function RouteFor(path: string): (r: Route)
    ensures path in {"/login", "/register", "/forgot-password", "/reset-password"} <==> r.gate == PublicOnly
    ensures path in {"/verify-email", "/unauthorized"} ==> r.gate == Protected(ProtectedRoute.Requirements(false, false))
    ensures r.gate.Protected? && r.gate.req != ProtectedRoute.Defaults ==> path in {"/verify-email", "/unauthorized"}
    ensures path == "/dashboard" <==> r.element == NavigateTo("/", true)
    ensures path == "/login" <==> r.element == Show(LoginScreen)
    ensures path == "/register" <==> r.element == Show(RegisterScreen)
    ensures path == "/forgot-password" <==> r.element == Show(ForgotPasswordScreen)
    ensures path == "/reset-password" <==> r.element == Show(ResetPasswordScreen)
    ensures path == "/verify-email" <==> r.element == Show(VerifyEmailScreen)
    ensures path == "/unauthorized" <==> r.element == Show(UnauthorizedScreen)
    ensures path == "/" <==> r.element == Show(DashboardScreen)
    ensures path == "/profile" <==> r.element == Show(ProfileScreen)
    ensures path == "/profile/edit" <==> r.element == Show(EditProfileScreen)
    ensures path !in NamedPaths <==> r.element == Show(NotFoundScreen)
  {
    if path == "/login" then Route(PublicOnly, Show(LoginScreen))
    else if path == "/register" then Route(PublicOnly, Show(RegisterScreen))
    else if path == "/forgot-password" then Route(PublicOnly, Show(ForgotPasswordScreen))
    else if path == "/reset-password" then Route(PublicOnly, Show(ResetPasswordScreen))
    else if path == "/verify-email" then
      Route(Protected(ProtectedRoute.Requirements(false, false)), Show(VerifyEmailScreen))
    else if path == "/unauthorized" then
      Route(Protected(ProtectedRoute.Requirements(false, false)), Show(UnauthorizedScreen))
    else if path == "/" then Route(Protected(ProtectedRoute.Defaults), Show(DashboardScreen))
    else if path == "/dashboard" then Route(Protected(ProtectedRoute.Defaults), NavigateTo("/", true))
    else if path == "/profile" then Route(Protected(ProtectedRoute.Defaults), Show(ProfileScreen))
    else if path == "/profile/edit" then Route(Protected(ProtectedRoute.Defaults), Show(EditProfileScreen))
    else Route(Protected(ProtectedRoute.Defaults), Show(NotFoundScreen))
  }

  /** A screen's own guard. */
  function ScreenDecision(screen: Screen, auth: Option<Auth>): Decision
  {
    match screen
    case LoginScreen => LoginPage.Guard(auth)
    case RegisterScreen => RegisterPage.Guard(auth)
    case ResetPasswordScreen => ResetPasswordPage.Guard(auth)
    case VerifyEmailScreen => VerifyEmailPage.Guard(auth)
    case _ => Render
  }

  function GateDecision(gate: Gate, auth: Option<Auth>, decode: string -> Claims, nowMs: int): Decision
  {
    match gate
    case PublicOnly => PublicAuthRoute.Decide(auth)
    case Protected(req) => ProtectedRoute.Decide(auth, req, decode, nowMs)
  }

  /** Navigating to `path`: the gate decides first; when it renders, the
      element (a screen's guard, or a `<Navigate>`) decides. */
  function Visit(path: string, auth: Option<Auth>, decode: string -> Claims, nowMs: int): (d: Decision)
    ensures d.Redirect? ==> d.to in {"/login", "/verify-email", ProtectedRoute.FallbackPathForNonAdmin, "/"}
    ensures d.Redirect? && d.to == "/" ==> auth.Some? || path == "/dashboard"
    ensures d.Redirect? && d.to == "/verify-email" ==> auth.Some? && !auth.value.user.isEmailVerified
  {
    var route := RouteFor(path);
    var gate := GateDecision(route.gate, auth, decode, nowMs);
    if gate.Redirect? then gate
    else match route.element
      case Show(screen) => ScreenDecision(screen, auth)
      case NavigateTo(to, replace) => Redirect(to, false, replace)
  }

  /** The session after navigating to `path`: cleared when the path's
      protecting gate finds the token expired, unchanged otherwise. */
  function SessionAfter(path: string, auth: Option<Auth>, decode: string -> Claims, nowMs: int): (after: Option<Auth>)
    ensures after == auth || after == None
    ensures after != auth ==> Visit(path, auth, decode, nowMs) == Redirect("/login", true, true)
  {
    var route := RouteFor(path);
    if route.gate.Protected? && ProtectedRoute.ShouldLogout(auth, decode, nowMs) then None else auth
  }

  /** Following redirects from `path` reaches a rendered screen within `hops`
      redirects (at one instant, so the token's expiry does not change). */
  predicate SettlesWithin(path: string, auth: Option<Auth>, decode: string -> Claims, nowMs: int, hops: nat)
    decreases hops
  {
    var d := Visit(path, auth, decode, nowMs);
    d.Render? || (hops > 0 && SettlesWithin(d.to, SessionAfter(path, auth, decode, nowMs), decode, nowMs, hops - 1))
  }

  /** A user sent to the fallback path is shown it, not redirected again. */
  lemma FallbackRenders(path: string, auth: Option<Auth>, decode: string -> Claims, nowMs: int)
    requires Visit(path, auth, decode, nowMs).Redirect?
    requires Visit(path, auth, decode, nowMs).to == ProtectedRoute.FallbackPathForNonAdmin
    ensures SessionAfter(path, auth, decode, nowMs) == auth
    ensures Visit("/unauthorized", auth, decode, nowMs) == Render
  {
  }

  /** A user sent to /verify-email passes that route's gate and sees the
      verification form. */
  lemma VerifyEmailRenders(path: string, auth: Option<Auth>, decode: string -> Claims, nowMs: int)
    requires Visit(path, auth, decode, nowMs).Redirect?
    requires Visit(path, auth, decode, nowMs).to == "/verify-email"
    ensures SessionAfter(path, auth, decode, nowMs) == auth
    ensures Visit("/verify-email", auth, decode, nowMs) == Render
  {
  }

  /** A user sent to /login arrives without a session and sees the sign-in form. */
  lemma LoginRenders(path: string, auth: Option<Auth>, decode: string -> Claims, nowMs: int)
    requires Visit(path, auth, decode, nowMs).Redirect?
    requires Visit(path, auth, decode, nowMs).to == "/login"
    ensures SessionAfter(path, auth, decode, nowMs) == None
    ensures Visit("/login", None, decode, nowMs) == Render
  {
  }

  /** Home sends a session on at most once more, and never back to a
      public-only screen with that session kept. */
  lemma HomeSettles(auth: Option<Auth>, decode: string -> Claims, nowMs: int)
    ensures SettlesWithin("/", auth, decode, nowMs, 1)
  {
    var d := Visit("/", auth, decode, nowMs);
    if d.Redirect? {
      if d.to == "/login" {
        LoginRenders("/", auth, decode, nowMs);
      } else if d.to == "/verify-email" {
        VerifyEmailRenders("/", auth, decode, nowMs);
      } else {
        FallbackRenders("/", auth, decode, nowMs);
      }
    }
  }

  /** No redirect loop: from any path, whatever the session, at most two
      redirects lead to a rendered screen. */
  lemma EveryNavigationSettles(path: string, auth: Option<Auth>, decode: string -> Claims, nowMs: int)
    ensures SettlesWithin(path, auth, decode, nowMs, 2)
  {
    var d := Visit(path, auth, decode, nowMs);
    if d.Redirect? {
      var after := SessionAfter(path, auth, decode, nowMs);
      if d.to == "/login" {
        LoginRenders(path, auth, decode, nowMs);
        assert SettlesWithin(d.to, after, decode, nowMs, 1);
      } else if d.to == "/verify-email" {
        VerifyEmailRenders(path, auth, decode, nowMs);
        assert SettlesWithin(d.to, after, decode, nowMs, 1);
      } else if d.to == "/unauthorized" {
        FallbackRenders(path, auth, decode, nowMs);
        assert SettlesWithin(d.to, after, decode, nowMs, 1);
      } else {
        assert d.to == "/";
        HomeSettles(after, decode, nowMs);
      }
    }
  }

  /** Following redirects from `path` when the `i`-th navigation happens at
      time `clock[i]`: a token may expire between two hops. */
  predicate SettlesOver(path: string, auth: Option<Auth>, decode: string -> Claims, clock: seq<int>)
    requires |clock| > 0
    decreases |clock|
  {
    var d := Visit(path, auth, decode, clock[0]);
    d.Render? || (|clock| > 1 && SettlesOver(d.to, SessionAfter(path, auth, decode, clock[0]), decode, clock[1..]))
  }

  /** A session sent to /verify-email, whenever it arrives, sees the form or
      is sent once more, to /login, without a session. */
  lemma VerifyEmailSettlesOver(auth: Option<Auth>, decode: string -> Claims, clock: seq<int>)
    requires |clock| >= 2 && auth.Some? && !auth.value.user.isEmailVerified
    ensures SettlesOver("/verify-email", auth, decode, clock)
  {
    var d := Visit("/verify-email", auth, decode, clock[0]);
    if d.Redirect? {
      assert d.to == "/login" && SessionAfter("/verify-email", auth, decode, clock[0]) == None;
      assert Visit("/login", None, decode, clock[1]) == Render;
    }
  }

  /** A session sent to the fallback path, whenever it arrives, sees that
      screen or is sent once more, to /login, without a session. */
  lemma FallbackSettlesOver(auth: Option<Auth>, decode: string -> Claims, clock: seq<int>)
    requires |clock| >= 2 && auth.Some?
    ensures SettlesOver(ProtectedRoute.FallbackPathForNonAdmin, auth, decode, clock)
  {
    var d := Visit(ProtectedRoute.FallbackPathForNonAdmin, auth, decode, clock[0]);
    if d.Redirect? {
      assert d.to == "/login" && SessionAfter(ProtectedRoute.FallbackPathForNonAdmin, auth, decode, clock[0]) == None;
      assert Visit("/login", None, decode, clock[1]) == Render;
    }
  }

  /** From home, with a clock reading per hop, at most two redirects. */
  lemma HomeSettlesOver(auth: Option<Auth>, decode: string -> Claims, clock: seq<int>)
    requires |clock| >= 3
    ensures SettlesOver("/", auth, decode, clock)
  {
    var d := Visit("/", auth, decode, clock[0]);
    if d.Redirect? {
      var after := SessionAfter("/", auth, decode, clock[0]);
      if d.to == "/login" {
        assert after == None && Visit("/login", None, decode, clock[1]) == Render;
      } else if d.to == "/verify-email" {
        VerifyEmailSettlesOver(after, decode, clock[1..]);
      } else {
        assert d.to == ProtectedRoute.FallbackPathForNonAdmin;
        FallbackSettlesOver(after, decode, clock[1..]);
      }
    }
  }

  /** No redirect loop even when time passes between hops: whatever the
      clock reads at each navigation, at most three redirects lead to a
      rendered screen. The third is the /login a token expiring mid-chain adds. */
  lemma EveryNavigationSettlesOver(path: string, auth: Option<Auth>, decode: string -> Claims, clock: seq<int>)
    requires |clock| >= 4
    ensures SettlesOver(path, auth, decode, clock)
  {
    var d := Visit(path, auth, decode, clock[0]);
    if d.Redirect? {
      var after := SessionAfter(path, auth, decode, clock[0]);
      if d.to == "/login" {
        LoginRenders(path, auth, decode, clock[0]);
        assert SettlesOver(d.to, after, decode, clock[1..]);
      } else if d.to == "/verify-email" {
        VerifyEmailRenders(path, auth, decode, clock[0]);
        VerifyEmailSettlesOver(after, decode, clock[1..]);
      } else if d.to == ProtectedRoute.FallbackPathForNonAdmin {
        FallbackRenders(path, auth, decode, clock[0]);
        FallbackSettlesOver(after, decode, clock[1..]);
      } else {
        assert d.to == "/";
        HomeSettlesOver(after, decode, clock[1..]);
      }
    }
  }

  /** The bound of three is reached: a verified non-admin on /verify-email is
      sent home, from there to the fallback path, and, the token having
      expired in between, on to /login. */
  lemma ThreeRedirectsCanBeNeeded(u: User)
    requires u.isEmailVerified && u.roles == [Customer]
    ensures var a := Some(Auth(u, "t", "r"));
            var decode := (token: string) => Payload(Some(10));
            !SettlesOver("/verify-email", a, decode, [0, 0, 20000])
            && SettlesOver("/verify-email", a, decode, [0, 0, 20000, 20000])
  {
    var a := Some(Auth(u, "t", "r"));
    var decode := (token: string) => Payload(Some(10));
    assert Visit("/verify-email", a, decode, 0) == Redirect("/", false, false);
    assert Visit("/", a, decode, 0) == Redirect(ProtectedRoute.FallbackPathForNonAdmin, false, true);
    assert ProtectedRoute.ShouldLogout(a, decode, 20000);
    assert Visit(ProtectedRoute.FallbackPathForNonAdmin, a, decode, 20000) == Redirect("/login", true, true);
    assert Visit("/login", None, decode, 20000) == Render;
    assert [0, 0, 20000][1..] == [0, 20000] && [0, 20000][1..] == [20000];
    assert [0, 0, 20000, 20000][1..] == [0, 20000, 20000] && [0, 20000, 20000][1..] == [20000, 20000];
    assert [20000, 20000][1..] == [20000];
  }
}
