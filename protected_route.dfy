/** `ProtectedRoute`: the gate in front of every signed-in page. */
module ProtectedRoute {
  import opened Wrappers
  import opened AuthTypes
  import opened TokenExpiry
  import opened Navigation
  import AuthStore

  /** Where a signed-in user without the admin role is sent. */
  const FallbackPathForNonAdmin := "/unauthorized"

  /** The gate's two flags. */
  datatype Requirements = Requirements(requireAdmin: bool, requireEmailVerified: bool)

  /** Both flags default to true when a route leaves them out. */
  const Defaults := Requirements(true, true)

  /** `!!auth?.user`: a session value always holds a user object, so this is
      the presence of the session. */
  predicate IsAuthenticated(auth: Option<Auth>) {
    auth.Some?
  }

  /** The session's roles include "admin" or "super-admin": any role other
      than "customer" makes a session an admin one. */
  predicate IsAdmin(auth: Option<Auth>)
    ensures IsAdmin(auth) <==> auth.Some? && exists role :: role in auth.value.user.roles && role != Customer
  {
    auth.Some? &&
      var roles := auth.value.user.roles;
      assert (exists role :: role in roles && role != Customer) ==> Admin in roles || SuperAdmin in roles by {
        if exists role :: role in roles && role != Customer {
          var role :| role in roles && role != Customer;
          assert role == Admin || role == SuperAdmin;
        }
      }
      (Admin in roles || SuperAdmin in roles)
  }

  predicate IsEmailVerified(auth: Option<Auth>) {
    auth.Some? && auth.value.user.isEmailVerified
  }

  /** The expiry branch runs for a present session whose access token is
      non-empty and expired; an empty token never reaches it. */
  predicate ShouldLogout(auth: Option<Auth>, decode: string -> Claims, nowMs: int)
    ensures ShouldLogout(auth, decode, nowMs) ==> auth.Some? && auth.value.accessToken != ""
    ensures auth.Some? && auth.value.accessToken != "" ==>
      (ShouldLogout(auth, decode, nowMs) <==>
        var claims := decode(auth.value.accessToken);
        claims.Undecodable? || PastExpiry(claims, nowMs))
  {
    auth.Some? && auth.value.accessToken != ""
    && CheckTokenExpired(Some(auth.value.accessToken), decode, nowMs)
  }

  /** The decision chain, first match wins: no user, expired token,
      unverified email, missing admin role, render. */
  function Decide(auth: Option<Auth>, req: Requirements, decode: string -> Claims, nowMs: int): (d: Decision)
    ensures d.Redirect? ==> d.to in {"/login", "/verify-email", FallbackPathForNonAdmin} && d.replace
  {
    if !IsAuthenticated(auth) then Redirect("/login", true, true)
    else if ShouldLogout(auth, decode, nowMs) then Redirect("/login", true, true)
    else if req.requireEmailVerified && !IsEmailVerified(auth) then Redirect("/verify-email", true, true)
    else if req.requireAdmin && !IsAdmin(auth) then Redirect(FallbackPathForNonAdmin, false, true)
    else Render
  }

  /** The gate as a component: it reads the store, logs out in the expiry
      branch and in no other, and returns the decision of `Decide` on the
      session it read. */
  method Guard(store: AuthStore.Store, req: Requirements, decode: string -> Claims, nowMs: int) returns (d: Decision)
    requires store.Valid()
    modifies store
    ensures store.Valid()
    ensures d == Decide(old(store.auth), req, decode, nowMs)
    ensures ShouldLogout(old(store.auth), decode, nowMs) ==>
      store.auth == None && store.storage == AuthStore.LoggedOutStorage(old(store.storage), store.keys)
    ensures !ShouldLogout(old(store.auth), decode, nowMs) ==>
      store.auth == old(store.auth) && store.storage == old(store.storage)
  {
    var auth := store.auth;
    if !IsAuthenticated(auth) {
      return Redirect("/login", true, true);
    }
    if auth.value.accessToken != "" && CheckTokenExpired(Some(auth.value.accessToken), decode, nowMs) {
      store.Logout();
      return Redirect("/login", true, true);
    }
    if req.requireEmailVerified && !IsEmailVerified(auth) {
      return Redirect("/verify-email", true, true);
    }
    if req.requireAdmin && !IsAdmin(auth) {
      return Redirect(FallbackPathForNonAdmin, false, true);
    }
    return Render;
  }

  /** Without a session the gate sends the user to /login, carrying the
      requested location, whatever the flags. */
  lemma NoSessionGoesToLogin(req: Requirements, decode: string -> Claims, nowMs: int)
    ensures Decide(None, req, decode, nowMs) == Redirect("/login", true, true)
  {
  }

  /** An expired, non-empty access token sends even a verified admin to
      /login: the expiry check comes before the verification and role checks. */
  lemma ExpiredBeforeOtherChecks(auth: Option<Auth>, req: Requirements, decode: string -> Claims, nowMs: int)
    requires ShouldLogout(auth, decode, nowMs)
    ensures Decide(auth, req, decode, nowMs) == Redirect("/login", true, true)
  {
  }

  /** An empty access token counts as expired for `checkTokenExpired`, yet
      the gate never logs such a session out. */
  lemma EmptyTokenSkipsExpiry(a: Auth, decode: string -> Claims, nowMs: int)
    requires a.accessToken == ""
    ensures CheckTokenExpired(Some(a.accessToken), decode, nowMs)
    ensures !ShouldLogout(Some(a), decode, nowMs)
  {
  }

  /** A live session with an unverified email goes to /verify-email, not to
      /login nor to the fallback, whenever verification is required. */
  lemma UnverifiedGoesToVerify(a: Auth, req: Requirements, decode: string -> Claims, nowMs: int)
    requires !ShouldLogout(Some(a), decode, nowMs)
    requires req.requireEmailVerified && !a.user.isEmailVerified
    ensures Decide(Some(a), req, decode, nowMs) == Redirect("/verify-email", true, true)
  {
  }

  /** A live, sufficiently verified session without an admin role goes to the
      fixed fallback path, without the requested location. */
  lemma NonAdminGoesToFallback(a: Auth, req: Requirements, decode: string -> Claims, nowMs: int)
    requires !ShouldLogout(Some(a), decode, nowMs)
    requires !req.requireEmailVerified || a.user.isEmailVerified
    requires req.requireAdmin && Admin !in a.user.roles && SuperAdmin !in a.user.roles
    ensures Decide(Some(a), req, decode, nowMs) == Redirect("/unauthorized", false, true)
  {
  }

  /** The guarded content is rendered exactly when every check passes. */
  lemma RenderIffAllChecksPass(auth: Option<Auth>, req: Requirements, decode: string -> Claims, nowMs: int)
    ensures Decide(auth, req, decode, nowMs) == Render <==>
      auth.Some? && !ShouldLogout(auth, decode, nowMs)
      && (req.requireEmailVerified ==> auth.value.user.isEmailVerified)
      && (req.requireAdmin ==> (Admin in auth.value.user.roles || SuperAdmin in auth.value.user.roles))
  {
  }

  /** A verified admin with a live token sees the content under the default flags. */
  lemma VerifiedAdminRenders(a: Auth, decode: string -> Claims, nowMs: int)
    requires !ShouldLogout(Some(a), decode, nowMs)
    requires a.user.isEmailVerified && Admin in a.user.roles
    ensures Decide(Some(a), Defaults, decode, nowMs) == Render
  {
  }
}
