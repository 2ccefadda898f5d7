/** The earlier gate `PrivateOutlet` of the legacy application shell, which
    the entry point no longer mounts. */
module LegacyApp {
  import opened Wrappers
  import opened AuthTypes
  import opened Navigation
  import opened TokenExpiry
  import AuthStore
  import ProtectedRoute
  import LoginPage

  /** `isTokenExpired(token)`: no guard and no catch, so a decoding failure
      propagates to the caller. */
  function IsTokenExpired(token: string, decode: string -> Claims, nowMs: int): (r: Result<bool>)
    ensures r.Throws? <==> decode(token).Undecodable?
    ensures r.Ok? ==> (r.value <==> PastExpiry(decode(token), nowMs))
  {
    var claims := decode(token);
    if claims.Undecodable? then Throws("token cannot be decoded") else Ok(PastExpiry(claims, nowMs))
  }

  /** Where the two checks meet: on a non-empty token that decodes, the
      legacy check answers what `checkTokenExpired` answers. */
  lemma LegacyExpiryAgrees(token: string, decode: string -> Claims, nowMs: int)
    requires token != "" && decode(token).Payload?
    ensures IsTokenExpired(token, decode, nowMs) == Ok(CheckTokenExpired(Some(token), decode, nowMs))
  {
  }

  /** Whether `PrivateOutlet` calls `logout()`: a session whose token is expired. */
  predicate ShouldLogout(auth: Option<Auth>, decode: string -> Claims, nowMs: int)
    ensures ShouldLogout(auth, decode, nowMs) <==>
      auth.Some? && decode(auth.value.accessToken).Payload? && PastExpiry(decode(auth.value.accessToken), nowMs)
    ensures auth.Some? && auth.value.accessToken != "" && decode(auth.value.accessToken).Payload? ==>
      ShouldLogout(auth, decode, nowMs) == ProtectedRoute.ShouldLogout(auth, decode, nowMs)
  {
    auth.Some? && IsTokenExpired(auth.value.accessToken, decode, nowMs) == Ok(true)
  }

  /** `PrivateOutlet`'s decision: the expiry check first (throwing when the
      token does not decode), then render for a verified admin, the
      verification screen for any unverified session, and /login for the rest. */
  function Decide(auth: Option<Auth>, decode: string -> Claims, nowMs: int): (r: Result<Decision>)
    ensures r.Throws? <==> auth.Some? && decode(auth.value.accessToken).Undecodable?
    ensures r.Ok? && r.value.Redirect? ==> !r.value.carriesFrom && !r.value.replace
  {
    if auth.Some? && IsTokenExpired(auth.value.accessToken, decode, nowMs).Throws? then
      Throws("token cannot be decoded")
    else if ShouldLogout(auth, decode, nowMs) then Ok(Redirect("/login", false, false))
    else if auth.Some? && ProtectedRoute.IsAdmin(auth) && auth.value.user.isEmailVerified then Ok(Render)
    else if auth.Some? && !auth.value.user.isEmailVerified then Ok(Redirect("/verify-email", false, false))
    else Ok(Redirect("/login", false, false))
  }

  /** The gate as a component: it logs out exactly when the token is expired. */
  method Guard(store: AuthStore.Store, decode: string -> Claims, nowMs: int) returns (r: Result<Decision>)
    requires store.Valid()
    modifies store
    ensures store.Valid()
    ensures r == Decide(old(store.auth), decode, nowMs)
    ensures ShouldLogout(old(store.auth), decode, nowMs) ==>
      store.auth == None && store.storage == AuthStore.LoggedOutStorage(old(store.storage), store.keys)
    ensures !ShouldLogout(old(store.auth), decode, nowMs) ==>
      store.auth == old(store.auth) && store.storage == old(store.storage)
  {
    var auth := store.auth;
    if auth.Some? {
      var expired := IsTokenExpired(auth.value.accessToken, decode, nowMs);
      if expired.Throws? {
        return Throws(expired.error);
      }
      if expired.value {
        store.Logout();
        return Ok(Redirect("/login", false, false));
      }
    }
    if auth.Some? && ProtectedRoute.IsAdmin(auth) && auth.value.user.isEmailVerified {
      return Ok(Render);
    } else if auth.Some? && !auth.value.user.isEmailVerified {
      return Ok(Redirect("/verify-email", false, false));
    } else {
      return Ok(Redirect("/login", false, false));
    }
  }

  /** A verified user without an admin role and with a live token: the new
      gate sends them to the fallback path, the legacy one to /login. */
  lemma GatesDisagreeOnVerifiedNonAdmin(a: Auth, decode: string -> Claims, nowMs: int)
    requires a.accessToken != "" && decode(a.accessToken).Payload?
    requires !CheckTokenExpired(Some(a.accessToken), decode, nowMs)
    requires a.user.isEmailVerified && Admin !in a.user.roles && SuperAdmin !in a.user.roles
    ensures Decide(Some(a), decode, nowMs) == Ok(Redirect("/login", false, false))
    ensures ProtectedRoute.Decide(Some(a), ProtectedRoute.Defaults, decode, nowMs)
         == Redirect(ProtectedRoute.FallbackPathForNonAdmin, false, true)
  {
  }

  /** For a non-empty token that decodes, the two gates send the user to
      the same place everywhere but on a live, verified non-admin session
      (they differ only in the location and history flags). */
  lemma GatesAgreeElsewhere(auth: Option<Auth>, decode: string -> Claims, nowMs: int)
    requires auth.Some? ==> auth.value.accessToken != "" && decode(auth.value.accessToken).Payload?
    requires !(auth.Some? && !ProtectedRoute.ShouldLogout(auth, decode, nowMs)
               && auth.value.user.isEmailVerified && !ProtectedRoute.IsAdmin(auth))
    ensures Decide(auth, decode, nowMs).Ok?
    ensures Destination(Decide(auth, decode, nowMs).value)
         == Destination(ProtectedRoute.Decide(auth, ProtectedRoute.Defaults, decode, nowMs))
    ensures ShouldLogout(auth, decode, nowMs) == ProtectedRoute.ShouldLogout(auth, decode, nowMs)
  {
  }

  /** A non-empty token that does not decode: the legacy gate throws, while
      the new one catches the failure, logs out and sends the user to /login. */
  lemma GatesDisagreeOnUndecodable(a: Auth, decode: string -> Claims, nowMs: int)
    requires a.accessToken != "" && decode(a.accessToken).Undecodable?
    ensures Decide(Some(a), decode, nowMs).Throws?
    ensures ProtectedRoute.ShouldLogout(Some(a), decode, nowMs)
    ensures ProtectedRoute.Decide(Some(a), ProtectedRoute.Defaults, decode, nowMs) == Redirect("/login", true, true)
  {
  }

  /** An empty token: the legacy gate decodes it unguarded, and `"".split(".")[1]`
      is `undefined`, which `atob` rejects, so it throws; the new gate skips
      the expiry branch, never logs out and never sends the session to /login. */
  lemma GatesDisagreeOnEmptyToken(a: Auth, req: ProtectedRoute.Requirements, decode: string -> Claims, nowMs: int)
    requires a.accessToken == "" && decode("").Undecodable?
    ensures Decide(Some(a), decode, nowMs).Throws?
    ensures !ProtectedRoute.ShouldLogout(Some(a), decode, nowMs)
    ensures Destination(ProtectedRoute.Decide(Some(a), req, decode, nowMs)) != Some("/login")
  {
  }

  /** In the legacy shell the sign-in screen has no public-only gate, only
      its own guard: a live, verified non-admin session is sent from / to
      /login and from /login back to /, with nothing changing in between. */
  lemma LegacyNonAdminBounces(a: Auth, decode: string -> Claims, nowMs: int)
    requires a.accessToken != "" && decode(a.accessToken).Payload?
    requires !CheckTokenExpired(Some(a.accessToken), decode, nowMs)
    requires a.user.isEmailVerified && !ProtectedRoute.IsAdmin(Some(a))
    ensures !ShouldLogout(Some(a), decode, nowMs)
    ensures Decide(Some(a), decode, nowMs) == Ok(Redirect("/login", false, false))
    ensures LoginPage.Guard(Some(a)) == Redirect("/", false, false)
  {
  }
}
