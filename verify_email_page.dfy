/** The e-mail verification screen: its two-step guard and its submit handler. */
module VerifyEmailPage {
  import opened Wrappers
  import opened AuthTypes
  import opened Navigation
  import opened TokenExpiry
  import AuthStore
  import ProtectedRoute

  /** The guard, in order: a verified session goes home, no session goes to
      /login, an unverified session sees the form. */
  function Guard(auth: Option<Auth>): (d: Decision)
    ensures d.Render? <==> auth.Some? && !auth.value.user.isEmailVerified
    ensures auth.None? ==> d == Redirect("/login", false, false)
    ensures auth.Some? && auth.value.user.isEmailVerified ==> d == Redirect("/", false, false)
  {
    if auth.Some? && auth.value.user.isEmailVerified then Redirect("/", false, false)
    else if auth.None? then Redirect("/login", false, false)
    else Render
  }

  /** The session after `auth.user.isEmailVerified = true`. */
  function MarkVerified(a: Auth): (r: Auth)
    ensures r.user.isEmailVerified
    ensures r.accessToken == a.accessToken && r.refreshToken == a.refreshToken
    ensures r.user.(isEmailVerified := a.user.isEmailVerified) == a.user
  {
    a.(user := a.user.(isEmailVerified := true))
  }

  /** `onSubmit`, given whether `authApi.verifyEmail` settled with a
      response: with a response and a session, the session is re-stored with
      its user marked verified and the screen navigates home; otherwise
      nothing changes. */
  method OnSubmit(store: AuthStore.Store, verified: bool) returns (nav: Option<string>)
    requires store.Valid()
    modifies store
    ensures store.Valid()
    ensures verified && old(store.auth).Some? ==>
      nav == Some("/") && store.auth == Some(MarkVerified(old(store.auth).value))
      && store.storage == AuthStore.Persist(old(store.storage), store.keys, store.auth)
    ensures verified && old(store.auth).Some? ==> Guard(store.auth) == Redirect("/", false, false)
    ensures !(verified && old(store.auth).Some?) ==>
      nav == None && store.auth == old(store.auth) && store.storage == old(store.storage)
  {
    nav := None;
    var auth := store.auth;
    if verified && auth.Some? {
      var updated := MarkVerified(auth.value);
      store.Update(Some(updated));
      nav := Some("/");
    }
  }

  /** Verifying changes where the route gate sends a session only by
      clearing the verification redirect: the expiry and role outcomes stay. */
  lemma VerifiedPassesVerificationCheck(a: Auth, req: ProtectedRoute.Requirements, decode: string -> Claims, nowMs: int)
    ensures ProtectedRoute.Decide(Some(MarkVerified(a)), req, decode, nowMs) != Redirect("/verify-email", true, true)
    ensures ProtectedRoute.Decide(Some(a), req, decode, nowMs) != Redirect("/verify-email", true, true) ==>
      ProtectedRoute.Decide(Some(MarkVerified(a)), req, decode, nowMs) == ProtectedRoute.Decide(Some(a), req, decode, nowMs)
  {
  }
}
