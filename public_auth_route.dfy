/** `PublicAuthRoute`: keeps a signed-in user away from the sign-in screens. */
module PublicAuthRoute {
  import opened Wrappers
  import opened AuthTypes
  import opened Navigation

  /** Any session, whatever its user, tokens or expiry, is sent home;
      without one the screen renders. */
  function Decide(auth: Option<Auth>): (d: Decision)
    ensures d.Render? <==> auth.None?
    ensures auth.Some? ==> d == Redirect("/", false, true)
  {
    if auth.Some? then Redirect("/", false, true) else Render
  }
}
