/** What a gate or page guard decides for a navigation: render, or a
    `<Navigate>` to another path. */
module Navigation {
  import opened Wrappers

  /** `Redirect(to, carriesFrom, replace)`: `carriesFrom` when the redirect
      passes the requested location as `state.from`, `replace` when it
      replaces the history entry. */
  datatype Decision = Render | Redirect(to: string, carriesFrom: bool, replace: bool)

  /** Where a decision sends the user: nowhere for `Render`. */
  function Destination(d: Decision): (r: Option<string>)
    ensures r.None? <==> d.Render?
    ensures d.Redirect? ==> r == Some(d.to)
  {
    if d.Render? then None else Some(d.to)
  }
}
