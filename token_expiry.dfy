/** The client-side staleness check of a bearer token (`checkTokenExpired`). */
module TokenExpiry {
  import opened Wrappers

  /** What decoding the middle, claims segment of a token yields: the
      splitting, base64 and JSON steps either throw, or give a payload.
      `exp` is `Some(n)` when JavaScript's `>=` converts it to a number the
      whole seconds reach exactly at `n` (an integer, or `null` as 0, `true`
      as 1, a numeric string), and `None` when it converts to NaN (absent, a
      non-numeric string, an object), which compares false with every number. */
  datatype Claims = Undecodable | Payload(exp: Option<int>)

  /** The current time in whole seconds, `Math.floor(ms / 1000)`; Dafny's
      division by a positive divisor rounds down, as `Math.floor` does. */
  function NowInSeconds(nowMs: int): int
  {
    nowMs / 1000
  }

  /** JavaScript's `now >= exp` for a decoded payload: false when `exp`
      is missing. */
  predicate PastExpiry(claims: Claims, nowMs: int)
    requires claims.Payload?
  {
    match claims.exp
    case None => false
    case Some(exp) => NowInSeconds(nowMs) >= exp
  }

  /** `checkTokenExpired(token)`: a null, undefined or empty token is
      expired; a token whose decoding throws is expired (the exception is
      caught); otherwise the token is expired iff the current second has
      reached `exp`. `decode` stands for the split/atob/JSON.parse chain and
      `nowMs` for `new Date().getTime()`. */
  function CheckTokenExpired(token: Option<string>, decode: string -> Claims, nowMs: int): (expired: bool)
    ensures token.None? || token == Some("") ==> expired
    ensures token.Some? && decode(token.value).Undecodable? ==> expired
    ensures token.Some? && token.value != "" && decode(token.value).Payload? ==>
      (expired <==> PastExpiry(decode(token.value), nowMs))
  {
    if token.None? || token.value == "" then true
    else
      var claims := decode(token.value);
      if claims.Undecodable? then true else PastExpiry(claims, nowMs)
  }

  /** For a token with a numeric `exp`, expired means exactly
      `floor(nowMs / 1000) >= exp`; in particular the second `exp` itself is
      already expired and the one before is not. */
  lemma ExpiredIffReached(token: string, decode: string -> Claims, nowMs: int, exp: int)
    requires token != "" && decode(token) == Payload(Some(exp))
    ensures CheckTokenExpired(Some(token), decode, nowMs) <==> nowMs / 1000 >= exp
    ensures nowMs / 1000 == exp ==> CheckTokenExpired(Some(token), decode, nowMs)
    ensures nowMs / 1000 == exp - 1 ==> !CheckTokenExpired(Some(token), decode, nowMs)
  {
  }

  /** A decoded payload without an `exp` is reported NOT expired, at every
      time: the check does not fail closed on a missing claim. */
  lemma MissingExpNeverExpires(token: string, decode: string -> Claims, nowMs: int)
    requires token != "" && decode(token) == Payload(None)
    ensures !CheckTokenExpired(Some(token), decode, nowMs)
  {
  }

  /** Once a token is expired it stays expired as the clock moves forward. */
  lemma ExpiryMonotone(token: Option<string>, decode: string -> Claims, t1: int, t2: int)
    requires t1 <= t2
    requires CheckTokenExpired(token, decode, t1)
    ensures CheckTokenExpired(token, decode, t2)
  {
  }
}
