/** The server's `requireAuth` middleware, with the current time as a
    parameter, and its use in front of every device and stream route. */
module Auth {
  import opened Wrappers
  import opened Text
  import opened Http
  import opened Sdm

  /** The session fields the middleware reads; `tokenExpiry` is a time in
      milliseconds. */
  datatype Session = Session(userId: Option<string>, accessToken: Option<string>, tokenExpiry: Option<int>)

  /** Either `next()` runs, or a 401 is sent with the given error text. */
  datatype AuthDecision = Next | Reject(status: int, error: string)

  const AuthenticationRequired := "Authentication required"
  const TokenExpired := "Token expired"

  /** The session names a user and holds an access token (both truthy). */
  predicate HasIdentity(s: Session) {
    Truthy(s.userId) && Truthy(s.accessToken)
  }

  /** The expiry is absent, 0, or not before `now`. */
  predicate Unexpired(s: Session, now: int) {
    s.tokenExpiry.None? || s.tokenExpiry.value == 0 || now <= s.tokenExpiry.value
  }

  /** `requireAuth`: the identity check comes first, then the expiry check;
      a request passes exactly when both succeed, and each rejection is a
      401 with its own message. */
  function RequireAuth(s: Session, now: int): (d: AuthDecision)
    ensures d.Next? <==> HasIdentity(s) && Unexpired(s, now)
    ensures !HasIdentity(s) ==> d == Reject(401, AuthenticationRequired)
    ensures HasIdentity(s) && !Unexpired(s, now) ==> d == Reject(401, TokenExpired)
  {
    if !Truthy(s.userId) || !Truthy(s.accessToken) then Reject(401, AuthenticationRequired)
    else if s.tokenExpiry.Some? && s.tokenExpiry.value != 0 && s.tokenExpiry.value < now then Reject(401, TokenExpired)
    else Next
  }

  /** A session rejected as expired at some time stays rejected at every
      later time, and one admitted at some time was admitted at every earlier
      time. */
  lemma ExpiryIsMonotone(s: Session, earlier: int, later: int)
    requires earlier <= later
    ensures RequireAuth(s, later).Next? ==> RequireAuth(s, earlier).Next?
    ensures RequireAuth(s, earlier) == Reject(401, TokenExpired) ==> RequireAuth(s, later) == Reject(401, TokenExpired)
  {
  }

  /** A route behind `router.use(requireAuth)`: a rejected request issues
      no device call and gets the middleware's response; an admitted one is
      what the handler does. */
  function Guarded<B>(s: Session, now: int, handler: Handled<B>): (h: Handled<B>)
    ensures RequireAuth(s, now).Next? ==> h == handler
    ensures !RequireAuth(s, now).Next? ==> h.command == None && h.response.ErrorResponse? && h.response.status == 401
  {
    match RequireAuth(s, now)
    case Next => handler
    case Reject(status, error) => Handled(None, ErrorResponse(status, error))
  }
}
