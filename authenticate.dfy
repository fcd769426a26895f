/**
 * `middleware/authenticate.ts`: the gate in front of the protected routes.
 * Its decision depends only on the `accessToken` cookie and what the token
 * codec says about it; the session store is never consulted.
 */
module Authenticate {
  import opened Wrappers
  import opened HttpStatus
  import opened AppAssert
  import opened Jwt

  /** The gate's decision: the identity to attach, or the error passed to `next`. */
  datatype Decision = Authenticated(userId: Option<ObjectId>, sessionId: ObjectId) | Rejected(error: CustomError)

  /** How the handler continues: `next()` or `next(error)`. */
  datatype NextCall = Next | NextWithError(error: CustomError)

  /** `!accessToken`: no cookie, or an empty one. */
  predicate CookieMissing(cookie: Option<Token>) {
    cookie.None? || cookie.value == Malformed("")
  }

  /** The three outcomes of the gate, as the code reaches them. */
  function Gate(cookie: Option<Token>, now: int): (d: Decision)
    ensures CookieMissing(cookie) ==>
      d == Rejected(CustomError(UNAUTHORIZED, "Not authorized.", Some(InvalidAccessToken)))
    ensures !CookieMissing(cookie) ==>
      match VerifyToken(cookie.value, None, now)
      case Verified(p) => d == Authenticated(p.userId, p.sessionId)
      case VerifyError(m) =>
        d == Rejected(CustomError(UNAUTHORIZED, if m == "jwt expired" then "Token expired." else "Invalid Token.", Some(InvalidAccessToken)))
  {
    var present := Assert(!CookieMissing(cookie), UNAUTHORIZED, "Not authorized.", Some(InvalidAccessToken));
    if present.Fail? then Rejected(present.error)
    else
      var v := VerifyToken(cookie.value, None, now);
      var valid := Assert(v.Verified?, UNAUTHORIZED,
                          if v.VerifyError? && v.message == "jwt expired" then "Token expired." else "Invalid Token.",
                          Some(InvalidAccessToken));
      if valid.Fail? then Rejected(valid.error) else Authenticated(v.payload.userId, v.payload.sessionId)
  }

  /** An access token is accepted for its whole lifetime and names its own session and user. */
  lemma AcceptsFreshAccessToken(sessionId: ObjectId, userId: ObjectId, issuedAt: int, now: int)
    requires issuedAt <= now < issuedAt + Time.FIFTEEN_MINUTES_MS
    ensures Gate(Some(SignToken(Payload(sessionId, Some(userId)), None, issuedAt)), now) == Authenticated(Some(userId), sessionId)
  {
  }

  /** Once its lifetime is over, the same token is refused as expired. */
  lemma RejectsExpiredAccessToken(payload: Payload, issuedAt: int, now: int)
    requires now >= issuedAt + Time.FIFTEEN_MINUTES_MS
    ensures Gate(Some(SignToken(payload, None, issuedAt)), now).error.message == "Token expired."
  {
  }

  /** A refresh token is never accepted as an access token. */
  lemma RejectsRefreshToken(payload: Payload, issuedAt: int, now: int)
    ensures Gate(Some(SignToken(payload, Some(RefreshTokenSignOptions), issuedAt)), now)
      == Rejected(CustomError(UNAUTHORIZED, "Invalid Token.", Some(InvalidAccessToken)))
  {
  }

  /** The request the handler sees: the cookie it carries and the identity fields it may set. */
  class Request {
    const accessTokenCookie: Option<Token>
    var userId: Option<ObjectId>
    var sessionId: Option<ObjectId>

    constructor (cookie: Option<Token>)
      ensures accessTokenCookie == cookie && userId == None && sessionId == None
    {
      accessTokenCookie := cookie;
      userId, sessionId := None, None;
    }
  }

  /**
   * The handler: on success it sets `req.userId` and `req.sessionId` from
   * the payload and calls `next()`; on failure it leaves them and calls
   * `next(error)`. It never throws.
   */
  method Handle(req: Request, now: int) returns (next: NextCall)
    modifies req
    ensures
      match Gate(req.accessTokenCookie, now)
      case Authenticated(u, s) => next == Next && req.userId == u && req.sessionId == Some(s)
      case Rejected(e) => next == NextWithError(e) && req.userId == old(req.userId) && req.sessionId == old(req.sessionId)
  {
    var d := Gate(req.accessTokenCookie, now);
    match d
    case Authenticated(u, s) =>
      req.userId := u;
      req.sessionId := Some(s);
      next := Next;
    case Rejected(e) =>
      next := NextWithError(e);
  }
}
