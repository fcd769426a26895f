/**
 * `utils/jwt.ts`: option selection for signing and verifying the two token
 * kinds. The JSON Web Token codec itself is abstract: a token records the
 * payload, the secret it was signed with, its audience claim and its expiry
 * instant, and verification checks exactly those.
 */
module Jwt {
  import opened Wrappers
  import Time

  /**
   * The two configured secrets, `JWT_CONFIG.SECRET` and
   * `JWT_CONFIG.REFRESH_SECRET`, as opaque and distinct keys.
   */
  datatype Secret = AccessSecret | RefreshSecret

  /** Claims: `RefreshTokenPayload` has a session id, `AccessTokenPayload` also a user id. */
  datatype Payload = Payload(sessionId: ObjectId, userId: Option<ObjectId>)

  /**
   * A token string as the codec sees it: either one it signed, or any other
   * string (`Malformed`), including the empty string.
   */
  datatype Token =
    | Signed(payload: Payload, secret: Secret, audience: seq<string>, exp: int)
    | Malformed(text: string)

  /** The audience claim of `signDefaults` and `verifyDefaults`. */
  const AUDIENCE := "user"

  /** `SignOptionsAndSecret`: an expiry (`expiresIn`, in milliseconds) and the secret. */
  datatype SignOptions = SignOptions(expiresIn: int, secret: Secret)

  /** `VerifyOptionsAndSecret`: the secret to check against. */
  datatype VerifyOptions = VerifyOptions(secret: Secret)

  const AccessTokenSignOptions := SignOptions(Time.FIFTEEN_MINUTES_MS, AccessSecret)   // "15m"
  const RefreshTokenSignOptions := SignOptions(Time.THIRTY_DAYS_MS, RefreshSecret)     // "30d"
  const AccessTokenVerifyOptions := VerifyOptions(AccessSecret)
  const RefreshTokenVerifyOptions := VerifyOptions(RefreshSecret)

  /**
   * `signToken(payload, options?)` at instant `now`: the options default to
   * the access-token ones, and the audience of the defaults is always added.
   */
  function SignToken(payload: Payload, options: Option<SignOptions>, now: int): (t: Token)
    ensures t.Signed? && t.payload == payload && t.audience == [AUDIENCE]
    ensures t.secret == (if options.Some? then options.value.secret else AccessSecret)
    ensures t.exp == now + (if options.Some? then options.value.expiresIn else Time.FIFTEEN_MINUTES_MS)
  {
    var o := options.GetOr(AccessTokenSignOptions);
    Signed(payload, o.secret, [AUDIENCE], now + o.expiresIn)
  }

  /** `verifyToken`'s return value: exactly one of `{payload}` and `{error: message}`. */
  datatype VerifyResult = Verified(payload: Payload) | VerifyError(message: string)

  /**
   * `verifyToken(token, options?)` at instant `now`. It never throws: every
   * failure of the codec becomes a `VerifyError` carrying the codec's
   * message, and "jwt expired" is the one reserved for an expired token
   * that is otherwise well signed.
   */
  function VerifyToken(token: Token, options: Option<VerifyOptions>, now: int): (r: VerifyResult)
    ensures r.Verified? <==>
      && token.Signed?
      && token.secret == (if options.Some? then options.value.secret else AccessSecret)
      && now < token.exp
      && AUDIENCE in token.audience
    ensures r.Verified? ==> r.payload == token.payload
    ensures r == VerifyError("jwt expired") <==>
      && token.Signed?
      && token.secret == (if options.Some? then options.value.secret else AccessSecret)
      && token.exp <= now
  {
    var secret := options.GetOr(AccessTokenVerifyOptions).secret;
    match token
    case Malformed(text) =>
      VerifyError(if text == "" then "jwt must be provided" else "jwt malformed")
    case Signed(payload, s, audience, exp) =>
      if s != secret then VerifyError("invalid signature")
      else if now >= exp then VerifyError("jwt expired")
      else if AUDIENCE !in audience then VerifyError("jwt audience invalid. expected: " + AUDIENCE)
      else Verified(payload)
  }

  /** A token signed with some options verifies under the matching secret until it expires, and then reports expiry. */
  lemma SignThenVerify(payload: Payload, sign: Option<SignOptions>, verify: Option<VerifyOptions>, issuedAt: int, now: int)
    requires
      (if sign.Some? then sign.value.secret else AccessSecret) ==
      (if verify.Some? then verify.value.secret else AccessSecret)
    ensures
      var t := SignToken(payload, sign, issuedAt);
      VerifyToken(t, verify, now) == if now < t.exp then Verified(payload) else VerifyError("jwt expired")
  {
  }

  /** An access token verifies for exactly fifteen minutes after issue, and fails as expired from then on. */
  lemma AccessTokenLifetime(payload: Payload, issuedAt: int, now: int)
    requires issuedAt <= now
    ensures VerifyToken(SignToken(payload, None, issuedAt), None, now).Verified? <==> now < issuedAt + Time.FIFTEEN_MINUTES_MS
    ensures now >= issuedAt + Time.FIFTEEN_MINUTES_MS ==>
      VerifyToken(SignToken(payload, None, issuedAt), None, now) == VerifyError("jwt expired")
  {
  }

  /** The two kinds never stand in for each other: each is rejected with a signature error under the other's secret. */
  lemma KindsAreSeparate(payload: Payload, issuedAt: int, now: int)
    ensures VerifyToken(SignToken(payload, Some(RefreshTokenSignOptions), issuedAt), None, now) == VerifyError("invalid signature")
    ensures VerifyToken(SignToken(payload, None, issuedAt), Some(RefreshTokenVerifyOptions), now) == VerifyError("invalid signature")
  {
  }

  /** A refresh token lives for thirty days under the refresh secret. */
  lemma RefreshTokenLifetime(payload: Payload, issuedAt: int, now: int)
    ensures SignToken(payload, Some(RefreshTokenSignOptions), issuedAt).secret == RefreshSecret
    ensures VerifyToken(SignToken(payload, Some(RefreshTokenSignOptions), issuedAt), Some(RefreshTokenVerifyOptions), now).Verified?
      <==> now < issuedAt + Time.THIRTY_DAYS_MS
  {
  }
}
