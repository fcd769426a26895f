/**
 * `services/auth.service.ts`: the auth protocol engine. Every operation is a
 * sequence of store calls over the three collections of `Store.Db`, with the
 * clock (`now`), the email transport (`delivery`) and bcrypt (`hash`) as
 * parameters. A raised `appAssert` becomes a `Failure`; store writes made
 * before it stay, as they do in the source.
 */
module AuthService {
  import opened Wrappers
  import opened HttpStatus
  import opened Time
  import opened AppAssert
  import opened UserModel
  import opened Store
  import opened Jwt
  import opened Email

  /** `{user, accessToken, refreshToken}` of registration and login. */
  datatype AuthTokens = AuthTokens(user: PublicUser, accessToken: Token, refreshToken: Token)

  /** `{accessToken, newRefreshToken}` of a refresh; an absent new refresh token means "keep the old one". */
  datatype RefreshResult = RefreshResult(accessToken: Token, newRefreshToken: Option<Token>)

  const EMAIL_EXISTS := CustomError(CONFLICT, "Email already exists.", None)
  const INVALID_CREDENTIALS := CustomError(UNAUTHORIZED, "Invalid email or password.", None)
  const INVALID_REFRESH_TOKEN := CustomError(UNAUTHORIZED, "Invalid refresh token.", None)
  const SESSION_EXPIRED := CustomError(UNAUTHORIZED, "Session expired.", None)
  const INVALID_CODE := CustomError(NOT_FOUND, "Invalid or expired verification code.", None)
  const TOO_MANY := CustomError(TOO_MANY_REQUESTS, "Too many requests, please try again later.", None)

  /** The session created for a device at login or registration: it expires thirty days on. */
  function NewSession(id: ObjectId, userId: ObjectId, userAgent: Option<string>, now: int): Session {
    Session(id, userId, userAgent, now, ThirtyDaysFromNow(now))
  }

  /** The access token of a session: it names the session and its user, under the access-token options. */
  function AccessTokenFor(sessionId: ObjectId, userId: ObjectId, now: int): Token {
    SignToken(Payload(sessionId, Some(userId)), None, now)
  }

  /** The refresh token of a session: it names only the session, under the refresh-token options. */
  function RefreshTokenFor(sessionId: ObjectId, now: int): Token {
    SignToken(Payload(sessionId, None), Some(RefreshTokenSignOptions), now)
  }

  /** What registration and login return for a user and its new session. */
  function Issue(user: User, sessionId: ObjectId, now: int): AuthTokens {
    AuthTokens(OmitPassword(user), AccessTokenFor(sessionId, user.id, now), RefreshTokenFor(sessionId, now))
  }

  /**
   * `createUser`: a taken email fails Conflict and changes nothing. Otherwise
   * the user and its one-year EmailVerification code are stored; if the
   * email cannot be sent the call fails INTERNAL and both stay, with no
   * session; else a thirty-day session is created and its tokens returned.
   */
  method CreateUser(db: Db, email: string, password: string, userAgent: Option<string>, now: int, delivery: EmailOutcome, hash: Hasher)
    returns (r: Result<AuthTokens>)
    requires db.Valid()
    modifies db
    ensures db.Valid()
    ensures EmailTaken(old(db.users), email) ==> r == Failure(EMAIL_EXISTS) && unchanged(db)
    ensures !EmailTaken(old(db.users), email) ==>
      var userId, codeId, sessionId := old(db.nextId), old(db.nextId) + 1, old(db.nextId) + 2;
      var user := NewUser(userId, email, password, now, hash);
      && db.users == old(db.users)[userId := user]
      && db.codes == old(db.codes)[codeId := VerificationCode(codeId, userId, EmailVerification, now, OneYearFromNow(now))]
      && if Delivered(delivery) then
           && db.sessions == old(db.sessions)[sessionId := NewSession(sessionId, userId, userAgent, now)]
           && db.nextId == sessionId + 1
           && r == Success(Issue(user, sessionId, now))
         else
           && db.sessions == old(db.sessions)
           && db.nextId == codeId + 1
           && r == Failure(SendError(delivery))
  {
    var check := Assert(!EmailTaken(db.users, email), CONFLICT, "Email already exists.", None);
    if check.Fail? {
      return Failure(check.error);
    }

    var userId := db.NewId();
    var user := NewUser(userId, email, password, now, hash);
    db.users := db.users[userId := user];

    var codeId := db.NewId();
    db.codes := db.codes[codeId := VerificationCode(codeId, userId, EmailVerification, now, OneYearFromNow(now))];
    var url := VerifyEmailLink(codeId);

    check := Assert(Delivered(delivery), INTERNAL_SERVER_ERROR, FailureMessage(delivery), None);
    if check.Fail? {
      return Failure(check.error);
    }

    var sessionId := db.NewId();
    db.sessions := db.sessions[sessionId := NewSession(sessionId, userId, userAgent, now)];
    r := Success(Issue(user, sessionId, now));
  }

  /**
   * `loginUser`: an unknown email and a wrong password fail with the same
   * Unauthorized error and change nothing; otherwise one new thirty-day
   * session is added for the user, every existing one is kept, and its
   * tokens are returned.
   */
  method LoginUser(db: Db, email: string, password: string, userAgent: Option<string>, now: int, hash: Hasher)
    returns (r: Result<AuthTokens>)
    requires db.Valid()
    modifies db
    ensures db.Valid()
    ensures r.Failure? ==> r.error == INVALID_CREDENTIALS
    ensures
      var found := FindUserByEmail(old(db.users), email);
      if found.None? || !ComparePassword(old(db.users)[found.value], password, hash) then
        r.Failure? && unchanged(db)
      else
        var sessionId := old(db.nextId);
        && sessionId !in old(db.sessions)
        && db.sessions == old(db.sessions)[sessionId := NewSession(sessionId, found.value, userAgent, now)]
        && db.users == old(db.users) && db.codes == old(db.codes) && db.nextId == sessionId + 1
        && r == Success(Issue(old(db.users)[found.value], sessionId, now))
  {
    var found := FindUserByEmail(db.users, email);
    var check := Assert(found.Some?, UNAUTHORIZED, "Invalid email or password.", None);
    if check.Fail? {
      return Failure(check.error);
    }
    var user := db.users[found.value];

    check := Assert(ComparePassword(user, password, hash), UNAUTHORIZED, "Invalid email or password.", None);
    if check.Fail? {
      return Failure(check.error);
    }

    var sessionId := db.NewId();
    db.sessions := db.sessions[sessionId := NewSession(sessionId, user.id, userAgent, now)];
    r := Success(Issue(user, sessionId, now));
  }

  /**
   * `logoutUser`: never fails. When the access token verifies, the session
   * it names is deleted (a no-op if already gone); otherwise nothing changes.
   */
  method LogoutUser(db: Db, accessToken: Token, now: int)
    requires db.Valid()
    modifies db
    ensures db.Valid()
    ensures db.users == old(db.users) && db.codes == old(db.codes) && db.nextId == old(db.nextId)
    ensures
      var v := VerifyToken(accessToken, None, now);
      db.sessions == if v.Verified? then Remove(old(db.sessions), v.payload.sessionId) else old(db.sessions)
  {
    var v := VerifyToken(accessToken, None, now);
    if v.Verified? {
      db.sessions := Remove(db.sessions, v.payload.sessionId);
    }
  }

  /**
   * `refreshUserAccessToken`: a refresh token that does not verify fails
   * "Invalid refresh token."; a missing or expired session fails "Session
   * expired."; both change nothing. A live session is extended to thirty days
   * from now, with a new refresh token, exactly when it has less than a day
   * left; the new access token always names the session and its owner.
   */
  method RefreshUserAccessToken(db: Db, refreshToken: Token, now: int) returns (r: Result<RefreshResult>)
    requires db.Valid()
    modifies db
    ensures db.Valid()
    ensures db.users == old(db.users) && db.codes == old(db.codes) && db.nextId == old(db.nextId)
    ensures
      var v := VerifyToken(refreshToken, Some(RefreshTokenVerifyOptions), now);
      if v.VerifyError? then
        r == Failure(INVALID_REFRESH_TOKEN) && db.sessions == old(db.sessions)
      else
        var sessionId := v.payload.sessionId;
        if sessionId !in old(db.sessions) || old(db.sessions)[sessionId].expiresAt <= now then
          r == Failure(SESSION_EXPIRED) && db.sessions == old(db.sessions)
        else
          var s := old(db.sessions)[sessionId];
          var needsRefresh := s.expiresAt - now < ONE_DAY_MS;
          && db.sessions == (if needsRefresh then old(db.sessions)[sessionId := s.(expiresAt := ThirtyDaysFromNow(now))]
                            else old(db.sessions))
          && r == Success(RefreshResult(
                    AccessTokenFor(sessionId, s.userId, now),
                    if needsRefresh then Some(RefreshTokenFor(sessionId, now)) else None))
  {
    var v := VerifyToken(refreshToken, Some(RefreshTokenVerifyOptions), now);
    var check := Assert(v.Verified?, UNAUTHORIZED, "Invalid refresh token.", None);
    if check.Fail? {
      return Failure(check.error);
    }

    var sessionId := v.payload.sessionId;
    check := Assert(sessionId in db.sessions && db.sessions[sessionId].expiresAt > now, UNAUTHORIZED, "Session expired.", None);
    if check.Fail? {
      return Failure(check.error);
    }
    var session := db.sessions[sessionId];

    var needsRefresh := session.expiresAt - now < ONE_DAY_MS;
    if needsRefresh {
      session := session.(expiresAt := ThirtyDaysFromNow(now));
      db.sessions := db.sessions[sessionId := session];
    }

    var newRefreshToken := if needsRefresh then Some(RefreshTokenFor(sessionId, now)) else None;
    var accessToken := AccessTokenFor(sessionId, session.userId, now);
    r := Success(RefreshResult(accessToken, newRefreshToken));
  }

  /**
   * `verifyUserEmail`: only an unexpired EmailVerification code with that id
   * is accepted, otherwise NotFound. On success its user becomes verified and
   * every EmailVerification code of that user is deleted; other codes stay.
   */
  method VerifyUserEmail(db: Db, code: ObjectId, now: int) returns (r: Result<PublicUser>)
    requires db.Valid()
    modifies db
    ensures db.Valid()
    ensures db.sessions == old(db.sessions) && db.nextId == old(db.nextId)
    ensures
      var found := FindValidCode(old(db.codes), code, EmailVerification, now);
      if found.None? then
        r == Failure(INVALID_CODE) && unchanged(db)
      else if found.value.userId !in old(db.users) then
        r == Failure(CustomError(INTERNAL_SERVER_ERROR, "Failed to verify email.", None)) && unchanged(db)
      else
        var userId := found.value.userId;
        var user := old(db.users)[userId].(verified := true, updatedAt := now);
        && db.users == old(db.users)[userId := user]
        && db.codes == DeleteCodes(old(db.codes), userId, EmailVerification)
        && r == Success(OmitPassword(user))
  {
    var validCode := FindValidCode(db.codes, code, EmailVerification, now);
    var check := Assert(validCode.Some?, NOT_FOUND, "Invalid or expired verification code.", None);
    if check.Fail? {
      return Failure(check.error);
    }

    var userId := validCode.value.userId;
    check := Assert(userId in db.users, INTERNAL_SERVER_ERROR, "Failed to verify email.", None);
    if check.Fail? {
      return Failure(check.error);
    }
    var updatedUser := db.users[userId].(verified := true, updatedAt := now);
    db.users := db.users[userId := updatedUser];

    db.codes := DeleteCodes(db.codes, userId, EmailVerification);
    r := Success(OmitPassword(updatedUser));
  }

  /**
   * `sendPasswordResetEmail`: an unknown email returns quietly with no change.
   * With two or more ForgotPassword codes issued to the user in the last five
   * minutes it fails TooManyRequests. Otherwise one ForgotPassword code,
   * expiring in an hour, is added (and kept even if the email then fails),
   * and the link embeds its id and expiry.
   */
  method SendPasswordResetEmail(db: Db, email: string, now: int, delivery: EmailOutcome) returns (r: Result<Option<SentEmail>>)
    requires db.Valid()
    modifies db
    ensures db.Valid()
    ensures db.users == old(db.users) && db.sessions == old(db.sessions)
    ensures
      var found := FindUserByEmail(old(db.users), email);
      if found.None? then
        r == Success(None) && unchanged(db)
      else if CountRecentCodes(old(db.codes), found.value, ForgotPassword, FiveMinutesAgo(now)) > 1 then
        r == Failure(TOO_MANY) && unchanged(db)
      else
        var codeId := old(db.nextId);
        var code := VerificationCode(codeId, found.value, ForgotPassword, now, OneHourFromNow(now));
        && db.codes == old(db.codes)[codeId := code]
        && db.nextId == codeId + 1
        && r == if Delivered(delivery) then Success(Some(SentEmail(ResetPasswordLink(codeId, code.expiresAt), delivery.id)))
                else Failure(SendError(delivery))
  {
    var found := FindUserByEmail(db.users, email);
    if found.None? {
      return Success(None);
    }
    var userId := found.value;

    var count := CountRecentCodes(db.codes, userId, ForgotPassword, FiveMinutesAgo(now));
    var check := Assert(count <= 1, TOO_MANY_REQUESTS, "Too many requests, please try again later.", None);
    if check.Fail? {
      return Failure(check.error);
    }

    var expiresAt := OneHourFromNow(now);
    var codeId := db.NewId();
    db.codes := db.codes[codeId := VerificationCode(codeId, userId, ForgotPassword, now, expiresAt)];

    var url := ResetPasswordLink(codeId, expiresAt);
    check := Assert(Delivered(delivery), INTERNAL_SERVER_ERROR, FailureMessage(delivery), None);
    if check.Fail? {
      return Failure(check.error);
    }
    r := Success(Some(SentEmail(url, delivery.id)));
  }

  /**
   * `resetUserPassword`: only an unexpired ForgotPassword code is accepted,
   * otherwise NotFound. On success the user's password becomes the hash of
   * the new one, only the used code is deleted, and every session of that
   * user is deleted while other users' sessions stay.
   */
  method ResetUserPassword(db: Db, password: string, code: ObjectId, now: int, hash: Hasher) returns (r: Result<PublicUser>)
    requires db.Valid()
    modifies db
    ensures db.Valid()
    ensures db.nextId == old(db.nextId)
    ensures
      var found := FindValidCode(old(db.codes), code, ForgotPassword, now);
      if found.None? then
        r == Failure(INVALID_CODE) && unchanged(db)
      else if found.value.userId !in old(db.users) then
        r == Failure(CustomError(INTERNAL_SERVER_ERROR, "Failed to reset password.", None)) && unchanged(db)
      else
        var userId := found.value.userId;
        var user := old(db.users)[userId].(password := hash(password), updatedAt := now);
        && db.users == old(db.users)[userId := user]
        && db.codes == Remove(old(db.codes), code)
        && db.sessions == DeleteSessionsOf(old(db.sessions), userId)
        && r == Success(OmitPassword(user))
  {
    var validCode := FindValidCode(db.codes, code, ForgotPassword, now);
    var check := Assert(validCode.Some?, NOT_FOUND, "Invalid or expired verification code.", None);
    if check.Fail? {
      return Failure(check.error);
    }

    var userId := validCode.value.userId;
    check := Assert(userId in db.users, INTERNAL_SERVER_ERROR, "Failed to reset password.", None);
    if check.Fail? {
      return Failure(check.error);
    }
    var updatedUser := db.users[userId].(password := hash(password), updatedAt := now);
    db.users := db.users[userId := updatedUser];

    db.codes := Remove(db.codes, code);
    db.sessions := DeleteSessionsOf(db.sessions, userId);
    r := Success(OmitPassword(updatedUser));
  }
}
