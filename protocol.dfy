/**
 * End-to-end runs of the auth engine, each from an empty store: the rules
 * of the individual operations, composed into the flows a client goes
 * through (register, log in, refresh, log out, verify, reset).
 */
module Protocol {
  import opened Wrappers
  import opened HttpStatus
  import opened Time
  import opened AppAssert
  import opened UserModel
  import opened Store
  import opened Jwt
  import opened Email
  import opened AuthService
  import opened SessionService
  import opened UserService
  import opened Authenticate

  /**
   * A second registration of the same email fails Conflict, even when the
   * first one's verification email could not be sent.
   */
  method DuplicateRegistrationConflicts(email: string, password1: string, password2: string, userAgent: Option<string>,
                                        now: int, delivery1: EmailOutcome, delivery2: EmailOutcome, hash: Hasher)
    returns (first: Result<AuthTokens>, second: Result<AuthTokens>)
    ensures first.Success? <==> Delivered(delivery1)
    ensures second == Failure(EMAIL_EXISTS)
  {
    var db := new Db();
    first := CreateUser(db, email, password1, userAgent, now, delivery1, hash);
    assert db.users[0].email == email;
    second := CreateUser(db, email, password2, userAgent, now, delivery2, hash);
  }

  /**
   * After registering, the same password logs in and opens a second
   * session whose access token the gate accepts; any password with another
   * hash fails with the generic credentials error.
   */
  method RegisterThenLogin(email: string, password: string, wrong: string, userAgent: Option<string>, now: int,
                           delivery: EmailOutcome, hash: Hasher)
    returns (login: Result<AuthTokens>, failed: Result<AuthTokens>)
    requires Delivered(delivery) && hash(wrong) != hash(password)
    ensures login.Success? && login.value.user.email == email && !login.value.user.verified
    ensures Gate(Some(login.value.accessToken), now) == Authenticated(Some(login.value.user.id), 3)
    ensures failed == Failure(INVALID_CREDENTIALS)
  {
    var db := new Db();
    var reg := CreateUser(db, email, password, userAgent, now, delivery, hash);
    assert db.users[0].email == email;
    login := LoginUser(db, email, password, userAgent, now, hash);
    failed := LoginUser(db, email, wrong, userAgent, now, hash);
  }

  /**
   * Password-reset requests for one user at one instant: the first two are
   * let through (each stores a code), the third is refused TooManyRequests.
   */
  method ForgotPasswordRateLimit(email: string, password: string, now: int, signup: EmailOutcome,
                                 delivery: EmailOutcome, hash: Hasher)
    returns (first: Result<Option<SentEmail>>, second: Result<Option<SentEmail>>, third: Result<Option<SentEmail>>)
    ensures first != Failure(TOO_MANY) && second != Failure(TOO_MANY)
    ensures Delivered(delivery) ==> first.Success? && second.Success?
    ensures third == Failure(TOO_MANY)
  {
    var db := new Db();
    var reg := CreateUser(db, email, password, None, now, signup, hash);
    assert db.users[0].email == email;
    var since := FiveMinutesAgo(now);
    assert RecentCodeIds(db.codes, 0, ForgotPassword, since) == {};
    ghost var codes0, id0 := db.codes, db.nextId;
    first := SendPasswordResetEmail(db, email, now, delivery);
    CountAfterInsert(codes0, db.codes[id0], 0, ForgotPassword, since);
    ghost var codes1, id1 := db.codes, db.nextId;
    second := SendPasswordResetEmail(db, email, now, delivery);
    CountAfterInsert(codes1, db.codes[id1], 0, ForgotPassword, since);
    third := SendPasswordResetEmail(db, email, now, delivery);
  }

  /**
   * Re-sending the verification email: the code stored at registration
   * counts, so one re-send at the same instant is let through and the next
   * is refused; two codes are live within five minutes.
   */
  method VerificationResendLimit(email: string, password: string, now: int, signup: EmailOutcome,
                                 delivery: EmailOutcome, hash: Hasher)
    returns (resend: Result<SentEmail>, again: Result<SentEmail>)
    ensures Delivered(delivery) ==> resend.Success?
    ensures resend.Failure? ==> resend.error == SendError(delivery)
    ensures again == Failure(CustomError(TOO_MANY_REQUESTS, "Too many requests, please try again later.", None))
  {
    var db := new Db();
    var reg := CreateUser(db, email, password, None, now, signup, hash);
    var since := FiveMinutesAgo(now);
    assert RecentCodeIds(map[], 0, EmailVerification, since) == {};
    CountAfterInsert(map[], db.codes[1], 0, EmailVerification, since);
    ghost var codes1, id1 := db.codes, db.nextId;
    resend := SendVerificationEmail(db, 0, now, delivery);
    CountAfterInsert(codes1, db.codes[id1], 0, EmailVerification, since);
    again := SendVerificationEmail(db, 0, now, delivery);
  }

  /**
   * Logging out deletes the session, so its refresh token is refused; the
   * access token of the deleted session still passes the gate until it
   * expires, because the gate never reads the session store.
   */
  method LogoutRevokesRefreshOnly(email: string, password: string, userAgent: Option<string>, now: int,
                                  delivery: EmailOutcome, hash: Hasher)
    returns (refreshed: Result<RefreshResult>, gate: Decision)
    requires Delivered(delivery)
    ensures refreshed == Failure(SESSION_EXPIRED)
    ensures gate == Authenticated(Some(0), 2)
  {
    var db := new Db();
    var reg := CreateUser(db, email, password, userAgent, now, delivery, hash);
    LogoutUser(db, reg.value.accessToken, now);
    refreshed := RefreshUserAccessToken(db, reg.value.refreshToken, now);
    gate := Gate(Some(reg.value.accessToken), now);
  }

  /**
   * The reset flow: after a reset with the emailed code, every session of
   * the user is gone (the refresh token of an earlier login is refused),
   * the old password no longer logs in and the new one does.
   */
  method ResetFlow(email: string, oldPassword: string, newPassword: string, now: int, delivery: EmailOutcome, hash: Hasher)
    returns (reset: Result<PublicUser>, refreshed: Result<RefreshResult>, oldLogin: Result<AuthTokens>, newLogin: Result<AuthTokens>)
    requires Delivered(delivery) && hash(oldPassword) != hash(newPassword)
    ensures reset.Success? && reset.value.email == email
    ensures refreshed == Failure(SESSION_EXPIRED)
    ensures oldLogin == Failure(INVALID_CREDENTIALS)
    ensures newLogin.Success?
  {
    var db := new Db();
    var reg := CreateUser(db, email, oldPassword, None, now, delivery, hash);
    assert db.users[0].email == email;
    var login := LoginUser(db, email, oldPassword, None, now, hash);
    assert RecentCodeIds(db.codes, 0, ForgotPassword, FiveMinutesAgo(now)) == {};
    var sent := SendPasswordResetEmail(db, email, now, delivery);
    reset := ResetUserPassword(db, newPassword, sent.value.value.url.code, now, hash);
    assert db.users[0].email == email;
    refreshed := RefreshUserAccessToken(db, login.value.refreshToken, now);
    oldLogin := LoginUser(db, email, oldPassword, None, now, hash);
    newLogin := LoginUser(db, email, newPassword, None, now, hash);
  }

  /**
   * Verifying with the code from registration marks the user verified and
   * uses the code up: a second attempt fails NotFound, and re-sending the
   * email fails BadRequest.
   */
  method VerifyEmailFlow(email: string, password: string, now: int, signup: EmailOutcome, delivery: EmailOutcome, hash: Hasher)
    returns (verified: Result<PublicUser>, again: Result<PublicUser>, resend: Result<SentEmail>)
    ensures verified.Success? && verified.value.verified && verified.value.email == email
    ensures again == Failure(INVALID_CODE)
    ensures resend == Failure(CustomError(BAD_REQUEST, "Email is already verified.", None))
  {
    var db := new Db();
    var reg := CreateUser(db, email, password, None, now, signup, hash);
    assert FindValidCode(db.codes, 1, EmailVerification, now).Some?;
    verified := VerifyUserEmail(db, 1, now);
    assert 1 !in db.codes && db.users[0].verified;
    again := VerifyUserEmail(db, 1, now);
    resend := SendVerificationEmail(db, 0, now, delivery);
  }

  /** A user cannot revoke another user's session; its owner can, once. */
  method SessionRevokeOwnership(email1: string, email2: string, password: string, now: int, delivery: EmailOutcome, hash: Hasher)
    returns (byOther: Outcome, byOwner: Outcome, twice: Outcome)
    requires email1 != email2 && Delivered(delivery)
    ensures byOther == Fail(CustomError(NOT_FOUND, "Session not found.", None))
    ensures byOwner == Pass
    ensures twice == byOther
  {
    var db := new Db();
    var first := CreateUser(db, email1, password, None, now, delivery, hash);
    assert db.users[0].email == email1;
    var second := CreateUser(db, email2, password, None, now, delivery, hash);
    byOther := DeleteUserSession(db, 2, 3);
    byOwner := DeleteUserSession(db, 2, 0);
    twice := DeleteUserSession(db, 2, 0);
  }
}
