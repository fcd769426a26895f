/** `services/user.service.ts`: reading the caller's user and re-sending the verification email. */
module UserService {
  import opened Wrappers
  import opened HttpStatus
  import opened Time
  import opened AppAssert
  import opened UserModel
  import opened Store
  import opened Email

  const USER_NOT_FOUND := CustomError(NOT_FOUND, "User not found.", None)

  /** `getUserById`: a missing id fails NotFound; otherwise the user without its password. */
  function GetUserById(users: map<ObjectId, User>, userId: ObjectId): (r: Result<PublicUser>)
    ensures r.Failure? <==> userId !in users
    ensures r.Failure? ==> r.error == USER_NOT_FOUND
    ensures r.Success? ==> r.value == OmitPassword(users[userId])
  {
    var check := Assert(userId in users, NOT_FOUND, "User not found.", None);
    if check.Fail? then Failure(check.error) else Success(OmitPassword(users[userId]))
  }

  /**
   * `sendVerificationEmail`: a missing user fails NotFound and an already
   * verified one BadRequest, before anything is stored; with two or more
   * EmailVerification codes issued to the user in the last five minutes it
   * fails TooManyRequests. Otherwise exactly one new one-year code is added,
   * kept even when the email then fails INTERNAL, and the link embeds its id.
   */
  method SendVerificationEmail(db: Db, userId: ObjectId, now: int, delivery: EmailOutcome) returns (r: Result<SentEmail>)
    requires db.Valid()
    modifies db
    ensures db.Valid()
    ensures db.users == old(db.users) && db.sessions == old(db.sessions)
    ensures
      if userId !in old(db.users) then
        r == Failure(USER_NOT_FOUND) && unchanged(db)
      else if old(db.users)[userId].verified then
        r == Failure(CustomError(BAD_REQUEST, "Email is already verified.", None)) && unchanged(db)
      else if CountRecentCodes(old(db.codes), userId, EmailVerification, FiveMinutesAgo(now)) > 1 then
        r == Failure(CustomError(TOO_MANY_REQUESTS, "Too many requests, please try again later.", None)) && unchanged(db)
      else
        var codeId := old(db.nextId);
        && db.codes == old(db.codes)[codeId := VerificationCode(codeId, userId, EmailVerification, now, OneYearFromNow(now))]
        && db.nextId == codeId + 1
        && r == if Delivered(delivery) then Success(SentEmail(VerifyEmailLink(codeId), delivery.id)) else Failure(SendError(delivery))
  {
    var check := Assert(userId in db.users, NOT_FOUND, "User not found.", None);
    if check.Fail? {
      return Failure(check.error);
    }
    var user := db.users[userId];
    check := Assert(!user.verified, BAD_REQUEST, "Email is already verified.", None);
    if check.Fail? {
      return Failure(check.error);
    }

    var count := CountRecentCodes(db.codes, userId, EmailVerification, FiveMinutesAgo(now));
    check := Assert(count <= 1, TOO_MANY_REQUESTS, "Too many requests, please try again later.", None);
    if check.Fail? {
      return Failure(check.error);
    }

    var codeId := db.NewId();
    db.codes := db.codes[codeId := VerificationCode(codeId, userId, EmailVerification, now, OneYearFromNow(now))];

    var url := VerifyEmailLink(codeId);
    check := Assert(Delivered(delivery), INTERNAL_SERVER_ERROR, FailureMessage(delivery), None);
    if check.Fail? {
      return Failure(check.error);
    }
    r := Success(SentEmail(url, delivery.id));
  }
}
