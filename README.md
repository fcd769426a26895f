# jwt-auth-login: a Dafny model of the auth engine

This project models the core of jwt-auth-login. The backend is an Express and
MongoDB service that registers users, logs them in with a pair of JSON Web
Tokens (a 15-minute access token and a 30-day refresh token, each tied to a
session row), slides sessions forward on refresh, verifies email addresses,
and resets passwords through emailed one-time codes. The model also covers
the client-side rules that mirror the backend: field validators, the
password-strength meter, the user-agent label and the API-error parser.

The model is organised by source file:

- `Store`: the three collections. It holds users, sessions and verification codes as maps keyed by object id in the class `Store.Db`, plus the queries the services run.
- `AuthService`, `SessionService`, `UserService`: the service operations. Each is a method that updates the `Db` fields step by step, as the source does. Its `ensures` gives the whole new state and the result for every branch, including the error paths and the writes that stay behind when a later step fails.
- `Authenticate`: the request gate. It is a pure decision (`Gate`) and a handler that writes the identity into a `Request` object.
- `Jwt`: option selection for the two token kinds, over an abstract token codec.
- `AppAssert`, `ErrorHandler`: `appAssert` as a checked outcome, and the error handler as a function from the error and the request path to the response.
- `UserModel`: the user record, the pre-save hash hook, `comparePassword` and `omitPassword`.
- `Zod`, `AuthSchema`: the request schemas as check chains with their acceptance conditions.
- `Validators`, `PasswordStrength`, `UserAgent`, `Errors`: the frontend helpers.
- `ErrorFlow`, `Protocol`: cross-module results.
  - `ErrorFlow.ValidationFailureReachesForm` takes a validation error through the handler and into the client's field map.
  - The `Protocol` methods run whole client flows from an empty store: register, log in, log out, refresh, verify and reset.

External effects are parameters, so the model has no I/O. The parameters are:

- `now`: the clock, in milliseconds.
- `EmailOutcome`: the result of the Resend call.
- `hash`: bcrypt, as an uninterpreted function.
- `isEmail`: Zod's `.email()` format check.

Tokens are a datatype that knows its payload, its secret, its audience and its expiry instant. Object ids are natural numbers drawn from one counter, so an id is fresh in every collection. What the model shows about the code as written:

- The email-verification rate limit admits two codes per five minutes: the one stored at registration and one re-send. The check `count <= 1` happens before the insert. (`Protocol.VerificationResendLimit`.)
- The OS rules test "Mac OS X" and "Linux" before "Android" and "iPhone"/"iPad". So any user agent that carries a desktop marker is labelled with the desktop OS. (`UserAgent.DesktopMarkersShadowMobile`.)
- The gate never reads the session store, so an access token outlives its session by up to fifteen minutes. (`Protocol.LogoutRevokesRefreshOnly`.)

## Model

| member | source | states |
|---|---|---|
| AppAssert.Assert | backend/src/utils/app-assert.ts:13-18 | passes exactly when the condition holds; otherwise the error carries the given status, message and optional code unchanged |
| Jwt.SignToken | backend/src/utils/jwt.ts:45-54 | without options the token uses the access secret and a 15-minute expiry; the given options supply secret and expiry otherwise; the audience is always ["user"] |
| Jwt.VerifyToken | backend/src/utils/jwt.ts:56-75 | never fails to answer; yields the payload exactly when the token was signed with the selected secret, is unexpired and names audience "user"; "jwt expired" exactly for a well-signed, expired token |
| Jwt.SignThenVerify | backend/src/utils/jwt.ts:45-75 | a token verifies under the secret it was signed with until its expiry, then reports "jwt expired" |
| Jwt.AccessTokenLifetime | backend/src/utils/jwt.ts:25-28 | an access token is accepted for exactly fifteen minutes after issue |
| Jwt.RefreshTokenLifetime | backend/src/utils/jwt.ts:29-32 | a refresh token uses the refresh secret and verifies under it for exactly thirty days |
| Jwt.KindsAreSeparate | backend/src/utils/jwt.ts:25-43 | a refresh token fails access verification and an access token fails refresh verification, both with "invalid signature" |
| UserModel.NewUser | backend/src/models/user.model.ts:16-37 | a new user has the given id and email, verified false, the hash of the plain password, and both timestamps at `now` |
| UserModel.PreSave | backend/src/models/user.model.ts:31-37 | the hook changes only the password, and only when it was modified, replacing it by its hash |
| UserModel.SaveUnmodifiedKeepsHash | backend/src/models/user.model.ts:31-37 | saving again without a password change keeps the stored hash |
| UserModel.NewUserAcceptsItsPassword | backend/src/models/user.model.ts:39-41 | a new user's own password compares equal |
| UserModel.OmitPassword | backend/src/models/user.model.ts:43-47 | the public record keeps id, email, verified and both timestamps unchanged |
| UserModel.OmitPasswordHidesPassword | backend/src/models/user.model.ts:43-47 | the public record does not depend on the password |
| Store.FindUserByEmail | backend/src/services/auth.service.ts:112-113 | finds a user exactly when one has that email, and the one found has it |
| Store.FindValidCode | backend/src/services/auth.service.ts:197-202 | finds a code exactly when that id is stored with the requested type and expires after `now` |
| Store.CountRecentCodes | backend/src/services/auth.service.ts:231-235 | the count of the user's codes of a type created after the instant, never more than the collection size |
| Store.CountAfterInsert | backend/src/services/auth.service.ts:236-248 | storing a code raises the count by one exactly when that code matches the filter |
| Store.DeleteCodes | backend/src/services/auth.service.ts:213-216 | removes exactly the codes of that user and type and keeps every other code unchanged |
| Store.DeleteSessionsOf | backend/src/services/auth.service.ts:300-302 | removes exactly the user's sessions and keeps every other session unchanged |
| Store.Remove | backend/src/services/auth.service.ts:151 | removes that one key, a no-op when absent, and keeps every other entry |
| Store.Db.NewId | backend/src/services/auth.service.ts:57-68 | a fresh id, unused in all three collections |
| AuthService.CreateUser | backend/src/services/auth.service.ts:51-108 | a taken email fails Conflict with nothing changed; otherwise the user and a one-year EmailVerification code are stored; a failed send fails INTERNAL with no session; else one thirty-day session and its tokens |
| AuthService.LoginUser | backend/src/services/auth.service.ts:110-146 | unknown email and wrong password fail with the same Unauthorized error and change nothing; success adds one thirty-day session and keeps every other |
| AuthService.LogoutUser | backend/src/services/auth.service.ts:148-153 | never fails; deletes exactly the session a verifying access token names, else changes nothing |
| AuthService.RefreshUserAccessToken | backend/src/services/auth.service.ts:155-193 | an unverifiable token fails "Invalid refresh token.", a missing or expired session "Session expired.", both with no change; the expiry moves to thirty days on, with a new refresh token, exactly when under a day is left |
| AuthService.VerifyUserEmail | backend/src/services/auth.service.ts:195-222 | only a live EmailVerification code is accepted (else NotFound, no change); its user becomes verified and all that user's EmailVerification codes go, other codes stay |
| AuthService.SendPasswordResetEmail | backend/src/services/auth.service.ts:224-270 | an unknown email returns quietly with no change; two or more recent ForgotPassword codes fail TooManyRequests; otherwise one one-hour code is stored, even if the send fails, and the link carries its id and expiry |
| AuthService.ResetUserPassword | backend/src/services/auth.service.ts:272-308 | only a live ForgotPassword code is accepted (else NotFound, no change); the password becomes the new hash, only that code is deleted, and all the user's sessions go while others stay |
| SessionService.Project | backend/src/services/session.service.ts:11-15 | a listed entry exposes only id, user agent and creation time |
| SessionService.FindListed | backend/src/services/session.service.ts:6-15 | lists exactly the caller's unexpired sessions, projected, with distinct ids when the documents have them |
| SessionService.InsertNewestFirst | backend/src/services/session.service.ts:17 | insertion keeps newest-first order and adds exactly one element |
| SessionService.SortNewestFirst | backend/src/services/session.service.ts:16-18 | a newest-first permutation of the input |
| SessionService.MarkCurrent | backend/src/services/session.service.ts:20-25 | each entry is unchanged except that it is current exactly when its id is the caller's session; some entry is current exactly when the caller's session is listed, and over distinct ids at most one is |
| SessionService.MarkedListing | backend/src/services/session.service.ts:5-25 | marking a permutation of the listing shows exactly the caller's unexpired sessions |
| SessionService.GetUserSessions | backend/src/services/session.service.ts:5-26 | exactly the caller's unexpired sessions, newest first, with isCurrent exactly on the caller's own session, each listed once when the documents have distinct ids |
| SessionService.InsertKeepsDistinct | backend/src/services/session.service.ts:16-18 | inserting an entry with a new id into a sequence of distinct ids keeps them distinct |
| SessionService.SortKeepsDistinct | backend/src/services/session.service.ts:16-18 | the newest-first sort keeps distinct ids distinct |
| SessionService.ListingMatchesStore | backend/src/services/session.service.ts:6-10 | read against the session map, an entry is listed exactly when it shows an unexpired session of the caller |
| SessionService.DeleteUserSession | backend/src/services/session.service.ts:28-34 | deletes the one session only when id and owner match, whatever its expiry; otherwise NotFound "Session not found." and nothing changes |
| UserService.GetUserById | backend/src/services/user.service.ts:16-20 | a missing id fails NotFound "User not found."; otherwise the user without its password |
| UserService.SendVerificationEmail | backend/src/services/user.service.ts:22-58 | missing user NotFound, verified user BadRequest, two or more recent codes TooManyRequests, each with no change; otherwise exactly one one-year code is stored, kept when the send fails |
| Authenticate.Gate | backend/src/middleware/authenticate.ts:7-31 | no cookie gives "Not authorized."; a verify failure gives "Token expired." exactly for "jwt expired", else "Invalid Token."; all Unauthorized with InvalidAccessToken; success yields the payload's ids |
| Authenticate.AcceptsFreshAccessToken | backend/src/middleware/authenticate.ts:17-27 | an access token is accepted for its lifetime and names its own session and user |
| Authenticate.RejectsExpiredAccessToken | backend/src/middleware/authenticate.ts:17-23 | an expired access token is refused with "Token expired." |
| Authenticate.RejectsRefreshToken | backend/src/middleware/authenticate.ts:17-23 | a refresh token is refused as "Invalid Token." |
| Authenticate.Handle | backend/src/middleware/authenticate.ts:7-31 | on success sets the request's user and session ids and continues; on failure passes the error on and leaves them |
| Zod.Issues | backend/src/schemas/auth.schema.ts:13-17 | at most one issue per check, all at the given path |
| Zod.NoIssuesIffAllPass | backend/src/schemas/auth.schema.ts:22-36 | a chain reports nothing exactly when every check passes |
| Zod.FirstIssueIsFirstFailure | backend/src/schemas/auth.schema.ts:22-36 | the first issue reported is that of the first failing check |
| AuthSchema.EmailSchemaAccepts | backend/src/schemas/auth.schema.ts:13-17 | an email passes exactly when it is 6 to 100 characters and well formed |
| AuthSchema.PasswordSchemaAccepts | backend/src/schemas/auth.schema.ts:22-36 | a password passes exactly when it is 8 to 100 characters with a number, a letter, a lowercase, an uppercase and a special character |
| AuthSchema.ConfirmPasswordSchemaAccepts | backend/src/schemas/auth.schema.ts:41-44 | the confirmation is checked for length 8 to 100 only |
| AuthSchema.LoginPasswordSchemaAccepts | backend/src/schemas/auth.schema.ts:64-71 | the login password is checked for length 8 to 100 only |
| AuthSchema.ParseRegister | backend/src/schemas/auth.schema.ts:49-59 | accepted exactly when all fields pass and the passwords match; a mismatch always adds "Passwords do not match." at confirmPassword as the last issue |
| AuthSchema.ParseLogin | backend/src/schemas/auth.schema.ts:64-71 | accepted exactly when the email passes and the password has 8 to 100 characters |
| AuthSchema.ParseVerificationCode | backend/src/schemas/auth.schema.ts:76-78 | accepted exactly at length 24, else the one issue "Invalid or expired verification code." |
| AuthSchema.ParseRequestPassword | backend/src/schemas/auth.schema.ts:83-92 | accepted exactly when code length is 24, the password is strong, the confirmation 8 to 100 and equal; a mismatch always adds the refinement's issue last |
| AuthSchema.ParseSessionId | backend/src/schemas/auth.schema.ts:97-99 | accepted exactly at length 24, else the one issue "Invalid session id." |
| ErrorHandler.IssueEntries | backend/src/middleware/error-handler.ts:22-25 | one entry per issue, in order, with the path joined by "." and the message kept |
| ErrorHandler.HandleZodError | backend/src/middleware/error-handler.ts:11-31 | on a path containing "/email/verify": 404 with only "Invalid or expired verification code."; otherwise 400 "Validation failed." with one entry per issue |
| ErrorHandler.HandleError | backend/src/middleware/error-handler.ts:40-51 | cookies are cleared exactly on the refresh path; a Zod error goes to the Zod mapping, a CustomError to its own status, message and code, anything else to 500 "Internal server error." |
| ErrorHandler.FieldPathText | backend/src/middleware/error-handler.ts:23 | an issue at a single field key is reported under that key's name |
| ErrorHandler.PathTextSplits | backend/src/middleware/error-handler.ts:23 | a joined path splits back into its segments when no key contains a dot |
| Strings.Utf16Length | frontend/src/lib/validators.ts:20 | JavaScript's `length`: at least the number of characters and at most twice it, and equal to it exactly when no character is above U+FFFF |
| CharClasses.LowercaseImpliesLetter | frontend/src/lib/validators.ts:3-4 | a string with a lowercase letter has a letter |
| Validators.EmailHasOneAt | frontend/src/lib/validators.ts:14 | a string matching the email pattern has exactly one "@" |
| Validators.ValidateEmail | frontend/src/lib/validators.ts:10-16 | no message exactly when non-blank, 6 to 100 characters and of the pattern's shape; blank gives "Email is required." |
| Validators.ValidatePassword | frontend/src/lib/validators.ts:18-32 | no message exactly when the backend's strong-password condition holds; empty gives "Password is required." |
| Validators.ValidateLoginPassword | frontend/src/lib/validators.ts:35-39 | no message exactly for 8 to 100 characters |
| Validators.ValidateConfirmPassword | frontend/src/lib/validators.ts:41-51 | no message exactly for 8 to 100 characters equal to the password; the mismatch message only after the length rules pass |
| Validators.SurrogatePairsCountTwice | frontend/src/lib/validators.ts:18-32 | "Aa1!" followed by two emoji is 8 UTF-16 units long and passes the password rules |
| Validators.RegisterPasswordPassesLogin | frontend/src/lib/validators.ts:34-39 | every password the register rule accepts, the login rule accepts |
| Validators.EmailMirrorsSchema | frontend/src/lib/validators.ts:10-16 | on non-blank input, with the same format judgement, the client accepts what the schema accepts and shows its first issue |
| Validators.PasswordMirrorsSchema | frontend/src/lib/validators.ts:18-32 | on non-empty input, the client accepts what the schema accepts and shows its first issue |
| Validators.LoginPasswordMirrorsSchema | frontend/src/lib/validators.ts:35-39 | on non-empty input, the client shows the login schema's first issue |
| Validators.ConfirmPasswordMirrorsSchema | frontend/src/lib/validators.ts:41-51 | on non-empty input, the client shows the confirmation's first issue, and the refinement's message when only the match fails |
| PasswordStrength.Score | frontend/src/lib/passwordStrength.ts:6-11 | between 0 and 5, and 5 exactly when all five criteria hold |
| PasswordStrength.Classify | frontend/src/lib/passwordStrength.ts:13-16 | a level from 1 to 4; 1 exactly for scores up to one, 4 exactly for five |
| PasswordStrength.GetPasswordStrength | frontend/src/lib/passwordStrength.ts:2-17 | the five increments and the if-chain compute the specified strength |
| PasswordStrength.LevelRange | frontend/src/lib/passwordStrength.ts:5-16 | the empty password is level 0 with empty label and colour, and only it; any other is level 1 to 4 |
| PasswordStrength.StrongIffAllCriteria | frontend/src/lib/passwordStrength.ts:6-16 | level 4 exactly when length at least 8 and uppercase, lowercase, digit and special are all present |
| PasswordStrength.MoreCriteriaNeverLower | frontend/src/lib/passwordStrength.ts:13-16 | meeting every criterion another password meets never gives a lower level |
| UserAgent.FirstLabelFrom | frontend/src/lib/utils.ts:13-25 | the label is the default or the name of a rule at or after the start |
| UserAgent.FirstLabelIsFirstMatch | frontend/src/lib/utils.ts:13-25 | the label is the name of the first matching rule |
| UserAgent.NoMatchGivesDefault | frontend/src/lib/utils.ts:9-10 | with no matching rule the label is the default |
| UserAgent.RuleMatches | frontend/src/lib/utils.ts:13-25 | each rule matches exactly when one of its literal patterns occurs |
| UserAgent.ParseUserAgent | frontend/src/lib/utils.ts:5-28 | the two reassignment chains compute the specified label |
| UserAgent.LabelShape | frontend/src/lib/utils.ts:6-27 | absent or empty gives "Unknown device"; otherwise "<browser> on <os>" with each half a rule name or its default |
| UserAgent.WindowsTenFirst | frontend/src/lib/utils.ts:13-14 | "Windows NT 10.0" gives "Windows 10/11", not generic Windows |
| UserAgent.DesktopMarkersShadowMobile | frontend/src/lib/utils.ts:15-18 | with "Linux" and no Windows or Mac marker the OS is Linux even with "Android"; with "Mac OS X" and no Windows marker it is macOS even for iPhone or iPad |
| UserAgent.BrowserPriority | frontend/src/lib/utils.ts:21-25 | Edge before Opera before Chrome before Firefox before Safari |
| Errors.OrDefault | frontend/src/lib/errors.ts:16 | a present non-empty message is kept, otherwise the fallback |
| Errors.FieldMapIsLastWins | frontend/src/lib/errors.ts:12-14 | the keys are exactly the listed paths, each mapped to the message of the last entry with that path |
| Errors.ParseApiError | frontend/src/lib/errors.ts:4-31 | a non-axios error gives "An unexpected error occurred." and no fields; with an errors array the written field map and the message or "Validation failed."; without, the message or "An error occurred. Please try again." and no fields |
| ErrorFlow.ClientData | frontend/src/lib/errors.ts:8 | a validation body is read with its errors array, one entry per written entry |
| ErrorFlow.ValidationFailureReachesForm | backend/src/middleware/error-handler.ts:22-30 | a Zod failure off the verify-email route reaches the form as "Validation failed." with one field per distinct issue path, showing that path's last issue |
| Protocol.DuplicateRegistrationConflicts | backend/src/services/auth.service.ts:51-54 | a second registration of an email fails Conflict, even when the first one's email could not be sent |
| Protocol.RegisterThenLogin | backend/src/services/auth.service.ts:110-146 | the registered password logs in with a token the gate accepts; a password with another hash fails with the generic error |
| Protocol.ForgotPasswordRateLimit | backend/src/services/auth.service.ts:229-240 | of three reset requests at one instant the first two pass and the third fails TooManyRequests |
| Protocol.VerificationResendLimit | backend/src/services/user.service.ts:27-38 | after registration one re-send passes and the next fails TooManyRequests |
| Protocol.LogoutRevokesRefreshOnly | backend/src/middleware/authenticate.ts:7-31 | after logout the refresh token fails "Session expired." while the access token still passes the gate |
| Protocol.ResetFlow | backend/src/services/auth.service.ts:272-308 | after a reset an earlier login's refresh token fails, the old password fails and the new one logs in |
| Protocol.VerifyEmailFlow | backend/src/services/auth.service.ts:195-222 | the registration code verifies the user once; reuse fails NotFound and a re-send fails "Email is already verified." |
| Protocol.SessionRevokeOwnership | backend/src/services/session.service.ts:28-34 | another user cannot revoke a session; its owner can, once |

## Left out

- Zod internals: the `.email()` format check is the parameter `isEmail`. A `/[class]+/` regex is modelled as "one character of the class occurs", which is equivalent for an unanchored test.
- bcrypt: hashing and comparison are one uninterpreted function. `comparePassword` is equality of hashes, so properties that need distinct passwords to hash apart say so in their `requires`.
- The JSON Web Token codec: no signing algorithm, no encoding and no clock skew. Expiry is compared in milliseconds, although jsonwebtoken rounds to whole seconds. The checks run in the order malformed, then signature, then expiry, then audience.
- `utils/time`, `utils/auth-cookies`, `constants/env`, the code and session models, and the email templates are not part of this model. Their constants are defined by name: one day, thirty days, a 365-day year, one hour, five minutes, the refresh path "/auth/refresh", and two distinct secrets.
- String lengths are JavaScript's UTF-16 lengths (`Strings.Utf16Length`) in every length rule: the Zod `.min`/`.max`/`.length` checks, the client validators and the strength meter's eight-character criterion.
- AuthService.VerifyUserEmail: the code is an object id here, so a 24-character string that is not hexadecimal cannot be expressed. The schema accepts such a string, Mongoose's cast then throws, and the error handler answers 500 "Internal server error.", not the 404 the model promises for a code it does not find.
- AuthService.ResetUserPassword: the same holds for its verification code. A malformed 24-character code reaches the 500 path, not 404.
- SessionService.DeleteUserSession: the same holds for the session id in the route. A malformed 24-character id reaches the 500 path, not 404.
- Links are a datatype (code id and expiry), not URL strings. `APP_ORIGIN` and the 24-character hexadecimal rendering of object ids are not modelled. Ids are natural numbers from one counter.
- The clock: each operation reads one instant `now`. The source reads `Date.now()` and `new Date()` separately within one call. Mongoose's timestamps are not modelled beyond `createdAt`/`updatedAt` set to `now`.
- The unique index on email: `Store.Db.Valid` keeps emails unique, and the services are sequential. The race between `exists` and `create` is left out.
- SessionService.SortNewestFirst: the order among sessions created at the same instant is unspecified in MongoDB. It is left open here too.
- SessionService.GetUserSessions: it reads a snapshot sequence of the collection, tied to `Db.sessions` by `SessionService.SnapshotOf`. `isCurrent` absent is `false`.
- Authenticate.Gate: the `try`/`catch` is implicit, since every failure is already a value passed to `next`.
- ErrorHandler.HandleError: the response object is a returned record, not mutated in place. Cookie clearing is one flag.
- The React pages, layouts and components, the react-query hooks, the axios refresh interceptor, the HTTP call wrappers, the controllers and routes, and `formatDate` are outside the modelled core.
- Resend: delivery is the `EmailOutcome` parameter.
