# Authentication core of a MERN login service, in Dafny

This project models the authentication core of an Express/Redis/MongoDB
login service and its browser-side request hooks. It covers:

- **the user controller** (`backend/controllers/user-controller.js`):
  registration with an emailed verification link, login by password and then
  a six-digit one-time code, code resend, session refresh, logout, CSRF-token
  reissue, change of password, and forgotten-password reset. The handlers run
  over a Redis-like key/value store with per-key expiry and a table of users.
  The store is `TtlStore`, a map with an explicit clock. The keys live in
  prefix-separated families (`KeySpace`). `UserController.AuthServer` is a
  class whose fields are the store, the clock, the users in creation order and
  a log of the calls the handlers make into code outside the model (mail, token
  issue and revocation).
- **the request schemas** (`backend/config/zod.js`): `Validation`.
- **the route table** (`backend/routes/user-routes.js`): `UserRoutes` lists
  the registrations in order. Dispatch takes the first one whose verb and path
  pattern match. Lemmas state which middleware each endpoint runs and in what
  order.
- **the browser hooks** (`frontend/src/apiInterceptor.js`): `ApiInterceptor`
  covers the cookie reader and the request hook that copies the `csrfToken`
  cookie into `x-csrf-token`. It also covers the response hook that answers a
  403 by refreshing the CSRF token or the session once and replaying the
  request. The response hook is split at its `await` into `OnError` and
  `OnCsrfRefreshed` / `OnSessionRefreshed`. Its module-level flags and queues
  are the fields of `Interceptor`.

Where the code behaves in surprising ways, the model follows the code:

- The duplicate-email branches of `registerUser` (user-controller.js:58-62) and `verifyUser`
  (user-controller.js:117-121) send a 400 but do not return. Registration therefore still stages
  the pending account and arms the rate limit. Verification still creates a
  second record with the same email. For this reason users are a sequence, and
  a lookup by email or id finds the first record in creation order
  (`UserIndex`).
- Only the first response a handler sends is modelled (`Response`). A second
  send would make Express throw after the reply has gone.
- In `verifyOtp` a missing user after the code is consumed dereferences
  `null`, so the handler throws. The model gives `Thrown`.

bcrypt is modelled as an injective `Hash` (an assumption of the model, see "## Left out"). Opaque calls are modelled as follows:

- The random token, the one-time code, new user ids and the results of
  `generateToken`, `verifyRefreshToken` and `generateCSRFToken` are
  parameters.
- The email-format check is a predicate given to the server.
- Mail sending and token issue/revocation are entries in `events`.

## Model

| member | source | states |
|---|---|---|
| TtlStore.SetExVisibleForTtl | backend/controllers/user-controller.js:76 | a value written with expiry `ttl` reads back exactly while fewer than `ttl` seconds have passed, and reads as absent afterwards |
| TtlStore.SetExLeavesOthers | backend/controllers/user-controller.js:84 | writing one key changes what no other key reads |
| TtlStore.DelHides | backend/controllers/user-controller.js:111 | after a delete the key reads as absent and every other key reads as before |
| TtlStore.ExpiryIsFinal | backend/controllers/user-controller.js:103-108 | a key that has expired stays absent at every later time |
| KeySpace.SpaceOfKeys | backend/controllers/user-controller.js:48-476 | each of the nine key builders (register/login/resend rate limits, verify, otp, reset, refresh_token, user, session) lands in its own prefix family, so keys of different families never collide |
| KeySpace.TicketKeysInjective | backend/controllers/user-controller.js:74-462 | the verify, otp, reset and refresh_token keys determine the token, email or id they were built from |
| Credentials.CompareAdmitsOnlyItsPassword | backend/controllers/user-controller.js:174-176 | comparing against a stored hash succeeds exactly for the password that was hashed |
| Credentials.DecimalRoundTrip | backend/controllers/user-controller.js:183-186 | the decimal string of a number is all digits and parses back to the number |
| Credentials.OtpStrings | backend/controllers/user-controller.js:183-222 | every code in 100000..999999 is six digits, and two codes have equal strings iff they are equal, so verifyOtp's string comparison compares codes |
| Validation.RegisterAcceptsIff | backend/config/zod.js:3-7 | registerSchema accepts iff the name has at least 3 characters, the email is well formed and the password has at least 8; both bounds inclusive |
| Validation.LoginAcceptsIff | backend/config/zod.js:9-12 | loginSchema accepts iff the email is well formed and the password has at least 8 characters; it has no name field |
| Validation.RegisterIssuesInOrder | backend/config/zod.js:3-7 | each failing field yields its own issue with its own message, at most three issues, and the first issue reported belongs to the first failing field in the order name, email, password |
| Validation.LoginIsRegisterWithoutName | backend/config/zod.js:3-12 | with an acceptable name, the register checks report exactly what the login checks report |
| UserController.UserIndex | backend/controllers/user-controller.js:56 | a lookup returns the first record in creation order that has the email or id, and returns nothing iff no record has it |
| UserController.AuthServer.RegisterUser | backend/controllers/user-controller.js:24-90 | invalid input gives the first issue and no change; an armed rate limit gives 429 and no change; otherwise it stages `verify:<token>` with the name, email and hashed password for 300 s, mails the link, arms the 60 s limit and creates no user, answering 400 for a known email and 200 otherwise |
| UserController.AuthServer.VerifyUser | backend/controllers/user-controller.js:92-133 | an empty token gives 400; an absent or expired ticket gives 400 "expired" and no change; otherwise the ticket is deleted and one user with the staged data is appended, answering 201, or 400 when the email is already taken |
| UserController.AuthServer.LoginUser | backend/controllers/user-controller.js:135-199 | invalid input, an armed rate limit (429), an unknown email or a wrong password leave store and log unchanged; success stores the six-digit code under `otp:<email>` for 300 s, mails it and arms the 60 s limit |
| UserController.AuthServer.VerifyOtp | backend/controllers/user-controller.js:201-243 | missing fields, an absent code or a different code give 400 and no change; the matching code is deleted before tokens are issued and the user is welcomed; a missing user then throws |
| UserController.AuthServer.ResendOtp | backend/controllers/user-controller.js:245-289 | a missing email or unknown user gives 400, an armed resend limit gives 429, each with no change; otherwise a new code overwrites `otp:<email>` for 300 s, is mailed, and the 60 s resend limit is armed |
| UserController.AuthServer.RefreshToken | backend/controllers/user-controller.js:324-349 | no cookie gives 401; a rejected token gives 401 and clears the three auth cookies; otherwise an access token and a CSRF token are issued and 200 answered |
| UserController.AuthServer.LogOutUser | backend/controllers/user-controller.js:351-365 | revokes the refresh and CSRF tokens, deletes `user:<id>`, answers 200 and clears the three auth cookies |
| UserController.AuthServer.RefreshCsrf | backend/controllers/user-controller.js:369-378 | issues a new CSRF token for the user and returns it with 200 |
| UserController.AuthServer.ChangePassword | backend/controllers/user-controller.js:383-416 | missing fields (400), an unknown user (404) or a wrong old password (400) change nothing; success rehashes only that user's password, and rewrites `refresh_token:<id>` to the current cookie for 7 days only when a different token is stored |
| UserController.AuthServer.ForgotPassword | backend/controllers/user-controller.js:421-446 | a missing email gives 400; otherwise the answer is the same 200 whether or not the email is known, and only for a known email is `reset:<token>` stored for 15 minutes and the link mailed |
| UserController.AuthServer.ResetPassword | backend/controllers/user-controller.js:451-484 | missing fields or an absent ticket give 400 and no change; a present ticket is consumed even when its user is gone (404); otherwise the password is rehashed, `refresh_token:<id>` deleted and the refresh and access cookies are cleared; csrfToken is left |
| Scenarios.RegisterThenVerifyTwice | backend/controllers/user-controller.js:24-133 | registration alone creates no user; the verification link creates exactly one; the same link again reports it expired and creates nothing |
| Scenarios.OtpIsSingleUse | backend/controllers/user-controller.js:135-243 | after login a wrong code is refused and leaves the code in place; the right code succeeds once and then reads as expired |
| Scenarios.LoginRateLimit | backend/controllers/user-controller.js:159-194 | a second login from the same address for the same email is refused with 429 at 0 and 59 seconds and accepted at 60 |
| Scenarios.ForgotThenResetTwice | backend/controllers/user-controller.js:421-484 | unknown and known emails get the same answer; the reset link works once and then reports an invalid token; only the password changes |
| Scenarios.ResetTicketConsumedOnMissingUser | backend/controllers/user-controller.js:462-470 | a reset ticket whose user is gone answers 404 and is still used up, so a retry gets 400 |
| Scenarios.ChangePasswordTwice | backend/controllers/user-controller.js:383-416 | a wrong old password is refused; after a change the old password is refused and the new one accepted |
| Scenarios.ResendInvalidatesPreviousCode | backend/controllers/user-controller.js:135-289 | from any valid state where the user can log in, after a login and a resend the code mailed at login is refused with "Invalid Otp" and the resent code is accepted |
| Scenarios.RegistrationRateLimit | backend/controllers/user-controller.js:48-84 | from any valid state, a second registration from the same address for the same email is refused with 429 less than 60 seconds after the first, and not at 60 seconds |
| Scenarios.VerifyLinkSingleUse | backend/controllers/user-controller.js:92-133 | from any valid state, a live verification link adds exactly one record, and used again it answers "expired" |
| UserRoutes.DispatchFromFirst | backend/routes/user-routes.js:24-43 | dispatch picks the first registration that answers the verb and path, and answers nothing iff none does |
| UserRoutes.LogoutRoute | backend/routes/user-routes.js:30 | POST /logout runs isAuth, then verifyCSRFToken, then logOutUser |
| UserRoutes.ChangePasswordRoute | backend/routes/user-routes.js:37 | POST /change-password runs isAuth, then verifyCSRFToken, then changePassword |
| UserRoutes.UploadAvatarRoute | backend/routes/user-routes.js:38-43 | POST /upload-avatar runs isAuth and verifyCSRFToken before the upload middleware and the handler |
| UserRoutes.RefreshCsrfRoute | backend/routes/user-routes.js:31 | POST /refresh-csrf runs isAuth and no CSRF check |
| UserRoutes.ProfileAndAdminRoutes | backend/routes/user-routes.js:28-32 | GET /me runs isAuth only; GET /admin runs isAuth, then authorizedAdmin |
| UserRoutes.EarlyPublicRoutes | backend/routes/user-routes.js:24-27 | POST /register, /login and /verify reach their handlers with no middleware |
| UserRoutes.LatePublicRoutes | backend/routes/user-routes.js:29-35 | POST /refresh, /resend-otp and /forgot-password reach their handlers with no middleware |
| UserRoutes.ParamRoutes | backend/routes/user-routes.js:26-36 | POST /verify/<token> and /reset-password/<token> reach verifyUser and resetPassword with no middleware, for any single-segment token |
| UserRoutes.GuardOrder | backend/routes/user-routes.js:24-43 | wherever the CSRF check runs it is second, right after isAuth; the admin check guards exactly GET /admin |
| UserRoutes.AuthenticatedPostsCheckCsrf | backend/routes/user-routes.js:24-43 | every authenticated POST endpoint checks CSRF except /refresh-csrf |
| ApiInterceptor.JoinSplit | frontend/src/apiInterceptor.js:14 | joining the pieces of `split("; ")` with the separator gives the cookie string back |
| ApiInterceptor.SplitPiecesHaveNoSeparator | frontend/src/apiInterceptor.js:14 | no piece of the split contains the separator |
| ApiInterceptor.SplitJoin | frontend/src/apiInterceptor.js:14 | splitting a join of separator-free pieces gives the pieces back |
| ApiInterceptor.CookieLookupFirst | frontend/src/apiInterceptor.js:15-21 | the lookup finds a value iff some piece starts with `name=`, and the value is the rest of the first such piece |
| ApiInterceptor.CookieValueOfPairs | frontend/src/apiInterceptor.js:10-22 | for a cookie string of `key=value` pairs, getCookie returns the value of the first pair whose key equals the name; a longer key that starts with the name is not taken |
| ApiInterceptor.GetCookie | frontend/src/apiInterceptor.js:10-22 | no document or an empty cookie string gives null; otherwise the scan returns what the first-match lookup over the split pieces gives |
| ApiInterceptor.AttachCsrfHeader | frontend/src/apiInterceptor.js:30-48 | `x-csrf-token` is set to the cookie's value iff the verb is post, put, delete or patch and the `csrfToken` cookie is non-empty; nothing else about the request changes |
| ApiInterceptor.Settle | frontend/src/apiInterceptor.js:55-67 | every parked request is settled once, in parking order, resumed iff there is no error |
| ApiInterceptor.Interceptor.ProcessQueue | frontend/src/apiInterceptor.js:55-60 | settles each request of the session queue in order and empties it |
| ApiInterceptor.Interceptor.ProcessCsrfQueue | frontend/src/apiInterceptor.js:62-67 | settles each request of the CSRF queue in order and empties it |
| ApiInterceptor.Interceptor.OnError | frontend/src/apiInterceptor.js:71-126 | anything but a 403 on a request not yet retried is rejected with no change; a `CSRF_` code starts a CSRF refresh (marking the request retried) or parks the request behind the refresh under way, and any other code does the same for a session refresh; requests are parked only while a refresh is under way |
| ApiInterceptor.Interceptor.OnCsrfRefreshed | frontend/src/apiInterceptor.js:87-101 | after the CSRF refresh the flag drops and the queue empties; on success the parked requests resume, the non-empty new cookie replaces the header and the request is replayed; on failure all fail with the refresh error |
| ApiInterceptor.Interceptor.OnSessionRefreshed | frontend/src/apiInterceptor.js:114-123 | after the session refresh the flag drops and the queue empties; the parked requests resume and the request is replayed, or all fail with the refresh error |
| ApiInterceptor.SessionRetryOnce | frontend/src/apiInterceptor.js:75-124 | a request failing with a non-CSRF 403 is replayed once after a session refresh, and a second 403 is rejected |
| ApiInterceptor.CsrfRetrySpendsTheRetry | frontend/src/apiInterceptor.js:75-124 | a request replayed after a CSRF refresh that then meets a session 403 is rejected without a session refresh |
| ApiInterceptor.ParkedRequestMayRefreshAgain | frontend/src/apiInterceptor.js:79-112 | a request parked behind a session refresh is resumed when it succeeds; since it was never marked retried, a further 403 starts a second refresh |
| ApiInterceptor.FailedRefreshRejectsAll | frontend/src/apiInterceptor.js:79-101 | when the CSRF refresh fails, the requests parked behind it fail with it, as does the request that started it |

## Left out

- myProfile, adminController and uploadProfileImage (user-controller.js:292-321, 489-516) are not modelled. They are routed but not part of the modelled handlers: the profile read joins a session record, the admin page is a constant, and the upload goes to an external asset store and the file system.
- The token helpers (generateToken, verifyRefreshToken, generateAccessToken, generateCSRFToken, revokeRefreshToken, revokeCSRFTOKEN) and the isAuth, authorizedAdmin and verifyCSRFToken middleware are not part of this model. Their results are parameters and their calls are `events`; their own store writes (such as `refresh_token:<id>` and `session:<id>`) are not modelled.
- Mail delivery failure and the TryCatch wrapper are not modelled. A mail is an event, and an exception is `Thrown` without its 500 answer.
- UserController.AuthServer.RegisterUser: the second `res.json` after the duplicate-email 400 (which Express would reject once headers are sent) is not modelled; the response is the first one sent.
- UserController.AuthServer.VerifyUser: the user model file is not part of this model, so a unique index on email that would make the second `User.create` fail is not modelled.
- Credentials.CompareAdmitsOnlyItsPassword: bcrypt compares only the first 72 bytes of a password, so two passwords that agree on their first 72 bytes are accepted for each other; the model's injective `Hash` does not capture this truncation, nor salt or cost factor.
- UserController.UserIndex: an unsorted `findOne`/`findById` returns a record in MongoDB's natural order, which the model takes to be creation order; this only matters for the duplicate-email records that the fall-through in `verifyUser` can create.
- Request bodies are strings; mongo-sanitize, non-string JSON values and NoSQL operator objects are not modelled.
- Validation: zod's email regular expression is a parameter `isEmail`, and string length is the length of the character sequence rather than JavaScript's UTF-16 code-unit count.
- ApiInterceptor.GetCookie: `decodeURIComponent` is not applied; the value is the raw text after `name=`, and the URIError it can throw on a malformed escape is not modelled.
- UserController.AuthServer.ChangePassword: an absent `refreshToken` cookie is modelled as the empty string; the store call that would receive `undefined` is not modelled.
- Express matching details are not modelled: case-insensitive paths, an optional trailing slash, HEAD answered by GET routes, and percent-decoding of `:token`.
- Concurrency is not modelled. The response hook's two halves run in the order the model's caller chooses, the refresh calls' own failures (which pass through the same hook) are a boolean outcome, and the promise objects are represented by the parked requests.
- The console warning of the request hook is not modelled, and verbs are the lower-case strings axios passes to its hooks.
- Login time, role and avatar fields of a user are not modelled; the clock is the server's `now` field advanced by `Elapse`.
- User ids, random tokens and one-time codes are inputs rather than generated.
