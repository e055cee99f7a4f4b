/**
 * The authentication handlers of backend/controllers/user-controller.js as
 * one object: the shared key/value store with its clock, the user table,
 * and a log of the calls whose insides this model does not see (mail,
 * token signing, CSRF storage). Each handler is a method that performs the
 * source's store and table operations in the source's order and returns
 * the response the client receives.
 */
module UserController {
  import opened Wrappers
  import opened TtlStore
  import opened KeySpace
  import opened Credentials
  import opened Validation

  /** A durable user record, as far as these handlers read or write it. */
  datatype User = User(id: string, name: string, email: string, password: Digest)

  /** What the store holds under each key; the source keeps these as JSON text. */
  datatype Value =
    | Flag                                                    // the "true" of a rate-limit sentinel
    | Pending(name: string, email: string, password: Digest)  // a staged registration
    | Code(otp: string)                                       // a one-time code, as its decimal string
    | ResetFor(userId: string)                                // a password-reset ticket
    | Text(s: string)                                         // any other string, such as a refresh token

  /** `if (await redisClient.get(key))`: the key is visible and its text is not empty. */
  predicate Truthy(o: Option<Value>)
  {
    o.Some? && o.value != Text("")
  }

  /** The shape of value each family of keys may hold. */
  predicate Fits(space: Space, v: Value)
  {
    match space
    case RegisterRate => v == Flag
    case LoginRate => v == Flag
    case ResendOtpRate => v == Flag
    case Verify => v.Pending?
    case Otp => v.Code?
    case Reset => v.ResetFor?
    case Refresh => v.Text?
    case _ => true
  }

  /** Every key holds the shape of value its family is written with. */
  predicate StoreTyped(s: Store<Value>)
  {
    forall k :: k in s ==> Fits(SpaceOf(k), s[k].value)
  }

  predicate IdsUnique(users: seq<User>)
  {
    forall i, j :: 0 <= i < j < |users| ==> users[i].id != users[j].id
  }

  /** The two user lookups the handlers make: `User.findOne({ email })` and `User.findById(id)`. */
  datatype Query = ByEmail(email: string) | ById(id: string)

  predicate Answers(u: User, q: Query)
  {
    match q
    case ByEmail(e) => u.email == e
    case ById(i) => u.id == i
  }

  /** The position of the first record, in creation order, that answers the query. */
  function UserIndex(users: seq<User>, q: Query): (r: Option<nat>)
    ensures r.Some? ==> r.value < |users| && Answers(users[r.value], q)
    ensures r.Some? ==> forall j :: 0 <= j < r.value ==> !Answers(users[j], q)
    ensures r.None? ==> forall j :: 0 <= j < |users| ==> !Answers(users[j], q)
  {
    if users == [] then None
    else if Answers(users[0], q) then Some(0)
    else match UserIndex(users[1..], q)
      case None => None
      case Some(k) => Some(k + 1)
  }

  datatype Mail = VerifyLink(token: string) | OtpMail(otp: string) | ResetLink(token: string)

  /** A call into code this model does not look inside, in the order the handler makes it. */
  datatype Event =
    | Sent(to: string, mail: Mail)                                         // sendMail
    | TokensIssued(userId: string, sessionId: string, csrfToken: string)   // generateToken
    | AccessTokenIssued(userId: string, sessionId: string)                 // generateAccessToken
    | CsrfIssued(userId: string, csrfToken: string)                        // generateCSRFToken
    | RefreshRevoked(userId: string)                                       // revokeRefreshToken
    | CsrfRevoked(userId: string)                                          // revokeCSRFTOKEN

  /** What `verifyRefreshToken` yields for a token it accepts. */
  datatype RefreshClaims = RefreshClaims(userId: string, sessionId: string)

  /** What `generateToken` returns to the handler. */
  datatype IssuedTokens = IssuedTokens(sessionId: string, csrfToken: string)

  datatype Body =
    | NoBody
    | Issues(issues: seq<Issue>)
    | Created(id: string, name: string, email: string)
    | Welcome(user: User, sessionId: string, csrfToken: string)
    | CsrfToken(token: string)

  /** The first response the client receives, with the cookies it clears; or an exception left to TryCatch. */
  datatype Response =
    | Reply(status: nat, message: string, body: Body, cleared: seq<string>)
    | Thrown

  function Plain(status: nat, message: string): Response
  {
    Reply(status, message, NoBody, [])
  }

  /** The 400 a failed schema check answers: the first issue's message and the whole list. */
  function Invalid(issues: seq<Issue>): Response
    requires issues != []
  {
    Reply(400, issues[0].message, Issues(issues), [])
  }

  const VerifyTtl: nat := 300
  const OtpTtl: nat := 300
  const RateLimitWindow: nat := 60
  const ResetTtl: nat := 15 * 60
  const RefreshTtl: nat := 7 * 24 * 60 * 60

  const AuthCookies := ["refreshToken", "accessToken", "csrfToken"]

  const TooManyRequests := "Too many requests, try again later"
  const UserExists := "user already exists"
  const RegisterSent := "If your email is valid, a verification has been sent. It will expire in 5 minutes"
  const TokenRequired := "Verification token is required"
  const LinkExpired := "Verification link is expired"
  const Verified := "Email verified successfully! your account has been created "
  const UnknownEmail := "Invaild credentials"
  const WrongPassword := "Invalid password"
  const OtpSent := "Otp has sent to your email, it will be valid for 5 min"
  const MissingDetails := "Please provide all details"
  const OtpExpired := "otp expired"
  const InvalidOtp := "Invalid Otp"
  const EmailRequired := "Email is required"
  const UserNotFound := "User not found"
  const ResendTooSoon := "Too many requests, please try again after 1 minute"
  const NewOtpSent := "A new OTP has been sent to your email. It will expire in 5 minutes."
  const InvalidRefresh := "Invalid refresh token"
  const SessionExpired := "Session Expired. Please login"
  const TokenRefreshed := "token refreshed"
  const LoggedOut := "Logged out successfully"
  const CsrfRefreshed := "CSRF token refreshed"
  const MissingFields := "Please provide all fields"
  const OldPasswordIncorrect := "Old password incorrect"
  const PasswordUpdated := "Password updated successfully"
  const ResetLinkSent := "If email exists, reset link sent"
  const ResetFieldsRequired := "Token and new password are required"
  const ResetTokenInvalid := "Invalid or expired token"
  const PasswordReset := "Password reset successfully. Please log in again."

  class AuthServer {
    var store: Store<Value>
    var now: int
    var users: seq<User>
    var events: seq<Event>
    /** zod's email format test. */
    const isEmail: string -> bool

    ghost predicate Valid()
      reads this
    {
      StoreTyped(store) && IdsUnique(users)
    }

    /** A server over the store and user table left by earlier requests and by the modules not modelled. */
    constructor (store0: Store<Value>, now0: int, users0: seq<User>, isEmail: string -> bool)
      requires StoreTyped(store0) && IdsUnique(users0)
      ensures Valid()
      ensures store == store0 && now == now0 && users == users0 && events == []
      ensures this.isEmail == isEmail
    {
      store, now, users, events := store0, now0, users0, [];
      this.isEmail := isEmail;
    }

    /** The clock moves on; nothing is stored or removed. */
    method Elapse(seconds: nat)
      modifies this
      ensures now == old(now) + seconds
      ensures store == old(store) && users == old(users) && events == old(events)
      ensures Valid() <==> old(Valid())
    {
      now := now + seconds;
    }

    /** POST /register (user-controller.js:24-90). */
    method RegisterUser(ip: string, name: string, email: string, password: string, token: string)
      returns (r: Response)
      requires Valid()
      modifies this
      ensures Valid() && now == old(now)
      ensures users == old(users)
      ensures var issues := RegisterIssues(name, email, password, isEmail);
        if issues != [] then
          r == Invalid(issues) && store == old(store) && events == old(events)
        else if Truthy(Get(old(store), now, RegisterRateKey(ip, email))) then
          r == Plain(429, TooManyRequests) && store == old(store) && events == old(events)
        else
          && r == (if UserIndex(users, ByEmail(email)).Some? then Plain(400, UserExists) else Plain(200, RegisterSent))
          && store == SetEx(SetEx(old(store), now, VerifyKey(token), Pending(name, email, Hash(password)), VerifyTtl),
                            now, RegisterRateKey(ip, email), Flag, RateLimitWindow)
          && events == old(events) + [Sent(email, VerifyLink(token))]
    {
      var issues := RegisterIssues(name, email, password, isEmail);
      if issues != [] {
        return Invalid(issues);
      }
      var rateKey := RegisterRateKey(ip, email);
      if Truthy(Get(store, now, rateKey)) {
        return Plain(429, TooManyRequests);
      }
      // The duplicate-email branch sends its 400 without returning: everything below still runs.
      var existing := UserIndex(users, ByEmail(email));
      r := if existing.Some? then Plain(400, UserExists) else Plain(200, RegisterSent);
      SpaceOfKeys(ip, email, token, "");
      store := SetEx(store, now, VerifyKey(token), Pending(name, email, Hash(password)), VerifyTtl);
      events := events + [Sent(email, VerifyLink(token))];
      store := SetEx(store, now, rateKey, Flag, RateLimitWindow);
    }

    /** POST /verify/:token (user-controller.js:92-133). */
    method VerifyUser(token: string, newId: string) returns (r: Response)
      requires Valid()
      requires forall u :: u in users ==> u.id != newId
      modifies this
      ensures Valid() && now == old(now) && events == old(events)
      ensures var data := Get(old(store), now, VerifyKey(token));
        if token == "" then
          r == Plain(400, TokenRequired) && store == old(store) && users == old(users)
        else if !Truthy(data) then
          r == Plain(400, LinkExpired) && store == old(store) && users == old(users)
        else
          && data.value.Pending?
          && store == Del(old(store), VerifyKey(token))
          && users == old(users) + [User(newId, data.value.name, data.value.email, data.value.password)]
          && r == if UserIndex(old(users), ByEmail(data.value.email)).Some? then Plain(400, UserExists)
                  else Reply(201, Verified, Created(newId, data.value.name, data.value.email), [])
    {
      if token == "" {
        return Plain(400, TokenRequired);
      }
      var key := VerifyKey(token);
      var data := Get(store, now, key);
      if !Truthy(data) {
        return Plain(400, LinkExpired);
      }
      SpaceOfVerifyKey(token);
      var pending := data.value;
      store := Del(store, key);
      // As in registration, the duplicate branch answers 400 and goes on to create the record.
      var existing := UserIndex(users, ByEmail(pending.email));
      r := if existing.Some? then Plain(400, UserExists)
           else Reply(201, Verified, Created(newId, pending.name, pending.email), []);
      users := users + [User(newId, pending.name, pending.email, pending.password)];
    }

    /** POST /login (user-controller.js:135-199). */
    method LoginUser(ip: string, email: string, password: string, code: OtpCode) returns (r: Response)
      requires Valid()
      modifies this
      ensures Valid() && now == old(now) && users == old(users)
      ensures var issues := LoginIssues(email, password, isEmail);
        var i := UserIndex(users, ByEmail(email));
        if issues != [] then
          r == Invalid(issues) && store == old(store) && events == old(events)
        else if Truthy(Get(old(store), now, LoginRateKey(ip, email))) then
          r == Plain(429, TooManyRequests) && store == old(store) && events == old(events)
        else if i.None? then
          r == Plain(400, UnknownEmail) && store == old(store) && events == old(events)
        else if !Compare(password, users[i.value].password) then
          r == Plain(400, WrongPassword) && store == old(store) && events == old(events)
        else
          && r == Plain(200, OtpSent)
          && store == SetEx(SetEx(old(store), now, OtpKey(email), Code(DecimalString(code)), OtpTtl),
                            now, LoginRateKey(ip, email), Flag, RateLimitWindow)
          && events == old(events) + [Sent(email, OtpMail(DecimalString(code)))]
    {
      var issues := LoginIssues(email, password, isEmail);
      if issues != [] {
        return Invalid(issues);
      }
      var rateKey := LoginRateKey(ip, email);
      if Truthy(Get(store, now, rateKey)) {
        return Plain(429, TooManyRequests);
      }
      var i := UserIndex(users, ByEmail(email));
      if i.None? {
        return Plain(400, UnknownEmail);
      }
      if !Compare(password, users[i.value].password) {
        return Plain(400, WrongPassword);
      }
      var otp := DecimalString(code);
      SpaceOfKeys(ip, email, "", "");
      store := SetEx(store, now, OtpKey(email), Code(otp), OtpTtl);
      events := events + [Sent(email, OtpMail(otp))];
      store := SetEx(store, now, rateKey, Flag, RateLimitWindow);
      r := Plain(200, OtpSent);
    }

    /** POST /verify (user-controller.js:201-243). */
    method VerifyOtp(email: string, otp: string, issued: IssuedTokens) returns (r: Response)
      requires Valid()
      modifies this
      ensures Valid() && now == old(now) && users == old(users)
      ensures var stored := Get(old(store), now, OtpKey(email));
        var i := UserIndex(users, ByEmail(email));
        if email == "" || otp == "" then
          r == Plain(400, MissingDetails) && store == old(store) && events == old(events)
        else if !Truthy(stored) then
          r == Plain(400, OtpExpired) && store == old(store) && events == old(events)
        else if stored.value != Code(otp) then
          r == Plain(400, InvalidOtp) && store == old(store) && events == old(events)
        else
          && store == Del(old(store), OtpKey(email))
          && if i.None? then
               r == Thrown && events == old(events)
             else
               && r == Reply(200, "Welcome " + users[i.value].name,
                             Welcome(users[i.value], issued.sessionId, issued.csrfToken), [])
               && events == old(events) + [TokensIssued(users[i.value].id, issued.sessionId, issued.csrfToken)]
    {
      if email == "" || otp == "" {
        return Plain(400, MissingDetails);
      }
      var key := OtpKey(email);
      var stored := Get(store, now, key);
      if !Truthy(stored) {
        return Plain(400, OtpExpired);
      }
      if stored.value != Code(otp) {
        return Plain(400, InvalidOtp);
      }
      store := Del(store, key);
      var i := UserIndex(users, ByEmail(email));
      if i.None? {
        // `user._id` on a missing record throws.
        return Thrown;
      }
      var user := users[i.value];
      events := events + [TokensIssued(user.id, issued.sessionId, issued.csrfToken)];
      r := Reply(200, "Welcome " + user.name, Welcome(user, issued.sessionId, issued.csrfToken), []);
    }

    /** POST /resend-otp (user-controller.js:245-289). */
    method ResendOtp(ip: string, email: string, code: OtpCode) returns (r: Response)
      requires Valid()
      modifies this
      ensures Valid() && now == old(now) && users == old(users)
      ensures
        if email == "" then
          r == Plain(400, EmailRequired) && store == old(store) && events == old(events)
        else if UserIndex(users, ByEmail(email)).None? then
          r == Plain(400, UserNotFound) && store == old(store) && events == old(events)
        else if Truthy(Get(old(store), now, ResendOtpRateKey(ip, email))) then
          r == Plain(429, ResendTooSoon) && store == old(store) && events == old(events)
        else
          && r == Plain(200, NewOtpSent)
          && store == SetEx(SetEx(old(store), now, OtpKey(email), Code(DecimalString(code)), OtpTtl),
                            now, ResendOtpRateKey(ip, email), Flag, RateLimitWindow)
          && events == old(events) + [Sent(email, OtpMail(DecimalString(code)))]
    {
      if email == "" {
        return Plain(400, EmailRequired);
      }
      var i := UserIndex(users, ByEmail(email));
      if i.None? {
        return Plain(400, UserNotFound);
      }
      var rateKey := ResendOtpRateKey(ip, email);
      if Truthy(Get(store, now, rateKey)) {
        return Plain(429, ResendTooSoon);
      }
      var otp := DecimalString(code);
      SpaceOfKeys(ip, email, "", "");
      store := SetEx(store, now, OtpKey(email), Code(otp), OtpTtl);
      events := events + [Sent(email, OtpMail(otp))];
      store := SetEx(store, now, rateKey, Flag, RateLimitWindow);
      r := Plain(200, NewOtpSent);
    }

    /**
     * POST /refresh (user-controller.js:324-349). `cookie` is the refreshToken
     * cookie ("" when absent); `claims` is what verifyRefreshToken makes of it
     * and `csrf` what generateCSRFToken returns.
     */
    method RefreshToken(cookie: string, claims: Option<RefreshClaims>, csrf: string) returns (r: Response)
      requires Valid()
      modifies this`events
      ensures Valid()
      ensures
        if cookie == "" then
          r == Plain(401, InvalidRefresh) && events == old(events)
        else if claims.None? then
          r == Reply(401, SessionExpired, NoBody, AuthCookies) && events == old(events)
        else
          && r == Plain(200, TokenRefreshed)
          && events == old(events) + [AccessTokenIssued(claims.value.userId, claims.value.sessionId),
                                      CsrfIssued(claims.value.userId, csrf)]
    {
      if cookie == "" {
        return Plain(401, InvalidRefresh);
      }
      if claims.None? {
        return Reply(401, SessionExpired, NoBody, AuthCookies);
      }
      var c := claims.value;
      events := events + [AccessTokenIssued(c.userId, c.sessionId), CsrfIssued(c.userId, csrf)];
      r := Plain(200, TokenRefreshed);
    }

    /** POST /logout (user-controller.js:351-365), for the user isAuth authenticated. */
    method LogOutUser(userId: string) returns (r: Response)
      requires Valid()
      modifies this`store, this`events
      ensures Valid()
      ensures r == Reply(200, LoggedOut, NoBody, AuthCookies)
      ensures events == old(events) + [RefreshRevoked(userId), CsrfRevoked(userId)]
      ensures store == Del(old(store), UserCacheKey(userId))
    {
      events := events + [RefreshRevoked(userId), CsrfRevoked(userId)];
      store := Del(store, UserCacheKey(userId));
      r := Reply(200, LoggedOut, NoBody, AuthCookies);
    }

    /** POST /refresh-csrf (user-controller.js:369-378); `csrf` is what generateCSRFToken returns. */
    method RefreshCsrf(userId: string, csrf: string) returns (r: Response)
      requires Valid()
      modifies this`events
      ensures Valid()
      ensures r == Reply(200, CsrfRefreshed, CsrfToken(csrf), [])
      ensures events == old(events) + [CsrfIssued(userId, csrf)]
    {
      events := events + [CsrfIssued(userId, csrf)];
      r := Reply(200, CsrfRefreshed, CsrfToken(csrf), []);
    }

    /**
     * POST /change-password (user-controller.js:383-416), for the user isAuth
     * authenticated; `current` is the request's refreshToken cookie.
     */
    method ChangePassword(userId: string, oldPassword: string, newPassword: string, current: string)
      returns (r: Response)
      requires Valid()
      modifies this`store, this`users
      ensures Valid()
      ensures var i := UserIndex(old(users), ById(userId));
        var stored := Get(old(store), now, RefreshKey(userId));
        if oldPassword == "" || newPassword == "" then
          r == Plain(400, MissingFields) && store == old(store) && users == old(users)
        else if i.None? then
          r == Plain(404, UserNotFound) && store == old(store) && users == old(users)
        else if !Compare(oldPassword, old(users)[i.value].password) then
          r == Plain(400, OldPasswordIncorrect) && store == old(store) && users == old(users)
        else
          && r == Plain(200, PasswordUpdated)
          && users == old(users)[i.value := old(users)[i.value].(password := Hash(newPassword))]
          && store == if Truthy(stored) && stored.value != Text(current)
                      then SetEx(Del(old(store), RefreshKey(userId)), now, RefreshKey(userId), Text(current), RefreshTtl)
                      else old(store)
    {
      if oldPassword == "" || newPassword == "" {
        return Plain(400, MissingFields);
      }
      var i := UserIndex(users, ById(userId));
      if i.None? {
        return Plain(404, UserNotFound);
      }
      if !Compare(oldPassword, users[i.value].password) {
        return Plain(400, OldPasswordIncorrect);
      }
      users := users[i.value := users[i.value].(password := Hash(newPassword))];
      var refreshKey := RefreshKey(userId);
      var stored := Get(store, now, refreshKey);
      if Truthy(stored) && stored.value != Text(current) {
        SpaceOfRefreshKey(userId);
        store := Del(store, refreshKey);
        store := SetEx(store, now, refreshKey, Text(current), RefreshTtl);
      }
      r := Plain(200, PasswordUpdated);
    }

    /** POST /forgot-password (user-controller.js:421-446); `token` is the random reset token. */
    method ForgotPassword(email: string, token: string) returns (r: Response)
      requires Valid()
      modifies this`store, this`events
      ensures Valid()
      ensures var i := UserIndex(users, ByEmail(email));
        if email == "" then
          r == Plain(400, EmailRequired) && store == old(store) && events == old(events)
        else
          && r == Plain(200, ResetLinkSent)
          && if i.None? then
               store == old(store) && events == old(events)
             else
               && store == SetEx(old(store), now, ResetKey(token), ResetFor(users[i.value].id), ResetTtl)
               && events == old(events) + [Sent(email, ResetLink(token))]
    {
      if email == "" {
        return Plain(400, EmailRequired);
      }
      var i := UserIndex(users, ByEmail(email));
      if i.None? {
        return Plain(200, ResetLinkSent);
      }
      SpaceOfResetKey(token);
      store := SetEx(store, now, ResetKey(token), ResetFor(users[i.value].id), ResetTtl);
      events := events + [Sent(email, ResetLink(token))];
      r := Plain(200, ResetLinkSent);
    }

    /** POST /reset-password/:token (user-controller.js:451-484). */
    method ResetPassword(token: string, newPassword: string) returns (r: Response)
      requires Valid()
      modifies this`store, this`users
      ensures Valid()
      ensures var data := Get(old(store), now, ResetKey(token));
        if token == "" || newPassword == "" then
          r == Plain(400, ResetFieldsRequired) && store == old(store) && users == old(users)
        else if !Truthy(data) then
          r == Plain(400, ResetTokenInvalid) && store == old(store) && users == old(users)
        else
          && data.value.ResetFor?
          && var i := UserIndex(old(users), ById(data.value.userId));
             if i.None? then
               r == Plain(404, UserNotFound) && store == Del(old(store), ResetKey(token)) && users == old(users)
             else
               && r == Reply(200, PasswordReset, NoBody, ["refreshToken", "accessToken"])
               && users == old(users)[i.value := old(users)[i.value].(password := Hash(newPassword))]
               && store == Del(Del(old(store), ResetKey(token)), RefreshKey(data.value.userId))
    {
      if token == "" || newPassword == "" {
        return Plain(400, ResetFieldsRequired);
      }
      var key := ResetKey(token);
      var data := Get(store, now, key);
      if !Truthy(data) {
        return Plain(400, ResetTokenInvalid);
      }
      SpaceOfResetKey(token);
      var ticket := data.value;
      // The ticket is consumed before the lookup, so a failed lookup still uses it up.
      store := Del(store, key);
      var i := UserIndex(users, ById(ticket.userId));
      if i.None? {
        return Plain(404, UserNotFound);
      }
      var user := users[i.value];
      users := users[i.value := user.(password := Hash(newPassword))];
      store := Del(store, RefreshKey(user.id));
      r := Reply(200, PasswordReset, NoBody, ["refreshToken", "accessToken"]);
    }
  }
}
