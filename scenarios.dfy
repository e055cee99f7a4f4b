/**
 * Request sequences against a fresh server, each a protocol the handlers of
 * backend/controllers/user-controller.js are meant to guarantee. Every
 * postcondition follows from the handlers' contracts alone.
 */
module Scenarios {
  import opened Wrappers
  import opened TtlStore
  import opened KeySpace
  import opened Credentials
  import opened Validation
  import opened UserController

  /**
   * Registration creates no user; the emailed token creates exactly one;
   * the same token a second time reports an expired link and creates nothing.
   */
  method RegisterThenVerifyTwice(ip: string, name: string, email: string, password: string, token: string,
                                 id: string, id2: string, isEmail: string -> bool)
    returns (registered: Response, afterRegister: seq<User>, verified: Response, replayed: Response, table: seq<User>)
    requires RegisterIssues(name, email, password, isEmail) == []
    requires token != "" && id != id2
    ensures registered == Plain(200, RegisterSent) && afterRegister == []
    ensures verified == Reply(201, Verified, Created(id, name, email), [])
    ensures replayed == Plain(400, LinkExpired)
    ensures table == [User(id, name, email, Hash(password))]
  {
    var server := new AuthServer(map[], 0, [], isEmail);
    registered := server.RegisterUser(ip, name, email, password, token);
    afterRegister := server.users;
    verified := server.VerifyUser(token, id);
    replayed := server.VerifyUser(token, id2);
    table := server.users;
  }

  /**
   * Login stages a code; a wrong code is refused and leaves it in place; the
   * right code succeeds once and is then gone.
   */
  method OtpIsSingleUse(ip: string, user: User, password: string, code: OtpCode, wrong: string,
                        issued: IssuedTokens, isEmail: string -> bool)
    returns (login: Response, guess: Response, verified: Response, replayed: Response)
    requires user.email != "" && user.password == Hash(password)
    requires LoginIssues(user.email, password, isEmail) == []
    requires wrong != "" && wrong != DecimalString(code)
    ensures login == Plain(200, OtpSent)
    ensures guess == Plain(400, InvalidOtp)
    ensures verified.Reply? && verified.status == 200 && verified.body == Welcome(user, issued.sessionId, issued.csrfToken)
    ensures replayed == Plain(400, OtpExpired)
  {
    var server := new AuthServer(map[], 0, [user], isEmail);
    login := server.LoginUser(ip, user.email, password, code);
    guess := server.VerifyOtp(user.email, wrong, issued);
    OtpStrings(code, code);
    verified := server.VerifyOtp(user.email, DecimalString(code), issued);
    replayed := server.VerifyOtp(user.email, DecimalString(code), issued);
  }

  /**
   * Two logins from one address for one email within the 60-second window:
   * the second is refused with 429, still at second 59, and admitted at second 60.
   */
  method LoginRateLimit(ip: string, user: User, password: string, code: OtpCode, isEmail: string -> bool)
    returns (first: Response, second: Response, atFiftyNine: Response, atSixty: Response)
    requires user.password == Hash(password)
    requires LoginIssues(user.email, password, isEmail) == []
    ensures first == Plain(200, OtpSent)
    ensures second == Plain(429, TooManyRequests) && atFiftyNine == second
    ensures atSixty == Plain(200, OtpSent)
  {
    var server := new AuthServer(map[], 0, [user], isEmail);
    first := server.LoginUser(ip, user.email, password, code);
    second := server.LoginUser(ip, user.email, password, code);
    server.Elapse(59);
    atFiftyNine := server.LoginUser(ip, user.email, password, code);
    server.Elapse(1);
    atSixty := server.LoginUser(ip, user.email, password, code);
  }

  /**
   * forgot-password answers an unknown and a known email with the same
   * reply; only the known one leaves a reset ticket for its user, and that
   * ticket resets the password once.
   */
  method ForgotThenResetTwice(user: User, unknown: string, token: string, newPassword: string, isEmail: string -> bool)
    returns (forUnknown: Response, forKnown: Response, ticket: Option<Value>, reset: Response, replayed: Response,
             table: seq<User>)
    requires user.email != "" && unknown != "" && unknown != user.email
    requires token != "" && newPassword != ""
    ensures forUnknown == forKnown == Plain(200, ResetLinkSent)
    ensures ticket == Some(ResetFor(user.id))
    ensures reset == Reply(200, PasswordReset, NoBody, ["refreshToken", "accessToken"])
    ensures replayed == Plain(400, ResetTokenInvalid)
    ensures table == [user.(password := Hash(newPassword))]
  {
    var server := new AuthServer(map[], 0, [user], isEmail);
    forUnknown := server.ForgotPassword(unknown, token);
    forKnown := server.ForgotPassword(user.email, token);
    ticket := Get(server.store, server.now, ResetKey(token));
    reset := server.ResetPassword(token, newPassword);
    replayed := server.ResetPassword(token, newPassword);
    table := server.users;
  }

  /** A reset ticket whose user no longer exists answers 404 and is consumed all the same. */
  method ResetTicketConsumedOnMissingUser(token: string, userId: string, newPassword: string, isEmail: string -> bool)
    returns (first: Response, second: Response)
    requires token != "" && newPassword != ""
    ensures first == Plain(404, UserNotFound)
    ensures second == Plain(400, ResetTokenInvalid)
  {
    SpaceOfResetKey(token);
    var store0: Store<Value> := map[ResetKey(token) := Entry(ResetFor(userId), ResetTtl)];
    var server := new AuthServer(store0, 0, [], isEmail);
    first := server.ResetPassword(token, newPassword);
    second := server.ResetPassword(token, newPassword);
  }

  /**
   * A wrong old password changes nothing; the right one installs the new
   * digest, after which the old password is refused and the new one accepted.
   */
  method ChangePasswordTwice(user: User, oldPassword: string, wrong: string, newPassword: string, cookie: string,
                             isEmail: string -> bool)
    returns (refused: Response, changed: Response, withOld: Response, withNew: Response)
    requires user.password == Hash(oldPassword)
    requires oldPassword != "" && newPassword != "" && wrong != "" && wrong != oldPassword
    requires newPassword != oldPassword
    ensures refused == Plain(400, OldPasswordIncorrect)
    ensures changed == Plain(200, PasswordUpdated)
    ensures withOld == Plain(400, OldPasswordIncorrect)
    ensures withNew == Plain(200, PasswordUpdated)
  {
    var server := new AuthServer(map[], 0, [user], isEmail);
    refused := server.ChangePassword(user.id, wrong, newPassword, cookie);
    changed := server.ChangePassword(user.id, oldPassword, newPassword, cookie);
    withOld := server.ChangePassword(user.id, oldPassword, newPassword, cookie);
    withNew := server.ChangePassword(user.id, newPassword, newPassword, cookie);
  }

  /**
   * From any state in which the user can log in: the code the login mailed
   * is refused once a resend has replaced it, and the resent code is
   * accepted. Only the latest code is valid.
   */
  method ResendInvalidatesPreviousCode(server: AuthServer, ip: string, email: string, password: string,
                                       first: OtpCode, second: OtpCode, issued: IssuedTokens)
    returns (login: Response, resend: Response, stale: Response, current: Response)
    requires server.Valid()
    requires email != "" && LoginIssues(email, password, server.isEmail) == []
    requires !Truthy(Get(server.store, server.now, LoginRateKey(ip, email)))
    requires !Truthy(Get(server.store, server.now, ResendOtpRateKey(ip, email)))
    requires UserIndex(server.users, ByEmail(email)).Some?
    requires Compare(password, server.users[UserIndex(server.users, ByEmail(email)).value].password)
    requires first != second
    modifies server
    ensures login == Plain(200, OtpSent) && resend == Plain(200, NewOtpSent)
    ensures stale == Plain(400, InvalidOtp)
    ensures current.Reply? && current.status == 200
  {
    SpaceOfOtpKey(email);
    SpaceOfLoginRateKey(ip, email);
    SpaceOfResendOtpRateKey(ip, email);
    var otpKey, resendKey := OtpKey(email), ResendOtpRateKey(ip, email);
    login := server.LoginUser(ip, email, password, first);
    assert Get(server.store, server.now, resendKey) == Get(old(server.store), server.now, resendKey) by {
      SetExLeavesOthers(old(server.store), server.now, otpKey, Code(DecimalString(first)), OtpTtl, server.now, resendKey);
      var mid := SetEx(old(server.store), server.now, otpKey, Code(DecimalString(first)), OtpTtl);
      SetExLeavesOthers(mid, server.now, LoginRateKey(ip, email), Flag, RateLimitWindow, server.now, resendKey);
    }
    var afterLogin := server.store;
    resend := server.ResendOtp(ip, email, second);
    assert Get(server.store, server.now, otpKey) == Some(Code(DecimalString(second))) by {
      var mid := SetEx(afterLogin, server.now, otpKey, Code(DecimalString(second)), OtpTtl);
      SetExVisibleForTtl(afterLogin, server.now, otpKey, Code(DecimalString(second)), OtpTtl, server.now);
      SetExLeavesOthers(mid, server.now, resendKey, Flag, RateLimitWindow, server.now, otpKey);
    }
    OtpStrings(first, second);
    assert Code(DecimalString(second)) != Code(DecimalString(first));
    stale := server.VerifyOtp(email, DecimalString(first), issued);
    assert Get(server.store, server.now, otpKey) == Some(Code(DecimalString(second)));
    current := server.VerifyOtp(email, DecimalString(second), issued);
  }

  /**
   * From any state: a registration from one address for one email arms a
   * 60-second limit, so a second one `wait` < 60 seconds later is refused
   * with 429, and one made at 60 seconds is not.
   */
  method RegistrationRateLimit(server: AuthServer, ip: string, name: string, email: string, password: string,
                               token: string, token2: string, wait: nat)
    returns (first: Response, second: Response, third: Response)
    requires server.Valid()
    requires RegisterIssues(name, email, password, server.isEmail) == []
    requires !Truthy(Get(server.store, server.now, RegisterRateKey(ip, email)))
    requires wait < 60
    modifies server
    ensures first != Plain(429, TooManyRequests)
    ensures second == Plain(429, TooManyRequests)
    ensures third != Plain(429, TooManyRequests)
  {
    first := server.RegisterUser(ip, name, email, password, token);
    server.Elapse(wait);
    second := server.RegisterUser(ip, name, email, password, token2);
    server.Elapse(60 - wait);
    third := server.RegisterUser(ip, name, email, password, token2);
  }

  /**
   * From any state: a verification link that is still live adds exactly one
   * record; used a second time it reports an expired link and adds nothing.
   */
  method VerifyLinkSingleUse(server: AuthServer, token: string, id: string, id2: string)
    returns (first: Response, replayed: Response)
    requires server.Valid()
    requires token != "" && Truthy(Get(server.store, server.now, VerifyKey(token)))
    requires forall u :: u in server.users ==> u.id != id && u.id != id2
    requires id != id2
    modifies server
    ensures first.Reply? && (first.status == 201 || first.status == 400)
    ensures |server.users| == |old(server.users)| + 1
    ensures replayed == Plain(400, LinkExpired)
  {
    first := server.VerifyUser(token, id);
    replayed := server.VerifyUser(token, id2);
  }
}
