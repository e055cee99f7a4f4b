/**
 * The router of backend/routes/user-routes.js: each registration pairs a
 * verb and a path pattern with the middleware run before its handler.
 * Express tries registrations in order and dispatches to the first whose
 * verb and pattern match.
 */
module UserRoutes {
  import opened Wrappers

  datatype Verb = Get | Post

  /** The middleware a request passes before reaching its handler. */
  datatype Guard = IsAuth | VerifyCsrf | AuthorizedAdmin | UploadSingle(field: string)

  datatype Handler =
    | RegisterUser | LoginUser | VerifyUser | VerifyOtp | MyProfile | RefreshToken
    | LogOutUser | RefreshCsrf | AdminController | ResendOtp | ForgotPassword
    | ResetPassword | ChangePassword | UploadProfileImage

  /** A literal path, or a literal prefix followed by one `:token` segment. */
  datatype Pattern = Exact(path: string) | WithParam(prefix: string)

  datatype Route = Route(verb: Verb, pattern: Pattern, guards: seq<Guard>, handler: Handler)

  /** How many registrations the router makes. */
  const Size: nat := 14

  /** The `i`-th registration, in the order the router makes them. */
  function Registration(i: nat): Route
    requires i < Size
  {
    match i
    case 0 => Route(Post, Exact("/register"), [], RegisterUser)
    case 1 => Route(Post, Exact("/login"), [], LoginUser)
    case 2 => Route(Post, WithParam("/verify/"), [], VerifyUser)
    case 3 => Route(Post, Exact("/verify"), [], VerifyOtp)
    case 4 => Route(Get, Exact("/me"), [IsAuth], MyProfile)
    case 5 => Route(Post, Exact("/refresh"), [], RefreshToken)
    case 6 => Route(Post, Exact("/logout"), [IsAuth, VerifyCsrf], LogOutUser)
    case 7 => Route(Post, Exact("/refresh-csrf"), [IsAuth], RefreshCsrf)
    case 8 => Route(Get, Exact("/admin"), [IsAuth, AuthorizedAdmin], AdminController)
    case 9 => Route(Post, Exact("/resend-otp"), [], ResendOtp)
    case 10 => Route(Post, Exact("/forgot-password"), [], ForgotPassword)
    case 11 => Route(Post, WithParam("/reset-password/"), [], ResetPassword)
    case 12 => Route(Post, Exact("/change-password"), [IsAuth, VerifyCsrf], ChangePassword)
    case _ => Route(Post, Exact("/upload-avatar"), [IsAuth, VerifyCsrf, UploadSingle("avatar")], UploadProfileImage)
  }

  /** A named parameter matches one non-empty path segment. */
  predicate IsSegment(s: string)
  {
    s != [] && '/' !in s
  }

  predicate Matches(p: Pattern, path: string)
  {
    match p
    case Exact(q) => path == q
    case WithParam(prefix) => prefix <= path && IsSegment(path[|prefix|..])
  }

  predicate Answers(r: Route, verb: Verb, path: string)
  {
    r.verb == verb && Matches(r.pattern, path)
  }

  /** The first registration, from index `from` on, that answers the request. */
  function DispatchFrom(verb: Verb, path: string, from: nat): Option<Route>
    requires from <= Size
    decreases Size - from
  {
    if from == Size then None
    else if Answers(Registration(from), verb, path) then Some(Registration(from))
    else DispatchFrom(verb, path, from + 1)
  }

  /** Dispatch picks the first registration that answers, and answers with nothing only when none does. */
  lemma {:induction false} DispatchFromFirst(verb: Verb, path: string, from: nat)
    requires from <= Size
    ensures var r := DispatchFrom(verb, path, from);
      && (r.Some? ==> exists i :: from <= i < Size && r.value == Registration(i) && Answers(r.value, verb, path)
                                  && forall j :: from <= j < i ==> !Answers(Registration(j), verb, path))
      && (r.None? ==> forall i :: from <= i < Size ==> !Answers(Registration(i), verb, path))
    decreases Size - from
  {
    if from < Size && !Answers(Registration(from), verb, path) {
      DispatchFromFirst(verb, path, from + 1);
    }
  }

  /** The route that handles a request, or nothing (Express answers 404). */
  function Dispatch(verb: Verb, path: string): Option<Route>
  {
    DispatchFrom(verb, path, 0)
  }

  /** A registration that does not answer passes the request on to the next one. */
  lemma Skip(verb: Verb, path: string, from: nat)
    requires from < Size && !Answers(Registration(from), verb, path)
    ensures DispatchFrom(verb, path, from) == DispatchFrom(verb, path, from + 1)
  {
  }

  /** A registration that answers takes the request. */
  lemma Hit(verb: Verb, path: string, from: nat)
    requires from < Size && Answers(Registration(from), verb, path)
    ensures DispatchFrom(verb, path, from) == Some(Registration(from))
  {
  }

  /** A path that differs from a parameterised prefix at its second character does not lie under it. */
  lemma NotUnder(prefix: string, path: string)
    requires |prefix| > 1 && |path| > 1 && prefix[1] != path[1]
    ensures !Matches(WithParam(prefix), path)
  {
  }

  /** No literal path of the table lies under one of the two parameterised prefixes. */
  lemma LiteralNotUnderParams(path: string)
    requires |path| > 1 && path[1] != 'v' && path[1] != 'r'
    ensures !Matches(WithParam("/verify/"), path) && !Matches(WithParam("/reset-password/"), path)
  {
    NotUnder("/verify/", path);
    NotUnder("/reset-password/", path);
  }

  /** POST /logout runs isAuth, then verifyCSRFToken, before its handler. */
  lemma LogoutRoute()
    ensures Dispatch(Post, "/logout") == Some(Route(Post, Exact("/logout"), [IsAuth, VerifyCsrf], LogOutUser))
  {
    var p := "/logout";
    LiteralNotUnderParams(p);
    Skip(Post, p, 0); Skip(Post, p, 1); Skip(Post, p, 2); Skip(Post, p, 3); Skip(Post, p, 4);
    Skip(Post, p, 5);
    Hit(Post, p, 6);
  }

  /** POST /change-password runs isAuth, then verifyCSRFToken. */
  lemma ChangePasswordRoute()
    ensures Dispatch(Post, "/change-password") ==
            Some(Route(Post, Exact("/change-password"), [IsAuth, VerifyCsrf], ChangePassword))
  {
    var p := "/change-password";
    LiteralNotUnderParams(p);
    Skip(Post, p, 0); Skip(Post, p, 1); Skip(Post, p, 2); Skip(Post, p, 3); Skip(Post, p, 4);
    Skip(Post, p, 5); Skip(Post, p, 6); Skip(Post, p, 7); Skip(Post, p, 8); Skip(Post, p, 9);
    Skip(Post, p, 10); Skip(Post, p, 11);
    Hit(Post, p, 12);
  }

  /** POST /upload-avatar checks isAuth and CSRF before the upload middleware and the handler. */
  lemma UploadAvatarRoute()
    ensures Dispatch(Post, "/upload-avatar") ==
            Some(Route(Post, Exact("/upload-avatar"), [IsAuth, VerifyCsrf, UploadSingle("avatar")], UploadProfileImage))
  {
    var p := "/upload-avatar";
    LiteralNotUnderParams(p);
    Skip(Post, p, 0); Skip(Post, p, 1); Skip(Post, p, 2); Skip(Post, p, 3); Skip(Post, p, 4);
    Skip(Post, p, 5); Skip(Post, p, 6); Skip(Post, p, 7); Skip(Post, p, 8); Skip(Post, p, 9);
    Skip(Post, p, 10); Skip(Post, p, 11); Skip(Post, p, 12);
    Hit(Post, p, 13);
  }

  /** POST /refresh-csrf needs isAuth but no CSRF check. */
  lemma RefreshCsrfRoute()
    ensures Dispatch(Post, "/refresh-csrf") == Some(Route(Post, Exact("/refresh-csrf"), [IsAuth], RefreshCsrf))
  {
    var p := "/refresh-csrf";
    NotUnder("/verify/", p);
    Skip(Post, p, 0); Skip(Post, p, 1); Skip(Post, p, 2); Skip(Post, p, 3); Skip(Post, p, 4);
    Skip(Post, p, 5); Skip(Post, p, 6);
    Hit(Post, p, 7);
  }

  /** GET /me needs isAuth only; GET /admin needs isAuth, then authorizedAdmin. */
  lemma ProfileAndAdminRoutes()
    ensures Dispatch(Get, "/me") == Some(Route(Get, Exact("/me"), [IsAuth], MyProfile))
    ensures Dispatch(Get, "/admin") == Some(Route(Get, Exact("/admin"), [IsAuth, AuthorizedAdmin], AdminController))
  {
    var me := "/me";
    Skip(Get, me, 0); Skip(Get, me, 1); Skip(Get, me, 2); Skip(Get, me, 3);
    Hit(Get, me, 4);
    var admin := "/admin";
    Skip(Get, admin, 0); Skip(Get, admin, 1); Skip(Get, admin, 2); Skip(Get, admin, 3); Skip(Get, admin, 4);
    Skip(Get, admin, 5); Skip(Get, admin, 6); Skip(Get, admin, 7);
    Hit(Get, admin, 8);
  }

  /** POST /register, /login and /verify run their handler with no middleware. */
  lemma EarlyPublicRoutes()
    ensures Dispatch(Post, "/register") == Some(Route(Post, Exact("/register"), [], RegisterUser))
    ensures Dispatch(Post, "/login") == Some(Route(Post, Exact("/login"), [], LoginUser))
    ensures Dispatch(Post, "/verify") == Some(Route(Post, Exact("/verify"), [], VerifyOtp))
  {
    Hit(Post, "/register", 0);
    var login := "/login";
    LiteralNotUnderParams(login);
    Skip(Post, login, 0);
    Hit(Post, login, 1);
    var verify := "/verify";
    Skip(Post, verify, 0); Skip(Post, verify, 1); Skip(Post, verify, 2);
    Hit(Post, verify, 3);
  }

  /** POST /refresh, /resend-otp and /forgot-password run their handler with no middleware. */
  lemma LatePublicRoutes()
    ensures Dispatch(Post, "/refresh") == Some(Route(Post, Exact("/refresh"), [], RefreshToken))
    ensures Dispatch(Post, "/resend-otp") == Some(Route(Post, Exact("/resend-otp"), [], ResendOtp))
    ensures Dispatch(Post, "/forgot-password") == Some(Route(Post, Exact("/forgot-password"), [], ForgotPassword))
  {
    var refresh := "/refresh";
    NotUnder("/verify/", refresh);
    Skip(Post, refresh, 0); Skip(Post, refresh, 1); Skip(Post, refresh, 2); Skip(Post, refresh, 3); Skip(Post, refresh, 4);
    Hit(Post, refresh, 5);
    var resend := "/resend-otp";
    NotUnder("/verify/", resend);
    Skip(Post, resend, 0); Skip(Post, resend, 1); Skip(Post, resend, 2); Skip(Post, resend, 3); Skip(Post, resend, 4);
    Skip(Post, resend, 5); Skip(Post, resend, 6); Skip(Post, resend, 7); Skip(Post, resend, 8);
    Hit(Post, resend, 9);
    var forgot := "/forgot-password";
    LiteralNotUnderParams(forgot);
    Skip(Post, forgot, 0); Skip(Post, forgot, 1); Skip(Post, forgot, 2); Skip(Post, forgot, 3); Skip(Post, forgot, 4);
    Skip(Post, forgot, 5); Skip(Post, forgot, 6); Skip(Post, forgot, 7); Skip(Post, forgot, 8); Skip(Post, forgot, 9);
    Hit(Post, forgot, 10);
  }

  /**
   * A path with one more segment after /verify/ or /reset-password/ reaches
   * the email-verification or the password-reset handler, unguarded; POST
   * /verify without it is the one-time-code check.
   */
  lemma ParamRoutes(token: string)
    requires IsSegment(token)
    ensures Dispatch(Post, "/verify/" + token) == Some(Route(Post, WithParam("/verify/"), [], VerifyUser))
    ensures Dispatch(Post, "/reset-password/" + token) ==
            Some(Route(Post, WithParam("/reset-password/"), [], ResetPassword))
  {
    var v := "/verify/" + token;
    assert v[|"/verify/"|..] == token;
    assert v[1] == 'v';
    Skip(Post, v, 0); Skip(Post, v, 1);
    Hit(Post, v, 2);
    var r := "/reset-password/" + token;
    assert r[|"/reset-password/"|..] == token;
    NotUnder("/verify/", r);
    Skip(Post, r, 0); Skip(Post, r, 1); Skip(Post, r, 2); Skip(Post, r, 3); Skip(Post, r, 4);
    Skip(Post, r, 5); Skip(Post, r, 6); Skip(Post, r, 7); Skip(Post, r, 8); Skip(Post, r, 9);
    Skip(Post, r, 10);
    Hit(Post, r, 11);
  }

  /**
   * Wherever CSRF is checked, authentication runs first, and the admin check
   * guards GET /admin alone.
   */
  lemma {:induction false} GuardOrder(verb: Verb, path: string)
    ensures Dispatch(verb, path).Some? && VerifyCsrf in Dispatch(verb, path).value.guards ==>
            Dispatch(verb, path).value.guards[..2] == [IsAuth, VerifyCsrf]
    ensures Dispatch(verb, path).Some? && AuthorizedAdmin in Dispatch(verb, path).value.guards <==>
            verb == Get && path == "/admin"
  {
    DispatchFromFirst(verb, path, 0);
    var r := Dispatch(verb, path);
    if r.Some? {
      var i :| 0 <= i < Size && r.value == Registration(i) && Answers(r.value, verb, path);
      assert VerifyCsrf in r.value.guards ==> i == 6 || i == 12 || i == 13;
      assert AuthorizedAdmin in r.value.guards <==> i == 8;
    }
    if verb == Get && path == "/admin" {
      assert Answers(Registration(8), verb, path);
    }
  }

  /** Every POST endpoint behind isAuth also checks CSRF, except the one that reissues the CSRF token. */
  lemma {:induction false} AuthenticatedPostsCheckCsrf(path: string)
    requires Dispatch(Post, path).Some? && IsAuth in Dispatch(Post, path).value.guards
    ensures VerifyCsrf in Dispatch(Post, path).value.guards <==> path != "/refresh-csrf"
  {
    DispatchFromFirst(Post, path, 0);
    var r := Dispatch(Post, path);
    var i :| 0 <= i < Size && r.value == Registration(i) && Answers(r.value, Post, path);
    assert i == 6 || i == 7 || i == 12 || i == 13;
  }
}
