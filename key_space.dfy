/**
 * The store keys built by the controller (backend/controllers/user-controller.js),
 * each a fixed prefix followed by the request's data. The prefixes are chosen so
 * that none is a prefix of another, which makes every family of keys its own
 * space: a key tells which family built it.
 */
module KeySpace {
  const RegisterRatePrefix := "register-rate-limit:"
  const VerifyPrefix := "verify:"
  const LoginRatePrefix := "login-rate-limit:"
  const OtpPrefix := "otp:"
  const ResendOtpRatePrefix := "resend-otp-rate-limit:"
  const ResetPrefix := "reset:"
  const RefreshPrefix := "refresh_token:"
  const UserCachePrefix := "user:"
  const SessionPrefix := "session:"

  function RegisterRateKey(ip: string, email: string): string { RegisterRatePrefix + ip + ":" + email }
  function VerifyKey(token: string): string { VerifyPrefix + token }
  function LoginRateKey(ip: string, email: string): string { LoginRatePrefix + ip + ":" + email }
  function OtpKey(email: string): string { OtpPrefix + email }
  function ResendOtpRateKey(ip: string, email: string): string { ResendOtpRatePrefix + ip + ":" + email }
  function ResetKey(token: string): string { ResetPrefix + token }
  function RefreshKey(userId: string): string { RefreshPrefix + userId }
  function UserCacheKey(userId: string): string { UserCachePrefix + userId }
  function SessionKey(sessionId: string): string { SessionPrefix + sessionId }

  /** The families of keys; `Unclaimed` holds every key the controller never builds. */
  datatype Space =
    | RegisterRate | Verify | LoginRate | Otp | ResendOtpRate
    | Reset | Refresh | UserCache | Session | Unclaimed

  /** Classifies a key by its prefix. */
  function SpaceOf(key: string): Space
  {
    if RegisterRatePrefix <= key then RegisterRate
    else if VerifyPrefix <= key then Verify
    else if LoginRatePrefix <= key then LoginRate
    else if OtpPrefix <= key then Otp
    else if ResendOtpRatePrefix <= key then ResendOtpRate
    else if ResetPrefix <= key then Reset
    else if RefreshPrefix <= key then Refresh
    else if UserCachePrefix <= key then UserCache
    else if SessionPrefix <= key then Session
    else Unclaimed
  }

  /** A key that starts with `p` cannot start with a `q` that differs from `p` at some shared position. */
  lemma NotPrefixAt(p: string, q: string, rest: string, i: nat)
    requires i < |p| && i < |q| && p[i] != q[i]
    ensures !(q <= p + rest)
  {
    assert (p + rest)[i] == p[i];
  }

  /** Each family's keys are classified as that family: no earlier prefix test can succeed on them. */
  lemma {:induction false} SpaceOfRegisterRateKey(ip: string, email: string)
    ensures SpaceOf(RegisterRateKey(ip, email)) == RegisterRate
  {
    assert RegisterRateKey(ip, email) == RegisterRatePrefix + (ip + ":" + email);
  }

  lemma {:induction false} SpaceOfVerifyKey(token: string)
    ensures SpaceOf(VerifyKey(token)) == Verify
  {
    NotPrefixAt(VerifyPrefix, RegisterRatePrefix, token, 0);
  }

  lemma {:induction false} SpaceOfLoginRateKey(ip: string, email: string)
    ensures SpaceOf(LoginRateKey(ip, email)) == LoginRate
  {
    assert LoginRateKey(ip, email) == LoginRatePrefix + (ip + ":" + email);
    NotPrefixAt(LoginRatePrefix, RegisterRatePrefix, ip + ":" + email, 0);
    NotPrefixAt(LoginRatePrefix, VerifyPrefix, ip + ":" + email, 0);
  }

  lemma {:induction false} SpaceOfOtpKey(email: string)
    ensures SpaceOf(OtpKey(email)) == Otp
  {
    NotPrefixAt(OtpPrefix, RegisterRatePrefix, email, 0);
    NotPrefixAt(OtpPrefix, VerifyPrefix, email, 0);
    NotPrefixAt(OtpPrefix, LoginRatePrefix, email, 0);
  }

  lemma {:induction false} SpaceOfResendOtpRateKey(ip: string, email: string)
    ensures SpaceOf(ResendOtpRateKey(ip, email)) == ResendOtpRate
  {
    assert ResendOtpRateKey(ip, email) == ResendOtpRatePrefix + (ip + ":" + email);
    NotPrefixAt(ResendOtpRatePrefix, RegisterRatePrefix, ip + ":" + email, 2);
    NotPrefixAt(ResendOtpRatePrefix, VerifyPrefix, ip + ":" + email, 0);
    NotPrefixAt(ResendOtpRatePrefix, LoginRatePrefix, ip + ":" + email, 0);
    NotPrefixAt(ResendOtpRatePrefix, OtpPrefix, ip + ":" + email, 0);
  }

  lemma {:induction false} SpaceOfResetKey(token: string)
    ensures SpaceOf(ResetKey(token)) == Reset
  {
    NotPrefixAt(ResetPrefix, RegisterRatePrefix, token, 2);
    NotPrefixAt(ResetPrefix, VerifyPrefix, token, 0);
    NotPrefixAt(ResetPrefix, LoginRatePrefix, token, 0);
    NotPrefixAt(ResetPrefix, OtpPrefix, token, 0);
    NotPrefixAt(ResetPrefix, ResendOtpRatePrefix, token, 4);
  }

  lemma {:induction false} SpaceOfRefreshKey(id: string)
    ensures SpaceOf(RefreshKey(id)) == Refresh
  {
    NotPrefixAt(RefreshPrefix, RegisterRatePrefix, id, 2);
    NotPrefixAt(RefreshPrefix, VerifyPrefix, id, 0);
    NotPrefixAt(RefreshPrefix, LoginRatePrefix, id, 0);
    NotPrefixAt(RefreshPrefix, OtpPrefix, id, 0);
    NotPrefixAt(RefreshPrefix, ResendOtpRatePrefix, id, 2);
    NotPrefixAt(RefreshPrefix, ResetPrefix, id, 2);
  }

  lemma {:induction false} SpaceOfUserCacheKey(id: string)
    ensures SpaceOf(UserCacheKey(id)) == UserCache
  {
    NotPrefixAt(UserCachePrefix, RegisterRatePrefix, id, 0);
    NotPrefixAt(UserCachePrefix, VerifyPrefix, id, 0);
    NotPrefixAt(UserCachePrefix, LoginRatePrefix, id, 0);
    NotPrefixAt(UserCachePrefix, OtpPrefix, id, 0);
    NotPrefixAt(UserCachePrefix, ResendOtpRatePrefix, id, 0);
    NotPrefixAt(UserCachePrefix, ResetPrefix, id, 0);
    NotPrefixAt(UserCachePrefix, RefreshPrefix, id, 0);
  }

  lemma {:induction false} SpaceOfSessionKey(id: string)
    ensures SpaceOf(SessionKey(id)) == Session
  {
    NotPrefixAt(SessionPrefix, RegisterRatePrefix, id, 0);
    NotPrefixAt(SessionPrefix, VerifyPrefix, id, 0);
    NotPrefixAt(SessionPrefix, LoginRatePrefix, id, 0);
    NotPrefixAt(SessionPrefix, OtpPrefix, id, 0);
    NotPrefixAt(SessionPrefix, ResendOtpRatePrefix, id, 0);
    NotPrefixAt(SessionPrefix, ResetPrefix, id, 0);
    NotPrefixAt(SessionPrefix, RefreshPrefix, id, 0);
    NotPrefixAt(SessionPrefix, UserCachePrefix, id, 0);
  }

  /** Every key the controller builds lands in its own family, so no two families share a key. */
  lemma {:induction false} SpaceOfKeys(ip: string, email: string, token: string, id: string)
    ensures SpaceOf(RegisterRateKey(ip, email)) == RegisterRate
    ensures SpaceOf(VerifyKey(token)) == Verify
    ensures SpaceOf(LoginRateKey(ip, email)) == LoginRate
    ensures SpaceOf(OtpKey(email)) == Otp
    ensures SpaceOf(ResendOtpRateKey(ip, email)) == ResendOtpRate
    ensures SpaceOf(ResetKey(token)) == Reset
    ensures SpaceOf(RefreshKey(id)) == Refresh
    ensures SpaceOf(UserCacheKey(id)) == UserCache
    ensures SpaceOf(SessionKey(id)) == Session
  {
    SpaceOfRegisterRateKey(ip, email);
    SpaceOfVerifyKey(token);
    SpaceOfLoginRateKey(ip, email);
    SpaceOfOtpKey(email);
    SpaceOfResendOtpRateKey(ip, email);
    SpaceOfResetKey(token);
    SpaceOfRefreshKey(id);
    SpaceOfUserCacheKey(id);
    SpaceOfSessionKey(id);
  }

  /** Keys of one family built from different data differ, so one ticket never answers for another. */
  lemma {:induction false} TicketKeysInjective(a: string, b: string)
    ensures VerifyKey(a) == VerifyKey(b) ==> a == b
    ensures OtpKey(a) == OtpKey(b) ==> a == b
    ensures ResetKey(a) == ResetKey(b) ==> a == b
    ensures RefreshKey(a) == RefreshKey(b) ==> a == b
  {
    assert VerifyKey(a)[|VerifyPrefix|..] == a && VerifyKey(b)[|VerifyPrefix|..] == b;
    assert OtpKey(a)[|OtpPrefix|..] == a && OtpKey(b)[|OtpPrefix|..] == b;
    assert ResetKey(a)[|ResetPrefix|..] == a && ResetKey(b)[|ResetPrefix|..] == b;
    assert RefreshKey(a)[|RefreshPrefix|..] == a && RefreshKey(b)[|RefreshPrefix|..] == b;
  }
}
