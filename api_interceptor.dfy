/**
 * The browser side of the double-submit CSRF scheme in
 * frontend/src/apiInterceptor.js: reading a cookie out of `document.cookie`,
 * the request hook that copies the `csrfToken` cookie into the
 * `x-csrf-token` header, and the response hook that answers a 403 by
 * refreshing the CSRF token or the session once and replaying the request,
 * parking the requests that fail while a refresh is under way.
 *
 * The response hook awaits the refresh call; it is modelled as two steps,
 * `OnError` before the await and `OnCsrfRefreshed` / `OnSessionRefreshed`
 * after it, with the module-level flags and queues as fields of one
 * `Interceptor` object.
 */
module ApiInterceptor {
  import opened Wrappers

  // ---------------------------------------------------------------------------
  // document.cookie
  // ---------------------------------------------------------------------------

  /** The separator `document.cookie` puts between its pairs. */
  const Separator: string := "; "

  /** `s` has the separator at position `k`. */
  predicate SeparatorAt(s: string, k: int)
  {
    0 <= k && k + 1 < |s| && s[k] == ';' && s[k + 1] == ' '
  }

  /** No occurrence of the separator anywhere in `s`. */
  predicate NoSeparator(s: string)
  {
    forall k :: 0 <= k < |s| ==> !SeparatorAt(s, k)
  }

  /**
   * JavaScript's `s.split("; ")`: the pieces between the occurrences of the
   * separator, scanning left to right; an empty string gives one empty piece.
   */
  function Split(s: string): (parts: seq<string>)
    ensures |parts| >= 1 && parts[0] <= s
    decreases |s|
  {
    if |s| < 2 then [s]
    else if SeparatorAt(s, 0) then [""] + Split(s[2..])
    else
      var rest := Split(s[1..]);
      [[s[0]] + rest[0]] + rest[1..]
  }

  /** JavaScript's `parts.join("; ")`. */
  function Join(parts: seq<string>): string
    requires |parts| >= 1
  {
    if |parts| == 1 then parts[0] else parts[0] + Separator + Join(parts[1..])
  }

  /** Joining the pieces gives the cookie string back. */
  lemma {:induction false} JoinSplit(s: string)
    ensures Join(Split(s)) == s
    decreases |s|
  {
    if |s| < 2 {
    } else if SeparatorAt(s, 0) {
      JoinSplit(s[2..]);
      assert s == Separator + s[2..];
    } else {
      var rest := Split(s[1..]);
      JoinSplit(s[1..]);
      if |rest| == 1 {
        assert s == [s[0]] + s[1..];
      } else {
        assert Join(rest) == rest[0] + Separator + Join(rest[1..]);
        assert s == [s[0]] + s[1..];
      }
    }
  }

  /** No piece contains the separator. */
  lemma {:induction false} SplitPiecesHaveNoSeparator(s: string)
    ensures forall i :: 0 <= i < |Split(s)| ==> NoSeparator(Split(s)[i])
    decreases |s|
  {
    if |s| < 2 {
    } else if SeparatorAt(s, 0) {
      SplitPiecesHaveNoSeparator(s[2..]);
    } else {
      var rest := Split(s[1..]);
      SplitPiecesHaveNoSeparator(s[1..]);
      var first := [s[0]] + rest[0];
      assert |first| > 1 ==> first[1] == s[1];
      forall k | 0 <= k < |first| ensures !SeparatorAt(first, k) {
        if 1 <= k {
          assert !SeparatorAt(rest[0], k - 1);
        }
      }
    }
  }

  /** A piece without the separator followed by the separator splits off as the first piece. */
  lemma {:induction false} SplitAfterPiece(p: string, t: string)
    requires NoSeparator(p)
    ensures Split(p + Separator + t) == [p] + Split(t)
    decreases |p|
  {
    var s := p + Separator + t;
    if p == [] {
      assert s == Separator + t;
      assert s[2..] == t;
    } else {
      if |p| >= 2 {
        assert !SeparatorAt(p, 0);
      }
      assert !SeparatorAt(s, 0);
      assert NoSeparator(p[1..]) by {
        forall k ensures !SeparatorAt(p[1..], k) {
          assert !SeparatorAt(p, k + 1);
        }
      }
      assert s[1..] == p[1..] + Separator + t;
      SplitAfterPiece(p[1..], t);
      assert [p[0]] + p[1..] == p;
    }
  }

  /** A string without the separator is a single piece. */
  lemma {:induction false} SplitSingle(p: string)
    requires NoSeparator(p)
    ensures Split(p) == [p]
    decreases |p|
  {
    if |p| >= 2 {
      assert !SeparatorAt(p, 0);
      assert NoSeparator(p[1..]) by {
        forall k ensures !SeparatorAt(p[1..], k) {
          assert !SeparatorAt(p, k + 1);
        }
      }
      SplitSingle(p[1..]);
      assert [p[0]] + p[1..] == p;
    }
  }

  /** Splitting a join of separator-free pieces gives the pieces back. */
  lemma {:induction false} SplitJoin(parts: seq<string>)
    requires |parts| >= 1
    requires forall i :: 0 <= i < |parts| ==> NoSeparator(parts[i])
    ensures Split(Join(parts)) == parts
    decreases |parts|
  {
    if |parts| == 1 {
      SplitSingle(parts[0]);
    } else {
      SplitJoin(parts[1..]);
      SplitAfterPiece(parts[0], Join(parts[1..]));
      assert [parts[0]] + parts[1..] == parts;
    }
  }

  /** The value of the first piece that starts with `name=`, taken raw. */
  function CookieLookup(parts: seq<string>, name: string): Option<string>
  {
    if parts == [] then None
    else if name + "=" <= parts[0] then Some(parts[0][|name| + 1..])
    else CookieLookup(parts[1..], name)
  }

  /** What `getCookie(name)` answers for a document whose cookie string is `cookie` (None: no document). */
  function CookieValue(cookie: Option<string>, name: string): Option<string>
  {
    if cookie.None? || cookie.value == "" then None
    else CookieLookup(Split(cookie.value), name)
  }

  /**
   * The lookup finds a value iff some piece starts with `name=`, and then it
   * is the rest of the first such piece.
   */
  lemma {:induction false} CookieLookupFirst(parts: seq<string>, name: string)
    ensures CookieLookup(parts, name).None? <==> forall i :: 0 <= i < |parts| ==> !(name + "=" <= parts[i])
    ensures CookieLookup(parts, name).Some? ==>
              exists i :: 0 <= i < |parts| && name + "=" <= parts[i] &&
                          CookieLookup(parts, name).value == parts[i][|name| + 1..] &&
                          forall j :: 0 <= j < i ==> !(name + "=" <= parts[j])
  {
    if parts != [] && !(name + "=" <= parts[0]) {
      CookieLookupFirst(parts[1..], name);
      var r := CookieLookup(parts, name);
      if r.Some? {
        var i :| 0 <= i < |parts[1..]| && name + "=" <= parts[1..][i] && r.value == parts[1..][i][|name| + 1..] &&
                 forall j :: 0 <= j < i ==> !(name + "=" <= parts[1..][j]);
        assert parts[i + 1] == parts[1..][i];
        forall j | 0 <= j < i + 1 ensures !(name + "=" <= parts[j]) {
          if j > 0 {
            assert parts[j] == parts[1..][j - 1];
          }
        }
      } else {
        forall i | 0 <= i < |parts| ensures !(name + "=" <= parts[i]) {
          if i > 0 {
            assert parts[i] == parts[1..][i - 1];
          }
        }
      }
    }
  }

  /**
   * A cookie string written as `k1=v1; k2=v2; ...` yields, for `name`, the
   * value of the first pair whose key is exactly `name`: a longer key that
   * merely starts with `name` is not taken for it.
   */
  lemma {:induction false} CookieValueOfPairs(keys: seq<string>, values: seq<string>, name: string)
    requires '=' !in name && |keys| == |values| >= 1
    requires forall i :: 0 <= i < |keys| ==> '=' !in keys[i] && NoSeparator(keys[i] + "=" + values[i])
    ensures var pairs := seq(|keys|, i requires 0 <= i < |keys| => keys[i] + "=" + values[i]);
            CookieValue(Some(Join(pairs)), name) == FirstValue(keys, values, name)
  {
    var pairs := seq(|keys|, i requires 0 <= i < |keys| => keys[i] + "=" + values[i]);
    SplitJoin(pairs);
    assert |Join(pairs)| >= |pairs[0]| by { JoinLength(pairs); }
    PairsLookup(keys, values, pairs, name);
  }

  /** The value bound to `name` by the first pair whose key equals it. */
  function FirstValue(keys: seq<string>, values: seq<string>, name: string): Option<string>
    requires |keys| == |values|
  {
    if keys == [] then None
    else if keys[0] == name then Some(values[0])
    else FirstValue(keys[1..], values[1..], name)
  }

  /** A join is at least as long as its first piece. */
  lemma {:induction false} JoinLength(parts: seq<string>)
    requires |parts| >= 1
    ensures parts[0] <= Join(parts)
  {
  }

  /** The pair-by-pair lookup agrees with the key comparison. */
  lemma {:induction false} PairsLookup(keys: seq<string>, values: seq<string>, pairs: seq<string>, name: string)
    requires '=' !in name && |keys| == |values| == |pairs|
    requires forall i :: 0 <= i < |keys| ==> '=' !in keys[i] && pairs[i] == keys[i] + "=" + values[i]
    ensures CookieLookup(pairs, name) == FirstValue(keys, values, name)
    decreases |keys|
  {
    if keys != [] {
      var p := pairs[0];
      if keys[0] == name {
        assert name + "=" <= p;
        assert p[|name| + 1..] == values[0];
      } else {
        var n := |keys[0]|;
        assert p[..n] == keys[0] && p[n] == '=';
        if |name| < n {
          assert (name + "=")[|name|] != p[|name|];
        } else if |name| > n {
          assert (name + "=")[n] != p[n];
        } else {
          assert (name + "=")[..n] == name != p[..n];
        }
      }
      PairsLookup(keys[1..], values[1..], pairs[1..], name);
    }
  }

  /** `getCookie`: scans the pieces of the cookie string for the first one that starts with `name=`. */
  method GetCookie(cookie: Option<string>, name: string) returns (r: Option<string>)
    ensures r == CookieValue(cookie, name)
  {
    if cookie.None? || cookie.value == "" {
      return None;
    }
    var parts := Split(cookie.value);
    var i := 0;
    while i < |parts|
      invariant 0 <= i <= |parts|
      invariant CookieLookup(parts[i..], name) == CookieLookup(parts, name)
    {
      if name + "=" <= parts[i] {
        return Some(parts[i][|name| + 1..]);
      }
      assert parts[i..][1..] == parts[i + 1..];
      i := i + 1;
    }
    return None;
  }

  // ---------------------------------------------------------------------------
  // Request hook
  // ---------------------------------------------------------------------------

  /** The header the server's CSRF middleware compares with the cookie. */
  const CsrfHeader: string := "x-csrf-token"

  /** The cookie the server sets for the double-submit check. */
  const CsrfCookie: string := "csrfToken"

  /** The lower-case verbs that change state on the server and so carry the CSRF header. */
  predicate RequiresCsrf(verb: string)
  {
    verb in ["post", "put", "delete", "patch"]
  }

  /** An outgoing request as the hooks see it: its verb, its headers and the `_retry` mark. */
  class Request {
    const verb: string
    var headers: map<string, string>
    var retry: bool

    constructor (verb: string, headers: map<string, string>)
      ensures this.verb == verb && this.headers == headers && !retry
    {
      this.verb := verb;
      this.headers := headers;
      retry := false;
    }
  }

  /**
   * The request hook: a state-changing request gets `x-csrf-token` set to
   * the `csrfToken` cookie when that cookie has a non-empty value; every
   * other request, and one sent without such a cookie, goes out untouched.
   */
  method AttachCsrfHeader(req: Request, cookie: Option<string>)
    modifies req`headers
    ensures var token := CookieValue(cookie, CsrfCookie);
            if RequiresCsrf(req.verb) && token.Some? && token.value != "" then
              req.headers == old(req.headers)[CsrfHeader := token.value]
            else
              req.headers == old(req.headers)
  {
    if RequiresCsrf(req.verb) {
      var token := GetCookie(cookie, CsrfCookie);
      if token.Some? && token.value != "" {
        req.headers := req.headers[CsrfHeader := token.value];
      }
    }
  }

  // ---------------------------------------------------------------------------
  // Response hook
  // ---------------------------------------------------------------------------

  /** Which error a rejected request ends with: its own, or that of the refresh it waited for. */
  datatype Cause = OwnError | RefreshError

  /**
   * What the response hook does with a failed request: reject it, park it
   * until the refresh under way settles, or start a refresh of the CSRF
   * token or of the session; after a refresh it replays the request.
   */
  datatype Reaction = Reject(cause: Cause) | Park | RefreshCsrfFirst | RefreshSessionFirst | Replay

  /** A parked request once its queue is settled: replayed, or rejected with the refresh error. */
  datatype Settlement = Resumed(request: Request) | Failed(request: Request)

  /** A refusal counts as a CSRF failure when its code starts with `CSRF_`. */
  predicate IsCsrfCode(code: string)
  {
    "CSRF_" <= code
  }

  /**
   * Settling a queue: every parked request is resumed when the refresh
   * succeeded and failed when it did not, in the order it was parked.
   */
  method Settle(queue: seq<Request>, failed: bool) returns (settled: seq<Settlement>)
    ensures |settled| == |queue|
    ensures forall i :: 0 <= i < |queue| ==> settled[i].request == queue[i] && (settled[i].Failed? <==> failed)
  {
    settled := [];
    var i := 0;
    while i < |queue|
      invariant 0 <= i <= |queue| && |settled| == i
      invariant forall j :: 0 <= j < i ==> settled[j].request == queue[j] && (settled[j].Failed? <==> failed)
    {
      settled := settled + [if failed then Failed(queue[i]) else Resumed(queue[i])];
      i := i + 1;
    }
  }

  /**
   * The module-level state of the response hook: one flag per kind of
   * refresh, and the requests parked behind each.
   */
  class Interceptor {
    var isRefreshing: bool
    var isRefreshingCsrf: bool
    var failedQueue: seq<Request>
    var csrfFailedQueue: seq<Request>

    /** Requests are parked only behind a refresh that is under way. */
    ghost predicate Valid()
      reads this
    {
      (!isRefreshing ==> failedQueue == []) && (!isRefreshingCsrf ==> csrfFailedQueue == [])
    }

    /** The state when the module is loaded. */
    constructor ()
      ensures Valid()
      ensures !isRefreshing && !isRefreshingCsrf && failedQueue == [] && csrfFailedQueue == []
    {
      isRefreshing := false;
      isRefreshingCsrf := false;
      failedQueue := [];
      csrfFailedQueue := [];
    }

    /** `processQueue`: settles the session queue and empties it. */
    method ProcessQueue(failed: bool) returns (settled: seq<Settlement>)
      modifies this`failedQueue
      ensures failedQueue == []
      ensures |settled| == |old(failedQueue)|
      ensures forall i :: 0 <= i < |settled| ==>
                settled[i].request == old(failedQueue)[i] && (settled[i].Failed? <==> failed)
    {
      settled := Settle(failedQueue, failed);
      failedQueue := [];
    }

    /** `processCSRFQueue`: settles the CSRF queue and empties it. */
    method ProcessCsrfQueue(failed: bool) returns (settled: seq<Settlement>)
      modifies this`csrfFailedQueue
      ensures csrfFailedQueue == []
      ensures |settled| == |old(csrfFailedQueue)|
      ensures forall i :: 0 <= i < |settled| ==>
                settled[i].request == old(csrfFailedQueue)[i] && (settled[i].Failed? <==> failed)
    {
      settled := Settle(csrfFailedQueue, failed);
      csrfFailedQueue := [];
    }

    /**
     * The response hook up to its await. Only a 403 on a request not yet
     * retried is handled: a `CSRF_` code starts a CSRF-token refresh, or
     * parks the request behind the one under way; any other code does the
     * same with a session refresh. A request that starts a refresh is marked
     * `_retry`; a parked one is not.
     */
    method OnError(req: Request, status: Option<int>, code: Option<string>) returns (r: Reaction)
      requires Valid()
      modifies this, req`retry
      ensures Valid()
      ensures req.headers == old(req.headers)
      ensures !(status == Some(403) && !old(req.retry)) ==>
                r == Reject(OwnError) && unchanged(this) && unchanged(req)
      ensures status == Some(403) && !old(req.retry) && IsCsrfCode(ErrorCode(code)) ==>
                && isRefreshing == old(isRefreshing) && failedQueue == old(failedQueue)
                && isRefreshingCsrf
                && (if old(isRefreshingCsrf) then
                      r == Park && csrfFailedQueue == old(csrfFailedQueue) + [req] && !req.retry
                    else
                      r == RefreshCsrfFirst && csrfFailedQueue == old(csrfFailedQueue) && req.retry)
      ensures status == Some(403) && !old(req.retry) && !IsCsrfCode(ErrorCode(code)) ==>
                && isRefreshingCsrf == old(isRefreshingCsrf) && csrfFailedQueue == old(csrfFailedQueue)
                && isRefreshing
                && (if old(isRefreshing) then
                      r == Park && failedQueue == old(failedQueue) + [req] && !req.retry
                    else
                      r == RefreshSessionFirst && failedQueue == old(failedQueue) && req.retry)
    {
      if status == Some(403) && !req.retry {
        var errorCode := ErrorCode(code);
        if IsCsrfCode(errorCode) {
          if isRefreshingCsrf {
            csrfFailedQueue := csrfFailedQueue + [req];
            return Park;
          }
          req.retry := true;
          isRefreshingCsrf := true;
          return RefreshCsrfFirst;
        }
        if isRefreshing {
          failedQueue := failedQueue + [req];
          return Park;
        }
        req.retry := true;
        isRefreshing := true;
        return RefreshSessionFirst;
      }
      return Reject(OwnError);
    }

    /**
     * The CSRF branch after `POST /api/user/refresh-csrf` settles. On success
     * the new `csrfToken` cookie, when non-empty, replaces the request's
     * header, the parked requests resume and the request is replayed; on
     * failure the parked requests and the request fail with the refresh
     * error. Either way the flag drops.
     */
    method OnCsrfRefreshed(req: Request, refreshed: bool, cookie: Option<string>)
      returns (r: Reaction, settled: seq<Settlement>)
      requires Valid()
      modifies this`isRefreshingCsrf, this`csrfFailedQueue, req`headers
      ensures Valid()
      ensures !isRefreshingCsrf && csrfFailedQueue == []
      ensures |settled| == |old(csrfFailedQueue)|
      ensures forall i :: 0 <= i < |settled| ==>
                settled[i].request == old(csrfFailedQueue)[i] && (settled[i].Failed? <==> !refreshed)
      ensures r == if refreshed then Replay else Reject(RefreshError)
      ensures var token := CookieValue(cookie, CsrfCookie);
              if refreshed && token.Some? && token.value != "" then
                req.headers == old(req.headers)[CsrfHeader := token.value]
              else
                req.headers == old(req.headers)
    {
      if refreshed {
        var token := GetCookie(cookie, CsrfCookie);
        if token.Some? && token.value != "" {
          req.headers := req.headers[CsrfHeader := token.value];
        }
        settled := ProcessCsrfQueue(false);
        r := Replay;
      } else {
        settled := ProcessCsrfQueue(true);
        r := Reject(RefreshError);
      }
      isRefreshingCsrf := false;
    }

    /**
     * The session branch after `POST /api/user/refresh` settles: the parked
     * requests resume and the request is replayed, or all of them fail with
     * the refresh error. Either way the flag drops.
     */
    method OnSessionRefreshed(refreshed: bool) returns (r: Reaction, settled: seq<Settlement>)
      requires Valid()
      modifies this`isRefreshing, this`failedQueue
      ensures Valid()
      ensures !isRefreshing && failedQueue == []
      ensures |settled| == |old(failedQueue)|
      ensures forall i :: 0 <= i < |settled| ==>
                settled[i].request == old(failedQueue)[i] && (settled[i].Failed? <==> !refreshed)
      ensures r == if refreshed then Replay else Reject(RefreshError)
    {
      settled := ProcessQueue(!refreshed);
      r := if refreshed then Replay else Reject(RefreshError);
      isRefreshing := false;
    }
  }

  /** `error.response.data?.code || ""`: a missing code reads as the empty string. */
  function ErrorCode(code: Option<string>): string
  {
    if code.Some? then code.value else ""
  }

  // ---------------------------------------------------------------------------
  // Sequences of failures
  // ---------------------------------------------------------------------------

  /** A request that fails with 403 twice is replayed once after a session refresh, then rejected. */
  method SessionRetryOnce(verb: string, code: Option<string>)
    returns (first: Reaction, afterRefresh: Reaction, second: Reaction)
    requires !IsCsrfCode(ErrorCode(code))
    ensures first == RefreshSessionFirst && afterRefresh == Replay && second == Reject(OwnError)
  {
    var hook := new Interceptor();
    var req := new Request(verb, map[]);
    first := hook.OnError(req, Some(403), code);
    var settled;
    afterRefresh, settled := hook.OnSessionRefreshed(true);
    second := hook.OnError(req, Some(403), code);
  }

  /**
   * A request replayed after a CSRF refresh that then meets a session 403 is
   * rejected: the one retry it is allowed has been spent on the CSRF token.
   */
  method CsrfRetrySpendsTheRetry(verb: string, csrfCode: string, cookie: Option<string>)
    returns (first: Reaction, afterRefresh: Reaction, second: Reaction)
    requires IsCsrfCode(csrfCode)
    ensures first == RefreshCsrfFirst && afterRefresh == Replay && second == Reject(OwnError)
  {
    var hook := new Interceptor();
    var req := new Request(verb, map[]);
    first := hook.OnError(req, Some(403), Some(csrfCode));
    var settled;
    afterRefresh, settled := hook.OnCsrfRefreshed(req, true, cookie);
    second := hook.OnError(req, Some(403), None);
  }

  /**
   * Two requests fail with 403 while the session is being refreshed: the
   * first starts the refresh, the second is parked and resumed when it
   * succeeds. The parked request was never marked `_retry`, so if its replay
   * fails with 403 again it starts a second refresh.
   */
  method ParkedRequestMayRefreshAgain(verb: string)
    returns (first: Reaction, parked: Reaction, afterRefresh: Reaction, resumed: bool, replayFails: Reaction)
    ensures first == RefreshSessionFirst && parked == Park && afterRefresh == Replay
    ensures resumed
    ensures replayFails == RefreshSessionFirst
  {
    var hook := new Interceptor();
    var a := new Request(verb, map[]);
    var b := new Request(verb, map[]);
    first := hook.OnError(a, Some(403), None);
    parked := hook.OnError(b, Some(403), None);
    var settled;
    afterRefresh, settled := hook.OnSessionRefreshed(true);
    resumed := settled == [Resumed(b)];
    replayFails := hook.OnError(b, Some(403), None);
  }

  /** When the refresh fails, every parked request fails with it, as does the one that started it. */
  method FailedRefreshRejectsAll(verb: string, csrfCode: string)
    returns (afterRefresh: Reaction, settled: seq<Settlement>)
    requires IsCsrfCode(csrfCode)
    ensures afterRefresh == Reject(RefreshError)
    ensures |settled| == 2 && settled[0].Failed? && settled[1].Failed?
  {
    var hook := new Interceptor();
    var a := new Request(verb, map[]);
    var b := new Request(verb, map[]);
    var c := new Request(verb, map[]);
    var r := hook.OnError(a, Some(403), Some(csrfCode));
    r := hook.OnError(b, Some(403), Some(csrfCode));
    r := hook.OnError(c, Some(403), Some(csrfCode));
    afterRefresh, settled := hook.OnCsrfRefreshed(a, false, None);
  }
}
