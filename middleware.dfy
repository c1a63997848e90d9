/** src/middleware.ts: the fixed-window rate limiter kept in a process-wide map,
    its periodic sweep, and the chain of checks every request goes through.
    The clock is a parameter (`now`, in milliseconds). */
module Middleware {
  import opened Common

  /** A limiter entry: requests seen in the current window and when it ends. */
  datatype Entry = Entry(count: int, resetTime: int)

  /** `isRateLimited(key, maxRequests, windowMs)` at time `now` (lines 7-18): a
      missing or expired entry starts a new window with one request and lets it
      through; otherwise the request is counted and blocked once the count
      passes `maxRequests`. Only the entry for `key` changes. */
  function Hit(entries: map<string, Entry>, key: string, maxRequests: int, windowMs: int,
               now: int): (r: (map<string, Entry>, bool))
    ensures r.0.Keys == entries.Keys + {key}
    ensures forall k :: k in entries && k != key ==> r.0[k] == entries[k]
    ensures r.1 ==> key in entries && now <= entries[key].resetTime && entries[key].count >= maxRequests
  {
    if key !in entries || now > entries[key].resetTime then
      (entries[key := Entry(1, now + windowMs)], false)
    else
      var e := entries[key].(count := entries[key].count + 1);
      (entries[key := e], e.count > maxRequests)
  }

  /** Successive calls for one key at the given times: the final map and the
      answers, in order. */
  function Hits(entries: map<string, Entry>, key: string, maxRequests: int, windowMs: int,
                times: seq<int>): (map<string, Entry>, seq<bool>)
    decreases |times|
  {
    if times == [] then (entries, [])
    else
      var (e1, b) := Hit(entries, key, maxRequests, windowMs, times[0]);
      var (e2, bs) := Hits(e1, key, maxRequests, windowMs, times[1..]);
      (e2, [b] + bs)
  }

  /** Inside an open window ending at `reset` (the end itself included, as the
      comparison is strict), call `j` sees count `c + j + 1`. */
  lemma {:induction false} HitsInWindow(entries: map<string, Entry>, key: string, maxRequests: int,
                                        windowMs: int, times: seq<int>, c: int, reset: int)
    requires key in entries && entries[key] == Entry(c, reset)
    requires forall j :: 0 <= j < |times| ==> times[j] <= reset
    ensures |Hits(entries, key, maxRequests, windowMs, times).1| == |times|
    ensures forall j :: 0 <= j < |times| ==>
      Hits(entries, key, maxRequests, windowMs, times).1[j] == (c + j + 1 > maxRequests)
    ensures key in Hits(entries, key, maxRequests, windowMs, times).0
    ensures Hits(entries, key, maxRequests, windowMs, times).0[key] == Entry(c + |times|, reset)
    decreases |times|
  {
    if times != [] {
      var (e1, b) := Hit(entries, key, maxRequests, windowMs, times[0]);
      HitsInWindow(e1, key, maxRequests, windowMs, times[1..], c + 1, reset);
      var bs := Hits(e1, key, maxRequests, windowMs, times[1..]).1;
      forall j | 0 <= j < |times| ensures Hits(entries, key, maxRequests, windowMs, times).1[j] == (c + j + 1 > maxRequests) {
        if j > 0 { assert ([b] + bs)[j] == bs[j - 1]; }
      }
    }
  }

  /** Lines 7-18: a window opened at `times[0]` lets exactly the first
      `maxRequests` calls through as long as the later calls come no later
      than `windowMs` after it; blocked calls are still counted. */
  lemma WindowBudget(entries: map<string, Entry>, key: string, maxRequests: int, windowMs: int,
                     times: seq<int>)
    requires times != []
    requires key !in entries || times[0] > entries[key].resetTime
    requires forall j :: 0 < j < |times| ==> times[j] <= times[0] + windowMs
    ensures |Hits(entries, key, maxRequests, windowMs, times).1| == |times|
    ensures forall j :: 0 <= j < |times| ==> Hits(entries, key, maxRequests, windowMs, times).1[j] == (j >= maxRequests && j > 0)
    ensures key in Hits(entries, key, maxRequests, windowMs, times).0
    ensures Hits(entries, key, maxRequests, windowMs, times).0[key] == Entry(|times|, times[0] + windowMs)
  {
    var (e1, b) := Hit(entries, key, maxRequests, windowMs, times[0]);
    var rest := times[1..];
    HitsInWindow(e1, key, maxRequests, windowMs, rest, 1, times[0] + windowMs);
    var bs := Hits(e1, key, maxRequests, windowMs, rest).1;
    forall j | 0 <= j < |times| ensures Hits(entries, key, maxRequests, windowMs, times).1[j] == (j >= maxRequests && j > 0) {
      if j > 0 { assert ([b] + bs)[j] == bs[j - 1]; }
    }
  }

  /** The sweep of lines 22-27: the entries whose window has not ended. */
  function Swept(entries: map<string, Entry>, now: int): map<string, Entry> {
    map k | k in entries && now <= entries[k].resetTime :: entries[k]
  }

  /** The process-wide `rateLimitMap`. */
  class RateLimiter {
    var entries: map<string, Entry>

    constructor ()
      ensures entries == map[]
    {
      entries := map[];
    }

    method IsRateLimited(key: string, maxRequests: int, windowMs: int, now: int) returns (limited: bool)
      modifies this
      ensures (entries, limited) == Hit(old(entries), key, maxRequests, windowMs, now)
    {
      if key !in entries || now > entries[key].resetTime {
        entries := entries[key := Entry(1, now + windowMs)];
        return false;
      }
      var entry := entries[key];
      entry := entry.(count := entry.count + 1);
      entries := entries[key := entry];
      limited := entry.count > maxRequests;
    }

    /** The body of the interval callback (lines 23-26): delete every entry with
        `now > resetTime`, one key at a time. */
    method Sweep(now: int)
      modifies this
      ensures entries == Swept(old(entries), now)
    {
      var keys := entries.Keys;
      while keys != {}
        invariant keys <= old(entries).Keys
        invariant entries == map k | k in old(entries) && (k in keys || now <= old(entries)[k].resetTime) :: old(entries)[k]
        decreases keys
      {
        var key :| key in keys;
        if now > entries[key].resetTime {
          entries := entries - {key};
        }
        keys := keys - {key};
      }
    }
  }

  // ---------------------------------------------------------------------------
  // The routing chain of `middleware` (lines 30-94)
  // ---------------------------------------------------------------------------

  datatype Request = Request(path: string, verb: string, forwardedFor: Option<string>, cookies: set<string>)

  /** `next()`, a redirect, a JSON error, or a plain response with headers. */
  datatype Response =
    | Next
    | Redirect(location: string)
    | Json(status: nat, error: string)
    | Plain(status: nat, body: Option<string>, headers: seq<(string, string)>)

  const Minute: int := 60 * 1000
  const RegisterTooMany: string := "יותר מדי בקשות. נסה שוב בעוד דקה."
  const ChatTooMany: string := "יותר מדי הודעות. נסה שוב בעוד דקה."
  const CorsHeaders: seq<(string, string)> := [
    ("Access-Control-Allow-Origin", "*"),
    ("Access-Control-Allow-Methods", "GET, POST, OPTIONS"),
    ("Access-Control-Allow-Headers", "Content-Type")]

  /** `s.split(",")[0]`: everything before the first comma. */
  function FirstField(s: string): (r: string)
    ensures |r| <= |s| && r == s[..|r|] && ',' !in r
    ensures |r| < |s| ==> s[|r|] == ','
  {
    if s == [] || s[0] == ',' then [] else [s[0]] + FirstField(s[1..])
  }

  /** The first field ends at the first comma. */
  lemma {:induction false} FirstFieldEnds(s: string, k: nat)
    requires k <= |s| && ',' !in s[..k] && (k == |s| || s[k] == ',')
    ensures FirstField(s) == s[..k]
  {
    if k > 0 {
      assert s[0] == s[..k][0];
      assert s[1..][..k - 1] == s[1..k];
      assert s[1..k] == s[..k][1..];
      FirstFieldEnds(s[1..], k - 1);
    }
  }

  /** Line 32: the first `x-forwarded-for` entry, trimmed, or "unknown". */
  function ClientIp(forwardedFor: Option<string>): (ip: string)
    ensures ip != [] && ',' !in ip
    ensures forwardedFor.None? ==> ip == "unknown"
  {
    if forwardedFor.None? then "unknown"
    else
      var first := Trim(FirstField(forwardedFor.value));
      if first == "" then "unknown" else first
  }

  /** Line 32 with the header present: when its first comma-separated field
      (everything before character `k`, the first comma or the end) is blank the
      address is "unknown"; otherwise it is that field with the surrounding
      whitespace cut away. */
  lemma ClientIpHeader(v: string, k: nat)
    requires k <= |v| && ',' !in v[..k] && (k == |v| || v[k] == ',')
    ensures AllSpace(v[..k]) ==> ClientIp(Some(v)) == "unknown"
    ensures !AllSpace(v[..k]) ==> ClientIp(Some(v)) == Trim(v[..k]) && IsTrimmed(ClientIp(Some(v)))
  {
    FirstFieldEnds(v, k);
    TrimEmpty(v[..k]);
    var a, b := TrimSlice(v[..k]);
  }

  /** Lines 35-36: one of the two session cookies is present. */
  predicate LoggedIn(rq: Request) {
    "authjs.session-token" in rq.cookies || "__Secure-authjs.session-token" in rq.cookies
  }

  /** Lines 39-45. */
  predicate IsPublic(path: string) {
    path == "/" || path == "/login" || path == "/register"
    || StartsWith(path, "/api/auth") || StartsWith(path, "/api/widget")
  }

  /** Lines 57-76 for a path under `/api/chat`. */
  function ChatRouted(entries: map<string, Entry>, rq: Request, now: int): (map<string, Entry>, Response) {
    if rq.verb == "OPTIONS" then (entries, Plain(200, None, CorsHeaders))
    else if rq.verb == "POST" then
      var (e, limited) := Hit(entries, "chat:" + ClientIp(rq.forwardedFor), 20, Minute, now);
      if limited then (e, Plain(429, Some(ChatTooMany), [("Access-Control-Allow-Origin", "*")])) else (e, Next)
    else (entries, Next)
  }

  /** `middleware(req)` at time `now` (lines 30-94), every branch as written. */
  function Routed(entries: map<string, Entry>, rq: Request, now: int): (map<string, Entry>, Response) {
    var ip := ClientIp(rq.forwardedFor);
    if IsPublic(rq.path) then (entries, Next)
    else
      var (e1, registerLimited) :=
        if rq.path == "/api/auth/register" && rq.verb == "POST"
        then Hit(entries, "register:" + ip, 5, Minute, now)
        else (entries, false);
      if registerLimited then (e1, Json(429, RegisterTooMany))
      else if StartsWith(rq.path, "/api/chat") then ChatRouted(e1, rq, now)
      else if StartsWith(rq.path, "/dashboard") && !LoggedIn(rq) then (e1, Redirect("/login"))
      else if StartsWith(rq.path, "/api/") && !LoggedIn(rq) then (e1, Json(401, "Unauthorized"))
      else if rq.path == "/login" && LoggedIn(rq) then (e1, Redirect("/dashboard"))
      else (e1, Next)
  }

  /** `middleware(req)`: the chain of lines 30-94 over the shared limiter. */
  method HandleRequest(limiter: RateLimiter, rq: Request, now: int) returns (resp: Response)
    modifies limiter
    ensures (limiter.entries, resp) == Routed(old(limiter.entries), rq, now)
  {
    var ip := ClientIp(rq.forwardedFor);
    if IsPublic(rq.path) {
      return Next;
    }
    if rq.path == "/api/auth/register" && rq.verb == "POST" {
      var limited := limiter.IsRateLimited("register:" + ip, 5, Minute, now);
      if limited {
        return Json(429, RegisterTooMany);
      }
    }
    if StartsWith(rq.path, "/api/chat") {
      if rq.verb == "OPTIONS" {
        return Plain(200, None, CorsHeaders);
      }
      if rq.verb == "POST" {
        var limited := limiter.IsRateLimited("chat:" + ip, 20, Minute, now);
        if limited {
          return Plain(429, Some(ChatTooMany), [("Access-Control-Allow-Origin", "*")]);
        }
      }
      return Next;
    }
    if StartsWith(rq.path, "/dashboard") && !LoggedIn(rq) {
      return Redirect("/login");
    }
    if StartsWith(rq.path, "/api/") && !LoggedIn(rq) {
      return Json(401, "Unauthorized");
    }
    if rq.path == "/login" && LoggedIn(rq) {
      return Redirect("/dashboard");
    }
    resp := Next;
  }

  // ---------------------------------------------------------------------------
  // What the chain guarantees
  // ---------------------------------------------------------------------------

  /** Lines 39-47: a public path passes before any other check, and the limiter
      is not touched. */
  lemma PublicFirst(entries: map<string, Entry>, rq: Request, now: int)
    requires IsPublic(rq.path)
    ensures Routed(entries, rq, now) == (entries, Next)
  {
  }

  /** Lines 43 and 50-54: `/api/auth/register` is under the public prefix
      `/api/auth`, so the registration limit never answers and never counts. */
  lemma RegisterLimitUnreachable(entries: map<string, Entry>, rq: Request, now: int)
    ensures Routed(entries, rq, now).1 != Json(429, RegisterTooMany)
    ensures rq.path == "/api/auth/register" ==> Routed(entries, rq, now) == (entries, Next)
  {
    assert StartsWith("/api/auth/register", "/api/auth");
  }

  /** Lines 41 and 89-91: `/login` is public, so logged-in users are never sent
      to the dashboard. */
  lemma LoginRedirectUnreachable(entries: map<string, Entry>, rq: Request, now: int)
    ensures Routed(entries, rq, now).1 != Redirect("/dashboard")
  {
  }

  /** Two prefixes that differ at a position both cover cannot both start `s`. */
  lemma PrefixesDiffer(s: string, p: string, q: string, i: nat)
    requires StartsWith(s, p) && i < |p| && i < |q| && p[i] != q[i]
    ensures !StartsWith(s, q)
  {
  }

  /** A path under `/api/chat` is not public. */
  lemma ChatNotPublic(path: string)
    requires StartsWith(path, "/api/chat")
    ensures !IsPublic(path) && path != "/api/auth/register"
  {
    PrefixesDiffer(path, "/api/chat", "/api/auth", 5);
    PrefixesDiffer(path, "/api/chat", "/api/widget", 5);
  }

  /** Lines 57-76: every path under `/api/chat`, `/api/chatbot` included,
      skips the login checks: OPTIONS gets the CORS preflight, POST is limited
      to 20 per minute under the key `chat:<ip>`, anything else passes. */
  lemma ChatBypassesLogin(entries: map<string, Entry>, rq: Request, now: int)
    requires StartsWith(rq.path, "/api/chat")
    ensures Routed(entries, rq, now) == ChatRouted(entries, rq, now)
    ensures Routed(entries, rq, now).1 in {Next, Plain(200, None, CorsHeaders),
                                           Plain(429, Some(ChatTooMany), [("Access-Control-Allow-Origin", "*")])}
    ensures StartsWith("/api/chatbot", "/api/chat")
  {
    ChatNotPublic(rq.path);
  }

  /** Lines 79-86: without a session cookie, a dashboard path is redirected to
      `/login` and any other non-public API path outside `/api/chat` gets 401. */
  lemma SessionRequired(entries: map<string, Entry>, rq: Request, now: int)
    requires !LoggedIn(rq)
    ensures StartsWith(rq.path, "/dashboard") ==> Routed(entries, rq, now) == (entries, Redirect("/login"))
    ensures StartsWith(rq.path, "/api/") && !IsPublic(rq.path) && !StartsWith(rq.path, "/api/chat") ==>
      Routed(entries, rq, now) == (entries, Json(401, "Unauthorized"))
  {
    if StartsWith(rq.path, "/dashboard") {
      PrefixesDiffer(rq.path, "/dashboard", "/api/auth", 1);
      PrefixesDiffer(rq.path, "/dashboard", "/api/widget", 1);
      PrefixesDiffer(rq.path, "/dashboard", "/api/chat", 1);
    }
  }

  /** Lines 49-76: one request changes at most the limiter entry `chat:<ip>`. */
  lemma RoutedFrame(entries: map<string, Entry>, rq: Request, now: int, k: string)
    requires k != "chat:" + ClientIp(rq.forwardedFor)
    ensures k in Routed(entries, rq, now).0 <==> k in entries
    ensures k in entries ==> Routed(entries, rq, now).0[k] == entries[k]
  {
    assert StartsWith("/api/auth/register", "/api/auth");
  }
}
