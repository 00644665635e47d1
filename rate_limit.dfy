/** middleware/rate_limit.py: a fixed-window limit of 10 requests per 60
    seconds per client address, kept in Redis by a Lua script that INCRs the
    client's counter, sets its expiry only when the count becomes 1, and
    allows the request while the count is at most the limit. */
module RateLimit {
  import opened Records

  const Limit: nat := 10
  const Window: nat := 60

  /** A Redis counter: its value and, once EXPIRE has run, the instant it
      expires. */
  datatype Counter = Counter(count: nat, expiresAt: Option<int>)

  predicate Live(c: Counter, now: int)
  {
    c.expiresAt.None? || now < c.expiresAt.value
  }

  /** What GET would see: the live count, or 0 for a missing or expired key. */
  function CountAt(counters: map<string, Counter>, key: string, now: int): nat
  {
    if key in counters && Live(counters[key], now) then counters[key].count else 0
  }

  /** One run of the Lua script on `key` at time `now`: the new counters and
      whether the request is allowed. */
  function Script(counters: map<string, Counter>, key: string, now: int, limit: int, window: nat): (map<string, Counter>, bool)
  {
    var count := CountAt(counters, key, now) + 1;
    var expires := if count == 1 then Some(now + window) else counters[key].expiresAt;
    (counters[key := Counter(count, expires)], count <= limit)
  }

  /** The counter goes up on every request, allowed or not; it is never reset
      by an allowed request. Its expiry is set only by the first increment
      and otherwise kept, so the window is fixed from the first request.
      No other key changes. */
  lemma ScriptSpec(counters: map<string, Counter>, key: string, now: int, limit: int, window: nat)
    ensures var (c', allowed) := Script(counters, key, now, limit, window);
      key in c' && c'[key].count == CountAt(counters, key, now) + 1
      && (allowed <==> CountAt(counters, key, now) + 1 <= limit)
      && (CountAt(counters, key, now) == 0 ==> c'[key].expiresAt == Some(now + window))
      && (CountAt(counters, key, now) > 0 ==> c'[key].expiresAt == counters[key].expiresAt)
      && (forall k :: k != key ==> (k in c' <==> k in counters))
      && (forall k :: k != key && k in counters ==> c'[k] == counters[k])
  {
  }

  /** Once the key has expired, the next request restarts the count at 1 and
      is allowed. */
  lemma ExpiryRestartsCount(counters: map<string, Counter>, key: string, now: int)
    requires key in counters ==> !Live(counters[key], now)
    ensures var (c', allowed) := Script(counters, key, now, Limit, Window);
      c'[key] == Counter(1, Some(now + Window)) && allowed
  {
  }

  /** A series of requests on one key; the verdicts in order. */
  function Requests(counters: map<string, Counter>, key: string, times: seq<int>): (map<string, Counter>, seq<bool>)
    decreases |times|
  {
    if times == [] then (counters, [])
    else
      var (c1, ok) := Script(counters, key, times[0], Limit, Window);
      var (c2, oks) := Requests(c1, key, times[1..]);
      (c2, [ok] + oks)
  }

  lemma {:induction false} RequestsWithinLiveWindow(counters: map<string, Counter>, key: string, times: seq<int>, c: nat, e: int)
    requires key in counters && counters[key] == Counter(c, Some(e)) && c >= 1
    requires forall i :: 0 <= i < |times| ==> times[i] < e
    ensures var (c', oks) := Requests(counters, key, times);
      |oks| == |times| && key in c' && c'[key] == Counter(c + |times|, Some(e))
      && forall i :: 0 <= i < |times| ==> (oks[i] <==> c + i + 1 <= Limit)
    decreases |times|
  {
    if times != [] {
      var (c1, ok) := Script(counters, key, times[0], Limit, Window);
      RequestsWithinLiveWindow(c1, key, times[1..], c + 1, e);
    }
  }

  /** From an expired or missing key, requests arriving within 60 seconds of
      the first give the counts 1, 2, 3, ...: the first ten are allowed and
      every later one gets a 429. */
  lemma {:induction false} TenPerWindow(counters: map<string, Counter>, key: string, times: seq<int>)
    requires times != []
    requires key in counters ==> !Live(counters[key], times[0])
    requires forall i :: 0 <= i < |times| ==> times[0] <= times[i] < times[0] + Window
    ensures var (c', oks) := Requests(counters, key, times);
      |oks| == |times| && key in c' && c'[key].count == |times|
      && forall i :: 0 <= i < |times| ==> (oks[i] <==> i < Limit)
  {
    var (c1, ok) := Script(counters, key, times[0], Limit, Window);
    ExpiryRestartsCount(counters, key, times[0]);
    RequestsWithinLiveWindow(c1, key, times[1..], 1, times[0] + Window);
    var (c2, oks) := Requests(c1, key, times[1..]);
    assert Requests(counters, key, times) == (c2, [ok] + oks);
  }

  /** `request.META.get('REMOTE_ADDR', 'unknown')` prefixed with "rl:". */
  function RateKey(remoteAddr: Option<string>): string
  {
    "rl:" + (if remoteAddr.Some? then remoteAddr.value else "unknown")
  }

  /** Different client addresses have different counters. A request with
      no REMOTE_ADDR and one from the literal address "unknown" do share
      the counter "rl:unknown". */
  lemma RateKeysDistinct(a: string, b: string)
    requires a != b
    ensures RateKey(Some(a)) != RateKey(Some(b))
  {
    assert RateKey(Some(a))[3..] == a && RateKey(Some(b))[3..] == b;
  }

  datatype HttpResponse = HttpResponse(status: nat, body: string)

  const TooManyRequests: HttpResponse := HttpResponse(429, "{\"error\": \"Too many requests\"}")

  /** The Redis server's counters. */
  class Redis {
    var counters: map<string, Counter>

    constructor ()
      ensures counters == map[]
    {
      counters := map[];
    }

    /** `rate_limit_script(keys=[key], args=[limit, window])`, true for 1.
        `failure` is the error the client raises when the server cannot run
        the script (connection refused, timeout); the counters are then as
        they were. */
    method RunScript(key: string, limit: int, window: nat, now: int, failure: Option<string>) returns (r: Py<bool>)
      modifies this
      ensures failure.Some? ==> r == Raised(failure.value) && counters == old(counters)
      ensures failure.None? ==> r.Returned? && (counters, r.value) == Script(old(counters), key, now, limit, window)
    {
      if failure.Some? {
        return Raised(failure.value);
      }
      var count := CountAt(counters, key, now) + 1;
      var expires := if count == 1 then Some(now + window) else counters[key].expiresAt;
      counters := counters[key := Counter(count, expires)];
      r := Returned(count <= limit);
    }
  }

  /** `RedisIPRateLimitMiddleware.__call__`: `downstream` is what
      `get_response(request)` gives, `forwarded` whether it was called, and
      `redisFailure` the error of a failing script call, which nothing in the
      middleware catches, so it propagates out of the request. */
  method RateLimitCall(redis: Redis, remoteAddr: Option<string>, now: int, downstream: HttpResponse, redisFailure: Option<string>)
    returns (response: Py<HttpResponse>, forwarded: bool)
    modifies redis
    ensures redisFailure.Some? ==>
      response == Raised(redisFailure.value) && !forwarded && redis.counters == old(redis.counters)
    ensures redisFailure.None? ==>
      var (c', allowed) := Script(old(redis.counters), RateKey(remoteAddr), now, Limit, Window);
      redis.counters == c' && forwarded == allowed
      && response == Returned(if allowed then downstream else TooManyRequests)
  {
    var key := RateKey(remoteAddr);
    var r := redis.RunScript(key, Limit, Window, now, redisFailure);
    if r.Raised? {
      return Raised(r.error), false;
    }
    if !r.value {
      return Returned(TooManyRequests), false;
    }
    return Returned(downstream), true;
  }
}
