/** The fixed-window rate limiter (`RateLimiter.check_rate_limit` in
    app/core/security.py) over a Redis-like key/value store.

    The store maps a key to a counter and the counter's remaining time to live.
    One call reads the counter; with none it creates it at 1 with a time to live
    of one window, with a count at or over the limit it refuses, and otherwise it
    increments the counter and leaves its time to live alone. The window is
    therefore fixed: it starts at the first admitted call and ends when Redis
    expires the key. */
module RateLimit {
  import opened Text

  /** A stored counter: its value and its time to live in seconds, where -1
      means "no expiry" as in Redis' TTL command. */
  datatype Entry = Entry(count: int, ttl: int)

  /** What `check_rate_limit` returns: the dict with keys allowed, limit,
      remaining and reset. `reset` is None where Redis' TTL wrapper gives None. */
  datatype RateInfo = RateInfo(allowed: bool, limit: int, remaining: int, reset: Option<int>)

  datatype StepResult = StepResult(info: RateInfo, store: map<string, Entry>)

  /** The Redis key of a counter: `f"rate_limit:{identifier}:{key}"`. */
  function RedisKey(identifier: string, key: string): string {
    "rate_limit:" + identifier + ":" + key
  }

  /** The counter stored under `k`, 0 when there is none. */
  function StoredCount(s: map<string, Entry>, k: string): int {
    if k in s then s[k].count else 0
  }

  /** One call of `check_rate_limit` on counter `k`, as a function of the store
      before the call. */
  function Step(s: map<string, Entry>, k: string, requests: int, window: int): (r: StepResult)
    requires window > 0
    // admitted exactly when there is no counter or it is under the limit
    ensures r.info.allowed <==> (k !in s || s[k].count < requests)
    ensures r.info.limit == requests
    // an admitted call adds one to the counter, and `remaining` is what is left
    ensures r.info.allowed ==> k in r.store && r.store[k].count == StoredCount(s, k) + 1
    ensures r.info.allowed ==> r.info.remaining == requests - r.store[k].count
    // a new counter lives for one window; an existing one keeps its time to live
    ensures k !in s ==> r.store[k] == Entry(1, window)
    ensures k in s ==> k in r.store && r.store[k].ttl == s[k].ttl
    // a refused call changes nothing and reports nothing remaining
    ensures !r.info.allowed ==> r.store == s && r.info.remaining == 0
    // `reset` is the counter's time to live after the call
    ensures k in r.store && r.info.reset == Some(r.store[k].ttl)
    // no other counter is touched
    ensures r.store.Keys == s.Keys + {k}
    ensures forall j :: j in s && j != k ==> r.store[j] == s[j]
  {
    if k !in s then
      StepResult(RateInfo(true, requests, requests - 1, Some(window)), s[k := Entry(1, window)])
    else if s[k].count >= requests then
      StepResult(RateInfo(false, requests, 0, Some(s[k].ttl)), s)
    else
      var e := s[k].(count := s[k].count + 1);
      StepResult(RateInfo(true, requests, requests - s[k].count - 1, Some(e.ttl)), s[k := e])
  }

  /** The store after `seconds` seconds: counters whose time to live runs out are
      gone, the others have that much less to live, counters without expiry stay. */
  function Expire(s: map<string, Entry>, seconds: nat): (r: map<string, Entry>)
    ensures forall k :: k in r <==> k in s && (s[k].ttl < 0 || s[k].ttl > seconds)
    ensures forall k :: k in r ==> r[k].count == s[k].count
    ensures forall k :: k in r && s[k].ttl >= 0 ==> r[k].ttl == s[k].ttl - seconds
  {
    map k | k in s && (s[k].ttl < 0 || s[k].ttl > seconds) ::
      if s[k].ttl < 0 then s[k] else s[k].(ttl := s[k].ttl - seconds)
  }

  /** The shared key/value store (Redis), reduced to the counters the limiter
      uses. */
  class RedisStore {
    var entries: map<string, Entry>

    constructor ()
      ensures entries == map[]
    {
      entries := map[];
    }

    /** GET: the stored counter, or None when the key does not exist. */
    method Get(key: string) returns (v: Option<int>)
      ensures v == if key in entries then Some(entries[key].count) else None
    {
      v := if key in entries then Some(entries[key].count) else None;
    }

    /** SET key value EX seconds. Redis refuses a non-positive expiry. */
    method Set(key: string, value: int, ex: int)
      requires ex > 0
      modifies this
      ensures entries == old(entries)[key := Entry(value, ex)]
    {
      entries := entries[key := Entry(value, ex)];
    }

    /** INCR: adds one and keeps the time to live; a missing key starts at 1
        without expiry. */
    method Incr(key: string) returns (n: int)
      modifies this
      ensures key in entries && n == entries[key].count
      ensures n == (if key in old(entries) then old(entries)[key].count else 0) + 1
      ensures entries == old(entries)[key := Entry(n, if key in old(entries) then old(entries)[key].ttl else -1)]
    {
      var e := if key in entries then entries[key] else Entry(0, -1);
      n := e.count + 1;
      entries := entries[key := e.(count := n)];
    }

    /** TTL through the client wrapper: the time to live, -1 for no expiry, and
        None where Redis answers -2 (no such key). */
    method Ttl(key: string) returns (t: Option<int>)
      ensures t == if key in entries then Some(entries[key].ttl) else None
    {
      t := if key in entries then Some(entries[key].ttl) else None;
    }

    /** The passing of time, as Redis sees it: keys expire. */
    method Elapse(seconds: nat)
      modifies this
      ensures entries == Expire(old(entries), seconds)
    {
      entries := Expire(entries, seconds);
    }
  }

  /** A limiter: `requests` calls per `window` seconds per client. */
  class RateLimiter {
    const requests: int
    const window: int
    const identifier: string

    constructor (requests: int, window: int, identifier: string := "ip")
      requires window > 0
      ensures this.requests == requests && this.window == window && this.identifier == identifier
    {
      this.requests := requests;
      this.window := window;
      this.identifier := identifier;
    }

    /** `check_rate_limit`: GET, then SET with expiry, refuse, or INCR, then TTL,
        one after the other on the store. */
    method CheckRateLimit(store: RedisStore, key: string) returns (info: RateInfo)
      requires window > 0
      modifies store
      ensures var r := Step(old(store.entries), RedisKey(identifier, key), requests, window);
              info == r.info && store.entries == r.store
    {
      var redisKey := RedisKey(identifier, key);
      var current := store.Get(redisKey);
      if current.None? {
        store.Set(redisKey, 1, window);
        return RateInfo(true, requests, requests - 1, Some(window));
      }
      var count := current.value;
      if count >= requests {
        var ttl := store.Ttl(redisKey);
        return RateInfo(false, requests, 0, ttl);
      }
      var _ := store.Incr(redisKey);
      var ttl := store.Ttl(redisKey);
      info := RateInfo(true, requests, requests - count - 1, ttl);
    }
  }

  /** `get_rate_limiter(requests=100, window=60)`: a limiter keyed by client IP. */
  method GetRateLimiter(requests: int := 100, window: int := 60) returns (r: RateLimiter)
    requires window > 0
    ensures fresh(r)
    ensures r.requests == requests && r.window == window && r.identifier == "ip"
  {
    r := new RateLimiter(requests, window);
  }

  // ---------------------------------------------------------------------------
  // Several calls within one window
  // ---------------------------------------------------------------------------

  datatype Trace = Trace(infos: seq<RateInfo>, store: map<string, Entry>)

  /** `n` consecutive calls on counter `k` with no time passing between them. */
  function Calls(s: map<string, Entry>, k: string, requests: int, window: int, n: nat): Trace
    requires window > 0
  {
    if n == 0 then Trace([], s)
    else
      var prev := Calls(s, k, requests, window, n - 1);
      var r := Step(prev.store, k, requests, window);
      Trace(prev.infos + [r.info], r.store)
  }

  function Max(a: int, b: int): int { if a < b then b else a }
  function Min(a: int, b: int): int { if a < b then a else b }

  /** Starting with no counter, call i (from 0) is admitted exactly when
      i < max(requests, 1): the first call is always admitted, even with a limit
      of 0. The counter stops at that bound with the time to live of one window,
      and no other key changes. */
  lemma {:induction false} WindowBoundary(s: map<string, Entry>, k: string, requests: int, window: int, n: nat)
    requires window > 0 && k !in s
    ensures var t := Calls(s, k, requests, window, n);
      && |t.infos| == n
      && (forall i :: 0 <= i < n ==> (t.infos[i].allowed <==> i < Max(requests, 1)))
      && (forall i :: 0 <= i < n ==>
            t.infos[i].remaining == if i < Max(requests, 1) then requests - i - 1 else 0)
      && (n > 0 ==> k in t.store && t.store[k] == Entry(Min(n, Max(requests, 1)), window))
      && (n == 0 ==> t.store == s)
      && t.store.Keys - {k} == s.Keys
      && (forall j :: j in s ==> t.store[j] == s[j])
  {
    if n > 0 {
      WindowBoundary(s, k, requests, window, n - 1);
      var prev := Calls(s, k, requests, window, n - 1);
      var r := Step(prev.store, k, requests, window);
      assert Calls(s, k, requests, window, n).infos == prev.infos + [r.info];
      if n - 1 > 0 {
        assert prev.store[k].count == Min(n - 1, Max(requests, 1));
      }
    }
  }

  /** With a limit of at least one, `requests` consecutive calls are admitted
      and the next one is refused. */
  lemma ExactlyLimitAdmitted(s: map<string, Entry>, k: string, requests: int, window: int)
    requires window > 0 && k !in s && requests >= 1
    ensures var t := Calls(s, k, requests, window, requests + 1);
      && |t.infos| == requests + 1
      && (forall i :: 0 <= i < requests ==> t.infos[i].allowed)
      && !t.infos[requests].allowed
  {
    WindowBoundary(s, k, requests, window, requests + 1);
  }

  /** Once the window has passed, the counter is gone and the next call is
      admitted as the first of a new window. */
  lemma NextWindowAdmits(s: map<string, Entry>, k: string, requests: int, window: int, n: nat, elapsed: nat)
    requires window > 0 && k !in s && n >= 1 && elapsed >= window
    ensures var later := Expire(Calls(s, k, requests, window, n).store, elapsed);
      k !in later && Step(later, k, requests, window).info.allowed
  {
    WindowBoundary(s, k, requests, window, n);
  }

  /** Before the window has passed, a client that used up its limit stays
      refused, and `reset` counts down the seconds left. */
  lemma StillRefusedWithinWindow(s: map<string, Entry>, k: string, requests: int, window: int, elapsed: nat)
    requires window > 0 && k !in s && requests >= 1 && elapsed < window
    ensures var later := Expire(Calls(s, k, requests, window, requests).store, elapsed);
      var r := Step(later, k, requests, window);
      !r.info.allowed && r.info.reset == Some(window - elapsed)
  {
    WindowBoundary(s, k, requests, window, requests);
  }

  // ---------------------------------------------------------------------------
  // Counter keys
  // ---------------------------------------------------------------------------

  /** For one identifier, distinct client keys have distinct counters. */
  lemma {:induction false} RedisKeyInjectiveInKey(identifier: string, k1: string, k2: string)
    requires RedisKey(identifier, k1) == RedisKey(identifier, k2)
    ensures k1 == k2
  {
    var n := |"rate_limit:" + identifier + ":"|;
    assert k1 == RedisKey(identifier, k1)[n..];
    assert k2 == RedisKey(identifier, k2)[n..];
  }

  /** Identifiers without a colon never share a counter with one another. */
  lemma {:induction false} RedisKeyInjective(id1: string, k1: string, id2: string, k2: string)
    requires ':' !in id1 && ':' !in id2
    requires RedisKey(id1, k1) == RedisKey(id2, k2)
    ensures id1 == id2 && k1 == k2
  {
    var a, b := RedisKey(id1, k1), RedisKey(id2, k2);
    var p := |"rate_limit:"|;
    RedisKeyLayout(id1, k1);
    RedisKeyLayout(id2, k2);
    if |id1| != |id2| {
      assert false;
    }
    assert id1 == a[p..p + |id1|];
    assert id2 == b[p..p + |id2|];
    RedisKeyInjectiveInKey(id1, k1, k2);
  }

  /** Where the identifier and the separating colon sit in a counter key. */
  lemma RedisKeyLayout(identifier: string, key: string)
    ensures var r, p := RedisKey(identifier, key), |"rate_limit:"|;
      && |r| == p + |identifier| + 1 + |key|
      && r[p + |identifier|] == ':'
      && (forall j :: 0 <= j < |identifier| ==> r[p + j] == identifier[j])
  {
  }

  /** With a colon in the identifier two different (identifier, key) pairs can
      share a counter; the backend only ever uses the identifier "ip". */
  lemma RedisKeyCollision()
    ensures RedisKey("ip:a", "b") == RedisKey("ip", "a:b")
  {
  }
}
