/** The `WeatherAPI` request service: a response cache keyed by request fingerprint and a
    one-second throttle on network attempts, plus `clearWeatherCache`. */
module WeatherApi {
  import opened Basics
  import opened Text
  import opened Params
  import opened Http

  /** `RATE_LIMIT`: milliseconds between network attempts. */
  const RateLimit: int := 1000

  /** The two clock readings `enforceRateLimit` takes: `now` is the first `Date.now()`, and
      the second one reads `lag` milliseconds after `now` plus the delay. `lag` being a `nat`
      is the model's assumption that `Date.now()` does not run backwards and that a timer
      does not wake early by its measure. */
  datatype Clock = Clock(now: int, lag: nat)

  /** How long `enforceRateLimit` sleeps, given the time since the last attempt. */
  function RateLimitDelay(elapsed: int): (delay: int)
    ensures 0 <= delay
    ensures elapsed + delay >= RateLimit
    ensures elapsed < RateLimit ==> elapsed + delay == RateLimit
    ensures elapsed >= RateLimit ==> delay == 0
    ensures 0 <= elapsed ==> delay <= RateLimit
  {
    if elapsed < RateLimit then RateLimit - elapsed else 0
  }

  /** The new `lastRequestTime`: the second clock reading, after the wait. */
  function ThrottledTime(lastRequestTime: int, c: Clock): (t: int)
    ensures t >= lastRequestTime + RateLimit
    ensures t >= c.now
  {
    c.now + RateLimitDelay(c.now - lastRequestTime) + c.lag
  }

  /** The two fields of the service. */
  datatype State = State(cache: map<string, Json>, lastRequestTime: int)

  /** The request handed to `fetch`: the endpoint and the merged query parameters. */
  datatype Request = Request(endpoint: string, query: seq<Param>)

  /** One call's effect: the new state, what the returned promise settles to, and the
      request sent to the network, if any. */
  datatype Step = Step(state: State, result: Result<Json, Thrown>, sent: Option<Request>)

  const EndpointRequired := "Endpoint is required"
  const KeyNotConfigured := "API key not configured"

  /** `fetchWeatherData(endpoint, params)` from state `s`, with `apiKey` the configured key
      (empty when none is), `c` the clock and `o` the outcome of the network attempt. */
  function Fetch(s: State, apiKey: string, endpoint: string, params: seq<Param>, c: Clock, o: Outcome): (r: Step)
    // Invalid input: rejected before the cache, the throttle or the network is touched.
    ensures endpoint == "" ==> r == Step(s, Err(NewError(EndpointRequired)), None)
    ensures endpoint != "" && apiKey == "" ==> r == Step(s, Err(NewError(KeyNotConfigured)), None)
    // A hit returns exactly the stored payload, with no network attempt and no state change.
    ensures endpoint != "" && apiKey != "" && CreateCacheKey(endpoint, params) in s.cache ==>
              r == Step(s, Ok(s.cache[CreateCacheKey(endpoint, params)]), None)
    // A miss makes exactly one attempt, with `appid` and metric units forced into the query.
    ensures r.sent.Some? <==> endpoint != "" && apiKey != "" && CreateCacheKey(endpoint, params) !in s.cache
    ensures r.sent.Some? ==> r.sent.value.endpoint == endpoint && r.sent.value.query == MergeParams(params, apiKey)
    // Every attempt is at least RateLimit after the previous one; no attempt, no clock change.
    ensures r.sent.Some? ==> r.state.lastRequestTime == ThrottledTime(s.lastRequestTime, c)
    ensures r.sent.None? ==> r.state == s
    // Only a success is cached, under the request's key; every other entry stays as it was.
    ensures r.sent.Some? && r.result.Ok? ==>
              r.state.cache == s.cache[CreateCacheKey(endpoint, params) := r.result.value]
    ensures r.sent.Some? ==> (r.result.Ok? <==> ExecuteRequest(o).Ok?)
    ensures r.sent.Some? && r.result.Ok? ==> r.result.value == ExecuteRequest(o).value
    ensures r.sent.Some? && r.result.Err? ==>
              r.state.cache == s.cache && r.result.error == NormalizeError(ExecuteRequest(o).error)
  {
    if endpoint == "" then Step(s, Err(NewError(EndpointRequired)), None)
    else if apiKey == "" then Step(s, Err(NewError(KeyNotConfigured)), None)
    else
      var key := CreateCacheKey(endpoint, params);
      if key in s.cache then Step(s, Ok(s.cache[key]), None)
      else
        var t := ThrottledTime(s.lastRequestTime, c);
        var request := Request(endpoint, MergeParams(params, apiKey));
        match ExecuteRequest(o)
        case Ok(body) => Step(State(s.cache[key := body], t), Ok(body), Some(request))
        case Err(e) => Step(State(s.cache, t), Err(NormalizeError(e)), Some(request))
  }

  /** What a failed attempt surfaces, per outcome: `API error: <status>` for a response that
      is not ok, `Request timed out` for an abort or any rejection named `AbortError`, the
      rejection itself when it is another `Error` and the rejection wrapped in an `Error`
      otherwise. */
  lemma FailureErrors(s: State, apiKey: string, endpoint: string, params: seq<Param>, c: Clock, o: Outcome)
    requires endpoint != "" && apiKey != "" && CreateCacheKey(endpoint, params) !in s.cache
    ensures var r := Fetch(s, apiKey, endpoint, params, c, o);
      && (o.Responded? && !IsOk(o.status) ==> r.result == Err(NewError(ApiErrorPrefix + Decimal(o.status))))
      && (o.Aborted? ==> r.result == Err(NewError(TimeoutMessage)))
      && (o.Rejected? && NameOf(o.reason) == Some("AbortError") ==> r.result == Err(NewError(TimeoutMessage)))
      && (o.Rejected? && NameOf(o.reason) != Some("AbortError") && o.reason.ErrorObject? ==> r.result == Err(o.reason))
      && (o.Rejected? && NameOf(o.reason) != Some("AbortError") && o.reason.OtherValue? ==> r.result == Err(NewError(o.reason.text)))
      && (r.result.Err? ==> r.state.cache == s.cache && r.result.error.ErrorObject?)
  {
  }

  /** A successful call makes the identical call that follows it a hit, whatever order its
      parameters were inserted in and whatever the clock and the network would do. */
  lemma {:induction false} RepeatIsHit(s: State, apiKey: string, endpoint: string, p: seq<Param>, q: seq<Param>,
                                       c1: Clock, o1: Outcome, c2: Clock, o2: Outcome)
    requires DistinctNames(p) && DistinctNames(q)
    requires forall x :: x in p <==> x in q
    requires Fetch(s, apiKey, endpoint, p, c1, o1).result.Ok?
    ensures var first := Fetch(s, apiKey, endpoint, p, c1, o1);
      Fetch(first.state, apiKey, endpoint, q, c2, o2) == Step(first.state, first.result, None)
  {
    CacheKeyOrderIndependent(endpoint, p, q);
  }

  /** With an empty cache every valid call goes to the network. */
  lemma AfterClearEveryCallIsSent(t: int, apiKey: string, endpoint: string, params: seq<Param>, c: Clock, o: Outcome)
    requires endpoint != "" && apiKey != ""
    ensures Fetch(State(map[], t), apiKey, endpoint, params, c, o).sent.Some?
  {
  }

  // ---------------------------------------------------------------------------
  // Sequences of calls, one after another

  datatype Call = Call(endpoint: string, params: seq<Param>, clock: Clock, outcome: Outcome)

  /** The state after a sequence of calls, and the `lastRequestTime` of each network
      attempt they made, in order. */
  datatype Trace = Trace(state: State, attempts: seq<int>)

  function Run(s: State, apiKey: string, calls: seq<Call>): Trace
    decreases |calls|
  {
    if calls == [] then Trace(s, [])
    else
      var step := Fetch(s, apiKey, calls[0].endpoint, calls[0].params, calls[0].clock, calls[0].outcome);
      var rest := Run(step.state, apiKey, calls[1..]);
      Trace(rest.state, (if step.sent.Some? then [step.state.lastRequestTime] else []) + rest.attempts)
  }

  /** Each time in `a` is at least RateLimit after the one before it, the first one at
      least RateLimit after `start`. */
  predicate SpacedFrom(start: int, a: seq<int>)
  {
    && (|a| > 0 ==> a[0] >= start + RateLimit)
    && (forall i :: 0 < i < |a| ==> a[i] >= a[i - 1] + RateLimit)
  }

  lemma SpacedCons(start: int, t: int, a: seq<int>)
    requires t >= start + RateLimit && SpacedFrom(t, a)
    ensures SpacedFrom(start, [t] + a)
  {
    var b := [t] + a;
    forall i | 0 < i < |b| ensures b[i] >= b[i - 1] + RateLimit {
      assert b[i] == a[i - 1];
      if i > 1 {
        assert b[i - 1] == a[i - 2];
      }
    }
  }

  /** Throttling: over any sequence of calls, each network attempt starts at least
      RateLimit after the one before it (the first one after the initial `lastRequestTime`). */
  lemma {:induction false} AttemptsAreSpaced(s: State, apiKey: string, calls: seq<Call>)
    ensures SpacedFrom(s.lastRequestTime, Run(s, apiKey, calls).attempts)
    decreases |calls|
  {
    if calls != [] {
      var step := Fetch(s, apiKey, calls[0].endpoint, calls[0].params, calls[0].clock, calls[0].outcome);
      var rest := Run(step.state, apiKey, calls[1..]);
      AttemptsAreSpaced(step.state, apiKey, calls[1..]);
      if step.sent.Some? {
        SpacedCons(s.lastRequestTime, step.state.lastRequestTime, rest.attempts);
      }
    }
  }

  /** One call never drops or replaces a cached payload. */
  lemma FetchKeepsEntry(s: State, apiKey: string, endpoint: string, params: seq<Param>, c: Clock, o: Outcome, key: string)
    requires key in s.cache
    ensures key in Fetch(s, apiKey, endpoint, params, c, o).state.cache
    ensures Fetch(s, apiKey, endpoint, params, c, o).state.cache[key] == s.cache[key]
  {
  }

  /** Entries are only ever added: a cached payload stays as it was over any sequence of calls. */
  lemma {:induction false} CachedEntriesPersist(s: State, apiKey: string, calls: seq<Call>, key: string)
    requires key in s.cache
    ensures key in Run(s, apiKey, calls).state.cache
    ensures Run(s, apiKey, calls).state.cache[key] == s.cache[key]
    decreases |calls|
  {
    if calls != [] {
      var step := Fetch(s, apiKey, calls[0].endpoint, calls[0].params, calls[0].clock, calls[0].outcome);
      FetchKeepsEntry(s, apiKey, calls[0].endpoint, calls[0].params, calls[0].clock, calls[0].outcome, key);
      CachedEntriesPersist(step.state, apiKey, calls[1..], key);
    }
  }

  /** `Fetch` on a miss, spelled out step by step as the method takes it. */
  lemma FetchMiss(s: State, apiKey: string, endpoint: string, params: seq<Param>, c: Clock, o: Outcome)
    requires endpoint != "" && apiKey != "" && CreateCacheKey(endpoint, params) !in s.cache
    ensures var key := CreateCacheKey(endpoint, params);
      var t := ThrottledTime(s.lastRequestTime, c);
      var request := Some(Request(endpoint, MergeParams(params, apiKey)));
      Fetch(s, apiKey, endpoint, params, c, o) ==
        match ExecuteRequest(o)
        case Ok(body) => Step(State(s.cache[key := body], t), Ok(body), request)
        case Err(e) => Step(State(s.cache, t), Err(NormalizeError(e)), request)
  {
  }

  // ---------------------------------------------------------------------------
  // The service object

  class WeatherAPI {
    var cache: map<string, Json>
    var lastRequestTime: int

    function Snapshot(): State
      reads this
    {
      State(cache, lastRequestTime)
    }

    constructor ()
      ensures cache == map[] && lastRequestTime == 0
    {
      cache := map[];
      lastRequestTime := 0;
    }

    /** `enforceRateLimit`: sleeps for `delay`, then records the second clock reading. */
    method EnforceRateLimit(c: Clock) returns (delay: int)
      modifies this`lastRequestTime
      ensures delay == RateLimitDelay(c.now - old(lastRequestTime))
      ensures lastRequestTime == c.now + delay + c.lag
      ensures lastRequestTime >= old(lastRequestTime) + RateLimit
    {
      var elapsed := c.now - lastRequestTime;
      delay := 0;
      if elapsed < RateLimit {
        delay := RateLimit - elapsed;
      }
      lastRequestTime := c.now + delay + c.lag;
    }

    /** `fetchWeatherData`; `sent` is the request handed to `fetch`, if one was. */
    method FetchWeatherData(apiKey: string, endpoint: string, params: seq<Param>, c: Clock, o: Outcome)
      returns (r: Result<Json, Thrown>, sent: Option<Request>)
      modifies this
      ensures Step(State(cache, lastRequestTime), r, sent) == Fetch(State(old(cache), old(lastRequestTime)), apiKey, endpoint, params, c, o)
    {
      ghost var s0 := State(cache, lastRequestTime);
      if endpoint == "" {
        return Err(NewError(EndpointRequired)), None;
      }
      if apiKey == "" {
        return Err(NewError(KeyNotConfigured)), None;
      }
      var key := CreateCacheKey(endpoint, params);
      if key in cache {
        return Ok(cache[key]), None;
      }
      var _ := EnforceRateLimit(c);
      assert lastRequestTime == ThrottledTime(s0.lastRequestTime, c);
      sent := Some(Request(endpoint, MergeParams(params, apiKey)));
      var response := ExecuteRequest(o);
      match response {
        case Ok(body) =>
          cache := cache[key := body];
          r := Ok(body);
        case Err(e) =>
          r := Err(NormalizeError(e));
      }
      FetchMiss(s0, apiKey, endpoint, params, c, o);
    }
  }

  /** `clearWeatherCache`: empties the cache and leaves the throttle alone. */
  method ClearWeatherCache(api: WeatherAPI)
    modifies api`cache
    ensures api.cache == map[]
    ensures api.lastRequestTime == old(api.lastRequestTime)
  {
    api.cache := map[];
  }
}
