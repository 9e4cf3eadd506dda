/** src/utils/api.ts: the severity classifier without a wildfire rule and the
    module-level request limiter (at most 5 requests per 60-second window). */
module Api {
  import opened Wrappers
  import opened Types

  /** `classifyDisaster` of api.ts. Tsunami, other and wildfire events, and a
      missing reading, all get the default "moderate". */
  function ClassifyApi(kind: DisasterType, data: Readings): (s: SeverityLevel)
    ensures s != Low
    ensures kind !in {Earthquake, Flood, Hurricane, Tornado} ==> s == Moderate
  {
    if kind == Earthquake then
      if AtLeast(data.magnitude, 6.0) then Critical
      else if AtLeast(data.magnitude, 4.5) then High
      else Moderate
    else if kind == Flood then
      if Above(data.waterLevel, 3.0) then Critical
      else if Above(data.waterLevel, 2.0) then High
      else Moderate
    else if kind == Hurricane || kind == Tornado then
      if Above(data.windSpeed, 110.0) then Critical
      else if Above(data.windSpeed, 74.0) then High
      else Moderate
    else Moderate
  }

  /** Earthquake tiers: both boundaries are inclusive. */
  lemma EarthquakeTiers(data: Readings, m: real)
    requires data.magnitude == Some(m)
    ensures ClassifyApi(Earthquake, data) == Critical <==> m >= 6.0
    ensures ClassifyApi(Earthquake, data) == High <==> 4.5 <= m < 6.0
    ensures ClassifyApi(Earthquake, data) == Moderate <==> m < 4.5
  {
  }

  /** Flood and wind tiers use strict comparisons. */
  lemma FloodAndWindTiers(data: Readings, w: real, v: real, kind: DisasterType)
    requires data.waterLevel == Some(w) && data.windSpeed == Some(v)
    requires kind == Hurricane || kind == Tornado
    ensures ClassifyApi(Flood, data) == Critical <==> w > 3.0
    ensures ClassifyApi(Flood, data) == High <==> 2.0 < w <= 3.0
    ensures ClassifyApi(Flood, data) == Moderate <==> w <= 2.0
    ensures ClassifyApi(kind, data) == Critical <==> v > 110.0
    ensures ClassifyApi(kind, data) == High <==> 74.0 < v <= 110.0
    ensures ClassifyApi(kind, data) == Moderate <==> v <= 74.0
  {
  }

  /** The boundary values themselves. */
  lemma BoundaryExamples()
    ensures ClassifyApi(Earthquake, Readings(Some(6.0), None, None, None)) == Critical
    ensures ClassifyApi(Earthquake, Readings(Some(5.9), None, None, None)) == High
    ensures ClassifyApi(Earthquake, Readings(Some(4.5), None, None, None)) == High
    ensures ClassifyApi(Earthquake, Readings(Some(4.4), None, None, None)) == Moderate
    ensures ClassifyApi(Flood, Readings(None, Some(3.0), None, None)) == High
    ensures ClassifyApi(Flood, Readings(None, Some(3.01), None, None)) == Critical
    ensures ClassifyApi(Flood, Readings(None, Some(2.0), None, None)) == Moderate
    ensures ClassifyApi(Hurricane, Readings(None, None, Some(110.0), None)) == High
    ensures ClassifyApi(Hurricane, Readings(None, None, Some(111.0), None)) == Critical
    ensures ClassifyApi(Tornado, Readings(None, None, Some(74.0), None)) == Moderate
    ensures ClassifyApi(Wildfire, Readings(None, None, None, Some(25000.0))) == Moderate
  {
  }

  /** A missing reading never raises the severity above the default. */
  lemma AbsentReadingIsModerate(kind: DisasterType, data: Readings)
    requires data == Readings(None, None, None, None)
    ensures ClassifyApi(kind, data) == Moderate
  {
  }

  /** For a fixed type, larger readings never give a lower severity. */
  lemma ClassifyApiMonotone(kind: DisasterType, a: Readings, b: Readings)
    requires ReadingsLe(a, b)
    ensures ClassifyApi(kind, a).Rank() <= ClassifyApi(kind, b).Rank()
  {
  }

  /** Requests allowed per window and the window length in milliseconds. */
  const MaxRequests := 5
  const WindowMs := 60000

  /** The two module-level variables `requestCount` and `resetTime`. */
  datatype LimiterState = LimiterState(requestCount: int, resetTime: int)

  /** The object `checkRateLimit` returns. */
  datatype RateDecision = RateDecision(allowed: bool, resetIn: int)

  /** The count the call is judged against: the window has been restarted
      when `now` lies strictly after `resetTime`. */
  function CountInWindow(s: LimiterState, now: int): int {
    if now > s.resetTime then 0 else s.requestCount
  }

  /** `checkRateLimit()` with `Date.now()` passed in as `now`: the decision and
      the state afterwards. */
  function CheckRateLimit(s: LimiterState, now: int): (r: (RateDecision, LimiterState))
    ensures r.0.resetIn >= 0
    ensures r.0.resetIn == r.1.resetTime - now
    ensures r.0.allowed <==> CountInWindow(s, now) < MaxRequests
    ensures r.0.allowed ==> r.1.requestCount == CountInWindow(s, now) + 1
    ensures !r.0.allowed ==> r.1 == s
    ensures s.requestCount <= MaxRequests ==> r.1.requestCount <= MaxRequests
  {
    var s' := if now > s.resetTime then LimiterState(0, now + WindowMs) else s;
    if s'.requestCount < MaxRequests then
      (RateDecision(true, s'.resetTime - now), s'.(requestCount := s'.requestCount + 1))
    else
      (RateDecision(false, s'.resetTime - now), s')
  }

  /** The window is restarted exactly when `now > resetTime`; a call at
      `now == resetTime` stays in the old window. */
  lemma ResetRule(s: LimiterState, now: int)
    ensures now > s.resetTime ==> CheckRateLimit(s, now).1.resetTime == now + WindowMs
    ensures now <= s.resetTime ==> CheckRateLimit(s, now).1.resetTime == s.resetTime
    ensures CheckRateLimit(s, s.resetTime).0.allowed <==> s.requestCount < MaxRequests
  {
  }

  /** Final state and number of allowed calls after a series of calls. */
  function CheckAll(s: LimiterState, nows: seq<int>): (r: (LimiterState, nat))
    decreases |nows|
  {
    if nows == [] then (s, 0)
    else
      var (d, s') := CheckRateLimit(s, nows[0]);
      var (f, n) := CheckAll(s', nows[1..]);
      (f, n + if d.allowed then 1 else 0)
  }

  /** While the window is not restarted, at most the remaining quota of
      calls is allowed, and `resetTime` keeps its value. */
  lemma {:induction false} QuotaWithinWindow(s: LimiterState, nows: seq<int>)
    requires 0 <= s.requestCount <= MaxRequests
    requires forall i :: 0 <= i < |nows| ==> nows[i] <= s.resetTime
    ensures CheckAll(s, nows).1 <= MaxRequests - s.requestCount
    ensures CheckAll(s, nows).0.resetTime == s.resetTime
    decreases |nows|
  {
    if nows != [] {
      var (d, s') := CheckRateLimit(s, nows[0]);
      assert s'.resetTime == s.resetTime;
      QuotaWithinWindow(s', nows[1..]);
    }
  }

  /** Between two consecutive resets at most 5 calls are allowed: the call
      that restarts the window and every call up to the new `resetTime`. */
  lemma AtMostFivePerWindow(s: LimiterState, t: int, nows: seq<int>)
    requires t > s.resetTime
    requires forall i :: 0 <= i < |nows| ==> nows[i] <= t + WindowMs
    ensures CheckAll(s, [t] + nows).1 <= MaxRequests
  {
    var (d, s') := CheckRateLimit(s, t);
    assert ([t] + nows)[1..] == nows;
    QuotaWithinWindow(s', nows);
  }

  /** The module-level limiter. */
  class RateLimiter {
    var requestCount: int
    var resetTime: int

    ghost predicate Valid()
      reads this
    {
      0 <= requestCount <= MaxRequests
    }

    function State(): LimiterState
      reads this
    {
      LimiterState(requestCount, resetTime)
    }

    /** Module initialisation at time `loadTime`. */
    constructor (loadTime: int)
      ensures Valid()
      ensures requestCount == 0 && resetTime == loadTime + WindowMs
    {
      requestCount := 0;
      resetTime := loadTime + WindowMs;
    }

    method Check(now: int) returns (allowed: bool, resetIn: int)
      requires Valid()
      modifies this
      ensures Valid()
      ensures (RateDecision(allowed, resetIn), State()) == CheckRateLimit(old(State()), now)
    {
      if now > resetTime {
        requestCount := 0;
        resetTime := now + WindowMs;
      }
      if requestCount < MaxRequests {
        requestCount := requestCount + 1;
        allowed, resetIn := true, resetTime - now;
      } else {
        allowed, resetIn := false, resetTime - now;
      }
    }
  }
}
