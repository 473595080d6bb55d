/**
 * The global timeout policy (`app/core/timeout_policy.py`): every timeout
 * is a whole number of seconds, at least one, and the timeouts nest — the
 * LLM, recommendation and external ones within the request timeout, the
 * callback and Places ones within the external timeout — and a total
 * timeout splits into a connect and a read timeout for HTTP calls.
 * Floating-point seconds are modelled as reals.
 */
module TimeoutPolicy {
  import opened Wrappers
  import opened PyText

  const MinTimeoutSeconds: int := 1
  const MaxConnectTimeoutSeconds: real := 5.0
  const ConnectTimeoutRatio: real := 0.3

  /** `_normalize_timeout`: the value (else the default) raised to one second, then capped by the bound. */
  function NormalizeTimeout(value: Option<int>, default: int, upperBound: Option<int>): (r: int)
    ensures upperBound.None? ==> r >= MinTimeoutSeconds
    ensures upperBound.Some? ==> r <= upperBound.value && (upperBound.value >= MinTimeoutSeconds ==> r >= MinTimeoutSeconds)
    ensures var v := value.GetOr(default);
      v >= MinTimeoutSeconds && (upperBound.None? || v <= upperBound.value) ==> r == v
  {
    var seconds := Max(MinTimeoutSeconds, value.GetOr(default));
    if upperBound.Some? then Min(seconds, upperBound.value) else seconds
  }

  /** The timeout settings (`*_TIMEOUT_SECONDS`). */
  datatype TimeoutSettings = TimeoutSettings(
    request: Option<int>, llm: Option<int>, recommend: Option<int>,
    external: Option<int>, callback: Option<int>, googlePlaces: Option<int>)

  datatype Policy = Policy(
    requestTimeout: int, llmTimeout: int, recommendTimeout: int,
    externalTimeout: int, callbackTimeout: int, googlePlacesTimeout: int)

  /** What every policy `build_timeout_policy` builds satisfies. */
  predicate Nested(p: Policy)
  {
    MinTimeoutSeconds <= p.requestTimeout
    && MinTimeoutSeconds <= p.llmTimeout <= p.requestTimeout
    && MinTimeoutSeconds <= p.recommendTimeout <= p.requestTimeout
    && MinTimeoutSeconds <= p.externalTimeout <= p.requestTimeout
    && MinTimeoutSeconds <= p.callbackTimeout <= p.externalTimeout
    && MinTimeoutSeconds <= p.googlePlacesTimeout <= p.externalTimeout
  }

  /** `build_timeout_policy`, with the defaults 60, 60, 45, 15, 10 and 10 seconds. */
  function BuildTimeoutPolicy(s: TimeoutSettings): (p: Policy)
    ensures Nested(p)
    ensures p.requestTimeout == Max(MinTimeoutSeconds, s.request.GetOr(60))
  {
    var request := NormalizeTimeout(s.request, 60, None);
    var external := NormalizeTimeout(s.external, 15, Some(request));
    Policy(
      request,
      NormalizeTimeout(s.llm, 60, Some(request)),
      NormalizeTimeout(s.recommend, 45, Some(request)),
      external,
      NormalizeTimeout(s.callback, 10, Some(external)),
      NormalizeTimeout(s.googlePlaces, 10, Some(external)))
  }

  /** A setting within its bounds is kept as it is. */
  lemma SettingsWithinBoundsKept(s: TimeoutSettings, request: int, llm: int)
    requires s.request == Some(request) && s.llm == Some(llm) && 1 <= llm <= request
    ensures BuildTimeoutPolicy(s).requestTimeout == request && BuildTimeoutPolicy(s).llmTimeout == llm
  {
  }

  /** A request timeout of 20 seconds caps every larger setting to 20 (the policy test's case). */
  lemma RequestTimeoutCaps()
    ensures BuildTimeoutPolicy(TimeoutSettings(Some(20), Some(60), Some(45), Some(50), Some(30), Some(25)))
      == Policy(20, 20, 20, 20, 20, 20)
  {
  }

  /** `to_requests_timeout`: a connect timeout of 30% within [1, 5] seconds and the rest for reading. */
  function ToRequestsTimeout(totalTimeoutSeconds: int): (r: (real, real))
    ensures 1.0 <= r.0 <= MaxConnectTimeoutSeconds && r.1 > 0.0
    ensures var total := Max(MinTimeoutSeconds, totalTimeoutSeconds) as real;
      total > r.0 ==> r.1 == total - r.0
    ensures totalTimeoutSeconds <= 1 ==> r == (1.0, 0.5)
  {
    var total := Max(MinTimeoutSeconds, totalTimeoutSeconds) as real;
    var ratio := total * ConnectTimeoutRatio;
    var connect := if MaxConnectTimeoutSeconds <= (if ratio >= 1.0 then ratio else 1.0) then MaxConnectTimeoutSeconds
                   else (if ratio >= 1.0 then ratio else 1.0);
    var read := if total > connect then (if total - connect >= 1.0 then total - connect else 1.0)
                else (if total * 0.5 >= 0.5 then total * 0.5 else 0.5);
    (connect, read)
  }

  /** Connect and read add up to the total whenever the total exceeds one second. */
  lemma SplitAddsUp(totalTimeoutSeconds: int)
    requires totalTimeoutSeconds >= 2
    ensures ToRequestsTimeout(totalTimeoutSeconds).0 + ToRequestsTimeout(totalTimeoutSeconds).1 == totalTimeoutSeconds as real
  {
  }

  /** Ten seconds split into three for connecting and seven for reading. */
  lemma TenSeconds()
    ensures ToRequestsTimeout(10) == (3.0, 7.0)
  {
  }
}
