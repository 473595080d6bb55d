/**
 * Callback delivery with retries (`app/services/callback_delivery.py`): up
 * to `1 + max(0, CALLBACK_MAX_RETRIES)` posts, stopping on the first
 * success, on an error that is not worth retrying, or on the last attempt,
 * with an exponential back-off sleep between attempts. The HTTP post is an
 * oracle giving the outcome of each attempt; the sleeps are recorded rather
 * than slept; logging is left out.
 */
module CallbackDelivery {
  import opened Wrappers
  import opened PyText
  import TimeoutPolicy

  /** What one `requests.post` followed by `raise_for_status()` comes to. */
  datatype SendOutcome =
    | Delivered
    | TimedOut
    | ConnectionFailed
    | HttpFailure(status: Option<int>)
    | OtherFailure

  /** `_is_retryable_request_error`: timeouts, connection errors, and HTTP errors without a status, 429 or 5xx. */
  predicate IsRetryable(o: SendOutcome)
  {
    match o
    case TimedOut => true
    case ConnectionFailed => true
    case HttpFailure(status) => status.None? || status.value == 429 || status.value >= 500
    case _ => false
  }

  /** The retry settings as `post_callback_with_retry` derives them. */
  datatype RetryConfig = RetryConfig(maxAttempts: int, baseDelay: real, maxDelay: real)

  function RetryConfigOf(maxRetries: int, baseSeconds: real, maxSeconds: real): (c: RetryConfig)
    ensures c.maxAttempts == 1 + Max(0, maxRetries) && c.maxAttempts >= 1
    ensures 0.0 <= c.baseDelay <= c.maxDelay
    ensures baseSeconds >= 0.0 ==> c.baseDelay == baseSeconds
    ensures maxSeconds >= c.baseDelay ==> c.maxDelay == maxSeconds
  {
    var base := if baseSeconds >= 0.0 then baseSeconds else 0.0;
    RetryConfig(1 + Max(0, maxRetries), base, if maxSeconds >= base then maxSeconds else base)
  }

  function Pow2(n: nat): (r: real)
    ensures r >= 1.0
  {
    if n == 0 then 1.0 else 2.0 * Pow2(n - 1)
  }

  /** The sleep after failed attempt `attempt`: `min(max_delay, base_delay * 2 ** (attempt - 1))`. */
  function Backoff(c: RetryConfig, attempt: nat): (d: real)
    requires attempt >= 1
  {
    var grown := c.baseDelay * Pow2(attempt - 1);
    if c.maxDelay <= grown then c.maxDelay else grown
  }

  /** The back-off never exceeds the maximum delay and never shrinks from one attempt to the next. */
  lemma BackoffBounds(c: RetryConfig, attempt: nat)
    requires attempt >= 1 && 0.0 <= c.baseDelay <= c.maxDelay
    ensures c.baseDelay <= Backoff(c, attempt) <= c.maxDelay
    ensures Backoff(c, attempt) <= Backoff(c, attempt + 1)
  {
    assert Pow2(attempt) == 2.0 * Pow2(attempt - 1);
    assert c.baseDelay * Pow2(attempt - 1) >= c.baseDelay * 1.0;
    assert c.baseDelay * Pow2(attempt) >= c.baseDelay * Pow2(attempt - 1);
  }

  /** What a run of the loop came to: whether it delivered, how many posts it made, the sleeps between them. */
  datatype Delivery = Delivery(delivered: bool, sends: nat, sleeps: seq<real>)

  /** The loop from attempt `attempt` on, with the sleeps made so far. */
  function DeliverFrom(c: RetryConfig, send: int -> SendOutcome, attempt: nat, sleeps: seq<real>): (r: Delivery)
    requires attempt >= 1
    decreases c.maxAttempts - attempt
  {
    if attempt > c.maxAttempts then Delivery(false, attempt - 1, sleeps)
    else
      var outcome := send(attempt);
      if outcome.Delivered? then Delivery(true, attempt, sleeps)
      else if attempt >= c.maxAttempts || !IsRetryable(outcome) then Delivery(false, attempt, sleeps)
      else DeliverFrom(c, send, attempt + 1, sleeps + [Backoff(c, attempt)])
  }

  /** What `post_callback_with_retry` does for attempts numbered from 1. */
  function Deliver(c: RetryConfig, send: int -> SendOutcome): Delivery
  {
    DeliverFrom(c, send, 1, [])
  }

  /**
   * The loop from `attempt` on: it posts at least once more and at most up
   * to the last attempt; every attempt before its last post failed in a way
   * worth retrying, each followed by its back-off; it delivers exactly when
   * its last post succeeded; and a failed run ended on the last attempt or
   * on an error not worth retrying.
   */
  lemma {:induction false} DeliverFromSpec(c: RetryConfig, send: int -> SendOutcome, attempt: nat, sleeps: seq<real>)
    requires 1 <= attempt <= c.maxAttempts && |sleeps| == attempt - 1
    ensures var r := DeliverFrom(c, send, attempt, sleeps);
      attempt <= r.sends <= c.maxAttempts && |r.sleeps| == r.sends - 1 && r.sleeps[..attempt - 1] == sleeps
      && (forall k :: attempt <= k < r.sends ==> !send(k).Delivered? && IsRetryable(send(k)) && r.sleeps[k - 1] == Backoff(c, k))
      && (r.delivered <==> send(r.sends).Delivered?)
      && (!r.delivered ==> r.sends == c.maxAttempts || !IsRetryable(send(r.sends)))
    decreases c.maxAttempts - attempt
  {
    var outcome := send(attempt);
    if !outcome.Delivered? && attempt < c.maxAttempts && IsRetryable(outcome) {
      var more := sleeps + [Backoff(c, attempt)];
      DeliverFromSpec(c, send, attempt + 1, more);
      var r := DeliverFrom(c, send, attempt + 1, more);
      assert r.sleeps[..attempt] == more;
      assert r.sleeps[..attempt - 1] == more[..attempt - 1] == sleeps;
      assert r.sleeps[attempt - 1] == more[attempt - 1];
    } else {
      assert sleeps[..attempt - 1] == sleeps;
    }
  }

  /**
   * A whole delivery: between one post and the maximum number of attempts,
   * one back-off sleep less than posts, the sleeps growing as the back-off
   * prescribes, success exactly when the last post got through, and every
   * earlier post a failure worth retrying.
   */
  lemma DeliverSpec(c: RetryConfig, send: int -> SendOutcome)
    requires c.maxAttempts >= 1
    ensures var r := Deliver(c, send);
      1 <= r.sends <= c.maxAttempts && |r.sleeps| == r.sends - 1
      && (forall k :: 1 <= k < r.sends ==> !send(k).Delivered? && IsRetryable(send(k)) && r.sleeps[k - 1] == Backoff(c, k))
      && (r.delivered <==> send(r.sends).Delivered?)
      && (!r.delivered ==> r.sends == c.maxAttempts || !IsRetryable(send(r.sends)))
  {
    DeliverFromSpec(c, send, 1, []);
  }

  /** A first post that fails with an error not worth retrying is the only one, and nothing is slept. */
  lemma NoRetryOnPermanentError(c: RetryConfig, send: int -> SendOutcome)
    requires c.maxAttempts >= 1 && !send(1).Delivered? && !IsRetryable(send(1))
    ensures Deliver(c, send) == Delivery(false, 1, [])
  {
  }

  /** A client error such as 400 and an invalid URL are not worth retrying. */
  lemma ClientErrorsPermanent()
    ensures !IsRetryable(HttpFailure(Some(400))) && !IsRetryable(OtherFailure)
    ensures IsRetryable(HttpFailure(Some(429))) && IsRetryable(HttpFailure(Some(503))) && IsRetryable(HttpFailure(None))
  {
  }

  /** Two connection failures then a success, with two retries from 0.5 s: three posts, sleeps of 0.5 s and 1.0 s. */
  lemma SucceedsAfterRetries(send: int -> SendOutcome)
    requires send(1) == ConnectionFailed && send(2) == ConnectionFailed && send(3) == Delivered
    ensures Deliver(RetryConfigOf(2, 0.5, 5.0), send) == Delivery(true, 3, [0.5, 1.0])
  {
    var c := RetryConfigOf(2, 0.5, 5.0);
    assert Backoff(c, 1) == 0.5;
    assert Pow2(1) == 2.0;
    assert Backoff(c, 2) == 1.0;
    assert [0.5] + [1.0] == [0.5, 1.0];
  }

  /** The attempts of posting `request` with the timeout pair of `to_requests_timeout`. */
  function Posting<R>(request: R, timeoutSeconds: int, post: (R, (real, real), int) -> SendOutcome): int -> SendOutcome
  {
    attempt => post(request, TimeoutPolicy.ToRequestsTimeout(timeoutSeconds), attempt)
  }

  /**
   * `post_callback_with_retry`: the attempt loop for one request (its URL,
   * payload and headers), posting with the timeout pair of
   * `to_requests_timeout`; returns whether it delivered, the number of posts
   * and the sleeps it made.
   */
  method PostCallbackWithRetry<R>(request: R, maxRetries: int, baseSeconds: real, maxSeconds: real, timeoutSeconds: int,
                                  post: (R, (real, real), int) -> SendOutcome)
    returns (delivered: bool, sends: nat, sleeps: seq<real>)
    ensures Delivery(delivered, sends, sleeps)
      == Deliver(RetryConfigOf(maxRetries, baseSeconds, maxSeconds), Posting(request, timeoutSeconds, post))
  {
    var c := RetryConfigOf(maxRetries, baseSeconds, maxSeconds);
    var requestTimeout := TimeoutPolicy.ToRequestsTimeout(timeoutSeconds);
    ghost var send := Posting(request, timeoutSeconds, post);
    sleeps := [];
    var attempt := 1;
    while attempt <= c.maxAttempts
      invariant 1 <= attempt
      invariant DeliverFrom(c, send, attempt, sleeps) == Deliver(c, send)
      decreases c.maxAttempts - attempt
    {
      var outcome := post(request, requestTimeout, attempt);
      assert outcome == send(attempt);
      if outcome.Delivered? {
        return true, attempt, sleeps;
      }
      if attempt >= c.maxAttempts || !IsRetryable(outcome) {
        return false, attempt, sleeps;
      }
      sleeps := sleeps + [Backoff(c, attempt)];
      attempt := attempt + 1;
    }
    return false, attempt - 1, sleeps;
  }
}
