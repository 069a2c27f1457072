/**
 * The retry policy: whether a failed response is retried
 * (`_should_retry`), how long to wait first (`_calculate_retry_timeout`)
 * and the retry budget a call starts with (`_remaining_retries`).
 */
module RetryPolicy {
  import opened Wrappers
  import opened Text
  import opened Http
  import opened Errors

  /** `headers.get(name)`. */
  function Header(headers: map<string, string>, name: string): Option<string>
  {
    if name in headers then Some(headers[name]) else None
  }

  /** `_should_retry`: an explicit `x-should-retry` header wins, else 409, 429 and 5xx are retried. */
  function ShouldRetry(response: HttpResponse): (r: bool)
    ensures Header(response.headers, "x-should-retry") == Some("true") ==> r
    ensures Header(response.headers, "x-should-retry") == Some("false") ==> !r
    ensures Header(response.headers, "x-should-retry") !in {Some("true"), Some("false")} ==>
      (r <==> response.status == 409 || response.status == 429 || response.status >= 500)
  {
    var explicit := Header(response.headers, "x-should-retry");
    if explicit == Some("true") then true
    else if explicit == Some("false") then false
    else response.status == 409 || response.status == 429 || response.status >= 500
  }

  /** Without the override header, exactly the conflict, rate-limit and server-error kinds are retried. */
  lemma RetryableKinds(response: HttpResponse)
    requires "x-should-retry" !in response.headers
    ensures ShouldRetry(response) <==> MakeStatusError(response.status) in {Conflict, RateLimit, InternalServer}
  {
  }

  /** `_remaining_retries`: an explicit budget wins over `options.get_max_retries(...)`. */
  function RemainingRetries(remaining: Option<int>, maxRetries: int): (r: int)
    ensures remaining.Some? ==> r == remaining.value
    ensures remaining.None? ==> r == maxRetries
  {
    match remaining
    case Some(n) => n
    case None => maxRetries
  }

  /** `int(headers.get("retry-after"))`, or -1 where there are no headers or `int()` raises. */
  function RetryAfter(headers: Option<map<string, string>>): (r: int)
    ensures headers.None? ==> r == -1
    ensures headers.Some? ==>
      match Header(headers.value, "retry-after")
      case None => r == -1
      case Some(text) => (ParseInt(text).Some? ==> r == ParseInt(text).value) && (ParseInt(text).None? ==> r == -1)
  {
    match headers
    case None => -1
    case Some(h) =>
      match Header(h, "retry-after")
      case None => -1
      case Some(text) => (match ParseInt(text) case Some(n) => n case None => -1)
  }

  const InitialRetryDelay: real := 0.5
  const MaxRetryDelay: real := 2.0

  /** `min(initial_retry_delay * pow(nb_retries - 1, 2), max_retry_delay)`. */
  function BaseDelay(nbRetries: int): (d: real)
    ensures 0.0 <= d <= MaxRetryDelay
    ensures d < MaxRetryDelay ==> d == InitialRetryDelay * ((nbRetries - 1) * (nbRetries - 1)) as real
    ensures d == MaxRetryDelay ==> InitialRetryDelay * ((nbRetries - 1) * (nbRetries - 1)) as real >= MaxRetryDelay
  {
    var grown := InitialRetryDelay * ((nbRetries - 1) * (nbRetries - 1)) as real;
    if grown < MaxRetryDelay then grown else MaxRetryDelay
  }

  /** The base delay for the first few retry counts, and its cap. */
  lemma {:induction false} BaseDelayTable(n: int)
    ensures n == 0 ==> BaseDelay(n) == 0.5
    ensures n == 1 ==> BaseDelay(n) == 0.0
    ensures n == 2 ==> BaseDelay(n) == 0.5
    ensures (n >= 3 || n < 0) ==> BaseDelay(n) == 2.0
    ensures 0.0 <= BaseDelay(n) <= 2.0
  {
    if n >= 3 || n < 0 {
      var d := n - 1;
      assert d * d >= 4 by {
        if d >= 2 { assert d * d >= 2 * d; } else { assert d <= -2; assert d * d >= -2 * d; }
      }
    }
  }

  /**
   * `_calculate_retry_timeout`, with `draw` the value `random()` returned:
   * a `retry-after` of 1 to 60 seconds is obeyed, otherwise the base delay
   * plus a jitter in [-0.5, 0.5), never below zero.
   */
  function RetryDelay(maxRetries: int, remaining: int, headers: Option<map<string, string>>, draw: real): (d: real)
    requires 0.0 <= draw < 1.0
    ensures 0.0 <= d <= 60.0
    ensures 0 < RetryAfter(headers) <= 60 ==> d == RetryAfter(headers) as real
    ensures !(0 < RetryAfter(headers) <= 60) ==>
      && 0.0 <= d < 2.5
      && BaseDelay(maxRetries - remaining) - 0.5 <= d < BaseDelay(maxRetries - remaining) + 0.5
    ensures !(0 < RetryAfter(headers) <= 60) ==>
      var jittered := BaseDelay(maxRetries - remaining) + (draw - 0.5);
      && (jittered >= 0.0 ==> d == jittered)
      && (jittered < 0.0 ==> d == 0.0)
  {
    var retryAfter := RetryAfter(headers);
    if 0 < retryAfter <= 60 then retryAfter as real
    else
      BaseDelayTable(maxRetries - remaining);
      var timeout := BaseDelay(maxRetries - remaining) + (draw - 0.5);
      if timeout >= 0.0 then timeout else 0.0
  }

  /** A `retry-after` header of 1 to 60 seconds is obeyed whatever the attempt number. */
  lemma RetryAfterObeyed(maxRetries: int, remaining: int, headers: map<string, string>, seconds: int, draw: real)
    requires 0 < seconds <= 60 && 0.0 <= draw < 1.0
    requires "retry-after" in headers && headers["retry-after"] == ShowInt(seconds)
    ensures RetryDelay(maxRetries, remaining, Some(headers), draw) == seconds as real
  {
    ParseShowInt(seconds);
  }

  /** A timeout or connection failure carries no headers, so its delay is always the jittered backoff. */
  lemma NoHeadersMeansBackoff(maxRetries: int, remaining: int, draw: real)
    requires 0.0 <= draw < 1.0
    ensures var d := RetryDelay(maxRetries, remaining, None, draw);
      0.0 <= d < 2.5 && BaseDelay(maxRetries - remaining) - 0.5 <= d
  {
  }
}
