/**
 * The bounded retry of the full version (`_try_handle_exception` followed by
 * `_retry_rate_limited_failure`) and the unbounded one of the two older
 * versions, as decisions on the failure count and the error text.
 */
module Retry {
  import opened Wrappers
  import opened Reddit
  import opened RateLimit
  import Wait

  /** A retry is attempted only while the incremented failure count is below this. */
  const MaxFailures := 5

  /** The listing limit `work_on_subreddit` uses when none is given. */
  const DefaultLimit := 60

  const IndexErrorMessage := "string index out of range"

  /** What `random.randint` with a single argument raises in the older versions. */
  const TypeErrorMessage := "randint() missing 1 required positional argument: 'b'"

  /** What the handler does after a failure: retry after waiting, give up quietly, or let the
      parser's IndexError escape. */
  datatype Decision = Retry(minutes: nat, limit: Option<nat>) | GiveUp | ParseRaises

  /** `max(1, limit - processed)`: the retried listing limit. */
  function NewLimit(limit: nat, processed: nat): (r: nat)
    ensures r >= 1
    ensures limit >= 1 ==> r <= limit
    ensures processed < limit ==> r == limit - processed
    ensures processed >= limit ==> r == 1
  {
    if limit - processed >= 1 then limit - processed else 1
  }

  /** The decision of `_try_handle_exception` once `failure_count` has been incremented to
      `count`; `limit` is the `limit` keyword argument of the failed call, if it had one, and
      `processed` the number of submissions processed in the session. */
  function Decide(count: nat, msg: string, limit: Option<nat>, processed: nat): (d: Decision)
    ensures d.Retry? <==> count < MaxFailures && ParseWait(msg).Wait?
    ensures d.ParseRaises? <==> count < MaxFailures && ParseWait(msg).IndexError?
    ensures d.Retry? ==> d.minutes == ParseWait(msg).minutes && d.minutes < 100
    ensures d.Retry? ==> d.limit == (if limit.Some? then Some(NewLimit(limit.value, processed)) else None)
  {
    if count >= MaxFailures then GiveUp
    else
      var newLimit := if limit.Some? then Some(NewLimit(limit.value, processed)) else None;
      match ParseWait(msg)
      case NoRetry => GiveUp
      case IndexError => ParseRaises
      case Wait(m) => Retry(m, newLimit)
  }

  /** The record of the sleep before a retry after `minutes`: `rand_wait_min(w, w + 1)`. */
  function BackoffEvent(minutes: nat): (e: Event)
    ensures e.Backoff? && e.minutes == minutes
    ensures 60 * minutes <= e.lo <= e.hi && e.hi == 60 * (minutes + 1)
  {
    Wait.BackoffWithin(minutes);
    var b := Wait.MinutesBounds(Some(minutes), Some(minutes + 1));
    Backoff(minutes, b.lo, b.hi)
  }

  /** The older versions' handler: every failure is parsed, a readable wait makes the
      one-argument `randint` raise TypeError before the retry, and an unreadable index
      raises IndexError; otherwise the failure is swallowed. No call is ever retried. */
  function UnboundedRetry(msg: string): (o: Outcome)
    ensures o == Returned <==> ParseWait(msg).NoRetry?
    ensures ParseWait(msg).Wait? ==> o == Raised(TypeErrorMessage)
    ensures ParseWait(msg).IndexError? ==> o == Raised(IndexErrorMessage)
  {
    match ParseWait(msg)
    case NoRetry => Returned
    case IndexError => Raised(IndexErrorMessage)
    case Wait(_) => Raised(TypeErrorMessage)
  }

  /** A text the full version retries on is one the older versions fail on, and both
      versions share the outcome on every other text while retries are allowed. */
  lemma RetryVersionsAgree(msg: string, count: nat, limit: Option<nat>, processed: nat)
    requires count < MaxFailures
    ensures Decide(count, msg, limit, processed).Retry? <==> UnboundedRetry(msg) == Raised(TypeErrorMessage)
    ensures Decide(count, msg, limit, processed).GiveUp? <==> UnboundedRetry(msg) == Returned
    ensures Decide(count, msg, limit, processed).ParseRaises? <==> UnboundedRetry(msg) == Raised(IndexErrorMessage)
  {
  }
}
