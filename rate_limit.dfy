/**
 * The fixed-window rate limiter of src/lib/auth/rate-limit.ts: one bucket per
 * key in a map that lives for the whole process. A call in an expired or missing
 * window opens a new one; any other call counts, whether or not it is let through.
 */
module RateLimit {
  import opened Common

  datatype Bucket = Bucket(count: int, resetAt: int)

  /** `{ ok, retryAfterSeconds }` */
  datatype Verdict = Verdict(ok: bool, retryAfterSeconds: int)

  /** `Math.ceil(x / 1000)` */
  function CeilSeconds(ms: int): int {
    -((-ms) / 1000)
  }

  lemma CeilSecondsBounds(ms: int)
    ensures CeilSeconds(ms) * 1000 >= ms && (CeilSeconds(ms) - 1) * 1000 < ms
  {
  }

  /** The bucket after one call at `now`, and the answer. */
  function Step(b: Option<Bucket>, maxRequests: int, windowMs: int, now: int): (Bucket, Verdict) {
    if b.None? || b.value.resetAt <= now then (Bucket(1, now + windowMs), Verdict(true, 0))
    else
      var bumped := b.value.(count := b.value.count + 1);
      if bumped.count > maxRequests then
        var wait := CeilSeconds(bumped.resetAt - now);
        (bumped, Verdict(false, if wait > 1 then wait else 1))
      else (bumped, Verdict(true, 0))
  }

  /**
   * A call is let through when it opens a window or when the raised count is within the
   * limit; every call inside a live window raises the count; a refusal asks the caller to
   * wait the time the window has left in whole seconds, rounded up: the least number of
   * seconds that covers it.
   */
  lemma StepFacts(b: Option<Bucket>, maxRequests: int, windowMs: int, now: int)
    ensures var (nb, v) := Step(b, maxRequests, windowMs, now);
      && (v.ok <==> b.None? || b.value.resetAt <= now || b.value.count + 1 <= maxRequests)
      && (v.ok ==> v.retryAfterSeconds == 0)
      && (!v.ok ==> && v.retryAfterSeconds >= 1
                    && v.retryAfterSeconds * 1000 >= nb.resetAt - now
                    && (v.retryAfterSeconds - 1) * 1000 < nb.resetAt - now)
      && (b.Some? && now < b.value.resetAt ==> nb == Bucket(b.value.count + 1, b.value.resetAt))
      && (b.None? || b.value.resetAt <= now ==> nb == Bucket(1, now + windowMs))
  {
    if b.Some? && now < b.value.resetAt {
      CeilSecondsBounds(b.value.resetAt - now);
    }
  }

  /** How many of the calls at the given times are let through, starting from bucket `b`. */
  function Successes(b: Option<Bucket>, maxRequests: int, windowMs: int, times: seq<int>): nat
    decreases |times|
  {
    if times == [] then 0
    else
      var (nb, v) := Step(b, maxRequests, windowMs, times[0]);
      (if v.ok then 1 else 0) + Successes(Some(nb), maxRequests, windowMs, times[1..])
  }

  function Room(left: int, n: nat): nat {
    if left <= 0 then 0 else if left < n then left else n
  }

  /** Inside a live window holding `count` calls, only the calls that fit under the limit pass. */
  lemma {:induction false} WithinWindow(count: int, resetAt: int, maxRequests: int, windowMs: int, times: seq<int>)
    requires forall i :: 0 <= i < |times| ==> times[i] < resetAt
    ensures Successes(Some(Bucket(count, resetAt)), maxRequests, windowMs, times) == Room(maxRequests - count, |times|)
    decreases |times|
  {
    if times != [] {
      WithinWindow(count + 1, resetAt, maxRequests, windowMs, times[1..]);
    }
  }

  /**
   * At most `maxRequests` calls per key pass in one window: a call that opens a window,
   * followed by any number of calls before it closes, lets through no more than the
   * limit (one, if the limit is below one).
   */
  lemma WindowCap(start: int, maxRequests: int, windowMs: int, times: seq<int>)
    requires forall i :: 0 <= i < |times| ==> times[i] < start + windowMs
    ensures Successes(None, maxRequests, windowMs, [start] + times) <= if maxRequests >= 1 then maxRequests else 1
  {
    assert ([start] + times)[1..] == times;
    WithinWindow(1, start + windowMs, maxRequests, windowMs, times);
  }

  /** The bucket stored under a key, if any. */
  function BucketOf(buckets: map<string, Bucket>, key: string): Option<Bucket> {
    if key in buckets then Some(buckets[key]) else None
  }

  /** The module-level `buckets` map. */
  class RateLimiter {
    var buckets: map<string, Bucket>

    constructor ()
      ensures buckets == map[]
    {
      buckets := map[];
    }

    /** `checkRateLimit(key, maxRequests, windowMs)` at time `now`. */
    method Check(key: string, maxRequests: int, windowMs: int, now: int) returns (v: Verdict)
      modifies this
      ensures var (nb, sv) := Step(BucketOf(old(buckets), key), maxRequests, windowMs, now);
        buckets == old(buckets)[key := nb] && v == sv
      ensures forall k :: k != key ==> BucketOf(buckets, k) == BucketOf(old(buckets), k)
    {
      if key !in buckets || buckets[key].resetAt <= now {
        buckets := buckets[key := Bucket(1, now + windowMs)];
        return Verdict(true, 0);
      }
      var existing := buckets[key];
      existing := existing.(count := existing.count + 1);
      buckets := buckets[key := existing];
      if existing.count > maxRequests {
        var wait := CeilSeconds(existing.resetAt - now);
        var retryAfterSeconds := if wait > 1 then wait else 1;
        return Verdict(false, retryAfterSeconds);
      }
      return Verdict(true, 0);
    }
  }
}
