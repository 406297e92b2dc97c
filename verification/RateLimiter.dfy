/** The fixed-window rate limiter of the HTTP ingress (src/ingress/rateLimit.ts). */
module RateLimiter {
  import opened Prelude
  import opened Types

  datatype Bucket = Bucket(windowStart: Instant, count: int)

  datatype RateLimitResult = Accepted(remaining: int) | Rejected(retryAfterMs: int)

  datatype Limits = Limits(windowMs: int, max: int)

  type Buckets = map<string, Bucket>

  /** A new window opens for a key it has not seen, or whose window is over. */
  predicate Opens(l: Limits, buckets: Buckets, key: string, t: Instant) {
    key !in buckets || t - buckets[key].windowStart >= l.windowMs
  }

  predicate Admits(l: Limits, buckets: Buckets, key: string, t: Instant) {
    Opens(l, buckets, key, t) || buckets[key].count < l.max
  }

  function After(l: Limits, buckets: Buckets, key: string, t: Instant): Buckets {
    if Opens(l, buckets, key, t) then buckets[key := Bucket(t, 1)]
    else if buckets[key].count < l.max then buckets[key := buckets[key].(count := buckets[key].count + 1)]
    else buckets
  }

  class Limiter {
    const limits: Limits
    var buckets: Buckets

    constructor (limits: Limits)
      ensures this.limits == limits && buckets == map[]
    {
      this.limits := limits;
      buckets := map[];
    }

    method Check(key: string, t: Instant) returns (r: RateLimitResult)
      modifies this
      ensures buckets == After(limits, old(buckets), key, t)
      ensures r.Accepted? <==> Admits(limits, old(buckets), key, t)
      ensures r.Accepted? ==> r.remaining == limits.max - buckets[key].count
      ensures r.Rejected? ==> r.retryAfterMs == old(buckets)[key].windowStart + limits.windowMs - t && r.retryAfterMs > 0
    {
      if key !in buckets || t - buckets[key].windowStart >= limits.windowMs {
        buckets := buckets[key := Bucket(t, 1)];
        return Accepted(limits.max - 1);
      }
      var b := buckets[key];
      if b.count >= limits.max {
        return Rejected(b.windowStart + limits.windowMs - t);
      }
      buckets := buckets[key := b.(count := b.count + 1)];
      return Accepted(limits.max - (b.count + 1));
    }
  }

  // --- runs ---

  datatype Request = Request(key: string, at: Instant)

  predicate InOrder(requests: seq<Request>) {
    forall i, j :: 0 <= i < j < |requests| ==> requests[i].at <= requests[j].at
  }

  function BucketsFrom(l: Limits, start: Buckets, requests: seq<Request>): Buckets {
    if requests == [] then start
    else
      var r := requests[|requests| - 1];
      After(l, BucketsFrom(l, start, requests[..|requests| - 1]), r.key, r.at)
  }

  function BucketsAfter(l: Limits, requests: seq<Request>): Buckets {
    BucketsFrom(l, map[], requests)
  }

  /** Requests of a key let through at or after `lo` and before `hi`. */
  function Passed(l: Limits, requests: seq<Request>, key: string, lo: Instant, hi: Instant): nat {
    if requests == [] then 0
    else
      var n := |requests| - 1;
      var r := requests[n];
      Passed(l, requests[..n], key, lo, hi)
      + (if r.key == key && lo <= r.at < hi && Admits(l, BucketsAfter(l, requests[..n]), r.key, r.at) then 1 else 0)
  }

  /** A window always lets its first request through, even when the maximum is below one. */
  function Quota(l: Limits): int {
    Max(l.max, 1)
  }

  lemma {:induction false} PassedShrinks(l: Limits, requests: seq<Request>, key: string, lo: Instant, hi: Instant, lo': Instant, hi': Instant)
    requires lo <= lo' && hi' <= hi
    ensures Passed(l, requests, key, lo', hi') <= Passed(l, requests, key, lo, hi)
  {
    if requests != [] {
      PassedShrinks(l, requests[..|requests| - 1], key, lo, hi, lo', hi');
    }
  }

  /** Everything about one key after a run: how much has passed since `lo`, depending on
   *  where `lo` lies from the key's current window. */
  lemma {:induction false} SinceWindow(l: Limits, requests: seq<Request>, key: string, lo: Instant, end: Instant)
    requires l.windowMs > 0 && InOrder(requests) && forall i :: 0 <= i < |requests| ==> requests[i].at < end
    ensures var buckets := BucketsAfter(l, requests);
            var passed := Passed(l, requests, key, lo, end);
            if key !in buckets then passed == 0 else
              var b := buckets[key];
              && 1 <= b.count <= Quota(l)
              && requests != [] && b.windowStart <= requests[|requests| - 1].at
              && (lo == b.windowStart ==> passed == b.count)
              && (b.windowStart < lo ==> passed <= b.count - 1)
              && (b.windowStart - l.windowMs < lo ==> passed <= b.count + Quota(l) - 1)
              && (b.windowStart + l.windowMs <= lo ==> passed == 0)
  {
    if requests != [] {
      SinceWindow(l, requests[..|requests| - 1], key, lo, end);
    }
  }

  /** No interval of one window's length, wherever it starts, lets a key through more than
   *  twice its quota less one. */
  lemma {:induction false} AnyIntervalIsBounded(l: Limits, requests: seq<Request>, key: string, from: Instant)
    requires InOrder(requests)
    ensures Passed(l, requests, key, from, from + l.windowMs) <= 2 * Quota(l) - 1
  {
    if requests != [] {
      var n := |requests| - 1;
      var t := requests[n].at;
      AnyIntervalIsBounded(l, requests[..n], key, from);
      if Passed(l, requests, key, from, from + l.windowMs) > Passed(l, requests[..n], key, from, from + l.windowMs) {
        var end := Max(t + 1, from + l.windowMs);
        SinceWindow(l, requests, key, from, end);
        PassedShrinks(l, requests, key, from, end, from, from + l.windowMs);
      }
    }
  }

  /** Within one window, a key passes at most its quota. */
  lemma WindowIsBounded(l: Limits, requests: seq<Request>, key: string, b: Bucket)
    requires l.windowMs > 0 && InOrder(requests)
    requires key in BucketsAfter(l, requests) && BucketsAfter(l, requests)[key] == b
    ensures Passed(l, requests, key, b.windowStart, b.windowStart + l.windowMs) <= b.count <= Quota(l)
  {
    hide Passed;
    if requests != [] {
      var end := Max(requests[|requests| - 1].at + 1, b.windowStart + l.windowMs);
      SinceWindow(l, requests, key, b.windowStart, end);
      PassedShrinks(l, requests, key, b.windowStart, end, b.windowStart, b.windowStart + l.windowMs);
    }
  }

  lemma OneMore(l: Limits, requests: seq<Request>, r: Request, lo: Instant, hi: Instant)
    ensures BucketsAfter(l, requests + [r]) == After(l, BucketsAfter(l, requests), r.key, r.at)
    ensures Passed(l, requests + [r], r.key, lo, hi)
         == Passed(l, requests, r.key, lo, hi) + (if lo <= r.at < hi && Admits(l, BucketsAfter(l, requests), r.key, r.at) then 1 else 0)
  {
    assert (requests + [r])[..|requests|] == requests;
  }

  /** The quota is the maximum, and one where that is less. */
  lemma QuotaMeans(l: Limits)
    ensures l.max >= 1 ==> Quota(l) == l.max
    ensures l.max < 1 ==> Quota(l) == 1
  {
  }

  function Times(r: Request, n: nat): seq<Request> {
    if n == 0 then [] else Times(r, n - 1) + [r]
  }

  /** As many requests as a window has left all pass. */
  lemma {:induction false} FillWindow(l: Limits, before: seq<Request>, r: Request, n: nat, lo: Instant, hi: Instant)
    requires r.key in BucketsAfter(l, before) && !Opens(l, BucketsAfter(l, before), r.key, r.at)
    requires BucketsAfter(l, before)[r.key].count + n <= l.max && lo <= r.at < hi
    ensures Passed(l, before + Times(r, n), r.key, lo, hi) == Passed(l, before, r.key, lo, hi) + n
    ensures var b := BucketsAfter(l, before)[r.key];
            var after := BucketsAfter(l, before + Times(r, n));
            r.key in after && after[r.key] == Bucket(b.windowStart, b.count + n)
  {
    if n == 0 {
      assert before + [] == before;
    } else {
      FillWindow(l, before, r, n - 1, lo, hi);
      assert before + Times(r, n) == (before + Times(r, n - 1)) + [r];
      OneFills(l, before + Times(r, n - 1), r, lo, hi);
    }
  }

  lemma OneFills(l: Limits, before: seq<Request>, r: Request, lo: Instant, hi: Instant)
    requires r.key in BucketsAfter(l, before) && !Opens(l, BucketsAfter(l, before), r.key, r.at)
    requires BucketsAfter(l, before)[r.key].count < l.max && lo <= r.at < hi
    ensures Passed(l, before + [r], r.key, lo, hi) == Passed(l, before, r.key, lo, hi) + 1
    ensures var b := BucketsAfter(l, before)[r.key];
            var after := BucketsAfter(l, before + [r]);
            r.key in after && after[r.key] == Bucket(b.windowStart, b.count + 1)
  {
    OneMore(l, before, r, lo, hi);
    hide Passed, BucketsFrom;
  }

  lemma {:induction false} TimesInOrder(r: Request, n: nat)
    ensures |Times(r, n)| == n && forall i :: 0 <= i < n ==> Times(r, n)[i] == r
  {
    if n > 0 {
      TimesInOrder(r, n - 1);
    }
  }

  /** Requests that reach the bound: one to open a window, the rest of it at its last moment,
   *  and a whole window at once right after. */
  function Burst(l: Limits, key: string): seq<Request> {
    var last, next := Request(key, l.windowMs - 1), Request(key, l.windowMs);
    [Request(key, 0)] + Times(last, Quota(l) - 1) + [next] + Times(next, Quota(l) - 1)
  }

  lemma BurstInOrder(l: Limits, key: string)
    requires l.windowMs >= 2
    ensures InOrder(Burst(l, key))
  {
    TimesInOrder(Request(key, l.windowMs - 1), Quota(l) - 1);
    TimesInOrder(Request(key, l.windowMs), Quota(l) - 1);
    hide Times, Quota;
  }

  /** THE BOUND IS MET, for every key and every limit but windows of a single millisecond: an
   *  interval of one window's length lets twice the quota less one through. */
  lemma BoundIsMet(l: Limits, key: string)
    requires l.windowMs >= 2
    ensures InOrder(Burst(l, key))
    ensures Passed(l, Burst(l, key), key, l.windowMs - 1, 2 * l.windowMs - 1) == 2 * Quota(l) - 1
  {
    var lo, hi := l.windowMs - 1, 2 * l.windowMs - 1;
    var first, last, next := Request(key, 0), Request(key, l.windowMs - 1), Request(key, l.windowMs);
    var more := Quota(l) - 1;
    BurstInOrder(l, key);
    OneMore(l, [], first, lo, hi);
    assert [] + [first] == [first];
    var filled := [first] + Times(last, more);
    if more > 0 {
      FillWindow(l, [first], last, more, lo, hi);
    } else {
      assert filled == [first];
    }
    OneMore(l, filled, next, lo, hi);
    if more > 0 {
      FillWindow(l, filled + [next], next, more, lo, hi);
    } else {
      assert filled + [next] + Times(next, more) == filled + [next];
    }
  }

  /** A refused caller is let in again exactly when the announced delay has passed: until
   *  then every request of the key is refused, whatever the other keys do, and from then
   *  on the next one opens a window. */
  lemma {:induction false} RetryIsExact(l: Limits, buckets: Buckets, key: string, t: Instant, later: seq<Request>, at: Instant)
    requires !Admits(l, buckets, key, t)
    requires forall i :: 0 <= i < |later| ==> t <= later[i].at < buckets[key].windowStart + l.windowMs
    requires t <= at
    ensures var now := BucketsFrom(l, buckets, later);
            && key in now && now[key] == buckets[key]
            && (Admits(l, now, key, at) <==> at >= buckets[key].windowStart + l.windowMs)
  {
    if later != [] {
      var n := |later| - 1;
      RetryIsExact(l, buckets, key, t, later[..n], later[n].at);
    }
  }
}
