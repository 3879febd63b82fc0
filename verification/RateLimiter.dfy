/** The fixed-window request limiter, its bound over any window, and the harmlessness of its cleanup. */
module RateLimiter {
  import opened Wrappers

  datatype Bucket = Bucket(windowStart: int, count: int)

  /** Whether a request is allowed, by the bucket of its key. */
  predicate Admits(buckets: map<string, Bucket>, key: string, now: int, limit: int, window: int) {
    key !in buckets || now - buckets[key].windowStart >= window || buckets[key].count < limit
  }

  function AfterAllow(buckets: map<string, Bucket>, key: string, now: int, limit: int, window: int): map<string, Bucket> {
    if key !in buckets || now - buckets[key].windowStart >= window then buckets[key := Bucket(now, 1)]
    else if buckets[key].count >= limit then buckets
    else buckets[key := buckets[key].(count := buckets[key].count + 1)]
  }

  /** The buckets whose window has not elapsed. */
  function AfterCleanup(buckets: map<string, Bucket>, now: int, window: int): map<string, Bucket> {
    map k | k in buckets && now - buckets[k].windowStart < window :: buckets[k]
  }

  /* ---- runs ---- */

  datatype Event = Request(key: string, now: int) | Sweep(now: int)

  function Step(buckets: map<string, Bucket>, e: Event, limit: int, window: int): map<string, Bucket> {
    match e
    case Request(key, now) => AfterAllow(buckets, key, now, limit, window)
    case Sweep(now) => AfterCleanup(buckets, now, window)
  }

  function After(es: seq<Event>, limit: int, window: int): map<string, Bucket> {
    if es == [] then map[] else Step(After(es[..|es| - 1], limit, window), es[|es| - 1], limit, window)
  }

  /** The clock never goes back. */
  predicate Clocked(es: seq<Event>) { forall i, j :: 0 <= i <= j < |es| ==> es[i].now <= es[j].now }

  /** Request i of a run was allowed. */
  predicate Allowed(es: seq<Event>, i: nat, limit: int, window: int)
    requires i < |es|
  {
    es[i].Request? && Admits(After(es[..i], limit, window), es[i].key, es[i].now, limit, window)
  }

  /** How many of the first n requests for a key were allowed at a moment from `from` up to, not including, `to`. */
  function AllowedIn(es: seq<Event>, n: nat, key: string, from: int, to: int, limit: int, window: int): nat
    requires n <= |es|
  {
    if n == 0 then 0
    else AllowedIn(es, n - 1, key, from, to, limit, window)
         + (if es[n - 1].Request? && es[n - 1].key == key && from <= es[n - 1].now < to && Allowed(es, n - 1, limit, window) then 1 else 0)
  }

  function AtLeastOne(limit: int): int { if limit > 1 then limit else 1 }

  /** After n events inside the interval: what was allowed in it, by where the open window starts. */
  ghost predicate Bounded(es: seq<Event>, n: nat, key: string, from: int, limit: int, window: int)
    requires n <= |es|
  {
    var buckets := After(es[..n], limit, window);
    var total := AllowedIn(es, n, key, from, from + window, limit, window);
    && (key in buckets ==> 1 <= buckets[key].count <= AtLeastOne(limit))
    && (key in buckets && n > 0 ==> buckets[key].windowStart <= es[n - 1].now)
    && (n > 0 && es[n - 1].now < from ==> total == 0)
    && (if key !in buckets then total <= AtLeastOne(limit)
        else if buckets[key].windowStart >= from then total <= AtLeastOne(limit) + buckets[key].count
        else total <= buckets[key].count)
  }

  lemma {:induction false} StaysBounded(es: seq<Event>, n: nat, key: string, from: int, limit: int, window: int)
    requires Clocked(es) && n <= |es| && (n > 0 ==> es[n - 1].now < from + window)
    ensures Bounded(es, n, key, from, limit, window)
  {
    if n > 0 {
      StaysBounded(es, n - 1, key, from, limit, window);
      assert es[..n][..n - 1] == es[..n - 1] && es[..n][n - 1] == es[n - 1];
      if n > 1 { assert es[n - 2].now <= es[n - 1].now; }
    }
  }

  lemma {:induction false} LaterEventsAreOutside(es: seq<Event>, n: nat, m: nat, key: string, from: int, to: int, limit: int, window: int)
    requires Clocked(es) && m <= n <= |es| && (m < n ==> es[m].now >= to)
    ensures AllowedIn(es, n, key, from, to, limit, window) == AllowedIn(es, m, key, from, to, limit, window)
  {
    if m < n { LaterEventsAreOutside(es, n - 1, m, key, from, to, limit, window); }
  }

  /** Any half-open interval as long as the window holds at most twice the limit of allowed requests for a key. */
  lemma RateIsBounded(es: seq<Event>, key: string, from: int, limit: int, window: int)
    requires Clocked(es)
    ensures AllowedIn(es, |es|, key, from, from + window, limit, window) <= 2 * AtLeastOne(limit)
  {
    var m: nat := |es|;
    while m > 0 && es[m - 1].now >= from + window
      invariant m <= |es| && (m < |es| ==> es[m].now >= from + window)
    {
      m := m - 1;
    }
    LaterEventsAreOutside(es, |es|, m, key, from, from + window, limit, window);
    StaysBounded(es, m, key, from, limit, window);
  }

  /** The requests a bucket counts were allowed since its window started. */
  lemma {:induction false} CountIsWitnessed(es: seq<Event>, n: nat, key: string, to: int, limit: int, window: int)
    requires Clocked(es) && n <= |es| && (n > 0 ==> es[n - 1].now < to)
    ensures var buckets := After(es[..n], limit, window);
            key in buckets ==> buckets[key].count <= AllowedIn(es, n, key, buckets[key].windowStart, to, limit, window)
                               && n > 0 && buckets[key].windowStart <= es[n - 1].now
  {
    if n > 0 {
      if n > 1 { assert es[n - 2].now <= es[n - 1].now; }
      CountIsWitnessed(es, n - 1, key, to, limit, window);
      assert es[..n][..n - 1] == es[..n - 1] && es[..n][n - 1] == es[n - 1];
    }
  }

  lemma {:induction false} WiderHoldsMore(es: seq<Event>, n: nat, key: string, from: int, later: int, to: int, limit: int, window: int)
    requires n <= |es| && from <= later
    ensures AllowedIn(es, n, key, later, to, limit, window) <= AllowedIn(es, n, key, from, to, limit, window)
  {
    if n > 0 { WiderHoldsMore(es, n - 1, key, from, later, to, limit, window); }
  }

  /** A request is refused only when the limit of allowed requests for its key was reached within the last window. */
  lemma RefusalsAreEarned(es: seq<Event>, i: nat, limit: int, window: int)
    requires Clocked(es) && i < |es| && es[i].Request? && !Allowed(es, i, limit, window)
    ensures AllowedIn(es, i, es[i].key, es[i].now - window + 1, es[i].now + 1, limit, window) >= limit
  {
    var key, now := es[i].key, es[i].now;
    if i > 0 { assert es[i - 1].now <= now; }
    CountIsWitnessed(es, i, key, now + 1, limit, window);
    WiderHoldsMore(es, i, key, now - window + 1, After(es[..i], limit, window)[key].windowStart, now + 1, limit, window);
  }

  /** Both bounds, for the request at i. */
  lemma HistoryIsBounded(es: seq<Event>, i: nat, limit: int, window: int)
    requires i < |es| && es[i].Request?
    ensures Clocked(es) && !Allowed(es, i, limit, window) ==>
              AllowedIn(es, i, es[i].key, es[i].now - window + 1, es[i].now + 1, limit, window) >= limit
    ensures Clocked(es) ==>
              forall from, to :: to == from + window ==> AllowedIn(es, |es|, es[i].key, from, to, limit, window) <= 2 * AtLeastOne(limit)
  {
    hide Clocked, Allowed, AllowedIn;
    if Clocked(es) {
      forall from, to | to == from + window ensures AllowedIn(es, |es|, es[i].key, from, to, limit, window) <= 2 * AtLeastOne(limit) {
        RateIsBounded(es, es[i].key, from, limit, window);
      }
      if !Allowed(es, i, limit, window) { RefusalsAreEarned(es, i, limit, window); }
    }
  }

  /* ---- cleanup ---- */

  function WithoutSweeps(es: seq<Event>): seq<Event> {
    if es == [] then []
    else WithoutSweeps(es[..|es| - 1]) + (if es[|es| - 1].Sweep? then [] else [es[|es| - 1]])
  }

  /** The bucket of a key that still decides something at a moment. */
  ghost predicate SameLive(a: map<string, Bucket>, b: map<string, Bucket>, now: int, window: int) {
    forall k :: LiveBucket(a, k, now, window) == LiveBucket(b, k, now, window)
  }

  function LiveBucket(buckets: map<string, Bucket>, key: string, now: int, window: int): Option<Bucket> {
    if key in buckets && now - buckets[key].windowStart < window then Some(buckets[key]) else None
  }

  lemma LiveStays(a: map<string, Bucket>, b: map<string, Bucket>, now: int, later: int, window: int)
    requires SameLive(a, b, now, window) && now <= later
    ensures SameLive(a, b, later, window)
    ensures SameLive(AfterCleanup(a, later, window), b, later, window)
  {
    forall k ensures LiveBucket(a, k, later, window) == LiveBucket(b, k, later, window) {
      assert LiveBucket(a, k, now, window) == LiveBucket(b, k, now, window);
    }
  }

  lemma AllowKeepsLive(a: map<string, Bucket>, b: map<string, Bucket>, key: string, now: int, limit: int, window: int)
    requires SameLive(a, b, now, window)
    ensures Admits(a, key, now, limit, window) == Admits(b, key, now, limit, window)
    ensures SameLive(AfterAllow(a, key, now, limit, window), AfterAllow(b, key, now, limit, window), now, window)
  {
    var c, d := AfterAllow(a, key, now, limit, window), AfterAllow(b, key, now, limit, window);
    assert LiveBucket(a, key, now, window) == LiveBucket(b, key, now, window);
    forall k ensures LiveBucket(c, k, now, window) == LiveBucket(d, k, now, window) {
      assert LiveBucket(a, k, now, window) == LiveBucket(b, k, now, window);
    }
  }

  lemma {:induction false} SweepsLeaveLive(es: seq<Event>, now: int, limit: int, window: int)
    requires Clocked(es) && (es != [] ==> es[|es| - 1].now <= now)
    ensures SameLive(After(es, limit, window), After(WithoutSweeps(es), limit, window), now, window)
  {
    if es != [] {
      var n := |es| - 1;
      var e, rest := es[n], es[..n];
      SweepsLeaveLive(rest, e.now, limit, window);
      var a, b := After(rest, limit, window), After(WithoutSweeps(rest), limit, window);
      match e {
        case Request(key, t) =>
          AllowKeepsLive(a, b, key, t, limit, window);
          assert (WithoutSweeps(rest) + [e])[..|WithoutSweeps(rest)|] == WithoutSweeps(rest);
          LiveStays(After(es, limit, window), After(WithoutSweeps(es), limit, window), t, now, window);
        case Sweep(t) =>
          LiveStays(a, b, t, t, window);
          assert WithoutSweeps(es) == WithoutSweeps(rest);
          LiveStays(After(es, limit, window), After(WithoutSweeps(es), limit, window), t, now, window);
      }
    }
  }

  /** Running the cleanup at any points of a run changes the answer to no request. */
  lemma CleanupIsHarmless(es: seq<Event>, i: nat, limit: int, window: int)
    requires Clocked(es) && i < |es| && es[i].Request?
    ensures Allowed(es, i, limit, window) == Admits(After(WithoutSweeps(es[..i]), limit, window), es[i].key, es[i].now, limit, window)
  {
    if i > 0 { assert es[..i][i - 1].now <= es[i].now; }
    SweepsLeaveLive(es[..i], es[i].now, limit, window);
    AllowKeepsLive(After(es[..i], limit, window), After(WithoutSweeps(es[..i]), limit, window), es[i].key, es[i].now, limit, window);
  }

  /* ---- the limiter ---- */

  class Limiter {
    const limit: int
    const window: int
    var buckets: map<string, Bucket>
    ghost var events: seq<Event>      // history: the requests and cleanups so far

    /** The buckets are what the history leaves; a bucket counts at least one and at most the effective limit. */
    ghost predicate Valid()
      reads this
    {
      && buckets == After(events, limit, window)
      && forall k :: k in buckets ==> 1 <= buckets[k].count <= AtLeastOne(limit)
    }

    constructor (limit: int, window: int)
      ensures this.limit == limit && this.window == window && buckets == map[] && events == [] && Valid()
    {
      this.limit, this.window, buckets, events := limit, window, map[], [];
    }

    /** A first request, or one whose window has elapsed, opens a window and is allowed; a refusal leaves everything as it
    was; other keys are never touched. On a clock that never goes back a refusal means that the limit was reached within the last window,
    and no interval of one window ever holds more than twice the limit. */
    method Allow(key: string, now: int) returns (ok: bool)
      requires Valid()
      modifies this
      ensures Valid() && events == old(events) + [Request(key, now)]
      ensures ok <==> Allowed(events, |old(events)|, limit, window)
      ensures !ok ==> buckets == old(buckets) && key in buckets && now - buckets[key].windowStart < window && buckets[key].count >= limit
      ensures ok ==> key in buckets && (buckets[key] == Bucket(now, 1)
                                        || (buckets[key].count <= limit && now - buckets[key].windowStart < window))
      ensures key !in old(buckets) || now - old(buckets)[key].windowStart >= window ==> ok && key in buckets && buckets[key] == Bucket(now, 1)
      ensures forall k :: k != key ==> (k in buckets <==> k in old(buckets)) && (k in buckets ==> buckets[k] == old(buckets)[k])
      ensures Clocked(events) && !ok ==> AllowedIn(events, |old(events)|, key, now - window + 1, now + 1, limit, window) >= limit
      ensures Clocked(events) ==>
                forall from, to :: to == from + window ==> AllowedIn(events, |events|, key, from, to, limit, window) <= 2 * AtLeastOne(limit)
    {
      hide Clocked, AllowedIn;
      ghost var i := |events|;
      events := events + [Request(key, now)];
      assert events[..i] == old(events);
      HistoryIsBounded(events, i, limit, window);
      if key !in buckets || now - buckets[key].windowStart >= window {
        buckets := buckets[key := Bucket(now, 1)];
        return true;
      }
      if buckets[key].count >= limit { return false; }
      buckets := buckets[key := buckets[key].(count := buckets[key].count + 1)];
      return true;
    }

    /** A map may be visited in any order, and entries deleted on the way. */
    method Cleanup(now: int)
      requires Valid()
      modifies this
      ensures Valid() && events == old(events) + [Sweep(now)]
      ensures forall k :: k in buckets <==> k in old(buckets) && now - old(buckets)[k].windowStart < window
      ensures forall k :: k in buckets ==> buckets[k] == old(buckets)[k]
    {
      events := events + [Sweep(now)];
      assert events[..|old(events)|] == old(events);
      var rest := buckets.Keys;
      while rest != {}
        invariant rest <= buckets.Keys <= old(buckets).Keys
        invariant forall k :: k in buckets ==> buckets[k] == old(buckets)[k]
        invariant forall k :: k in old(buckets) && k !in rest ==> (k in buckets <==> now - old(buckets)[k].windowStart < window)
        invariant events == old(events) + [Sweep(now)]
        decreases |rest|
      {
        var k :| k in rest;
        rest := rest - {k};
        if now - buckets[k].windowStart >= window { buckets := buckets - {k}; }
      }
      assert buckets == AfterCleanup(old(buckets), now, window);
    }
  }
}
