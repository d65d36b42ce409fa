/** The sliding-window rate limiter of the privileged agent (privileged_agent/server.py, RateLimiter). */
module RateLimit {
  import opened History

  const WINDOW := 60.0

  type Times = Log<real>

  function Recent(times: Times, since: real): Times {
    match times
    case Start => Start
    case Then(before, t) => if t > since then Then(Recent(before, since), t) else Recent(before, since)
  }

  /** How many of the times fall into (t - 60, t]. */
  function InWindow(times: Times, t: real): nat {
    match times
    case Start => 0
    case Then(before, x) => InWindow(before, t) + if t - 60.0 < x <= t then 1 else 0
  }

  /** No time lies after the bound. */
  ghost predicate UpTo(times: Times, bound: real) {
    times.Then? ==> times.item <= bound && UpTo(times.before, bound)
  }

  ghost predicate Ordered(times: Times) {
    times.Then? ==> UpTo(times.before, times.item) && Ordered(times.before)
  }

  /** The admissions among calls made at the given times, judged on the full history of admissions. */
  function Admitted(limit: int, calls: Times): Times {
    match calls
    case Start => Start
    case Then(earlier, now) =>
      var before := Admitted(limit, earlier);
      if Size(Recent(before, now - WINDOW)) < limit then Then(before, now) else before
  }

  // ---------------------------------------------------------------------------
  // What the full history guarantees

  lemma {:induction false} RecentShrinks(times: Times, s: real, s': real)
    requires s <= s'
    ensures Size(Recent(times, s')) <= Size(Recent(times, s))
  {
    if times.Then? {
      RecentShrinks(times.before, s, s');
    }
  }

  lemma {:induction false} InWindowAtMostRecent(times: Times, t: real)
    ensures InWindow(times, t) <= Size(Recent(times, t - WINDOW))
    ensures UpTo(times, t) ==> InWindow(times, t) == Size(Recent(times, t - WINDOW))
  {
    if times.Then? {
      InWindowAtMostRecent(times.before, t);
    }
  }

  lemma {:induction false} AdmittedUpTo(limit: int, calls: Times, bound: real)
    requires UpTo(calls, bound)
    ensures UpTo(Admitted(limit, calls), bound)
  {
    if calls.Then? {
      AdmittedUpTo(limit, calls.before, bound);
    }
  }

  /** However calls arrive, no window of 60 seconds ever holds more admissions than the limit. */
  lemma {:induction false} WindowNeverOverfull(limit: int, calls: Times, t: real)
    requires Ordered(calls) && limit >= 0
    ensures InWindow(Admitted(limit, calls), t) <= limit
  {
    if calls.Then? {
      var before, now := Admitted(limit, calls.before), calls.item;
      WindowNeverOverfull(limit, calls.before, t);
      if now <= t {
        InWindowAtMostRecent(before, t);
        RecentShrinks(before, now - WINDOW, t - WINDOW);
      }
    }
  }

  /** A call is refused exactly when the window ending at it is already full. */
  lemma {:induction false} RefusedIffFull(limit: int, calls: Times, now: real)
    requires Ordered(Then(calls, now))
    ensures Admitted(limit, Then(calls, now)) == Admitted(limit, calls) <==>
            InWindow(Admitted(limit, calls), now) >= limit
  {
    AdmittedUpTo(limit, calls, now);
    InWindowAtMostRecent(Admitted(limit, calls), now);
    assert Size(Then(Admitted(limit, calls), now)) != Size(Admitted(limit, calls));
  }

  // ---------------------------------------------------------------------------
  // The pruned bucket

  function Kept(times: seq<real>, since: real): seq<real> {
    if times == [] then []
    else if times[0] > since then [times[0]] + Kept(times[1..], since)
    else Kept(times[1..], since)
  }

  lemma {:induction false} KeptAppend(times: seq<real>, t: real, since: real)
    ensures Kept(times + [t], since) == if t > since then Kept(times, since) + [t] else Kept(times, since)
  {
    if times == [] {
      assert times + [t] == [t];
    } else {
      KeptAppend(times[1..], t, since);
      assert (times + [t])[1..] == times[1..] + [t];
    }
  }

  lemma {:induction false} KeptRecent(times: Times, since: real)
    ensures Kept(AsSeq(times), since) == AsSeq(Recent(times, since))
  {
    if times.Then? {
      KeptRecent(times.before, since);
      KeptAppend(AsSeq(times.before), times.item, since);
    }
  }

  /** Pruning earlier loses nothing that a later pruning would keep. */
  lemma {:induction false} RecentTwice(times: Times, s: real, s': real)
    requires s <= s'
    ensures Recent(Recent(times, s), s') == Recent(times, s')
  {
    if times.Then? {
      RecentTwice(times.before, s, s');
    }
  }

  /** The bucket holds the admissions of the minute before the last call. */
  ghost predicate Holds(limit: int, calls: Times, bucket: seq<real>) {
    && Ordered(calls)
    && bucket == if calls.Start? then [] else AsSeq(Recent(Admitted(limit, calls), calls.item - WINDOW))
  }

  /** Pruning the bucket gives the same times as pruning the full admission history. */
  lemma {:induction false} PrunedBucket(limit: int, calls: Times, bucket: seq<real>, now: real)
    requires Holds(limit, calls, bucket) && Ordered(Then(calls, now))
    ensures Kept(bucket, now - WINDOW) == AsSeq(Recent(Admitted(limit, calls), now - WINDOW))
  {
    var history := Admitted(limit, calls);
    if calls.Then? {
      RecentTwice(history, calls.item - WINDOW, now - WINDOW);
      KeptRecent(Recent(history, calls.item - WINDOW), now - WINDOW);
    }
  }

  /** The bucket after a call decided on the pruned one. */
  lemma {:induction false} NextBucket(limit: int, calls: Times, pruned: seq<real>, now: real)
    requires Ordered(Then(calls, now))
    requires pruned == AsSeq(Recent(Admitted(limit, calls), now - WINDOW))
    ensures Holds(limit, Then(calls, now), if |pruned| < limit then pruned + [now] else pruned)
    ensures |pruned| < limit <==> Size(Recent(Admitted(limit, calls), now - WINDOW)) < limit
  {
  }

  class RateLimiter {
    const maxPerMinute: int
    var buckets: map<string, seq<real>>
    /** The times of all calls made so far, per action. */
    ghost var calls: map<string, Times>

    /** As long as the clock did not go back between an action's calls, its bucket is exact. */
    ghost predicate Valid()
      reads this
    {
      && buckets.Keys == calls.Keys
      && forall a | a in calls && Ordered(calls[a]) :: Holds(maxPerMinute, calls[a], buckets[a])
    }

    constructor (maxPerMinute: int)
      ensures Valid() && this.maxPerMinute == maxPerMinute && calls == map[]
    {
      this.maxPerMinute := maxPerMinute;
      buckets, calls := map[], map[];
    }

    ghost function BucketOf(action: string): seq<real>
      reads this
    {
      if action in buckets then buckets[action] else []
    }

    ghost function CallsOf(action: string): Times
      reads this
    {
      if action in calls then calls[action] else Start
    }

    /**
     * Each call prunes its own bucket and is admitted exactly when there is room left in it. While the clock does not
     * go back this is the decision the full admission history of the action gives; other actions are untouched.
     */
    method Check(action: string, now: real) returns (ok: bool)
      requires Valid()
      modifies this
      ensures Valid() && calls == old(calls)[action := Then(old(CallsOf(action)), now)]
      ensures var kept := Kept(old(BucketOf(action)), now - WINDOW);
              && (ok <==> |kept| < maxPerMinute)
              && buckets == old(buckets)[action := if ok then kept + [now] else kept]
      ensures Ordered(calls[action]) ==>
                var before := Admitted(maxPerMinute, old(CallsOf(action)));
                && (ok <==> Size(Recent(before, now - WINDOW)) < maxPerMinute)
                && Admitted(maxPerMinute, calls[action]) == if ok then Then(before, now) else before
    {
      var bucket := if action in buckets then buckets[action] else [];
      if Ordered(Then(CallsOf(action), now)) {
        PrunedBucket(maxPerMinute, CallsOf(action), bucket, now);
        NextBucket(maxPerMinute, CallsOf(action), Kept(bucket, now - WINDOW), now);
      }
      var pruned := Prune(bucket, now - WINDOW);
      ok := |pruned| < maxPerMinute;
      calls := calls[action := Then(CallsOf(action), now)];
      if !ok {
        buckets := buckets[action := pruned];
      } else {
        buckets := buckets[action := pruned + [now]];
      }
    }
  }

  method Prune(times: seq<real>, since: real) returns (kept: seq<real>)
    ensures kept == Kept(times, since)
  {
    kept := [];
    for i := 0 to |times|
      invariant kept == Kept(times[..i], since)
    {
      assert times[..i + 1] == times[..i] + [times[i]];
      KeptAppend(times[..i], times[i], since);
      if times[i] > since {
        kept := kept + [times[i]];
      }
    }
    assert times[..|times|] == times;
  }
}
