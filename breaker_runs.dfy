/** Sequences of Trip and Reset calls on one breaker: every reachable breaker keeps
    the invariant of CircuitBreakerModel. */
module CircuitBreakerRuns {
  import opened Wrappers
  import opened Config
  import opened CircuitBreakerModel
  import opened CircuitBreakerProperties

  /** A call the host makes: Trip with an exception (and the selection the
      dictionary enumeration yields on that call), or Reset. */
  datatype Call =
    | TripCall(now: int, exception: Failure, selected: set<int>)
    | ResetCall(now: int)

  /** The effect of one call; None when a Trip names a selection the enumeration
      cannot yield. A raising or non-matching Trip leaves the breaker as it was. */
  ghost function Apply(b: Breaker, s: Settings, exceptionType: TypeTag, call: Call): Option<Breaker>
  {
    match call
    case ResetCall(now) => Some(ResetStep(b, s, now))
    case TripCall(now, exception, selected) =>
      if ShouldTrip(exception, exceptionType) != Ok(true) then Some(b)
      else if IsSelection(selected, b.errors + {now}, now, s) then Some(TripStep(b, s, now, selected))
      else None
  }

  ghost function Run(b: Breaker, s: Settings, exceptionType: TypeTag, calls: seq<Call>): Option<Breaker>
    decreases |calls|
  {
    if calls == [] then Some(b)
    else match Apply(b, s, exceptionType, calls[0])
      case None => None
      case Some(next) => Run(next, s, exceptionType, calls[1..])
  }

  /** Every call keeps the invariant. */
  lemma ApplyPreservesInv(b: Breaker, s: Settings, exceptionType: TypeTag, call: Call)
    requires Inv(b, s)
    ensures Apply(b, s, exceptionType, call).Some? ==> Inv(Apply(b, s, exceptionType, call).value, s)
  {
    match call
    case ResetCall(now) => ResetPreservesInv(b, s, now);
    case TripCall(now, exception, selected) =>
      if ShouldTrip(exception, exceptionType) == Ok(true) && IsSelection(selected, b.errors + {now}, now, s) {
        TripPreservesInv(b, s, now, selected);
      }
  }

  /** Any sequence of calls keeps the invariant. */
  lemma {:induction false} RunPreservesInv(b: Breaker, s: Settings, exceptionType: TypeTag, calls: seq<Call>)
    requires Inv(b, s)
    ensures Run(b, s, exceptionType, calls).Some? ==> Inv(Run(b, s, exceptionType, calls).value, s)
    decreases |calls|
  {
    if calls != [] {
      ApplyPreservesInv(b, s, exceptionType, calls[0]);
      match Apply(b, s, exceptionType, calls[0])
      case None =>
      case Some(next) => RunPreservesInv(next, s, exceptionType, calls[1..]);
    }
  }

  /** Every breaker reachable from a new one has a counter that is 0 while Closed
      and positive while HalfOpen, and, with Attempts >= 1 and a positive tracking
      period, a recorded error whenever it is not Closed. */
  lemma ReachableBreakersKeepInv(s: Settings, exceptionType: TypeTag, calls: seq<Call>)
    ensures Run(NewBreaker(), s, exceptionType, calls).Some? ==>
              Inv(Run(NewBreaker(), s, exceptionType, calls).value, s)
  {
    NewBreakerIsClosedAndEmpty(s);
    RunPreservesInv(NewBreaker(), s, exceptionType, calls);
  }

  // ------------------------------------------------- threshold over a run of failures

  /** `calls` are Trip calls with the same exception at the given ticks, each with
      whatever selection its enumeration yields. */
  predicate TripsAt(calls: seq<Call>, ticks: seq<int>, exception: Failure)
  {
    && |calls| == |ticks|
    && forall i :: 0 <= i < |calls| ==>
         calls[i].TripCall? && calls[i].now == ticks[i] && calls[i].exception == exception
  }

  predicate Increasing(ticks: seq<int>)
  {
    forall i, j :: 0 <= i < j < |ticks| ==> ticks[i] < ticks[j]
  }

  /** The first `n` ticks as a set. */
  function TickSet(ticks: seq<int>, n: nat): set<int>
    requires n <= |ticks|
  {
    set j | 0 <= j < n :: ticks[j]
  }

  lemma {:induction false} TickSetSize(ticks: seq<int>, n: nat)
    requires n <= |ticks| && Increasing(ticks)
    ensures |TickSet(ticks, n)| == n
  {
    if n > 0 {
      TickSetSize(ticks, n - 1);
      assert TickSet(ticks, n) == TickSet(ticks, n - 1) + {ticks[n - 1]};
      assert ticks[n - 1] !in TickSet(ticks, n - 1);
    }
  }

  /** A subset as large as the whole set is the whole set. */
  lemma SubsetOfEqualSize(a: set<int>, b: set<int>)
    requires a <= b && |a| == |b|
    ensures a == b
  {
    assert b == a + (b - a);
    assert |b - a| == 0;
  }

  /** One matching Trip at the k-th tick of failures that all lie inside one tracking
      period: an Open breaker stays Open; a Closed one that holds the earlier ticks
      either opens or stays Closed holding the first k + 1 ticks, and the latter
      only while k + 1 < Attempts. */
  lemma TripTowardsOpen(b: Breaker, s: Settings, ticks: seq<int>, k: nat, selected: set<int>)
    requires s.attempts == |ticks| && Increasing(ticks)
    requires k < |ticks| && ticks[|ticks| - 1] - ticks[0] < s.trackingPeriod
    requires b.state == Open || (b.state == Closed && TickSet(ticks, k) <= b.errors)
    requires IsSelection(selected, b.errors + {ticks[k]}, ticks[k], s)
    ensures var r := TripStep(b, s, ticks[k], selected);
            || r.state == Open
            || (r.state == Closed && k + 1 < |ticks| && TickSet(ticks, k + 1) <= r.errors)
  {
    if b.state == Closed {
      var now := ticks[k];
      var window := InWindow(b.errors + {now}, now, s.trackingPeriod);
      forall t | t in TickSet(ticks, k + 1)
        ensures t in window
      {
        var j :| 0 <= j < k + 1 && ticks[j] == t;
        assert ticks[0] <= t && now <= ticks[|ticks| - 1];
      }
      TickSetSize(ticks, k + 1);
      SubsetSize(TickSet(ticks, k + 1), window);
      if |selected| < s.attempts {
        SubsetOfEqualSize(selected, window);
      }
    }
  }

  /** `calls` are the Trip calls of `TripsAt` from the k-th tick on. */
  predicate TripsFrom(calls: seq<Call>, ticks: seq<int>, k: nat, exception: Failure)
  {
    && k + |calls| == |ticks|
    && forall i :: 0 <= i < |calls| ==>
         calls[i].TripCall? && calls[i].now == ticks[k + i] && calls[i].exception == exception
  }

  lemma {:induction false} TripsTowardsOpen(b: Breaker, s: Settings, exceptionType: TypeTag,
                                            exception: Failure, ticks: seq<int>, k: nat,
                                            calls: seq<Call>)
    requires ShouldTrip(exception, exceptionType) == Ok(true)
    requires s.attempts == |ticks| && Increasing(ticks)
    requires 0 < |ticks| && ticks[|ticks| - 1] - ticks[0] < s.trackingPeriod
    requires TripsFrom(calls, ticks, k, exception)
    requires b.state == Open || (b.state == Closed && k < |ticks| && TickSet(ticks, k) <= b.errors)
    ensures Run(b, s, exceptionType, calls).Some? ==> Run(b, s, exceptionType, calls).value.state == Open
    decreases |calls|
  {
    if calls != [] {
      var call := calls[0];
      assert call.TripCall? && call.now == ticks[k];
      if IsSelection(call.selected, b.errors + {ticks[k]}, ticks[k], s) {
        TripTowardsOpen(b, s, ticks, k, call.selected);
        var rest := calls[1..];
        assert TripsFrom(rest, ticks, k + 1, exception) by {
          forall i | 0 <= i < |rest|
            ensures rest[i].TripCall? && rest[i].now == ticks[k + 1 + i] && rest[i].exception == exception
          {
            assert rest[i] == calls[i + 1];
          }
        }
        TripsTowardsOpen(TripStep(b, s, ticks[k], call.selected), s, exceptionType, exception,
                         ticks, k + 1, rest);
      }
    }
  }

  /** Attempts matching failures at distinct ticks that all lie inside one tracking
      period open a Closed breaker (a new one in particular), whatever the
      enumeration selects on each call: while fewer than Attempts errors are in the
      window the selection keeps them all, so pruning loses none of them. */
  lemma FailuresWithinPeriodOpen(b: Breaker, s: Settings, exceptionType: TypeTag,
                                 exception: Failure, ticks: seq<int>, calls: seq<Call>)
    requires s.attempts >= 1 && s.trackingPeriod > 0
    requires ShouldTrip(exception, exceptionType) == Ok(true)
    requires b.state == Closed
    requires |ticks| == s.attempts && Increasing(ticks)
    requires ticks[|ticks| - 1] - ticks[0] < s.trackingPeriod
    requires TripsAt(calls, ticks, exception)
    ensures Run(b, s, exceptionType, calls).Some? ==> Run(b, s, exceptionType, calls).value.state == Open
  {
    TripsTowardsOpen(b, s, exceptionType, exception, ticks, 0, calls);
  }

  /** Failures spaced at least one tracking period apart leave a Closed breaker
      Closed when Attempts >= 2, provided its earlier records are already outside
      the first failure's window: each window then holds only the newest failure.
      (A failure exactly one period old is outside, since the window is
      `Key > now - TrackingPeriod`.) */
  lemma {:induction false} SpacedFailuresStayClosed(b: Breaker, s: Settings, exceptionType: TypeTag,
                                                    exception: Failure, ticks: seq<int>,
                                                    calls: seq<Call>)
    requires s.attempts >= 2
    requires ShouldTrip(exception, exceptionType) == Ok(true)
    requires b.state == Closed
    requires forall i :: 0 <= i < |ticks| - 1 ==> ticks[i + 1] - ticks[i] >= s.trackingPeriod
    requires |ticks| > 0 ==> forall e :: e in b.errors ==> e <= ticks[0] - s.trackingPeriod
    requires TripsAt(calls, ticks, exception)
    ensures Run(b, s, exceptionType, calls).Some? ==> Run(b, s, exceptionType, calls).value.state == Closed
    decreases |calls|
  {
    if calls != [] {
      var now := ticks[0];
      var selected := calls[0].selected;
      if IsSelection(selected, b.errors + {now}, now, s) {
        var window := InWindow(b.errors + {now}, now, s.trackingPeriod);
        assert window <= {now};
        SubsetSize(window, {now});
        var next := TripStep(b, s, now, selected);
        assert next.state == Closed && next.errors <= {now};
        assert TripsAt(calls[1..], ticks[1..], exception) by {
          forall i | 0 <= i < |calls| - 1
            ensures calls[1..][i].TripCall? && calls[1..][i].now == ticks[1..][i]
                    && calls[1..][i].exception == exception
          {
            assert calls[1..][i] == calls[i + 1];
          }
        }
        SpacedFailuresStayClosed(next, s, exceptionType, exception, ticks[1..], calls[1..]);
      }
    }
  }
}
