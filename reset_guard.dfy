/** Reset's "no error recorded" guard as the source writes it. The latest error is
    looked up as a KeyValuePair<long, DateTimeOffset> and compared with
    default(KeyValuePair<int, DateTimeOffset>): two different types, never equal. With
    no recorded error Reset therefore goes on with default(DateTimeOffset), whose
    ticks are 0, as the latest error. */
module ResetGuard {
  import opened Wrappers
  import opened ResetModes
  import opened Config
  import opened CircuitBreakerModel
  import opened CircuitBreakerProperties
  import opened CircuitBreakerRuns

  /** Ticks of DateTimeOffset.MinValue, the value of a default KeyValuePair. */
  const MinValueTicks: int := 0

  /** Reset as written: the guard never returns. */
  ghost function ResetAsWritten(b: Breaker, s: Settings, now: int): Breaker
  {
    if b.state == Closed then b
    else
      var latest := match Latest(b.errors) case Some(t) => t case None => MinValueTicks;
      ResetFrom(b, s, now, latest)
  }

  /** A clock reading in 2024, in ticks since year 1. */
  const Now2024: int := 638_400_000_000_000_000

  /** With Attempts = 0 (accepted without validation) one failure opens the breaker
      and prunes every record. Reset as written then treats year 1 as the latest
      error and closes the breaker at once; the guard was meant to leave it alone. */
  lemma GuardNeverFiresCounterexample()
    ensures var s := NewFixedSettings(0, 30, 150, 300);
            var tripped := TripStep(NewBreaker(), s, Now2024, {});
            && tripped.state == Open && tripped.errors == {}
            && ResetAsWritten(tripped, s, Now2024 + 1).state == Closed
            && ResetStep(tripped, s, Now2024 + 1) == tripped
  {
    var s := NewFixedSettings(0, 30, 150, 300);
    assert IsSelection({}, NewBreaker().errors + {Now2024}, Now2024, s);
  }

  /** With Attempts >= 1 and a positive tracking period the guard is irrelevant:
      on every reachable breaker Reset as written equals the corrected ResetStep. */
  lemma GuardIrrelevantWhenReachable(s: Settings, exceptionType: TypeTag, calls: seq<Call>, now: int)
    requires s.attempts >= 1 && s.trackingPeriod > 0
    requires Run(NewBreaker(), s, exceptionType, calls).Some?
    ensures var b := Run(NewBreaker(), s, exceptionType, calls).value;
            ResetAsWritten(b, s, now) == ResetStep(b, s, now)
  {
    var b := Run(NewBreaker(), s, exceptionType, calls).value;
    ReachableBreakersKeepInv(s, exceptionType, calls);
    if b.state != Closed {
      LatestExistsUnlessClosed(b, s);
    }
  }
}
