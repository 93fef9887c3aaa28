/** The transition sequences the integration tests expect, proved on the model for
    every start time and every selection the dictionary enumeration may yield. */
module CircuitBreakerScenarios {
  import opened Wrappers
  import opened ResetModes
  import opened Config
  import opened CircuitBreakerModel
  import opened CircuitBreakerProperties

  /** The only selection from a window holding one error (with Attempts >= 1) is that error. */
  lemma SingletonSelection(selected: set<int>, errors: set<int>, now: int, s: Settings, t: int)
    requires IsSelection(selected, errors, now, s) && s.attempts >= 1
    requires InWindow(errors, now, s.trackingPeriod) == {t}
    ensures selected == {t}
  {
    assert selected == {t} + (selected - {t});
  }

  lemma LatestOfPair(a: int, b: int)
    requires a < b
    ensures Latest({a, b}) == Some(b)
  {
    LatestIsUnique(Latest({a, b}), Some(b), {a, b});
  }

  /** Attempts = 1, tracking period 10 s, default intervals: one failure opens the
      breaker at once. */
  lemma ScenarioOneFailureOpens(t0: int, selected: set<int>)
    requires IsSelection(selected, {t0}, t0, NewFixedSettings(1, 10, 150, 300))
    ensures TripStep(NewBreaker(), NewFixedSettings(1, 10, 150, 300), t0, selected).state == Open
  {
    SingleAttemptOpens(NewBreaker(), NewFixedSettings(1, 10, 150, 300), t0, selected);
  }

  /** Attempts = 1, tracking 10 s, half-open 20 s, close 30 s, WhileAnyState: a failure
      at t0 opens; Reset keeps it Open up to t0 + 20 s, makes it HalfOpen (counter 1)
      after that, and Closes it (counter 0) once 30 s have passed since the failure,
      from HalfOpen or directly from Open. */
  lemma ScenarioWhileAnyState(t0: int, selected: set<int>, early: int, t1: int, t2: int)
    requires IsSelection(selected, {t0}, t0, NewFixedSettings(1, 10, 20, 30))
    requires early <= t0 + 200_000_000 < t1 <= t0 + 300_000_000 < t2
    ensures var s := NewFixedSettings(1, 10, 20, 30);
            var tripped := TripStep(NewBreaker(), s, t0, selected);
            var probed := ResetStep(tripped, s, t1);
            && tripped.state == Open && tripped.errors == {t0}
            && ResetStep(tripped, s, early) == tripped
            && probed.state == HalfOpen && probed.halfOpenAttempts == 1 && probed.lastHalfOpened == t1
            && ResetStep(probed, s, t2).state == Closed && ResetStep(probed, s, t2).halfOpenAttempts == 0
            && ResetStep(tripped, s, t2).state == Closed && ResetStep(tripped, s, t2).halfOpenAttempts == 0
  {
    var s := NewFixedSettings(1, 10, 20, 30);
    assert InWindow({t0}, t0, s.trackingPeriod) == {t0};
    SingletonSelection(selected, {t0}, t0, s, t0);
    assert Latest({t0}) == Some(t0);
  }

  /** Same settings, a handler that keeps failing: HalfOpen after 20 s, and the next
      failure (its predecessor now outside the window) reopens the breaker without
      pruning and without touching the counter. */
  lemma ScenarioFailureWhileHalfOpen(t0: int, selected: set<int>, t1: int, t2: int, selected2: set<int>)
    requires IsSelection(selected, {t0}, t0, NewFixedSettings(1, 10, 20, 30))
    requires t0 + 200_000_000 < t1 <= t2 <= t0 + 300_000_000
    requires IsSelection(selected2, {t0, t2}, t2, NewFixedSettings(1, 10, 20, 30))
    ensures var s := NewFixedSettings(1, 10, 20, 30);
            var probed := ResetStep(TripStep(NewBreaker(), s, t0, selected), s, t1);
            var reopened := TripStep(probed, s, t2, selected2);
            && probed.state == HalfOpen
            && reopened.state == Open && reopened.halfOpenAttempts == 1 && reopened.errors == {t0, t2}
  {
    var s := NewFixedSettings(1, 10, 20, 30);
    assert InWindow({t0}, t0, s.trackingPeriod) == {t0};
    SingletonSelection(selected, {t0}, t0, s, t0);
    assert Latest({t0}) == Some(t0);
    var probed := ResetStep(TripStep(NewBreaker(), s, t0, selected), s, t1);
    assert probed.errors + {t2} == {t0, t2};
    HalfOpenFailureReopens(probed, s, t2, selected2);
  }

  /** Attempts = 1, tracking 10 s, half-open 8 s, close 8 s, WhileHalfOpen: the
      breaker stays Open for 8 s, turns HalfOpen after that (not Closed in the same
      call), stays HalfOpen for 8 s from that entry, then Closes. */
  lemma ScenarioWhileHalfOpen(t0: int, selected: set<int>, early: int, t1: int, t2: int, t3: int)
    requires IsSelection(selected, {t0}, t0, NewFixedSettings(1, 10, 8, 8, WhileHalfOpen))
    requires early <= t0 + 80_000_000 < t1 <= t2 <= t1 + 80_000_000 < t3
    ensures var s := NewFixedSettings(1, 10, 8, 8, WhileHalfOpen);
            var tripped := TripStep(NewBreaker(), s, t0, selected);
            var probed := ResetStep(tripped, s, t1);
            && tripped.state == Open
            && ResetStep(tripped, s, early) == tripped
            && probed.state == HalfOpen && probed.lastHalfOpened == t1
            && ResetStep(probed, s, t2) == probed
            && ResetStep(probed, s, t3).state == Closed
  {
    var s := NewFixedSettings(1, 10, 8, 8, WhileHalfOpen);
    assert InWindow({t0}, t0, s.trackingPeriod) == {t0};
    SingletonSelection(selected, {t0}, t0, s, t0);
    assert Latest({t0}) == Some(t0);
  }

  /** The half-open delay of the dynamic test: 4 s for even counts, 8 s for odd ones.
      Dafny's `%` never yields a negative remainder, while C#'s truncates; the two
      differ only for negative counts, which `Inv` rules out. */
  function AlternatingDelay(attemptCount: int): int
  {
    FromSeconds(4 + (attemptCount % 2) * 4)
  }

  /** The dynamic test's settings: Attempts = 1, tracking 5 s, the alternating
      provider, close 2 s, WhileHalfOpen. */
  function DynamicSettings(): Settings
  {
    NewSettings(1, 5, AlternatingDelay, 2, WhileHalfOpen)
  }

  /** The first part of the dynamic test: a failure opens the breaker, the
      provider(0) = 4 s wait turns it HalfOpen, the next failure reopens it. */
  lemma DynamicDelayReopens(t0: int, selected: set<int>, t1: int, t2: int, selected2: set<int>)
    requires IsSelection(selected, {t0}, t0, DynamicSettings())
    requires t0 + 40_000_000 < t1 <= t2
    requires IsSelection(selected2, {t0, t2}, t2, DynamicSettings())
    ensures var s := DynamicSettings();
            var probed := ResetStep(TripStep(NewBreaker(), s, t0, selected), s, t1);
            && probed == Breaker(HalfOpen, 1, t1, {t0})
            && TripStep(probed, s, t2, selected2) == Breaker(Open, 1, t1, {t0, t2})
  {
    var s := DynamicSettings();
    assert InWindow({t0}, t0, s.trackingPeriod) == {t0};
    SingletonSelection(selected, {t0}, t0, s, t0);
    var tripped := TripStep(NewBreaker(), s, t0, selected);
    assert tripped == Breaker(Open, 0, 0, {t0});
    assert Latest({t0}) == Some(t0);
    assert s.halfOpenResetIntervalProvider(0) == 40_000_000;
    var probed := ResetStep(tripped, s, t1);
    assert probed == Breaker(HalfOpen, 1, t1, {t0});
    assert probed.errors + {t2} == {t0, t2};
    assert |selected2| == 1;
  }

  /** The dynamic test: the first wait is provider(0) = 4 s; a failure while
      HalfOpen reopens with the counter still 1, so the next wait is
      provider(1) = 8 s, after which the counter is 2. */
  lemma ScenarioDynamicDelay(t0: int, selected: set<int>, t1: int, t2: int, selected2: set<int>, t3: int)
    requires IsSelection(selected, {t0}, t0, DynamicSettings())
    requires t0 + 40_000_000 < t1 <= t2 && t2 + 80_000_000 < t3
    requires IsSelection(selected2, {t0, t2}, t2, DynamicSettings())
    ensures var s := DynamicSettings();
            var probed := ResetStep(TripStep(NewBreaker(), s, t0, selected), s, t1);
            var reopened := TripStep(probed, s, t2, selected2);
            && probed.state == HalfOpen && probed.halfOpenAttempts == 1
            && reopened.state == Open && reopened.halfOpenAttempts == 1
            && ResetStep(reopened, s, t2 + 80_000_000) == reopened
            && ResetStep(reopened, s, t3).state == HalfOpen
            && ResetStep(reopened, s, t3).halfOpenAttempts == 2
  {
    var s := DynamicSettings();
    DynamicDelayReopens(t0, selected, t1, t2, selected2);
    var reopened := Breaker(Open, 1, t1, {t0, t2});
    LatestOfPair(t0, t2);
    assert s.halfOpenResetIntervalProvider(1) == 80_000_000;
    assert ResetStep(reopened, s, t2 + 80_000_000) == reopened;
    assert ResetStep(reopened, s, t3).halfOpenAttempts == 2;
  }
}
