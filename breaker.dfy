/** The class ExceptionTypeCircuitBreaker: its fields are the ones the private State
    setter, Trip and Reset update in place. Each method is proved to perform the
    corresponding step of CircuitBreakerModel. Reset follows the corrected guard
    for a breaker with no recorded error (see ResetGuard for the code as written). */
module CircuitBreakerImpl {
  import opened Wrappers
  import opened ResetModes
  import opened Config
  import opened CircuitBreakerModel
  import opened CircuitBreakerProperties

  /** `Where(key in window).Take(Attempts)` over the error dictionary, enumerated in
      an order the model leaves open (each step picks any remaining key). */
  method SelectInPeriod(errors: set<int>, now: int, s: Settings) returns (selected: set<int>)
    ensures IsSelection(selected, errors, now, s)
  {
    var take := if s.attempts <= 0 then 0 else s.attempts;
    selected := {};
    var remaining := errors;
    while remaining != {} && |selected| < take
      invariant remaining <= errors
      invariant selected == InWindow(errors - remaining, now, s.trackingPeriod)
      invariant |selected| <= take
      decreases |remaining|
    {
      HasElement(remaining);
      var key :| key in remaining;
      remaining := remaining - {key};
      if key > now - s.trackingPeriod {
        selected := selected + {key};
      }
    }
    var window := InWindow(errors, now, s.trackingPeriod);
    if remaining == {} {
      assert errors - remaining == errors;
    } else {
      SubsetSize(selected, window);
    }
  }

  /** `OrderByDescending(Key).Take(1).FirstOrDefault()` over the error dictionary,
      with the empty case made explicit. */
  method LatestError(errors: set<int>) returns (latest: Option<int>)
    ensures latest == Latest(errors)
  {
    latest := None;
    var remaining := errors;
    ghost var seen: set<int> := {};
    while remaining != {}
      invariant seen + remaining == errors && seen !! remaining
      invariant IsLatest(latest, seen)
      decreases |remaining|
    {
      HasElement(remaining);
      var key :| key in remaining;
      LatestAdd(latest, seen, key);
      latest := Some(if latest.Some? then Max(key, latest.value) else key);
      seen := seen + {key};
      remaining := remaining - {key};
    }
    LatestIsUnique(latest, Latest(errors), errors);
  }

  class ExceptionTypeCircuitBreaker {
    const exceptionType: TypeTag
    const settings: Settings
    var state: CircuitBreakerState
    var consecutiveHalfOpenAttempts: int
    var lastHalfOpened: int
    var errorDates: set<int>

    /** The breaker's fields as a model value. */
    function View(): Breaker
      reads this
    {
      Breaker(state, consecutiveHalfOpenAttempts, lastHalfOpened, errorDates)
    }

    predicate Valid()
      reads this
    {
      Inv(View(), settings)
    }

    /** A new breaker for one exception type: Closed, no errors, counter 0. */
    constructor (exceptionType: TypeTag, settings: Settings)
      ensures this.exceptionType == exceptionType && this.settings.attempts == settings.attempts
      ensures this.settings.trackingPeriod == settings.trackingPeriod
      ensures this.settings.closeResetInterval == settings.closeResetInterval
      ensures this.settings.resetMode == settings.resetMode
      ensures this.settings.halfOpenResetIntervalProvider == settings.halfOpenResetIntervalProvider
      ensures Valid() && View() == NewBreaker()
    {
      this.exceptionType := exceptionType;
      this.settings := settings;
      state := Closed;
      consecutiveHalfOpenAttempts := 0;
      lastHalfOpened := 0;
      errorDates := {};
    }

    predicate IsClosed() reads this { state == Closed }
    predicate IsHalfOpen() reads this { state == HalfOpen }
    predicate IsOpen() reads this { state == Open }

    /** The private State setter, with its entry side effects. */
    method SetState(value: CircuitBreakerState, now: int)
      modifies this
      ensures View() == Enter(old(View()), value, now)
    {
      match value {
        case HalfOpen =>
          if state != HalfOpen {
            lastHalfOpened := now;
            consecutiveHalfOpenAttempts := consecutiveHalfOpenAttempts + 1;
          }
        case Closed =>
          if state != Closed {
            consecutiveHalfOpenAttempts := 0;
          }
        case Open =>
      }
      state := value;
    }

    /** Trip with the exception `exception` observed at `now`. A non-matching
        exception changes nothing; an aggregate without inner exceptions raises.
        `selected` is the subset the dictionary enumeration yielded. */
    method Trip(now: int, exception: Failure) returns (result: Result<(), TripError>, ghost selected: set<int>)
      requires Valid()
      modifies this
      ensures Valid()
      ensures result.Err? <==> ShouldTrip(exception, exceptionType).Err?
      ensures ShouldTrip(exception, exceptionType) != Ok(true) ==> View() == old(View())
      ensures ShouldTrip(exception, exceptionType) == Ok(true) ==>
                IsSelection(selected, old(errorDates) + {now}, now, settings)
                && View() == TripStep(old(View()), settings, now, selected)
    {
      var matches := ShouldTrip(exception, exceptionType);
      if matches.Err? {
        return Err(matches.error), {};
      }
      if !matches.value {
        return Ok(()), {};
      }
      ghost var before := View();
      errorDates := errorDates + {now};
      var errorsInPeriod := SelectInPeriod(errorDates, now, settings);
      selected := errorsInPeriod;
      var numberOfErrorsInPeriod := |errorsInPeriod|;
      TripPreservesInv(before, settings, now, selected);
      if IsInRecoveringState(numberOfErrorsInPeriod, state) {
        SetState(Open, now);
        return Ok(()), selected;
      }
      if numberOfErrorsInPeriod >= settings.attempts {
        SetState(Open, now);
      }
      RemoveOutOfPeriodErrors(errorsInPeriod);
      result := Ok(());
    }

    /** Reset at `now`: the half-open step, then the close step of the reset mode. */
    method Reset(now: int)
      requires Valid()
      modifies this
      ensures Valid()
      ensures View() == ResetStep(old(View()), settings, now)
    {
      ResetPreservesInv(View(), settings, now);
      if IsClosed() {
        return;
      }
      var latestError := LatestError(errorDates);
      if latestError.None? {
        return;
      }
      var halfOpenInterval := settings.halfOpenResetIntervalProvider(consecutiveHalfOpenAttempts);
      if now > latestError.value + halfOpenInterval {
        SetState(HalfOpen, now);
      }
      var hasErrWithinResetInterval := now > latestError.value + settings.closeResetInterval;
      match settings.resetMode {
        case WhileAnyState =>
          if hasErrWithinResetInterval {
            SetState(Closed, now);
          }
        case WhileHalfOpen =>
          if state == HalfOpen && hasErrWithinResetInterval
             && now - lastHalfOpened > settings.closeResetInterval {
            SetState(Closed, now);
          }
      }
    }

    /** Removes, one by one, every recorded error that is not in `tripsInPeriod`. */
    method RemoveOutOfPeriodErrors(tripsInPeriod: set<int>)
      modifies this`errorDates
      ensures errorDates == old(errorDates) * tripsInPeriod
    {
      var outDatedTimeStamps := errorDates - tripsInPeriod;
      while outDatedTimeStamps != {}
        invariant outDatedTimeStamps !! tripsInPeriod
        invariant errorDates == old(errorDates) * tripsInPeriod + outDatedTimeStamps
        decreases |outDatedTimeStamps|
      {
        HasElement(outDatedTimeStamps);
        var outDatedTimeStamp :| outDatedTimeStamp in outDatedTimeStamps;
        errorDates := errorDates - {outDatedTimeStamp};
        outDatedTimeStamps := outDatedTimeStamps - {outDatedTimeStamp};
      }
    }
  }
}
