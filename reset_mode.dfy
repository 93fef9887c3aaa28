/** The two reset policies of a circuit breaker and the closing rule each of
    them imposes (ResetMode.cs, consumed by ExceptionTypeCircuitBreaker.Reset). */
module ResetModes {

  /** How a circuit breaker returns to the Closed state. */
  datatype ResetMode =
    | WhileAnyState   // may close from any state; interval measured from the latest error
    | WhileHalfOpen   // may close only while HalfOpen; interval measured from the later of
                      // the latest error and the HalfOpen entry

  function Max(a: int, b: int): int { if a < b then b else a }

  /** The closing test Reset applies after its half-open step. All times are ticks;
      `isHalfOpen` is the state after that step. */
  predicate MayClose(mode: ResetMode, isHalfOpen: bool, now: int, latestError: int,
                     lastHalfOpened: int, closeResetInterval: int)
  {
    var quietSinceError := now > latestError + closeResetInterval;
    match mode
    case WhileAnyState => quietSinceError
    case WhileHalfOpen => isHalfOpen && quietSinceError && now - lastHalfOpened > closeResetInterval
  }

  /** WhileAnyState closes from any state, as soon as the interval since the latest
      error has passed, and at no other time. */
  lemma WhileAnyStateIgnoresState(isHalfOpen: bool, now: int, latestError: int,
                                  lastHalfOpened: int, closeResetInterval: int)
    ensures MayClose(WhileAnyState, isHalfOpen, now, latestError, lastHalfOpened, closeResetInterval)
            <==> now > latestError + closeResetInterval
  {
  }

  /** WhileHalfOpen never closes a breaker that is not HalfOpen. */
  lemma WhileHalfOpenOnlyFromHalfOpen(now: int, latestError: int, lastHalfOpened: int,
                                      closeResetInterval: int)
    ensures !MayClose(WhileHalfOpen, false, now, latestError, lastHalfOpened, closeResetInterval)
  {
  }

  /** Under WhileHalfOpen the interval runs from the later of the latest error and
      the HalfOpen entry. */
  lemma WhileHalfOpenMeasuresFromLater(now: int, latestError: int, lastHalfOpened: int,
                                       closeResetInterval: int)
    ensures MayClose(WhileHalfOpen, true, now, latestError, lastHalfOpened, closeResetInterval)
            <==> now > Max(latestError, lastHalfOpened) + closeResetInterval
  {
  }

  /** WhileHalfOpen is never more permissive than WhileAnyState. */
  lemma WhileHalfOpenImpliesWhileAnyState(isHalfOpen: bool, now: int, latestError: int,
                                          lastHalfOpened: int, closeResetInterval: int)
    ensures MayClose(WhileHalfOpen, isHalfOpen, now, latestError, lastHalfOpened, closeResetInterval)
            ==> MayClose(WhileAnyState, isHalfOpen, now, latestError, lastHalfOpened, closeResetInterval)
  {
  }
}
