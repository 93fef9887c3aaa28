/** The circuit breaker of ExceptionTypeCircuitBreaker.cs as values and step
    functions. Times are integer ticks on one timeline; the clock reading of a call
    is the parameter `now`. The class in breaker.dfy is proved to follow these
    functions call by call. */
module CircuitBreakerModel {
  import opened Wrappers
  import opened ResetModes
  import opened Config

  datatype CircuitBreakerState = Closed | Open | HalfOpen

  /** Exact runtime type of an exception, compared by identity only. */
  type TypeTag = string

  /** An exception: a plain one, or an AggregateException (of the given runtime
      type) wrapping inner exceptions. */
  datatype Failure =
    | Plain(kind: TypeTag)
    | Aggregate(kind: TypeTag, inner: seq<Failure>)

  /** What Trip raises instead of classifying: `First()` on an aggregate without
      inner exceptions. */
  datatype TripError = NoInnerExceptions

  /** ShouldTripCircuitBreaker: an aggregate is first judged by its first inner
      exception, then any exception by its own exact type. */
  function ShouldTrip(exception: Failure, exceptionType: TypeTag): Result<bool, TripError>
  {
    match exception
    case Aggregate(kind, inner) =>
      if |inner| == 0 then Err(NoInnerExceptions)
      else if inner[0].kind == exceptionType then Ok(true)
      else Ok(kind == exceptionType)
    case Plain(kind) => Ok(kind == exceptionType)
  }

  /** IsInRecoveringState: exactly one error in the period while HalfOpen. */
  predicate IsInRecoveringState(numberOfErrorsInPeriod: int, state: CircuitBreakerState)
  {
    numberOfErrorsInPeriod == 1 && state == HalfOpen
  }

  /** The mutable part of a breaker. `errors` holds the keys of the error
      dictionary: the tick of each recorded error (the value is determined by it). */
  datatype Breaker = Breaker(
    state: CircuitBreakerState,
    halfOpenAttempts: int,
    lastHalfOpened: int,
    errors: set<int>)

  /** A fresh breaker: Closed, no errors, counter 0; `lastHalfOpened` holds
      default(DateTimeOffset), tick 0. */
  function NewBreaker(): Breaker
  {
    Breaker(Closed, 0, 0, {})
  }

  /** The private State setter: the entry side effects, then the assignment. */
  function Enter(b: Breaker, value: CircuitBreakerState, now: int): Breaker
  {
    match value
    case HalfOpen =>
      if b.state != HalfOpen
      then b.(state := HalfOpen, lastHalfOpened := now, halfOpenAttempts := b.halfOpenAttempts + 1)
      else b
    case Closed =>
      if b.state != Closed then b.(state := Closed, halfOpenAttempts := 0) else b
    case Open => b.(state := Open)
  }

  /** Error ticks strictly inside the tracking window ending at `now`. */
  function InWindow(errors: set<int>, now: int, trackingPeriod: int): (w: set<int>)
    ensures w <= errors
  {
    set k | k in errors && k > now - trackingPeriod
  }

  /** How many elements `Take(attempts)` yields from `available` elements. */
  function TakeCount(attempts: int, available: nat): nat
  {
    if attempts <= 0 then 0 else if attempts < available then attempts else available
  }

  /** The subsets `Where(in window).Take(Attempts)` can yield: the dictionary's
      enumeration order is unspecified, so any in-window subset of the right size. */
  predicate IsSelection(selected: set<int>, errors: set<int>, now: int, s: Settings)
  {
    var window := InWindow(errors, now, s.trackingPeriod);
    selected <= window && |selected| == TakeCount(s.attempts, |window|)
  }

  /** Trip after a matching exception at `now`, given the selection the
      enumeration produced: record, maybe open, then prune to the selection. */
  function TripStep(b: Breaker, s: Settings, now: int, selected: set<int>): Breaker
    requires IsSelection(selected, b.errors + {now}, now, s)
  {
    var recorded := b.(errors := b.errors + {now});
    var numberOfErrorsInPeriod := |selected|;
    if IsInRecoveringState(numberOfErrorsInPeriod, b.state) then
      Enter(recorded, Open, now)
    else
      var tripped := if numberOfErrorsInPeriod >= s.attempts then Enter(recorded, Open, now) else recorded;
      tripped.(errors := tripped.errors * selected)
  }

  /** `r` is the latest of `errors`, or None when there is none. */
  ghost predicate IsLatest(r: Option<int>, errors: set<int>)
  {
    if errors == {} then r == None
    else r.Some? && r.value in errors && forall k :: k in errors ==> k <= r.value
  }

  /** The latest recorded error: the largest key, as OrderByDescending(Key).Take(1) finds it. */
  ghost function Latest(errors: set<int>): (r: Option<int>)
    ensures IsLatest(r, errors)
    decreases |errors|
  {
    if errors == {} then None
    else
      HasElement(errors);
      var x :| x in errors;
      match Latest(errors - {x})
      case None => Some(x)
      case Some(m) =>
        assert forall k :: k in errors ==> k == x || k in errors - {x};
        Some(Max(x, m))
  }

  /** A non-empty set has an element to pick. */
  lemma HasElement(s: set<int>)
    requires s != {}
    ensures exists x :: x in s
  {
    if !(exists x :: x in s) { assert false; }
  }

  /** Reset measured from a latest error at tick `latest`: the half-open step, then
      the close step against the possibly just-updated state. */
  function ResetFrom(b: Breaker, s: Settings, now: int, latest: int): Breaker
  {
    var halfOpenInterval := s.halfOpenResetIntervalProvider(b.halfOpenAttempts);
    var probed := if now > latest + halfOpenInterval then Enter(b, HalfOpen, now) else b;
    if MayClose(s.resetMode, probed.state == HalfOpen, now, latest, probed.lastHalfOpened,
                s.closeResetInterval)
    then Enter(probed, Closed, now)
    else probed
  }

  /** Reset: nothing when Closed or when no error is recorded. */
  ghost function ResetStep(b: Breaker, s: Settings, now: int): Breaker
  {
    if b.state == Closed then b
    else match Latest(b.errors)
      case None => b
      case Some(latest) => ResetFrom(b, s, now, latest)
  }

  /** The invariant every breaker keeps: the counter is 0 while Closed and at least 1
      while HalfOpen; and with sane settings an error is on record unless Closed. */
  predicate Inv(b: Breaker, s: Settings)
  {
    && b.halfOpenAttempts >= 0
    && (b.state == Closed ==> b.halfOpenAttempts == 0)
    && (b.state == HalfOpen ==> b.halfOpenAttempts >= 1)
    && (s.attempts >= 1 && s.trackingPeriod > 0 && b.state != Closed ==> b.errors != {})
  }
}
