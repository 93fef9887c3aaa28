/** What the step functions of CircuitBreakerModel promise: the setter's entry
    effects, classification, the window selection, Trip's threshold, recovery edge
    and pruning, Reset's half-open and close steps, and the breaker invariant. */
module CircuitBreakerProperties {
  import opened Wrappers
  import opened ResetModes
  import opened Config
  import opened CircuitBreakerModel

  lemma SubsetSize(a: set<int>, b: set<int>)
    requires a <= b
    ensures |a| <= |b|
  {
    assert b == a + (b - a);
  }

  /** A set has one latest element, so any two answers agree. */
  lemma LatestIsUnique(r1: Option<int>, r2: Option<int>, errors: set<int>)
    requires IsLatest(r1, errors) && IsLatest(r2, errors)
    ensures r1 == r2
  {
    if errors != {} {
      assert r1.value <= r2.value && r2.value <= r1.value;
    }
  }

  /** Adding a key to a set moves its latest element to the larger of the two. */
  lemma LatestAdd(latest: Option<int>, seen: set<int>, key: int)
    requires IsLatest(latest, seen)
    ensures IsLatest(Some(if latest.Some? then Max(key, latest.value) else key), seen + {key})
  {
  }

  // ---------------------------------------------------------------- construction

  /** A new breaker is Closed, has no recorded errors and counter 0, and meets the
      invariant whatever the settings. */
  lemma NewBreakerIsClosedAndEmpty(s: Settings)
    ensures NewBreaker().state == Closed && NewBreaker().errors == {}
    ensures NewBreaker().halfOpenAttempts == 0
    ensures Inv(NewBreaker(), s)
  {
  }

  // ---------------------------------------------------------------- the State setter

  /** Entering HalfOpen from another state raises the counter by exactly one and
      stamps the entry time; assigning HalfOpen again changes nothing. */
  lemma EnterHalfOpenEffects(b: Breaker, now: int)
    ensures var r := Enter(b, HalfOpen, now);
            && r.state == HalfOpen && r.errors == b.errors
            && (b.state != HalfOpen ==> r.halfOpenAttempts == b.halfOpenAttempts + 1 && r.lastHalfOpened == now)
            && (b.state == HalfOpen ==> r == b)
  {
  }

  /** Entering Closed from another state zeroes the counter; assigning Open changes
      only the state. */
  lemma EnterClosedAndOpenEffects(b: Breaker, now: int)
    ensures var r := Enter(b, Closed, now);
            && r.state == Closed && r.errors == b.errors && r.lastHalfOpened == b.lastHalfOpened
            && (b.state != Closed ==> r.halfOpenAttempts == 0)
            && (b.state == Closed ==> r == b)
    ensures Enter(b, Open, now) == b.(state := Open)
  {
  }

  /** Every assignment through the setter keeps the counter invariant. */
  lemma EnterPreservesInv(b: Breaker, s: Settings, value: CircuitBreakerState, now: int)
    requires Inv(b, s)
    requires value != Closed ==> b.state != Closed || b.errors != {}
    ensures Inv(Enter(b, value, now), s)
  {
  }

  // ---------------------------------------------------------------- classification

  /** An exception matches iff its exact type is the guarded one, or it is an
      aggregate whose first inner exception has that type; an aggregate without
      inner exceptions raises instead. */
  lemma ClassificationRule(exception: Failure, exceptionType: TypeTag)
    ensures ShouldTrip(exception, exceptionType).Err?
            <==> exception.Aggregate? && |exception.inner| == 0
    ensures ShouldTrip(exception, exceptionType).Ok? ==>
              (ShouldTrip(exception, exceptionType).value
               <==> exception.kind == exceptionType
                    || (exception.Aggregate? && exception.inner[0].kind == exceptionType))
  {
  }

  /** Inner exceptions after the first are never inspected. */
  lemma LaterInnerExceptionsIgnored(kind: TypeTag, first: Failure, rest1: seq<Failure>,
                                    rest2: seq<Failure>, exceptionType: TypeTag)
    ensures ShouldTrip(Aggregate(kind, [first] + rest1), exceptionType)
            == ShouldTrip(Aggregate(kind, [first] + rest2), exceptionType)
  {
  }

  // ---------------------------------------------------------------- window selection

  /** The selection keeps at most max(Attempts, 0) keys, all recorded and strictly
      inside the window; it reaches Attempts iff the window holds that many. */
  lemma SelectionBounds(selected: set<int>, errors: set<int>, now: int, s: Settings)
    requires IsSelection(selected, errors, now, s)
    ensures |selected| <= Max(s.attempts, 0)
    ensures forall k :: k in selected ==> k in errors && k > now - s.trackingPeriod
    ensures |selected| >= s.attempts <==> |InWindow(errors, now, s.trackingPeriod)| >= s.attempts
  {
  }

  // ---------------------------------------------------------------- Trip

  /** After a matching Trip the breaker is Open iff it was, or the selection reached
      Attempts, or the recovery edge fired; a window holding Attempts errors opens it. */
  lemma TripOpensAtThreshold(b: Breaker, s: Settings, now: int, selected: set<int>)
    requires IsSelection(selected, b.errors + {now}, now, s)
    ensures var r := TripStep(b, s, now, selected);
            && (r.state == HalfOpen ==> b.state == HalfOpen)
            && (r.state == Open <==> (|| b.state == Open
                                      || |selected| >= s.attempts
                                      || IsInRecoveringState(|selected|, b.state)))
            && (|InWindow(b.errors + {now}, now, s.trackingPeriod)| >= s.attempts ==> r.state == Open)
  {
  }

  /** A Closed breaker whose window holds fewer than Attempts errors stays Closed. */
  lemma TripBelowThresholdStaysClosed(b: Breaker, s: Settings, now: int, selected: set<int>)
    requires IsSelection(selected, b.errors + {now}, now, s)
    requires b.state == Closed
    requires |InWindow(b.errors + {now}, now, s.trackingPeriod)| < s.attempts
    ensures TripStep(b, s, now, selected).state == Closed
  {
  }

  /** With Attempts = 1 (and a positive tracking period) one failure opens the breaker. */
  lemma SingleAttemptOpens(b: Breaker, s: Settings, now: int, selected: set<int>)
    requires IsSelection(selected, b.errors + {now}, now, s)
    requires s.attempts == 1 && s.trackingPeriod > 0
    ensures TripStep(b, s, now, selected).state == Open
  {
    assert now in InWindow(b.errors + {now}, now, s.trackingPeriod);
  }

  /** A failure at a tick already on record adds no record. */
  lemma DuplicateTickAddsNoRecord(b: Breaker, s: Settings, now: int, selected: set<int>)
    requires now in b.errors
    requires IsSelection(selected, b.errors + {now}, now, s)
    ensures IsSelection(selected, b.errors, now, s)
    ensures !IsInRecoveringState(|selected|, b.state) ==> TripStep(b, s, now, selected).errors <= b.errors
    ensures IsInRecoveringState(|selected|, b.state) ==> TripStep(b, s, now, selected).errors == b.errors
  {
    assert b.errors + {now} == b.errors;
  }

  /** The recovery edge returns before pruning; every other path prunes the record
      set down to exactly the selection. */
  lemma TripPruning(b: Breaker, s: Settings, now: int, selected: set<int>)
    requires IsSelection(selected, b.errors + {now}, now, s)
    ensures var r := TripStep(b, s, now, selected);
            if IsInRecoveringState(|selected|, b.state)
            then r.state == Open && r.errors == b.errors + {now}
            else && r.errors == selected
                 && |r.errors| <= Max(s.attempts, 0)
                 && forall k :: k in r.errors ==> k > now - s.trackingPeriod
  {
  }

  /** Trip never touches the half-open bookkeeping. */
  lemma TripKeepsHalfOpenBookkeeping(b: Breaker, s: Settings, now: int, selected: set<int>)
    requires IsSelection(selected, b.errors + {now}, now, s)
    ensures TripStep(b, s, now, selected).halfOpenAttempts == b.halfOpenAttempts
    ensures TripStep(b, s, now, selected).lastHalfOpened == b.lastHalfOpened
  {
  }

  /** A failure while HalfOpen reopens the breaker when every earlier error has left
      the tracking window (so the new one is alone in it). */
  lemma HalfOpenFailureReopens(b: Breaker, s: Settings, now: int, selected: set<int>)
    requires IsSelection(selected, b.errors + {now}, now, s)
    requires b.state == HalfOpen && s.attempts >= 1 && s.trackingPeriod > 0
    requires forall k :: k in b.errors ==> k <= now - s.trackingPeriod
    ensures TripStep(b, s, now, selected).state == Open
    ensures TripStep(b, s, now, selected).errors == b.errors + {now}
  {
    assert InWindow(b.errors + {now}, now, s.trackingPeriod) == {now};
  }

  /** Trip keeps the invariant; with sane settings it leaves an error on record. */
  lemma TripPreservesInv(b: Breaker, s: Settings, now: int, selected: set<int>)
    requires Inv(b, s)
    requires IsSelection(selected, b.errors + {now}, now, s)
    ensures Inv(TripStep(b, s, now, selected), s)
    ensures s.attempts >= 1 && s.trackingPeriod > 0 ==> TripStep(b, s, now, selected).errors != {}
  {
    if s.attempts >= 1 && s.trackingPeriod > 0 {
      assert now in InWindow(b.errors + {now}, now, s.trackingPeriod);
      assert |selected| >= 1;
      assert (b.errors + {now}) * selected == selected;
    }
  }

  // ---------------------------------------------------------------- Reset

  /** Reset does nothing to a Closed breaker, nor to one with no recorded error. */
  lemma ResetNoopCases(b: Breaker, s: Settings, now: int)
    requires b.state == Closed || b.errors == {}
    ensures ResetStep(b, s, now) == b
  {
  }

  /** Reset never produces Open and never modifies the recorded errors. */
  lemma ResetNeverOpens(b: Breaker, s: Settings, now: int)
    ensures ResetStep(b, s, now).errors == b.errors
    ensures ResetStep(b, s, now).state == Open ==> b.state == Open
  {
  }

  /** From Open, Reset enters HalfOpen only once `now` is strictly past the latest
      error plus provider(counter), the counter read before the increment; it stays
      Open iff neither that nor a WhileAnyState close applies. */
  lemma ResetFromOpen(b: Breaker, s: Settings, now: int, latest: int)
    requires b.state == Open && Latest(b.errors) == Some(latest)
    ensures var r := ResetStep(b, s, now);
            var halfOpenInterval := s.halfOpenResetIntervalProvider(b.halfOpenAttempts);
            && (r.state == HalfOpen ==> now > latest + halfOpenInterval
                                        && r.halfOpenAttempts == b.halfOpenAttempts + 1
                                        && r.lastHalfOpened == now)
            && (r.state == Open <==> !(now > latest + halfOpenInterval)
                                     && !(s.resetMode == WhileAnyState && now > latest + s.closeResetInterval))
            && (r.state == Open ==> r == b)
  {
  }

  /** From HalfOpen, Reset either stays HalfOpen without touching the counter or
      closes, exactly when the reset mode allows it. */
  lemma ResetFromHalfOpen(b: Breaker, s: Settings, now: int, latest: int)
    requires b.state == HalfOpen && Latest(b.errors) == Some(latest)
    ensures var r := ResetStep(b, s, now);
            && (r.state == Closed <==> MayClose(s.resetMode, true, now, latest, b.lastHalfOpened,
                                                s.closeResetInterval))
            && (r.state != Closed ==> r == b)
            && (r.state == Closed ==> r.halfOpenAttempts == 0)
  {
  }

  /** WhileAnyState closes iff `now` is strictly past the latest error plus the
      close-reset interval, whatever the state, so one call can go from Open to
      Closed and leave the counter at 0. */
  lemma ResetClosingWhileAnyState(b: Breaker, s: Settings, now: int, latest: int)
    requires s.resetMode == WhileAnyState
    requires b.state != Closed && Latest(b.errors) == Some(latest)
    ensures ResetStep(b, s, now).state == Closed <==> now > latest + s.closeResetInterval
    ensures ResetStep(b, s, now).state == Closed ==> ResetStep(b, s, now).halfOpenAttempts == 0
  {
  }

  /** WhileHalfOpen closes a HalfOpen breaker iff the interval has passed since both
      the latest error and the HalfOpen entry; an Open breaker only through an entry
      in the same call, which needs a negative interval. */
  lemma ResetClosingWhileHalfOpen(b: Breaker, s: Settings, now: int, latest: int)
    requires s.resetMode == WhileHalfOpen
    requires b.state != Closed && Latest(b.errors) == Some(latest)
    ensures ResetStep(b, s, now).state == Closed <==>
              || (b.state == HalfOpen && now > Max(latest, b.lastHalfOpened) + s.closeResetInterval)
              || (b.state == Open && now > latest + s.halfOpenResetIntervalProvider(b.halfOpenAttempts)
                  && now > latest + s.closeResetInterval && 0 > s.closeResetInterval)
  {
  }

  /** Under WhileHalfOpen a breaker that is Open never closes directly. */
  lemma WhileHalfOpenNeverClosesFromOpen(b: Breaker, s: Settings, now: int)
    requires s.resetMode == WhileHalfOpen && s.closeResetInterval >= 0
    requires b.state == Open
    ensures ResetStep(b, s, now).state != Closed
  {
  }

  /** Reset keeps the invariant. */
  lemma ResetPreservesInv(b: Breaker, s: Settings, now: int)
    requires Inv(b, s)
    ensures Inv(ResetStep(b, s, now), s)
  {
  }

  /** With sane settings a breaker that is not Closed has a latest error, so Reset's
      "no error recorded" case never arises. */
  lemma LatestExistsUnlessClosed(b: Breaker, s: Settings)
    requires Inv(b, s) && s.attempts >= 1 && s.trackingPeriod > 0
    requires b.state != Closed
    ensures Latest(b.errors).Some?
  {
  }

  /** Once Reset closes the breaker its counter is 0, so after the next opening the
      half-open delay is again provider(0). */
  lemma CounterRestartsAfterClose(b: Breaker, s: Settings, now: int, later: int, selected: set<int>)
    requires ResetStep(b, s, now).state == Closed && b.state != Closed
    requires IsSelection(selected, ResetStep(b, s, now).errors + {later}, later, s)
    ensures TripStep(ResetStep(b, s, now), s, later, selected).halfOpenAttempts == 0
  {
  }
}
