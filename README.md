# Rebus circuit breaker, modelled in Dafny

This project models the per-exception-type circuit breaker of Rebus.CircuitBreaker.
The breaker is a state machine over Closed, Open and HalfOpen. The host calls `Trip`
each time a message handler throws. `Trip` records matching failures in a sliding
tracking window and opens the circuit at the failure threshold. The host also calls
`Reset` periodically. `Reset` moves an open circuit to HalfOpen after a dynamic delay,
then closes it according to the configured reset mode.

The model has three layers:

- `CircuitBreakerModel` (breaker_model.dfy) describes the breaker as a value. It has
  step functions for the private `State` setter (`Enter`), for a matching `Trip`
  (`TripStep`) and for `Reset` (`ResetStep`), plus the invariant `Inv`.
- `CircuitBreakerImpl` (breaker.dfy) holds the class `ExceptionTypeCircuitBreaker`.
  Its fields are the ones the source updates in place. Its methods `SetState`, `Trip`,
  `Reset` and `RemoveOutOfPeriodErrors` are proved to perform those steps.
  `SelectInPeriod` and `LatestError` are the two dictionary queries, written as loops.
- The remaining modules hold what is proved about the steps:
  - `CircuitBreakerProperties` for single calls;
  - `CircuitBreakerRuns` for any sequence of calls;
  - `CircuitBreakerScenarios` for the transition sequences of the integration tests;
  - `ResetGuard` for the "no error recorded" guard of `Reset`.

The settings (`Config`, settings.dfy) and the reset modes (`ResetModes`,
reset_mode.dfy) are immutable values. A `Settings` value is a datatype, so it cannot
change after it is built. This matches the private setters of the source, which only
the constructor assigns.

Conventions:

- Times and durations are integer ticks, at 10,000,000 ticks per second.
- The clock reading is the parameter `now` of each call.
- The error dictionary is the set of its keys. Each key is the tick of an error, and
  the stored value is determined by the key.
- Exception types are opaque tags compared for equality.

The dictionary enumerates its entries in an order the source does not fix. So a
`Trip` may select any in-window subset of the right size, and every property is
proved for all such selections.

Three consequences of the code that are easy to miss:

- The selection follows the dictionary's enumeration order, not timestamp order
  (ExceptionTypeCircuitBreaker.cs:73-76).
- A failure while HalfOpen reopens the circuit only when exactly one error is selected
  or when `Attempts` is reached (ExceptionTypeCircuitBreaker.cs:80-90, :161-164).
  `HalfOpenFailureReopens` states when the recovery edge is guaranteed: every earlier
  error has left the window.
- A failure while HalfOpen leaves the counter at the number of HalfOpen entries, so
  the next wait is provider(1) (CircuitBreakerTests.cs:161-171), as
  `ScenarioDynamicDelay` shows.

## Model

| member | source | states |
|---|---|---|
| `Config.FromSeconds` | Rebus.CircuitBreaker/Config/CircuitBreakerSettings.cs:78-80 | a whole number of seconds becomes an exact tick count: dividing by 10,000,000 gives the seconds back with remainder 0 |
| `Config.FromSecondsMonotone` | Rebus.CircuitBreaker/Config/CircuitBreakerSettings.cs:78-80 | the conversion keeps order, so comparing durations compares the configured seconds |
| `Config.NewSettings` | Rebus.CircuitBreaker/Config/CircuitBreakerSettings.cs:71-82 | the constructor taking a provider: stores `Attempts`, the provider and the mode as given and both intervals as whole seconds; its properties are `NewSettingsStoresArguments` and `ResetModeDefaultsToWhileAnyState` |
| `Config.NewFixedSettings` | Rebus.CircuitBreaker/Config/CircuitBreakerSettings.cs:59-66 | the constructor taking a fixed interval delegates to `NewSettings` with a provider that ignores the count; its properties are `FixedProviderIsConstant` and `ResetModeDefaultsToWhileAnyState` |
| `Config.DefaultSettings` | Rebus.CircuitBreaker/Config/CircuitBreakerSettings.cs:14-29 | the settings built from the four default constants; its values are stated by `DefaultSettingsValues` |
| `Config.NewSettingsStoresArguments` | Rebus.CircuitBreaker/Config/CircuitBreakerSettings.cs:71-82 | the constructor accepts any integers without validation, stores `Attempts` unchanged, stores the tracking and close-reset intervals as the given whole seconds, keeps the provider and the reset mode |
| `Config.ResetModeDefaultsToWhileAnyState` | Rebus.CircuitBreaker/Config/CircuitBreakerSettings.cs:59-75 | when the reset mode is omitted, both constructors select WhileAnyState |
| `Config.FixedProviderIsConstant` | Rebus.CircuitBreaker/Config/CircuitBreakerSettings.cs:59-66 | the fixed-interval constructor yields a provider that returns the same duration, the given seconds, for every attempt count |
| `Config.DefaultSettingsValues` | Rebus.CircuitBreaker/Config/CircuitBreakerSettings.cs:14-29 | the defaults are 5 attempts, a 30 s tracking period, a 150 s half-open interval for every count, a 300 s close-reset interval and WhileAnyState |
| `ResetModes.MayClose` | Rebus.CircuitBreaker/CircuitBreaker/ExceptionTypeCircuitBreaker.cs:119-138 | the closing test of each reset mode, applied to the state after the half-open step; characterised by the four `ResetModes` lemmas below |
| `ResetModes.WhileAnyStateIgnoresState` | Rebus.CircuitBreaker/CircuitBreaker/ResetMode.cs:8-12 | WhileAnyState allows closing from any state, exactly when `now` is strictly past the latest error plus the interval |
| `ResetModes.WhileHalfOpenOnlyFromHalfOpen` | Rebus.CircuitBreaker/CircuitBreaker/ResetMode.cs:14-15 | WhileHalfOpen never allows closing a breaker that is not HalfOpen |
| `ResetModes.WhileHalfOpenMeasuresFromLater` | Rebus.CircuitBreaker/CircuitBreaker/ResetMode.cs:16-18 | for a HalfOpen breaker, WhileHalfOpen allows closing iff `now` is strictly past the later of the latest error and the HalfOpen entry, plus the interval |
| `ResetModes.WhileHalfOpenImpliesWhileAnyState` | Rebus.CircuitBreaker/CircuitBreaker/ExceptionTypeCircuitBreaker.cs:119-138 | whenever WhileHalfOpen allows closing, WhileAnyState does too |
| `CircuitBreakerModel.NewBreaker` | Rebus.CircuitBreaker/CircuitBreaker/ExceptionTypeCircuitBreaker.cs:19-31 | a new breaker: Closed, no records, counter 0; `NewBreakerIsClosedAndEmpty` states it meets the invariant |
| `CircuitBreakerModel.Enter` | Rebus.CircuitBreaker/CircuitBreaker/ExceptionTypeCircuitBreaker.cs:36-54 | the private State setter: the entry effects of HalfOpen and Closed, then the assignment; stated by `EnterHalfOpenEffects`, `EnterClosedAndOpenEffects` and `EnterPreservesInv` |
| `CircuitBreakerModel.ShouldTrip` | Rebus.CircuitBreaker/CircuitBreaker/ExceptionTypeCircuitBreaker.cs:141-159 | classification of an exception, with the error raised by `First()` on an aggregate without inner exceptions; stated by `ClassificationRule` and `LaterInnerExceptionsIgnored` |
| `CircuitBreakerModel.IsInRecoveringState` | Rebus.CircuitBreaker/CircuitBreaker/ExceptionTypeCircuitBreaker.cs:161-164 | the recovery edge: exactly one error selected while HalfOpen; used by `TripOpensAtThreshold` and `HalfOpenFailureReopens` |
| `CircuitBreakerModel.TripStep` | Rebus.CircuitBreaker/CircuitBreaker/ExceptionTypeCircuitBreaker.cs:63-95 | a matching Trip given the enumeration's selection: record, recovery edge, threshold, pruning; stated by the Trip lemmas of `CircuitBreakerProperties` and the run lemmas of `CircuitBreakerRuns` |
| `CircuitBreakerModel.ResetFrom` | Rebus.CircuitBreaker/CircuitBreaker/ExceptionTypeCircuitBreaker.cs:112-138 | Reset measured from a known latest error: the half-open step, then the mode's close step on the updated state; stated by `ResetFromOpen` and `ResetFromHalfOpen` |
| `CircuitBreakerModel.ResetStep` | Rebus.CircuitBreaker/CircuitBreaker/ExceptionTypeCircuitBreaker.cs:97-139 | Reset with its two early returns (Closed, no record) before `ResetFrom`; stated by `ResetNoopCases`, `ResetNeverOpens` and `ResetPreservesInv` |
| `CircuitBreakerModel.InWindow` | Rebus.CircuitBreaker/CircuitBreaker/ExceptionTypeCircuitBreaker.cs:73-74 | the in-window keys are recorded keys |
| `CircuitBreakerModel.Latest` | Rebus.CircuitBreaker/CircuitBreaker/ExceptionTypeCircuitBreaker.cs:104-107 | the latest error is None exactly when nothing is recorded; otherwise it is a recorded key no smaller than any other |
| `CircuitBreakerImpl.SelectInPeriod` | Rebus.CircuitBreaker/CircuitBreaker/ExceptionTypeCircuitBreaker.cs:73-76 | enumerating the keys in any order and taking in-window keys until `Attempts` are taken yields an in-window subset of size min(max(`Attempts`, 0), in-window count) |
| `CircuitBreakerImpl.LatestError` | Rebus.CircuitBreaker/CircuitBreaker/ExceptionTypeCircuitBreaker.cs:104-107 | the scan for the largest key returns the latest error, None for an empty dictionary |
| `CircuitBreakerImpl.ExceptionTypeCircuitBreaker.constructor` | Rebus.CircuitBreaker/CircuitBreaker/ExceptionTypeCircuitBreaker.cs:22-31 | a new breaker keeps its exception type and settings, and is Closed with no errors and counter 0 |
| `CircuitBreakerImpl.ExceptionTypeCircuitBreaker.IsClosed` | Rebus.CircuitBreaker/CircuitBreaker/ExceptionTypeCircuitBreaker.cs:57 | the breaker's state is Closed |
| `CircuitBreakerImpl.ExceptionTypeCircuitBreaker.IsHalfOpen` | Rebus.CircuitBreaker/CircuitBreaker/ExceptionTypeCircuitBreaker.cs:59 | the breaker's state is HalfOpen |
| `CircuitBreakerImpl.ExceptionTypeCircuitBreaker.IsOpen` | Rebus.CircuitBreaker/CircuitBreaker/ExceptionTypeCircuitBreaker.cs:61 | the breaker's state is Open |
| `CircuitBreakerImpl.ExceptionTypeCircuitBreaker.SetState` | Rebus.CircuitBreaker/CircuitBreaker/ExceptionTypeCircuitBreaker.cs:36-54 | assigning a state applies exactly the setter's entry effects (`Enter`) and nothing else |
| `CircuitBreakerImpl.ExceptionTypeCircuitBreaker.Trip` | Rebus.CircuitBreaker/CircuitBreaker/ExceptionTypeCircuitBreaker.cs:63-95 | an aggregate without inner exceptions raises and changes nothing; a non-matching exception changes nothing; a matching one records `now`, selects a valid subset and performs `TripStep`; the invariant is kept |
| `CircuitBreakerImpl.ExceptionTypeCircuitBreaker.Reset` | Rebus.CircuitBreaker/CircuitBreaker/ExceptionTypeCircuitBreaker.cs:97-139 | the new state is `ResetStep` of the old one: the half-open step, then the reset mode's close step on the updated state; the invariant is kept |
| `CircuitBreakerImpl.ExceptionTypeCircuitBreaker.RemoveOutOfPeriodErrors` | Rebus.CircuitBreaker/CircuitBreaker/ExceptionTypeCircuitBreaker.cs:166-176 | removing the entries not in the given list one by one leaves exactly the recorded keys that are in it |
| `CircuitBreakerProperties.NewBreakerIsClosedAndEmpty` | Rebus.CircuitBreaker/CircuitBreaker/ExceptionTypeCircuitBreaker.cs:19-31 | a new breaker is Closed, has no recorded errors and counter 0, and meets the invariant |
| `CircuitBreakerProperties.EnterHalfOpenEffects` | Rebus.CircuitBreaker/CircuitBreaker/ExceptionTypeCircuitBreaker.cs:39-45 | entering HalfOpen from another state raises the counter by exactly one and stamps `now`; assigning HalfOpen while HalfOpen changes nothing |
| `CircuitBreakerProperties.EnterClosedAndOpenEffects` | Rebus.CircuitBreaker/CircuitBreaker/ExceptionTypeCircuitBreaker.cs:46-53 | entering Closed from another state zeroes the counter and keeps the stamp and the errors; assigning Closed while Closed or assigning Open changes only the state |
| `CircuitBreakerProperties.EnterPreservesInv` | Rebus.CircuitBreaker/CircuitBreaker/ExceptionTypeCircuitBreaker.cs:36-54 | the setter keeps the invariant: counter 0 while Closed and at least 1 while HalfOpen |
| `CircuitBreakerProperties.ClassificationRule` | Rebus.CircuitBreaker/CircuitBreaker/ExceptionTypeCircuitBreaker.cs:141-159 | classification raises iff the exception is an aggregate without inner exceptions; otherwise it matches iff the exact type is the guarded one, or the exception is an aggregate whose first inner exception has that type |
| `CircuitBreakerProperties.LaterInnerExceptionsIgnored` | Rebus.CircuitBreaker/CircuitBreaker/ExceptionTypeCircuitBreaker.cs:143-150 | inner exceptions after the first never affect classification |
| `CircuitBreakerProperties.SelectionBounds` | Rebus.CircuitBreaker/CircuitBreaker/ExceptionTypeCircuitBreaker.cs:73-76 | a selection has at most max(`Attempts`, 0) keys, all recorded and strictly after `now - TrackingPeriod`; it reaches `Attempts` iff the window holds that many |
| `CircuitBreakerProperties.TripOpensAtThreshold` | Rebus.CircuitBreaker/CircuitBreaker/ExceptionTypeCircuitBreaker.cs:78-90 | after a matching Trip the breaker is Open iff it was Open, or the selection reached `Attempts`, or the recovery edge fired; a window holding `Attempts` errors opens it; Trip never produces HalfOpen |
| `CircuitBreakerProperties.TripBelowThresholdStaysClosed` | Rebus.CircuitBreaker/CircuitBreaker/ExceptionTypeCircuitBreaker.cs:86-90 | a Closed breaker whose window holds fewer than `Attempts` errors stays Closed |
| `CircuitBreakerProperties.SingleAttemptOpens` | Rebus.CircuitBreaker/CircuitBreaker/ExceptionTypeCircuitBreaker.cs:70-90 | with `Attempts = 1` and a positive tracking period, one matching failure opens the breaker, whatever its state |
| `CircuitBreakerProperties.DuplicateTickAddsNoRecord` | Rebus.CircuitBreaker/CircuitBreaker/ExceptionTypeCircuitBreaker.cs:70-71 | a failure at an already recorded tick adds no record: selection and result are drawn from the old record set |
| `CircuitBreakerProperties.TripPruning` | Rebus.CircuitBreaker/CircuitBreaker/ExceptionTypeCircuitBreaker.cs:80-92 | the recovery edge opens and returns without pruning; on every other path the records afterwards are exactly the selection, at most max(`Attempts`, 0) keys, all strictly inside the window |
| `CircuitBreakerProperties.TripKeepsHalfOpenBookkeeping` | Rebus.CircuitBreaker/CircuitBreaker/ExceptionTypeCircuitBreaker.cs:63-95 | Trip never changes the counter or the HalfOpen entry time |
| `CircuitBreakerProperties.HalfOpenFailureReopens` | Rebus.CircuitBreaker/CircuitBreaker/ExceptionTypeCircuitBreaker.cs:161-164 | a failure while HalfOpen, when every earlier error has left the window, reopens the breaker without pruning |
| `CircuitBreakerProperties.TripPreservesInv` | Rebus.CircuitBreaker/CircuitBreaker/ExceptionTypeCircuitBreaker.cs:63-95 | Trip keeps the invariant; with `Attempts >= 1` and a positive tracking period it leaves at least one error on record |
| `CircuitBreakerProperties.ResetNoopCases` | Rebus.CircuitBreaker/CircuitBreaker/ExceptionTypeCircuitBreaker.cs:97-110 | Reset changes nothing on a Closed breaker or on one with no recorded error |
| `CircuitBreakerProperties.ResetNeverOpens` | Rebus.CircuitBreaker/CircuitBreaker/ExceptionTypeCircuitBreaker.cs:97-139 | Reset never produces Open and never modifies the recorded errors |
| `CircuitBreakerProperties.ResetFromOpen` | Rebus.CircuitBreaker/CircuitBreaker/ExceptionTypeCircuitBreaker.cs:112-117 | from Open, HalfOpen is entered only when `now` is strictly past the latest error plus provider(counter), with the counter read before the increment; the counter then rises by one and the entry is stamped `now`; the breaker stays Open, unchanged, iff neither that nor a WhileAnyState close applies |
| `CircuitBreakerProperties.ResetFromHalfOpen` | Rebus.CircuitBreaker/CircuitBreaker/ExceptionTypeCircuitBreaker.cs:119-138 | from HalfOpen, Reset closes iff the reset mode allows it (counter then 0) and otherwise changes nothing |
| `CircuitBreakerProperties.ResetClosingWhileAnyState` | Rebus.CircuitBreaker/CircuitBreaker/ExceptionTypeCircuitBreaker.cs:119-127 | under WhileAnyState a non-Closed breaker closes iff `now` is strictly past the latest error plus the close-reset interval, so one call can go from Open to Closed with counter 0 |
| `CircuitBreakerProperties.ResetClosingWhileHalfOpen` | Rebus.CircuitBreaker/CircuitBreaker/ExceptionTypeCircuitBreaker.cs:128-137 | under WhileHalfOpen a HalfOpen breaker closes iff `now` is strictly past the later of the latest error and the entry time, plus the interval; an Open breaker closes only by entering HalfOpen in the same call, which needs a negative interval |
| `CircuitBreakerProperties.WhileHalfOpenNeverClosesFromOpen` | Rebus.CircuitBreaker/CircuitBreaker/ResetMode.cs:14-15 | under WhileHalfOpen with a non-negative interval, Reset never closes an Open breaker |
| `CircuitBreakerProperties.ResetPreservesInv` | Rebus.CircuitBreaker/CircuitBreaker/ExceptionTypeCircuitBreaker.cs:97-139 | Reset keeps the invariant |
| `CircuitBreakerProperties.LatestExistsUnlessClosed` | Rebus.CircuitBreaker/CircuitBreaker/ExceptionTypeCircuitBreaker.cs:104-110 | with the invariant, `Attempts >= 1` and a positive tracking period, a breaker that is not Closed has a latest error |
| `CircuitBreakerProperties.CounterRestartsAfterClose` | Rebus.CircuitBreaker/CircuitBreaker/ExceptionTypeCircuitBreaker.cs:46-53 | after Reset closes a breaker, a new opening Trip leaves the counter at 0, so the next half-open delay is provider(0) again |
| `CircuitBreakerRuns.ApplyPreservesInv` | Rebus.CircuitBreaker/CircuitBreaker/ExceptionTypeCircuitBreaker.cs:63-139 | every Trip or Reset call keeps the invariant |
| `CircuitBreakerRuns.RunPreservesInv` | Rebus.CircuitBreaker/CircuitBreaker/ExceptionTypeCircuitBreaker.cs:63-139 | every sequence of calls keeps the invariant |
| `CircuitBreakerRuns.ReachableBreakersKeepInv` | Rebus.CircuitBreaker/CircuitBreaker/ExceptionTypeCircuitBreaker.cs:22-139 | every breaker reachable from a new one has counter 0 while Closed and a positive counter while HalfOpen; with `Attempts >= 1` and a positive tracking period it has a recorded error whenever it is not Closed |
| `CircuitBreakerRuns.FailuresWithinPeriodOpen` | Rebus.CircuitBreaker/CircuitBreaker/ExceptionTypeCircuitBreaker.cs:70-92 | with `Attempts >= 1` and a positive tracking period, `Attempts` matching failures at distinct ticks inside one period take any Closed breaker (a new one in particular) to Open, whatever each call's enumeration selects |
| `CircuitBreakerRuns.SpacedFailuresStayClosed` | Rebus.CircuitBreaker/CircuitBreaker/ExceptionTypeCircuitBreaker.cs:70-92 | with `Attempts >= 2`, matching failures spaced at least one tracking period apart leave a Closed breaker Closed, when its earlier records are outside the first failure's window |
| `ResetGuard.GuardNeverFiresCounterexample` | Rebus.CircuitBreaker/CircuitBreaker/ExceptionTypeCircuitBreaker.cs:104-110 | with `Attempts = 0`, one failure leaves an Open breaker with no records; `Reset` as written then closes it at once, while the guarded `Reset` leaves it unchanged |
| `ResetGuard.GuardIrrelevantWhenReachable` | Rebus.CircuitBreaker/CircuitBreaker/ExceptionTypeCircuitBreaker.cs:104-110 | with `Attempts >= 1` and a positive tracking period, `Reset` as written and the guarded `Reset` agree on every reachable breaker |
| `CircuitBreakerScenarios.ScenarioOneFailureOpens` | Rebus.CircuitBreaker.Tests/CircuitBreaker/CircuitBreakerTests.cs:23-37 | with 1 attempt and a 10 s tracking period, one failure opens a new breaker |
| `CircuitBreakerScenarios.ScenarioWhileAnyState` | Rebus.CircuitBreaker.Tests/CircuitBreaker/CircuitBreakerTests.cs:43-74 | with 20 s half-open and 30 s close intervals under WhileAnyState, the breaker stays Open up to 20 s after the failure and is HalfOpen (counter 1) after that. More than 30 s after the failure it is Closed (counter 0), whether it was HalfOpen or still Open |
| `CircuitBreakerScenarios.ScenarioFailureWhileHalfOpen` | Rebus.CircuitBreaker.Tests/CircuitBreaker/CircuitBreakerTests.cs:79-116 | open, then HalfOpen after 20 s; the next failure reopens it, counter still 1, both errors kept |
| `CircuitBreakerScenarios.ScenarioWhileHalfOpen` | Rebus.CircuitBreaker.Tests/CircuitBreaker/CircuitBreakerTests.cs:249-318 | under WhileHalfOpen with 8 s intervals the breaker stays Open for 8 s, turns HalfOpen (not Closed in the same call), stays HalfOpen for 8 s from that entry, then closes |
| `CircuitBreakerScenarios.ScenarioDynamicDelay` | Rebus.CircuitBreaker.Tests/CircuitBreaker/CircuitBreakerTests.cs:119-190 | with the 4 s / 8 s alternating provider the first wait is provider(0); a failure while HalfOpen keeps the counter at 1; the next wait is provider(1) = 8 s, after which the counter is 2 |

## Left out

- Concurrency. The model is sequential. It leaves out the `ConcurrentDictionary`, racing `Trip` and `Reset` calls, and the `async Task` wrappers.
- The clock. Each call takes one reading `now`. The source reads `rebusTime.Now` again inside the setter and in the WhileHalfOpen test; the model treats those as the same reading.
- `DateTimeOffset` offsets. `Trip` keys errors by local ticks, while `Reset` compares offset-aware values. The model assumes a constant offset, so there is one integer timeline.
- Range exceptions of `DateTimeOffset` and `TimeSpan` are not modelled. These are the ones raised by adding a negative interval to `DateTimeOffset.MinValue` or by going past `MaxValue`.
- Integer widths. Attempt counts, seconds and the half-open counter are unbounded integers. The wrap-around of the 32-bit counter after 2^31 HalfOpen entries is not modelled.
- Exception reflection. Types are opaque tags compared for equality, with no subtype matching. Any subclass of `AggregateException` is an `Aggregate` value carrying its own type tag.
- Null arguments. The `ArgumentNullException` checks of the constructor are not modelled, and neither is the `NullReferenceException` that `Trip(null)` raises at ExceptionTypeCircuitBreaker.cs:153, because Dafny values cannot be null.
- The host. The model fires no state-change notification, because none is fired in this file. The dependency-injection registration in CircuitBreakerConfigurationExtensions.cs is not part of this model.
- The enum `CircuitBreakerState` is modelled by the datatype of the same name, with its three members Closed, Open and HalfOpen; the file declaring it is not part of this model. The constructor's `State = Closed` leaves the counter at 0 whichever member is the enum's default, so the model starts the breaker Closed directly.
- The half-open provider is a pure function of the attempt count. Side effects of a provider, such as the test's recording of its argument, are not modelled.
- `CircuitBreakerImpl.ExceptionTypeCircuitBreaker.Reset` implements the corrected guard of the Findings row: it returns when no error is recorded. The code never returns there (ExceptionTypeCircuitBreaker.cs:109), so the two differ on a non-Closed breaker with no record, reachable only with `Attempts <= 0` or a non-positive tracking period; the code's behaviour there is `ResetGuard.ResetAsWritten`.
- `CircuitBreakerImpl.ExceptionTypeCircuitBreaker.Trip` also returns the enumeration's selection, as a ghost output. This lets its contract name the subset that the unordered dictionary yields.

## Findings

| source | as written | input that shows it | evidently intended | confidence | as-written member | corrected member |
|---|---|---|---|---|---|---|
| Rebus.CircuitBreaker/CircuitBreaker/ExceptionTypeCircuitBreaker.cs:109 | the "no error recorded" guard compares a `KeyValuePair<long, DateTimeOffset>` with `default(KeyValuePair<int, DateTimeOffset>)`, which is never equal. With no records, `Reset` goes on with `DateTimeOffset.MinValue` as the latest error | `Attempts = 0`: a failure opens the breaker and prunes every record. The next `Reset` treats year 1 as the latest error and closes the breaker | `Reset` leaves a breaker with no recorded error unchanged | medium; not executed | `ResetGuard.ResetAsWritten`, shown by `ResetGuard.GuardNeverFiresCounterexample` | `CircuitBreakerModel.ResetStep`, proved by `CircuitBreakerProperties.ResetNoopCases` and `ResetGuard.GuardIrrelevantWhenReachable` |
