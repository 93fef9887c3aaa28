/** The immutable settings bundle of a circuit breaker (CircuitBreakerSettings.cs).
    Durations are TimeSpan ticks: 10,000,000 per second. */
module Config {
  import opened ResetModes

  const TicksPerSecond: int := 10_000_000

  const DefaultAttempts: int := 5
  const DefaultTrackingPeriodInSeconds: int := 30
  const DefaultHalfOpenResetInterval: int := 150
  const DefaultCloseResetInterval: int := 300

  /** A settings value. Its fields are fixed when it is built: the source gives
      every property a private setter assigned only by the constructor. */
  datatype Settings = Settings(
    attempts: int,
    trackingPeriod: int,
    halfOpenResetIntervalProvider: int -> int,
    closeResetInterval: int,
    resetMode: ResetMode)

  /** TimeSpan.FromSeconds on a whole number of seconds: an exact tick count. */
  function FromSeconds(seconds: int): (ticks: int)
    ensures ticks / TicksPerSecond == seconds && ticks % TicksPerSecond == 0
  {
    seconds * TicksPerSecond
  }

  /** A tick count read back in whole seconds (floor division). It only serves to
      state results in the configured unit; the source never converts back. */
  function ToSeconds(ticks: int): int
  {
    ticks / TicksPerSecond
  }

  /** Converting seconds keeps their order, so comparisons may be made in either unit. */
  lemma FromSecondsMonotone(a: int, b: int)
    ensures a < b <==> FromSeconds(a) < FromSeconds(b)
  {
  }

  /** The constructor taking a half-open interval provider. No argument is validated. */
  function NewSettings(attempts: int, trackingPeriodInSeconds: int,
                       halfOpenResetIntervalProvider: int -> int,
                       closedResetIntervalInSeconds: int,
                       resetMode: ResetMode := WhileAnyState): Settings
  {
    Settings(attempts, FromSeconds(trackingPeriodInSeconds), halfOpenResetIntervalProvider,
             FromSeconds(closedResetIntervalInSeconds), resetMode)
  }

  /** The constructor taking a fixed half-open interval in seconds: it delegates to
      NewSettings with a provider that ignores the attempt count. */
  function NewFixedSettings(attempts: int, trackingPeriodInSeconds: int,
                            halfOpenResetInterval: int, closedResetIntervalInSeconds: int,
                            resetMode: ResetMode := WhileAnyState): Settings
  {
    NewSettings(attempts, trackingPeriodInSeconds, _ => FromSeconds(halfOpenResetInterval),
                closedResetIntervalInSeconds, resetMode)
  }

  /** The settings built from the default constants. */
  function DefaultSettings(): Settings
  {
    NewFixedSettings(DefaultAttempts, DefaultTrackingPeriodInSeconds,
                     DefaultHalfOpenResetInterval, DefaultCloseResetInterval)
  }

  /** The constructor stores the given values, converting whole seconds into
      durations, and accepts any integers. */
  lemma NewSettingsStoresArguments(attempts: int, trackingPeriodInSeconds: int,
                                   provider: int -> int, closedResetIntervalInSeconds: int,
                                   resetMode: ResetMode)
    ensures var s := NewSettings(attempts, trackingPeriodInSeconds, provider,
                                 closedResetIntervalInSeconds, resetMode);
            && s.attempts == attempts
            && ToSeconds(s.trackingPeriod) == trackingPeriodInSeconds
            && s.trackingPeriod % TicksPerSecond == 0
            && ToSeconds(s.closeResetInterval) == closedResetIntervalInSeconds
            && s.closeResetInterval % TicksPerSecond == 0
            && (forall n :: s.halfOpenResetIntervalProvider(n) == provider(n))
            && s.resetMode == resetMode
  {
  }

  /** Omitting the reset mode selects WhileAnyState, for both constructors. */
  lemma ResetModeDefaultsToWhileAnyState(attempts: int, trackingPeriodInSeconds: int,
                                         provider: int -> int, halfOpenResetInterval: int,
                                         closedResetIntervalInSeconds: int)
    ensures NewSettings(attempts, trackingPeriodInSeconds, provider,
                        closedResetIntervalInSeconds).resetMode == WhileAnyState
    ensures NewFixedSettings(attempts, trackingPeriodInSeconds, halfOpenResetInterval,
                             closedResetIntervalInSeconds).resetMode == WhileAnyState
  {
  }

  /** The fixed-interval constructor yields a provider that returns the same
      duration, the given whole seconds, whatever the attempt count. */
  lemma FixedProviderIsConstant(attempts: int, trackingPeriodInSeconds: int,
                                halfOpenResetInterval: int, closedResetIntervalInSeconds: int,
                                resetMode: ResetMode, n: int, m: int)
    ensures var s := NewFixedSettings(attempts, trackingPeriodInSeconds, halfOpenResetInterval,
                                      closedResetIntervalInSeconds, resetMode);
            && s.halfOpenResetIntervalProvider(n) == s.halfOpenResetIntervalProvider(m)
            && ToSeconds(s.halfOpenResetIntervalProvider(n)) == halfOpenResetInterval
  {
  }

  /** The defaults: 5 attempts, a 30 s tracking period, a 150 s half-open interval
      whatever the attempt count, a 300 s close-reset interval and WhileAnyState. */
  lemma DefaultSettingsValues(n: int)
    ensures DefaultSettings().attempts == 5
    ensures DefaultSettings().trackingPeriod == 300_000_000
    ensures DefaultSettings().halfOpenResetIntervalProvider(n) == 1_500_000_000
    ensures DefaultSettings().closeResetInterval == 3_000_000_000
    ensures DefaultSettings().resetMode == WhileAnyState
  {
  }
}
