/**
  The user-tunable durations (StickySettings.kt): four whole numbers in the
  units the user picks (seconds, or minutes for the max active window), each
  exposed to the timer engine in milliseconds.

  Kotlin widens each `Int` to `Long` before multiplying, and a 32-bit value
  times 60000 fits in 64 bits, so the unbounded products here are exact.
 */
module StickySettings {

  const DefaultSessionDurationSec: int := 5 * 60
  const DefaultFadeDurationSec: int := 10
  const DefaultReengagementWindowSec: int := 30
  const DefaultMaxActiveWindowMin: int := 90

  const MsPerSecond: int := 1000
  const MsPerMinute: int := 60_000

  datatype Settings = Settings(
    sessionDurationSec: int,
    fadeDurationSec: int,
    reengagementWindowSec: int,
    maxActiveWindowMin: int)
  {
    /** Session length in ms: a whole number of seconds, the configured one. */
    function SessionDurationMs(): (r: int)
      ensures r % MsPerSecond == 0 && r / MsPerSecond == sessionDurationSec
    {
      sessionDurationSec * MsPerSecond
    }

    /**
      Fade length in ms. It is positive exactly when the fade setting is,
      which is what selects `fadeAndPause` over `pauseNow`.
     */
    function FadeDurationMs(): (r: int)
      ensures r % MsPerSecond == 0 && r / MsPerSecond == fadeDurationSec
      ensures r > 0 <==> fadeDurationSec > 0
      ensures r == 0 <==> fadeDurationSec == 0
    {
      fadeDurationSec * MsPerSecond
    }

    /** Re-engagement window in ms. */
    function ReengagementWindowMs(): (r: int)
      ensures r % MsPerSecond == 0 && r / MsPerSecond == reengagementWindowSec
    {
      reengagementWindowSec * MsPerSecond
    }

    /** Max active window in ms: the configured number of whole minutes. */
    function MaxActiveWindowMs(): (r: int)
      ensures r % MsPerMinute == 0 && r / MsPerMinute == maxActiveWindowMin
      ensures r > 0 <==> maxActiveWindowMin > 0
    {
      maxActiveWindowMin * MsPerMinute
    }
  }

  /** `StickySettings()` with every argument defaulted. */
  const Default: Settings := Settings(
    DefaultSessionDurationSec,
    DefaultFadeDurationSec,
    DefaultReengagementWindowSec,
    DefaultMaxActiveWindowMin)

  /** The defaults are 5 min / 10 s / 30 s / 90 min, in milliseconds. */
  lemma DefaultDurationsMs()
    ensures Default.SessionDurationMs() == 300_000
    ensures Default.FadeDurationMs() == 10_000
    ensures Default.ReengagementWindowMs() == 30_000
    ensures Default.MaxActiveWindowMs() == 5_400_000
  {
  }
}
