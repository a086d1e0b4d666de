/**
  The vocabulary the timer engine shares with its observers and its action
  sink: the phase enum (StickyPhase.kt), the playback enum
  (StickyPlaybackState.kt), the published snapshot (StickyModeState.kt),
  the three callbacks (StickyEngineCallbacks.kt) and the disable reasons.
 */
module StickyTypes {

  datatype Phase = Off | OnIdle | SessionRunning | Fading | StoppedRecently | Expired

  datatype PlaybackState = Playing | Paused | Stopped | Buffering | Unknown

  /** What observers see of the engine; one is published per state change. */
  datatype Snapshot = Snapshot(
    isEnabled: bool,
    phase: Phase,
    remainingSessionMs: int,
    maxWindowRemainingMs: int)

  /** `StickyModeSnapshot.off()`: the value published before anything happens. */
  const OffSnapshot: Snapshot := Snapshot(false, Off, 0, 0)

  /** The action sink the engine drives; it never reads their outcome. */
  datatype Callback = FadeAndPause(fadeDurationMs: int) | PauseNow | OnDisabled

  /** Why `disable` was called; informational only. */
  datatype DisableReason = ManualStop | MaxWindowExpired
}
