# Sticky timer: a Dafny model

Sticky mode is a sleep timer for music. While it is on, it watches the active
media session. When playback has been stable for 1.5 s, a session of
`sessionDurationSec` starts. When the session runs out, the music is faded
over `fadeDurationSec` and paused. If playback resumes within
`reengagementWindowSec` of that stop, the next session starts at once.
Otherwise it waits out the debounce again. The first armed session anchors a
hard deadline `maxActiveWindowMin` later. At that deadline the mode pauses
the music and switches itself off.

The project models the following parts of the app:

- **The engine** (`StickyTimerEngine`): `timer_engine.dfy`, with its
  properties in `engine_properties.dfy` and the engine's unit-test scenarios
  in `engine_scenarios.dfy`.
  - The engine is a pure transition `Step(engine, event, now, settings)`. It
    returns the next engine and the outputs of that turn, in order: the
    published snapshots and the callbacks (`fadeAndPause`, `pauseNow`,
    `onDisabled`).
  - A step is one mutex-protected block of the source, or a block together
    with the block the same coroutine runs straight after it (see "Left
    out").
  - The four coroutine jobs (debounce, session, max window, ticker) are
    optional due-times. Launching a job replaces its slot and cancelling
    it empties the slot. The job's body runs as a `…Fired` event, which
    does nothing unless the slot holds a due-time the clock has reached,
    as the job's `delay` guarantees.
  - `handleSessionExpiry` is two events: `SessionFired` (the first locked
    block and the pause callback) and `FadeDone` (the second block, once
    the callback has returned). `handleMaxWindowExpiry` is split the same
    way: `MaxWindowFired` (its locked block and the pause callback) and
    `Disable(MaxWindowExpired)` (its closing `disableInternal`). In between
    the engine stays enabled in EXPIRED.
  - `Run` folds `Step` over a serialized sequence of inputs.
- **The settings** (`StickySettings`, `StickySettingsRepository`):
  `sticky_settings.dfy` and `settings_repository.dfy`. The DataStore is a
  map from keys to values. Every `update*` clamps its value with
  `coerceIn`, and every read falls back to the defaults.
- **The media controller's pure logic** (`ActiveMediaSessionController`):
  `media_controller.dfy`.
  - The platform-code mapping, controller selection and the
    active-controller update.
  - The fade ramp, as the sequence of volume sets, waits and the pause it
    issues against a modelled mixer.
- **The foreground service** (`StickyForegroundService`):
  `foreground_service.dfy`. It models the countdown text, the status line,
  and the start/stop latch driven by snapshots and start commands.
- **The settings screen** (`StickySettingsScreen`): `settings_screen.dfy`.
  It models the duration labels, the slider tick counts, the max-window
  minutes/seconds conversion, how the slider ranges sit against the
  repository's clamps, and the phase labels.
- **Kotlin semantics** the model needs: `kotlin_math.dfy` (truncating `/`
  and `%`, `coerceIn`, `coerceAtLeast`), `text.dfy` (decimal digits,
  `Int.toString`, `%02d`) and `options.dfy`.

Three facts about the code that are easy to get wrong:

- `sessionEndMs` is not cleared when a session expires. It stays set
  through FADING until the fade completes (`StickyTimerEngine.kt` 164-170).
  `EngineProperties.SessionExpiryRequestsOnePause` states that it is kept.
- Re-arming a session does not clear `lastStoppedAtMs`
  (`armSessionNow`, 127-144). `EngineProperties.PlayingInsideWindowArmsAtOnce`
  states that it is kept.
- The session slider starts at 10 s, but the repository raises anything
  below 60 s to 60 s:
  `SettingsScreen.SessionSliderBelowClamp` states which stops are stored
  as 60 s.

## Model

| member | source | states |
|---|---|---|
| `KotlinMath.Rem` | app/src/main/java/com/stickytimer/app/feature/sticky/StickyForegroundService.kt:133-135 | Kotlin's remainder takes the sign of the dividend, is smaller than the divisor in size, and completes the truncated quotient |
| `KotlinMath.CoerceIn` | app/src/main/java/com/stickytimer/app/core/settings/StickySettingsRepository.kt:31-45 | `coerceIn` lands in the range, keeps in-range values and sends values outside it to the nearer bound |
| `KotlinMath.CoerceInIdempotent` | app/src/main/java/com/stickytimer/app/core/settings/StickySettingsRepository.kt:31-45 | clamping a clamped value changes nothing |
| `StickySettings.DefaultDurationsMs` | app/src/main/java/com/stickytimer/app/core/settings/StickySettings.kt:9-18 | the defaults are 300 000 ms of session, 10 000 ms of fade, 30 000 ms of window, 5 400 000 ms of max window |
| `SettingsRepository.Update` | app/src/main/java/com/stickytimer/app/core/settings/StickySettingsRepository.kt:31-45 | an update stores the clamped value under its key (session 60..1800 s, fade 0..60 s, re-engagement 5..180 s, max window 15..300 min), and leaves every other key and the mode flag alone |
| `SettingsRepository.SetLastModeEnabled` | app/src/main/java/com/stickytimer/app/core/settings/StickySettingsRepository.kt:47-49 | storing the mode flag reads back as that flag and leaves the durations alone |
| `SettingsRepository.ReadSettings` | app/src/main/java/com/stickytimer/app/core/settings/StickySettingsRepository.kt:18-25 | every field of the settings read is the stored value under its key, or the default when the key was never written |
| `SettingsRepository.EmptyStoreReadsDefaults` | app/src/main/java/com/stickytimer/app/core/settings/StickySettingsRepository.kt:18-29 | a store never written reads as `StickySettings()` and as mode off |
| `SettingsRepository.ReadAfterUpdate` | app/src/main/java/com/stickytimer/app/core/settings/StickySettingsRepository.kt:18-45 | after an update the settings read show the clamped value in that field and the old values in the others |
| `SettingsRepository.DefaultsInRange` | app/src/main/java/com/stickytimer/app/core/settings/StickySettings.kt:3-7 | every default lies inside the range its update enforces |
| `SettingsRepository.UpdatesKeepInRange` | app/src/main/java/com/stickytimer/app/core/settings/StickySettingsRepository.kt:31-49 | once every stored value is in range, every update keeps it so, and so every settings read is in range |
| `SettingsRepository.UpdateIdempotent` | app/src/main/java/com/stickytimer/app/core/settings/StickySettingsRepository.kt:31-45 | writing the same value twice is writing it once |
| `TimerEngine.Schedule` | app/src/main/java/com/stickytimer/app/core/timer/StickyTimerEngine.kt:146-160 | a job launched at `now` with a delay comes due no earlier than `now`, exactly the delay later when it is non-negative |
| `TimerEngine.Remaining` | app/src/main/java/com/stickytimer/app/core/timer/StickyTimerEngine.kt:260-270 | the countdown is never negative, is zero exactly when there is no deadline or it has passed, and otherwise reaches the deadline |
| `TimerEngine.SnapshotOf` | app/src/main/java/com/stickytimer/app/core/timer/StickyTimerEngine.kt:260-270 | the published snapshot carries the engine's enabled flag and phase and the clamped time left to each deadline |
| `TimerEngine.PauseCallback` | app/src/main/java/com/stickytimer/app/core/timer/StickyTimerEngine.kt:173-177 | the sink is asked to fade exactly when the fade length is positive (with that length), and to pause at once otherwise |
| `EngineProperties.InitialValid` | app/src/main/java/com/stickytimer/app/core/timer/StickyTimerEngine.kt:31-41 | a new engine is disabled, OFF, with no jobs, and publishes the OFF snapshot |
| `EngineProperties.StepPreservesValid` | app/src/main/java/com/stickytimer/app/core/timer/StickyTimerEngine.kt:15-271 | every event keeps the engine invariant: OFF exactly when disabled, the ticker pending exactly while enabled, the published snapshot agreeing with the engine, a disabled engine equal to a new one, a running session with a deadline, a pending max-window job with an anchored deadline |
| `EngineProperties.RunPreservesValid` | app/src/main/java/com/stickytimer/app/core/timer/StickyTimerEngine.kt:15-271 | the invariant holds after any serialized sequence of events |
| `EngineProperties.OffExactlyWhenDisabled` | app/src/main/java/com/stickytimer/app/core/timer/StickyModeState.kt:10-24 | from construction on, the engine and its published snapshot are OFF exactly when disabled |
| `EngineProperties.StepSnapshots` | app/src/main/java/com/stickytimer/app/core/timer/StickyTimerEngine.kt:260-270 | every snapshot an event publishes is coherent, and the last one is the engine's new published state |
| `EngineProperties.RunSnapshotsCoherent` | app/src/main/java/com/stickytimer/app/core/timer/StickyTimerEngine.kt:260-270 | over any run, observers only ever see snapshots that are OFF exactly when disabled with no negative countdown |
| `EngineProperties.EnableFromOff` | app/src/main/java/com/stickytimer/app/core/timer/StickyTimerEngine.kt:43-58 | enabling a disabled engine clears the playback state, stop time, both deadlines and every job, schedules the ticker one period out, and publishes ON_IDLE with no callback |
| `EngineProperties.EnableWhileEnabled` | app/src/main/java/com/stickytimer/app/core/timer/StickyTimerEngine.kt:43-46 | enabling an enabled engine changes nothing and outputs nothing |
| `EngineProperties.DisableResets` | app/src/main/java/com/stickytimer/app/core/timer/StickyTimerEngine.kt:214-229 | disabling an enabled engine returns it to the new-engine state, publishes OFF and calls `onDisabled` once |
| `EngineProperties.DisableWhenOff` | app/src/main/java/com/stickytimer/app/core/timer/StickyTimerEngine.kt:214-216 | disabling a disabled engine changes nothing and outputs nothing |
| `EngineProperties.DisableTwice` | app/src/main/java/com/stickytimer/app/core/timer/StickyTimerEngine.kt:60-62 | two disables in a row call `onDisabled` at most once and publish at most one snapshot |
| `EngineProperties.PlaybackIgnoredWhenDisabled` | app/src/main/java/com/stickytimer/app/core/timer/StickyTimerEngine.kt:64-72 | playback updates are ignored while disabled |
| `EngineProperties.PlaybackPastMaxWindow` | app/src/main/java/com/stickytimer/app/core/timer/StickyTimerEngine.kt:73-80 | a playback update at or past the max-window deadline records the state and runs max-window expiry whatever the phase, EXPIRED included: it publishes EXPIRED and requests a pause exactly when the new state is PLAYING, so a PLAYING during the expiry's own pause asks for a second one |
| `EngineProperties.NonPlayingCancelsDebounce` | app/src/main/java/com/stickytimer/app/core/timer/StickyTimerEngine.kt:99-107 | a non-PLAYING state is recorded and cancels the pending debounce, and nothing else changes |
| `EngineProperties.PlayingIgnoredWhenActiveOrRepeated` | app/src/main/java/com/stickytimer/app/core/timer/StickyTimerEngine.kt:82-89 | PLAYING during a session or a fade, or PLAYING repeated, is only recorded |
| `EngineProperties.NoStopNoWindow` | app/src/main/java/com/stickytimer/app/core/timer/StickyTimerEngine.kt:255-258 | without a recorded stop there is no re-engagement window |
| `EngineProperties.PlayingInsideWindowArmsAtOnce` | app/src/main/java/com/stickytimer/app/core/timer/StickyTimerEngine.kt:90-109 | a fresh PLAYING within the window after a stop cancels the debounce, keeps the recorded stop, and starts a full session at once exactly when the max window is anchored or positive |
| `EngineProperties.PlayingOutsideWindowDebounces` | app/src/main/java/com/stickytimer/app/core/timer/StickyTimerEngine.kt:94-125 | a fresh PLAYING outside the window only schedules the debounce 1500 ms out |
| `EngineProperties.DebounceNeedsPlaying` | app/src/main/java/com/stickytimer/app/core/timer/StickyTimerEngine.kt:127-129 | the debounce job does nothing unless the engine is enabled and still playing |
| `EngineProperties.DebounceArmsSession` | app/src/main/java/com/stickytimer/app/core/timer/StickyTimerEngine.kt:127-144 | a debounce that finds playback stable anchors the max window only if unanchored, and starts a session of the configured length exactly when that anchor lies ahead |
| `EngineProperties.AnchorStaysPut` | app/src/main/java/com/stickytimer/app/core/timer/StickyTimerEngine.kt:133-137 | an anchored max-window deadline is never moved by any event, and is cleared only by a turn that calls `onDisabled` |
| `EngineProperties.AnchorFixedUntilDisabled` | app/src/main/java/com/stickytimer/app/core/timer/StickyTimerEngine.kt:133-137 | across any run the anchored deadline stays put until a disable |
| `EngineProperties.AnchorIsArmTimePlusWindow` | app/src/main/java/com/stickytimer/app/core/timer/StickyTimerEngine.kt:133-135 | the first anchoring of an enabled lifetime sets the deadline `maxActiveWindowMs` after the time of arming |
| `EngineProperties.SessionExpiryRequestsOnePause` | app/src/main/java/com/stickytimer/app/core/timer/StickyTimerEngine.kt:162-177 | session expiry moves to FADING, keeps the session deadline, and asks for exactly one pause with the configured fade |
| `EngineProperties.SessionExpiryIgnoredUnlessRunning` | app/src/main/java/com/stickytimer/app/core/timer/StickyTimerEngine.kt:164-166 | the session job does nothing unless a session is running |
| `EngineProperties.FadeDoneRecordsStop` | app/src/main/java/com/stickytimer/app/core/timer/StickyTimerEngine.kt:180-188 | after the fade, the stop time is recorded, the session is cleared and STOPPED_RECENTLY published |
| `EngineProperties.FadeDoneChainsIntoExpiry` | app/src/main/java/com/stickytimer/app/core/timer/StickyTimerEngine.kt:187-201 | when the max window ran out meanwhile, the end of the fade publishes STOPPED_RECENTLY then EXPIRED and, playback being PAUSED by then, requests no second pause |
| `EngineProperties.FadeDoneIgnoredWhenDisabled` | app/src/main/java/com/stickytimer/app/core/timer/StickyTimerEngine.kt:180-181 | the end of a fade is ignored once the mode is disabled |
| `EngineProperties.MaxWindowExpiryPublishesExpired` | app/src/main/java/com/stickytimer/app/core/timer/StickyTimerEngine.kt:195-210 | the max-window job publishes EXPIRED while still enabled and requests a pause exactly when playback is PLAYING; deadlines, playback state and the other jobs, the ticker included, are kept until the disable that follows |
| `EngineProperties.MaxWindowExpiryShutsDown` | app/src/main/java/com/stickytimer/app/core/timer/StickyTimerEngine.kt:195-229 | the whole max-window job, expiry then its `disableInternal`: EXPIRED then OFF are published, a pause (faded when configured) is requested exactly when playback is PLAYING, `onDisabled` is called once last, and a new engine is left |
| `EngineProperties.JobFiresOnlyWhenDue` | app/src/main/java/com/stickytimer/app/core/timer/StickyTimerEngine.kt:119-160 | a job's firing (debounce, session, max window, ticker) has an effect exactly when its job is pending and its `delay` has run out; a cancelled job or one not yet due changes nothing and outputs nothing |
| `EngineProperties.DebounceWaitsFullDelay` | app/src/main/java/com/stickytimer/app/core/timer/StickyTimerEngine.kt:94-144 | after a fresh PLAYING outside the re-engagement window, the debounce job starts a session exactly when the full 1500 ms have passed and the max window still lies ahead |
| `EngineProperties.SessionRunsFullDuration` | app/src/main/java/com/stickytimer/app/core/timer/StickyTimerEngine.kt:139-177 | a session the debounce job arms expires, and asks for its pause, exactly once `sessionDurationMs` has passed since arming |
| `EngineProperties.TickOnlyRepublishes` | app/src/main/java/com/stickytimer/app/core/timer/StickyTimerEngine.kt:242-253 | a tick changes nothing but its own due-time and republishes the current snapshot |
| `EngineScenarios.RunAppend` | app/src/main/java/com/stickytimer/app/core/timer/StickyTimerEngine.kt:15-271 | running two event sequences one after the other is running their concatenation |
| `EngineScenarios.ArmingRunsSession` | app/src/main/java/com/stickytimer/app/core/timer/StickyTimerEngine.kt:43-160 | enable, PLAYING and the debounce 1500 ms later leave a session running with the max window anchored at the debounce time |
| `EngineScenarios.FirstResumeAnchorsMaxWindow` | app/src/test/java/com/stickytimer/app/core/timer/StickyTimerEngineTest.kt:18-43 | the first resume publishes SESSION_RUNNING with a full 90-minute max window |
| `EngineScenarios.SessionExpiryTriggersFadeAndPause` | app/src/test/java/com/stickytimer/app/core/timer/StickyTimerEngineTest.kt:45-71 | session expiry requests one 5 s fade and pause and settles in STOPPED_RECENTLY |
| `EngineScenarios.FirstStopState` | app/src/test/java/com/stickytimer/app/core/timer/StickyTimerEngineTest.kt:73-90 | after a 5 s session without a fade, the engine is enabled, STOPPED_RECENTLY, PAUSED, with the stop recorded at 6500 ms and the max window still anchored at the first arming |
| `EngineScenarios.ResumeInsideWindowImmediateOutsideDebounced` | app/src/test/java/com/stickytimer/app/core/timer/StickyTimerEngineTest.kt:73-110 | resuming inside the window re-arms at once; resuming after the window has passed waits out the debounce |
| `EngineScenarios.MaxWindowExpiryWhilePlayingDisablesMode` | app/src/test/java/com/stickytimer/app/core/timer/StickyTimerEngineTest.kt:112-139 | the one-minute max window, reached while playing, publishes EXPIRED, requests one 3 s fade, calls `onDisabled` and publishes OFF |
| `MediaController.MapPlaybackState` | app/src/main/java/com/stickytimer/app/core/media/ActiveMediaSessionController.kt:164-176 | PLAYING, PAUSED and STOPPED map to their own states, the four transitional codes to BUFFERING, and every other code or no state to UNKNOWN (each direction) |
| `MediaController.FirstPlaying` | app/src/main/java/com/stickytimer/app/core/media/ActiveMediaSessionController.kt:151 | the first controller in the list that is playing, and none exactly when none plays |
| `MediaController.LatestUpdated` | app/src/main/java/com/stickytimer/app/core/media/ActiveMediaSessionController.kt:152 | `maxByOrNull` as a fold that replaces only on a strictly greater key: the latest update time, the earliest of ties, none only for an empty list |
| `MediaController.MaxByUpdateTime` | app/src/main/java/com/stickytimer/app/core/media/ActiveMediaSessionController.kt:152 | the loop computes the same index as the fold `LatestUpdated`: a controller with the latest update time (0 without state), the first such, and none only for an empty list |
| `MediaController.Selection` | app/src/main/java/com/stickytimer/app/core/media/ActiveMediaSessionController.kt:150-153 | the first playing controller when any plays; otherwise the most recently updated, earliest on ties; none only for an empty list |
| `MediaController.SelectionUnique` | app/src/main/java/com/stickytimer/app/core/media/ActiveMediaSessionController.kt:150-153 | those promises pin the selection down: any index that keeps them is the one `Selection` picks |
| `MediaController.SelectController` | app/src/main/java/com/stickytimer/app/core/media/ActiveMediaSessionController.kt:150-153 | `firstOrNull` then `maxByOrNull` picks exactly the reference selection `Selection`, and so keeps its promises |
| `MediaController.UpdateActiveController` | app/src/main/java/com/stickytimer/app/core/media/ActiveMediaSessionController.kt:139-148 | the followed controller becomes the selected one, unless the selection has the followed session's token (both none counts as equal), in which case it is kept and nothing is reported; a change reports the new controller's mapped state at once, UNKNOWN when the list is empty and PLAYING whenever any controller plays |
| `MediaController.RampSteps` | app/src/main/java/com/stickytimer/app/core/media/ActiveMediaSessionController.kt:114 | a fade of positive length has one step per whole 250 ms: a single step below 500 ms, 20 steps from 5 s on, never more steps than milliseconds |
| `MediaController.StepDelay` | app/src/main/java/com/stickytimer/app/core/media/ActiveMediaSessionController.kt:115 | the delay between steps is at least 1 ms and the steps together fit the fade, short of it by less than one delay per step |
| `MediaController.RampFitsInFade` | app/src/main/java/com/stickytimer/app/core/media/ActiveMediaSessionController.kt:114-115 | the ramp sleeps no longer than the fade in total |
| `MediaController.RampTargetFacts` | app/src/main/java/com/stickytimer/app/core/media/ActiveMediaSessionController.kt:117 | each step's volume lies between the stream minimum and the starting volume, starts at the latter, and falls as the steps count down |
| `MediaController.RampTargets` | app/src/main/java/com/stickytimer/app/core/media/ActiveMediaSessionController.kt:116-120 | the loop sets one volume per step, starting at the current volume, never above it nor below the minimum, falling monotonically |
| `MediaController.RestoreVolumeIfNeeded` | app/src/main/java/com/stickytimer/app/core/media/ActiveMediaSessionController.kt:130-137 | the saved volume, if any, is set back and forgotten; without one nothing happens |
| `MediaController.RestoreIdempotent` | app/src/main/java/com/stickytimer/app/core/media/ActiveMediaSessionController.kt:130-137 | restoring twice is restoring once, and the restore's actions put the mixer in the restored state |
| `MediaController.Ramp` | app/src/main/java/com/stickytimer/app/core/media/ActiveMediaSessionController.kt:108-124 | above the minimum the fade sets the ramp's volumes and waits one step delay each; at or below it, it only waits the fade length; it never pauses |
| `MediaController.FadeAndPause` | app/src/main/java/com/stickytimer/app/core/media/ActiveMediaSessionController.kt:100-128 | the call always issues the pause request (`pauseWithRetry`, which does nothing without a followed controller) and ends with the volume before the fade restored and nothing saved; a non-positive fade issues it at once; a positive one ramps down between the saved volume and the minimum and sleeps no longer than the fade |
| `ForegroundService.RemainingSeconds` | app/src/main/java/com/stickytimer/app/feature/sticky/StickyForegroundService.kt:133 | whole seconds left, rounded up, with a negative remainder counting as none |
| `ForegroundService.ClockParts` | app/src/main/java/com/stickytimer/app/feature/sticky/StickyForegroundService.kt:134-135 | minutes and a seconds field below 60 that add back up to the total |
| `ForegroundService.FormatRemainingSessionRoundTrip` | app/src/main/java/com/stickytimer/app/feature/sticky/StickyForegroundService.kt:132-137 | the `m:ss` countdown reads back as exactly the rounded-up seconds left |
| `ForegroundService.FormatRemainingSessionInjective` | app/src/main/java/com/stickytimer/app/feature/sticky/StickyForegroundService.kt:132-137 | two remainders show the same countdown exactly when they round up to the same second |
| `ForegroundService.StatusText` | app/src/main/java/com/stickytimer/app/feature/sticky/StickyForegroundService.kt:118-130 | the running line with its countdown exactly in SESSION_RUNNING, the idle line exactly in OFF and ON_IDLE |
| `ForegroundService.StatusTextDistinguishesPhases` | app/src/main/java/com/stickytimer/app/feature/sticky/StickyForegroundService.kt:118-130 | apart from OFF and ON_IDLE sharing the idle line, distinct phases give distinct status lines |
| `ForegroundService.EnsureForeground` | app/src/main/java/com/stickytimer/app/feature/sticky/StickyForegroundService.kt:79-86 | the first call starts the foreground notification, every later one updates it |
| `ForegroundService.OnSnapshotReaction` | app/src/main/java/com/stickytimer/app/feature/sticky/StickyForegroundService.kt:40-51 | an enabled snapshot marks the mode as once enabled and shows the notification; a disabled one after an enable stops the service once; otherwise an existing notification is updated |
| `ForegroundService.SnapshotsStopAtMostOnce` | app/src/main/java/com/stickytimer/app/feature/sticky/StickyForegroundService.kt:40-51 | whatever snapshots arrive, the service stops itself at most once, and never after a stop was issued |
| `ForegroundService.DisableCommandSilencesSnapshots` | app/src/main/java/com/stickytimer/app/feature/sticky/StickyForegroundService.kt:66-72 | after an explicit disable or a stop from the notification, no later snapshot stops the service again |
| `ForegroundService.ForegroundStartedAtMostOnce` | app/src/main/java/com/stickytimer/app/feature/sticky/StickyForegroundService.kt:55-86 | over any mix of snapshots and commands, the foreground notification is started at most once |
| `ForegroundService.NoStopBeforeFirstEnable` | app/src/main/java/com/stickytimer/app/feature/sticky/StickyForegroundService.kt:44-47 | a disabled snapshot before the mode was ever enabled never stops the service |
| `SettingsScreen.DurationParts` | app/src/main/java/com/stickytimer/app/ui/settings/StickySettingsScreen.kt:230-232 | truncated minutes and seconds that add back up to the total, with zero seconds exactly for whole minutes |
| `SettingsScreen.FormatDuration` | app/src/main/java/com/stickytimer/app/ui/settings/StickySettingsScreen.kt:230-234 | the label ends in `m` exactly for whole minutes and in `s` otherwise |
| `SettingsScreen.FormatDurationRoundTrip` | app/src/main/java/com/stickytimer/app/ui/settings/StickySettingsScreen.kt:230-234 | every non-negative duration's label reads back as that duration |
| `SettingsScreen.SliderSteps` | app/src/main/java/com/stickytimer/app/ui/settings/StickySettingsScreen.kt:207 | a slider gets one tick fewer than the whole steps in its range, and never a negative count |
| `SettingsScreen.SliderStopsSpanRange` | app/src/main/java/com/stickytimer/app/ui/settings/StickySettingsScreen.kt:196-207 | every stop of a slider lies in its range, and the last stop is the upper end when the range is a whole number of steps |
| `SettingsScreen.ScreenSliderSteps` | app/src/main/java/com/stickytimer/app/ui/settings/StickySettingsScreen.kt:129-179 | the session, fade, re-engagement and max-window sliders get 357, 59, 34 and 56 ticks |
| `SettingsScreen.MaxWindowPersistedMinutes` | app/src/main/java/com/stickytimer/app/ui/settings/StickySettingsScreen.kt:176 | the minutes persisted for a slider position are its whole minutes, rounded down |
| `SettingsScreen.MaxWindowRoundTrip` | app/src/main/java/com/stickytimer/app/ui/settings/StickySettingsScreen.kt:170-176 | showing the stored minutes in seconds and persisting that position stores the same minutes |
| `SettingsScreen.MaxWindowStopsWithinClamp` | app/src/main/java/com/stickytimer/app/ui/settings/StickySettingsScreen.kt:168-179 | every stop of the max-window slider persists as a minute count the repository stores unchanged |
| `SettingsScreen.FadeAndReengagementStopsWithinClamp` | app/src/main/java/com/stickytimer/app/ui/settings/StickySettingsScreen.kt:142-166 | every stop of the fade and re-engagement sliders is stored unchanged |
| `SettingsScreen.SessionSliderBelowClamp` | app/src/main/java/com/stickytimer/app/ui/settings/StickySettingsScreen.kt:129-140 | the session slider's first ten stops (10 s to 55 s) are stored as 60 s, and every later stop is stored unchanged |
| `SettingsScreen.PhaseLabelBijective` | app/src/main/java/com/stickytimer/app/ui/settings/StickySettingsScreen.kt:185-194 | each phase has its own label, and every label names a phase |

## Left out

- Concurrency is left out: coroutines, the engine's mutex, and races between jobs. Events are handled one at a time.
- A step is one locked block except in three places, where it also runs the block the same coroutine enters next. No other event can come between the two blocks here, although one could in the source:
  - a playback change inside the re-engagement window, with `armSessionNow`;
  - a playback change at or past the max-window deadline, with the first block of `handleMaxWindowExpiry`;
  - the second block of `handleSessionExpiry` that finds the deadline passed, with the first block of `handleMaxWindowExpiry`.
- The pause request of `handleMaxWindowExpiry` also runs outside the lock. Here it sits between the `MaxWindowFired` and `Disable(MaxWindowExpired)` events, and any event may arrive in between. Nothing ties the disable to a preceding `MaxWindowFired`.
- The pause callback of `handleSessionExpiry` runs outside the lock in the source. Here it runs between the `SessionFired` and `FadeDone` events. Any event may arrive in between.
- `FadeDone` is accepted whenever the engine is enabled, as in the source's second block. Nothing ties it to a preceding `SessionFired`.
- The clock is a parameter. Each event reads it once, whereas the source may read it several times within one block. Nothing requires it to increase from one event to the next, so every property holds for any order of clock readings.
- `Long` and `Int` overflow is not modelled: integers are unbounded. No realistic duration or timestamp comes near the limits.
- `String.format` with a locale's own digits is not modelled. The countdown uses ASCII digits.
- Android calls are parameters or recorded actions, not modelled: the audio manager, media controllers, the notification manager and the media key. `pauseWithRetry` is folded into one `Pause` action: its 700 ms recheck, its media-key fallback, and its early return when no controller is followed.
- `MediaController.FadeAndPause`: the model does not say whether anything was paused. `Pause` stands for the call to `pauseWithRetry`, which returns at once when no controller is followed.
- Session tracking is not modelled: listener registration, `startTracking`, `stopTracking`, `refreshActiveSessions` and `isCurrentlyPlaying`. These are platform plumbing around `updateActiveController`.
- `emitPlaybackState`'s timestamp is left out. It is wall-clock time and the engine does not read it.
- DataStore I/O is left out. The store is an immutable map and each `update*` is one atomic write.
- The Compose UI is left out: layout, the float arithmetic of the slider's snapping, and `remember` state. The slider is modelled through its integer stops.
- `collectLatest` cancellation in the service is left out. Snapshots are handled one at a time, in order.
- `MediaController.SelectController`: returns the index of the chosen controller rather than the object.
- `EngineScenarios.ResumeInsideWindowImmediateOutsideDebounced`: the scenarios omit the ticker's turns. A tick only republishes (`EngineProperties.TickOnlyRepublishes`).
- `StickyController`, `StickyTimeSource`, `PlaybackStateUpdate`, `StickyModeCoordinator`, `StickyModeStatusStore`, `NotificationAccessManager`, the notification listener service, the tile service, the boot receiver, `AppContainer`, `MainActivity` and `StickyTimerApp` are not part of this model. They are wiring and platform glue around the modelled logic.
