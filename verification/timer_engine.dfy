/**
  The sticky-timer engine (StickyTimerEngine.kt) as a pure transition
  function.

  Every `mutex.withLock { ... }` region of the engine is one atomic
  read-modify-write, so the engine is a value of type `Engine` and each
  incoming call or timer firing is an `Event` that `Step` maps to the next
  `Engine` plus the outputs the engine produces on the way: snapshots it
  publishes and callbacks it invokes, in the order it does so.

  The four cancellable jobs (play debounce, session expiry, max-window
  expiry, 1 s ticker) are optional due-times in `Timers`: scheduling a job
  replaces the slot, cancelling it empties the slot, and a job's firing is
  the event of the same name, which does nothing unless the slot holds a
  due-time that `now` has reached (a cancelled job never runs, and `delay`
  never lets a job run early). The clock and the settings provider are
  read once per event and passed in as `now` and `settings`.

  `handleSessionExpiry` gives up the lock while the action sink fades or
  pauses, so it is two events: `SessionFired` (the first locked region and
  the callback) and `FadeDone` (the second locked region, which runs once
  the callback has returned, whether it faded or paused at once).
  `handleMaxWindowExpiry` is split the same way: `MaxWindowFired` (its
  locked region and the pause request) and then `Disable(MaxWindowExpired)`
  (its call to `disableInternal`).

  A step is one locked region, except where the source hands straight on
  from one locked region to the next in the same coroutine: a playback
  change that arms at once or finds the max window over, and a stop that
  finds the max window over, run the following region in the same step.
 */
module TimerEngine {
  import opened Options
  import opened KotlinMath
  import opened StickyTypes
  import opened StickySettings

  /** `PLAYBACK_STABLE_DEBOUNCE_MS`. */
  const PlaybackStableDebounceMs: int := 1_500

  /** The ticker's period. */
  const TickIntervalMs: int := 1_000

  /** Due-times of the four jobs; None when no job is pending. */
  datatype Timers = Timers(
    debounce: Option<int>,
    session: Option<int>,
    maxWindow: Option<int>,
    ticker: Option<int>)

  const NoTimers: Timers := Timers(None, None, None, None)

  datatype Engine = Engine(
    enabled: bool,
    phase: Phase,
    latest: PlaybackState,
    lastStoppedAtMs: Option<int>,
    sessionEndMs: Option<int>,
    maxWindowEndMs: Option<int>,
    timers: Timers,
    /** the value of the `state` flow: the last snapshot published */
    published: Snapshot)

  /** A freshly constructed engine. */
  const Initial: Engine := Engine(false, Off, Unknown, None, None, None, NoTimers, OffSnapshot)

  datatype Event =
    | Enable
    | Disable(reason: DisableReason)
    | Playback(state: PlaybackState)
    | DebounceFired
    | SessionFired
    | FadeDone
    | MaxWindowFired
    | Tick

  datatype Output = Emit(snapshot: Snapshot) | Call(callback: Callback)

  datatype Transition = Transition(engine: Engine, outputs: seq<Output>)

  /** Nothing changes and nothing is output. */
  function Stay(e: Engine): Transition {
    Transition(e, [])
  }

  /** Whether a job slot holds a job whose `delay` has run out by `now`. */
  predicate Due(slot: Option<int>, now: int) {
    slot.Some? && slot.value <= now
  }

  /** The due-time of a job launched at `now` that first waits `delay.coerceAtLeast(0)`. */
  function Schedule(now: int, delayMs: int): (due: Option<int>)
    ensures due.Some? && now <= due.value
    ensures 0 <= delayMs ==> due.value - now == delayMs
  {
    Some(now + CoerceAtLeast(delayMs, 0))
  }

  /** Time left until an optional deadline, floored at zero; zero when there is none. */
  function Remaining(deadline: Option<int>, now: int): (r: int)
    ensures 0 <= r
    ensures r == 0 <==> deadline.None? || deadline.value <= now
    ensures deadline.Some? && now <= deadline.value ==> now + r == deadline.value
  {
    match deadline
    case None => 0
    case Some(d) => CoerceAtLeast(d - now, 0)
  }

  /** The snapshot `emitStateLocked` builds from the engine at time `now`. */
  function SnapshotOf(e: Engine, now: int): (s: Snapshot)
    ensures s.isEnabled == e.enabled && s.phase == e.phase
    ensures s.remainingSessionMs == Remaining(e.sessionEndMs, now)
    ensures s.maxWindowRemainingMs == Remaining(e.maxWindowEndMs, now)
  {
    Snapshot(e.enabled, e.phase, Remaining(e.sessionEndMs, now), Remaining(e.maxWindowEndMs, now))
  }

  /** `emitStateLocked`: publish the current snapshot. */
  function EmitState(e: Engine, now: int): Transition {
    var s := SnapshotOf(e, now);
    Transition(e.(published := s), [Emit(s)])
  }

  /** The pause the action sink is asked for: a fade when the fade length is positive. */
  function PauseCallback(fadeMs: int): (c: Callback)
    ensures c.FadeAndPause? <==> fadeMs > 0
    ensures c.FadeAndPause? ==> c.fadeDurationMs == fadeMs
    ensures !c.OnDisabled?
  {
    if fadeMs > 0 then FadeAndPause(fadeMs) else PauseNow
  }

  /** The engine every disable leaves behind, before it publishes. */
  function Disabled(published: Snapshot): Engine {
    Engine(false, Off, Unknown, None, None, None, NoTimers, published)
  }

  /** `enable`: a no-op when enabled; otherwise reset everything and start the ticker. */
  function OnEnable(e: Engine, now: int): Transition {
    if e.enabled then Stay(e)
    else
      var reset := Engine(true, OnIdle, Unknown, None, None, None,
                          NoTimers.(ticker := Schedule(now, TickIntervalMs)), e.published);
      EmitState(reset, now)
  }

  /** `disableInternal`: a no-op when already off; otherwise reset, publish, and call `onDisabled`. */
  function DisableInternal(e: Engine, now: int): Transition {
    if !e.enabled && e.phase == Off then Stay(e)
    else
      var t := EmitState(Disabled(e.published), now);
      Transition(t.engine, t.outputs + [Call(OnDisabled)])
  }

  /** `isWithinReengagementWindowLocked`: false when nothing has been stopped yet. */
  predicate WithinReengagementWindow(e: Engine, now: int, settings: Settings) {
    match e.lastStoppedAtMs
    case None => false
    case Some(stoppedAt) => now - stoppedAt <= settings.ReengagementWindowMs()
  }

  /** Whether the max-window deadline is set and has been reached. */
  predicate MaxWindowReached(e: Engine, now: int) {
    e.maxWindowEndMs.Some? && now >= e.maxWindowEndMs.value
  }

  /**
    `armSessionNow`: only while enabled and playing. Anchors the max window
    the first time (and schedules its expiry), then starts a session unless
    the max window has already been reached.
   */
  function ArmSessionNow(e: Engine, now: int, settings: Settings): Transition {
    if !e.enabled || e.latest != Playing then Stay(e)
    else
      var anchored :=
        if e.maxWindowEndMs.None? then
          var windowEnd := now + settings.MaxActiveWindowMs();
          e.(maxWindowEndMs := Some(windowEnd),
             timers := e.timers.(maxWindow := Schedule(now, windowEnd - now)))
        else e;
      if MaxWindowReached(anchored, now) then Stay(anchored)
      else
        EmitState(anchored.(phase := SessionRunning,
                            sessionEndMs := Some(now + settings.SessionDurationMs()),
                            timers := anchored.timers.(session := Schedule(now, settings.SessionDurationMs()))),
                  now)
  }

  /**
    First half of `handleMaxWindowExpiry`, the locked region and the pause
    request: mark EXPIRED and publish, and ask the sink to pause when
    playback is PLAYING. The job then calls `disableInternal`, which is the
    event `Disable(MaxWindowExpired)` once the sink has returned; until it
    arrives the engine stays enabled in EXPIRED.
   */
  function MaxWindowExpiry(e: Engine, now: int, settings: Settings): Transition {
    if !e.enabled then Stay(e)
    else
      var expired := EmitState(e.(phase := Expired), now);
      var pause := if e.latest == Playing then [Call(PauseCallback(settings.FadeDurationMs()))] else [];
      Transition(expired.engine, expired.outputs + pause)
  }

  /**
    `onPlaybackStateChanged`: ignored while disabled; otherwise record the
    state, divert to max-window expiry when the deadline has passed, and
    else debounce, arm, or cancel the debounce.
   */
  function OnPlayback(e: Engine, state: PlaybackState, now: int, settings: Settings): Transition {
    if !e.enabled then Stay(e)
    else
      var previous := e.latest;
      var recorded := e.(latest := state);
      if MaxWindowReached(recorded, now) then MaxWindowExpiry(recorded, now, settings)
      else if state != Playing then
        Stay(recorded.(timers := recorded.timers.(debounce := None)))
      else if recorded.phase == SessionRunning || recorded.phase == Fading then Stay(recorded)
      else if previous == Playing then Stay(recorded)
      else if WithinReengagementWindow(recorded, now, settings) then
        ArmSessionNow(recorded.(timers := recorded.timers.(debounce := None)), now, settings)
      else
        Stay(recorded.(timers := recorded.timers.(debounce := Schedule(now, PlaybackStableDebounceMs))))
  }

  /** The debounce job: arm the session. */
  function OnDebounceFired(e: Engine, now: int, settings: Settings): Transition {
    if !Due(e.timers.debounce, now) then Stay(e)
    else ArmSessionNow(e.(timers := e.timers.(debounce := None)), now, settings)
  }

  /**
    The session job, first half of `handleSessionExpiry`: only a running
    session expires; it moves to FADING (or STOPPED_RECENTLY without a fade),
    publishes, and asks the sink to fade or pause.
   */
  function OnSessionFired(e: Engine, now: int, settings: Settings): Transition {
    if !Due(e.timers.session, now) then Stay(e)
    else
      var fired := e.(timers := e.timers.(session := None));
      var fadeMs := settings.FadeDurationMs();
      if !fired.enabled || fired.phase != SessionRunning then Stay(fired)
      else
        var t := EmitState(fired.(phase := if fadeMs > 0 then Fading else StoppedRecently), now);
        Transition(t.engine, t.outputs + [Call(PauseCallback(fadeMs))])
  }

  /**
    Second half of `handleSessionExpiry`, once the sink returns: guarded by
    `enabled` alone, it records the stop and, when the max window has been
    reached meanwhile, runs max-window expiry.
   */
  function OnFadeDone(e: Engine, now: int, settings: Settings): Transition {
    if !e.enabled then Stay(e)
    else
      var stopped := EmitState(e.(latest := Paused, lastStoppedAtMs := Some(now),
                                  sessionEndMs := None, phase := StoppedRecently), now);
      if MaxWindowReached(stopped.engine, now) then
        var expiry := MaxWindowExpiry(stopped.engine, now, settings);
        Transition(expiry.engine, stopped.outputs + expiry.outputs)
      else stopped
  }

  /** The max-window job. */
  function OnMaxWindowFired(e: Engine, now: int, settings: Settings): Transition {
    if !Due(e.timers.maxWindow, now) then Stay(e)
    else MaxWindowExpiry(e.(timers := e.timers.(maxWindow := None)), now, settings)
  }

  /** One turn of the ticker loop: wait again, and republish while enabled. */
  function OnTick(e: Engine, now: int): Transition {
    if !Due(e.timers.ticker, now) then Stay(e)
    else
      var next := e.(timers := e.timers.(ticker := Schedule(now, TickIntervalMs)));
      if next.enabled then EmitState(next, now) else Stay(next)
  }

  /** The engine's response to one event at time `now` under the current settings. */
  function Step(e: Engine, ev: Event, now: int, settings: Settings): Transition {
    match ev
    case Enable => OnEnable(e, now)
    case Disable(_) => DisableInternal(e, now)
    case Playback(state) => OnPlayback(e, state, now, settings)
    case DebounceFired => OnDebounceFired(e, now, settings)
    case SessionFired => OnSessionFired(e, now, settings)
    case FadeDone => OnFadeDone(e, now, settings)
    case MaxWindowFired => OnMaxWindowFired(e, now, settings)
    case Tick => OnTick(e, now)
  }

  /** One event as the engine receives it, with the clock and settings read for it. */
  datatype Input = Input(event: Event, now: int, settings: Settings)

  /** A serialized sequence of events; the outputs are concatenated in order. */
  function Run(e: Engine, inputs: seq<Input>): Transition
    decreases |inputs|
  {
    if |inputs| == 0 then Stay(e)
    else
      var first := Step(e, inputs[0].event, inputs[0].now, inputs[0].settings);
      var rest := Run(first.engine, inputs[1..]);
      Transition(rest.engine, first.outputs + rest.outputs)
  }
}
