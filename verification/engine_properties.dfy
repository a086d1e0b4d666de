/**
  What the timer engine promises: the invariant every step keeps, how each
  event moves the engine, the once-per-lifetime anchoring of the max window,
  idempotent disable, and the scenarios of StickyTimerEngineTest.kt.
 */
module EngineProperties {
  import opened Options
  import opened StickyTypes
  import opened StickySettings
  import opened TimerEngine

  /** The callbacks among the outputs, in order. */
  function Calls(outs: seq<Output>): seq<Callback>
    decreases |outs|
  {
    if |outs| == 0 then []
    else (if outs[0].Call? then [outs[0].callback] else []) + Calls(outs[1..])
  }

  /** The snapshots among the outputs, in order of publication. */
  function Emits(outs: seq<Output>): seq<Snapshot>
    decreases |outs|
  {
    if |outs| == 0 then []
    else (if outs[0].Emit? then [outs[0].snapshot] else []) + Emits(outs[1..])
  }

  lemma {:induction false} OutputsAppend(a: seq<Output>, b: seq<Output>)
    ensures Calls(a + b) == Calls(a) + Calls(b)
    ensures Emits(a + b) == Emits(a) + Emits(b)
    decreases |a|
  {
    if |a| == 0 {
      assert a + b == b;
    } else {
      var ab := a + b;
      assert ab[0] == a[0];
      assert ab[1..] == a[1..] + b;
      OutputsAppend(a[1..], b);
      var c: seq<Callback> := if a[0].Call? then [a[0].callback] else [];
      var s: seq<Snapshot> := if a[0].Emit? then [a[0].snapshot] else [];
      assert Calls(ab) == c + (Calls(a[1..]) + Calls(b));
      assert c + (Calls(a[1..]) + Calls(b)) == (c + Calls(a[1..])) + Calls(b);
      assert Emits(ab) == s + (Emits(a[1..]) + Emits(b));
      assert s + (Emits(a[1..]) + Emits(b)) == (s + Emits(a[1..])) + Emits(b);
    }
  }

  lemma OutputsOfOne(o: Output)
    ensures Calls([o]) == (if o.Call? then [o.callback] else [])
    ensures Emits([o]) == (if o.Emit? then [o.snapshot] else [])
  {
    assert [o][1..] == [];
  }

  /**
    The engine invariant: OFF exactly when disabled, the ticker runs exactly
    while enabled, the published snapshot agrees with the engine, a disabled
    engine is the initial one, a running session has a deadline, and a
    pending max-window job has an anchored deadline.
   */
  predicate Valid(e: Engine) {
    && (e.enabled <==> e.phase != Off)
    && (e.enabled <==> e.timers.ticker.Some?)
    && e.published.isEnabled == e.enabled
    && e.published.phase == e.phase
    && 0 <= e.published.remainingSessionMs
    && 0 <= e.published.maxWindowRemainingMs
    && (!e.enabled ==> e == Initial)
    && (e.phase == SessionRunning ==> e.sessionEndMs.Some?)
    && (e.timers.maxWindow.Some? ==> e.maxWindowEndMs.Some?)
  }

  /** A snapshot an observer can trust: OFF exactly when disabled, no negative countdown. */
  predicate Coherent(s: Snapshot) {
    && (s.isEnabled <==> s.phase != Off)
    && 0 <= s.remainingSessionMs
    && 0 <= s.maxWindowRemainingMs
  }

  lemma InitialValid()
    ensures Valid(Initial)
    ensures Initial.published == OffSnapshot
  {
  }

  // ---------------------------------------------------------------------
  // Facts about the shared building blocks, each proved once.

  lemma EmitStateFacts(e: Engine, now: int)
    ensures EmitState(e, now).engine == e.(published := SnapshotOf(e, now))
    ensures Calls(EmitState(e, now).outputs) == []
    ensures Emits(EmitState(e, now).outputs) == [SnapshotOf(e, now)]
  {
    OutputsOfOne(Emit(SnapshotOf(e, now)));
  }

  lemma DisableInternalFacts(e: Engine, now: int)
    requires e.enabled || e.phase != Off
    ensures DisableInternal(e, now).engine == Initial
    ensures Calls(DisableInternal(e, now).outputs) == [OnDisabled]
    ensures Emits(DisableInternal(e, now).outputs) == [OffSnapshot]
  {
    var t := EmitState(Disabled(e.published), now);
    EmitStateFacts(Disabled(e.published), now);
    OutputsAppend(t.outputs, [Call(OnDisabled)]);
    OutputsOfOne(Call(OnDisabled));
  }

  lemma MaxWindowExpiryFacts(e: Engine, now: int, settings: Settings)
    requires e.enabled
    ensures MaxWindowExpiry(e, now, settings).engine
         == e.(phase := Expired, published := SnapshotOf(e.(phase := Expired), now))
    ensures Calls(MaxWindowExpiry(e, now, settings).outputs)
         == (if e.latest == Playing then [PauseCallback(settings.FadeDurationMs())] else [])
    ensures Emits(MaxWindowExpiry(e, now, settings).outputs) == [SnapshotOf(e.(phase := Expired), now)]
  {
    var expired := EmitState(e.(phase := Expired), now);
    var pause := if e.latest == Playing then [Call(PauseCallback(settings.FadeDurationMs()))] else [];
    EmitStateFacts(e.(phase := Expired), now);
    OutputsAppend(expired.outputs, pause);
    if e.latest == Playing {
      OutputsOfOne(Call(PauseCallback(settings.FadeDurationMs())));
    }
  }

  /** What arming does, once the engine is enabled and playing. */
  lemma ArmFacts(e: Engine, now: int, settings: Settings)
    requires e.enabled && e.latest == Playing
    ensures var t := ArmSessionNow(e, now, settings);
      var anchor := if e.maxWindowEndMs.Some? then e.maxWindowEndMs.value else now + settings.MaxActiveWindowMs();
      && t.engine.maxWindowEndMs == Some(anchor)
      && (e.maxWindowEndMs.None? ==> t.engine.timers.maxWindow == Schedule(now, settings.MaxActiveWindowMs()))
      && (e.maxWindowEndMs.Some? ==> t.engine.timers.maxWindow == e.timers.maxWindow)
      && t.engine.enabled && t.engine.latest == Playing
      && t.engine.lastStoppedAtMs == e.lastStoppedAtMs
      && t.engine.timers.debounce == e.timers.debounce
      && t.engine.timers.ticker == e.timers.ticker
      && Calls(t.outputs) == []
      && (now < anchor ==>
            && t.engine.phase == SessionRunning
            && t.engine.sessionEndMs == Some(now + settings.SessionDurationMs())
            && t.engine.timers.session == Schedule(now, settings.SessionDurationMs())
            && Emits(t.outputs) == [SnapshotOf(t.engine, now)]
            && t.engine.published == SnapshotOf(t.engine, now))
      && (anchor <= now ==>
            && t.engine.phase == e.phase
            && t.engine.sessionEndMs == e.sessionEndMs
            && t.engine.timers.session == e.timers.session
            && t.engine.published == e.published
            && t.outputs == [])
  {
    var anchored :=
      if e.maxWindowEndMs.None? then
        var windowEnd := now + settings.MaxActiveWindowMs();
        e.(maxWindowEndMs := Some(windowEnd),
           timers := e.timers.(maxWindow := Schedule(now, windowEnd - now)))
      else e;
    if !MaxWindowReached(anchored, now) {
      EmitStateFacts(anchored.(phase := SessionRunning,
                               sessionEndMs := Some(now + settings.SessionDurationMs()),
                               timers := anchored.timers.(session := Schedule(now, settings.SessionDurationMs()))),
                     now);
    }
  }

  // ---------------------------------------------------------------------
  // The invariant.

  lemma ValidAfterPlayback(e: Engine, state: PlaybackState, now: int, settings: Settings)
    requires Valid(e)
    ensures Valid(OnPlayback(e, state, now, settings).engine)
  {
    if e.enabled {
      var recorded := e.(latest := state);
      if MaxWindowReached(recorded, now) {
        MaxWindowExpiryFacts(recorded, now, settings);
      } else if state == Playing && recorded.phase != SessionRunning && recorded.phase != Fading
        && e.latest != Playing && WithinReengagementWindow(recorded, now, settings) {
        ArmFacts(recorded.(timers := recorded.timers.(debounce := None)), now, settings);
      }
    }
  }

  lemma ValidAfterFadeDone(e: Engine, now: int, settings: Settings)
    requires Valid(e)
    ensures Valid(OnFadeDone(e, now, settings).engine)
  {
    if e.enabled {
      var stopped := e.(latest := Paused, lastStoppedAtMs := Some(now), sessionEndMs := None, phase := StoppedRecently);
      EmitStateFacts(stopped, now);
      if MaxWindowReached(stopped, now) {
        MaxWindowExpiryFacts(stopped.(published := SnapshotOf(stopped, now)), now, settings);
      }
    }
  }

  lemma {:induction false} StepPreservesValid(e: Engine, ev: Event, now: int, settings: Settings)
    requires Valid(e)
    ensures Valid(Step(e, ev, now, settings).engine)
  {
    match ev
    case Enable =>
      if !e.enabled {
        EmitStateFacts(Engine(true, OnIdle, Unknown, None, None, None,
                              NoTimers.(ticker := Schedule(now, TickIntervalMs)), e.published), now);
      }
    case Disable(_) =>
      if e.enabled { DisableInternalFacts(e, now); }
    case Playback(state) => ValidAfterPlayback(e, state, now, settings);
    case DebounceFired =>
      var fired := e.(timers := e.timers.(debounce := None));
      if Due(e.timers.debounce, now) && e.enabled && e.latest == Playing {
        ArmFacts(fired, now, settings);
      }
    case SessionFired =>
      var fired := e.(timers := e.timers.(session := None));
      var fadeMs := settings.FadeDurationMs();
      if Due(e.timers.session, now) && fired.enabled && fired.phase == SessionRunning {
        EmitStateFacts(fired.(phase := if fadeMs > 0 then Fading else StoppedRecently), now);
      }
    case FadeDone => ValidAfterFadeDone(e, now, settings);
    case MaxWindowFired =>
      if Due(e.timers.maxWindow, now) {
        MaxWindowExpiryFacts(e.(timers := e.timers.(maxWindow := None)), now, settings);
      }
    case Tick =>
      if Due(e.timers.ticker, now) {
        EmitStateFacts(e.(timers := e.timers.(ticker := Schedule(now, TickIntervalMs))), now);
      }
  }

  /** The invariant holds after every serialized sequence of events. */
  lemma {:induction false} RunPreservesValid(e: Engine, inputs: seq<Input>)
    requires Valid(e)
    ensures Valid(Run(e, inputs).engine)
    decreases |inputs|
  {
    if |inputs| > 0 {
      StepPreservesValid(e, inputs[0].event, inputs[0].now, inputs[0].settings);
      RunPreservesValid(Step(e, inputs[0].event, inputs[0].now, inputs[0].settings).engine, inputs[1..]);
    }
  }

  /** From construction on, the engine is OFF exactly when it is disabled. */
  lemma OffExactlyWhenDisabled(inputs: seq<Input>)
    ensures Run(Initial, inputs).engine.phase == Off <==> !Run(Initial, inputs).engine.enabled
    ensures Run(Initial, inputs).engine.published.phase == Off <==> !Run(Initial, inputs).engine.published.isEnabled
  {
    RunPreservesValid(Initial, inputs);
  }

  // ---------------------------------------------------------------------
  // Published snapshots.

  /**
    What a transition from `e` publishes: only coherent snapshots; the last
    one is the `state` value afterwards and describes the engine as the
    transition leaves it; and when nothing is published `state` is unchanged.
   */
  predicate PublishesFaithfully(e: Engine, t: Transition, now: int) {
    && (forall i :: 0 <= i < |Emits(t.outputs)| ==> Coherent(Emits(t.outputs)[i]))
    && (|Emits(t.outputs)| == 0 ==> t.engine.published == e.published)
    && (|Emits(t.outputs)| > 0 ==>
          && Emits(t.outputs)[|Emits(t.outputs)| - 1] == t.engine.published
          && t.engine.published == SnapshotOf(t.engine, now))
  }

  lemma PublishesEmitState(e: Engine, x: Engine, now: int)
    requires x.enabled <==> x.phase != Off
    ensures PublishesFaithfully(e, EmitState(x, now), now)
  {
    EmitStateFacts(x, now);
  }

  lemma PublishesMaxWindowExpiry(e: Engine, now: int, settings: Settings)
    requires e.enabled && e.phase != Off
    ensures PublishesFaithfully(e, MaxWindowExpiry(e, now, settings), now)
  {
    MaxWindowExpiryFacts(e, now, settings);
  }

  lemma PublishesArm(e: Engine, now: int, settings: Settings)
    requires Valid(e)
    ensures PublishesFaithfully(e, ArmSessionNow(e, now, settings), now)
  {
    if e.enabled && e.latest == Playing {
      ArmFacts(e, now, settings);
    }
  }

  lemma PublishesOnPlayback(e: Engine, state: PlaybackState, now: int, settings: Settings)
    requires Valid(e)
    ensures PublishesFaithfully(e, OnPlayback(e, state, now, settings), now)
  {
    if e.enabled {
      var recorded := e.(latest := state);
      if MaxWindowReached(recorded, now) {
        PublishesMaxWindowExpiry(recorded, now, settings);
      } else if state == Playing && recorded.phase != SessionRunning && recorded.phase != Fading
        && e.latest != Playing && WithinReengagementWindow(recorded, now, settings) {
        PublishesArm(recorded.(timers := recorded.timers.(debounce := None)), now, settings);
      }
    }
  }

  lemma PublishesOnSessionFired(e: Engine, now: int, settings: Settings)
    requires Valid(e)
    ensures PublishesFaithfully(e, OnSessionFired(e, now, settings), now)
  {
    var fired := e.(timers := e.timers.(session := None));
    var fadeMs := settings.FadeDurationMs();
    if Due(e.timers.session, now) && fired.enabled && fired.phase == SessionRunning {
      var next := fired.(phase := if fadeMs > 0 then Fading else StoppedRecently);
      var published := EmitState(next, now);
      var t := OnSessionFired(e, now, settings);
      EmitStateFacts(next, now);
      OutputsAppend(published.outputs, [Call(PauseCallback(fadeMs))]);
      OutputsOfOne(Call(PauseCallback(fadeMs)));
      assert t == Transition(published.engine, published.outputs + [Call(PauseCallback(fadeMs))]);
      assert Emits(t.outputs) == [SnapshotOf(next, now)];
      assert t.engine == next.(published := SnapshotOf(next, now));
      assert Coherent(SnapshotOf(next, now));
    }
  }

  lemma PublishesOnFadeDone(e: Engine, now: int, settings: Settings)
    requires Valid(e)
    ensures PublishesFaithfully(e, OnFadeDone(e, now, settings), now)
  {
    if e.enabled {
      var stopped := e.(latest := Paused, lastStoppedAtMs := Some(now), sessionEndMs := None, phase := StoppedRecently);
      var first := EmitState(stopped, now);
      var t := OnFadeDone(e, now, settings);
      EmitStateFacts(stopped, now);
      assert Coherent(SnapshotOf(stopped, now));
      if MaxWindowReached(first.engine, now) {
        var expired := first.engine.(phase := Expired);
        var expiry := MaxWindowExpiry(first.engine, now, settings);
        MaxWindowExpiryFacts(first.engine, now, settings);
        OutputsAppend(first.outputs, expiry.outputs);
        assert t == Transition(expiry.engine, first.outputs + expiry.outputs);
        assert Emits(t.outputs) == [SnapshotOf(stopped, now), SnapshotOf(expired, now)];
        assert t.engine == expired.(published := SnapshotOf(expired, now));
        assert Coherent(SnapshotOf(expired, now));
      } else {
        assert t == first;
      }
    }
  }

  /**
    Every snapshot a step publishes is coherent, and the last one published
    is the engine's `state` value afterwards and describes the engine as it
    ends the step; a step that publishes nothing leaves `state` alone.
   */
  lemma {:induction false} StepSnapshots(e: Engine, ev: Event, now: int, settings: Settings)
    requires Valid(e)
    ensures PublishesFaithfully(e, Step(e, ev, now, settings), now)
  {
    match ev
    case Enable =>
      if !e.enabled {
        PublishesEmitState(e, Engine(true, OnIdle, Unknown, None, None, None,
                                     NoTimers.(ticker := Schedule(now, TickIntervalMs)), e.published), now);
      }
    case Disable(_) =>
      if e.enabled { DisableInternalFacts(e, now); }
    case Playback(state) => PublishesOnPlayback(e, state, now, settings);
    case DebounceFired =>
      if Due(e.timers.debounce, now) {
        PublishesArm(e.(timers := e.timers.(debounce := None)), now, settings);
      }
    case SessionFired => PublishesOnSessionFired(e, now, settings);
    case FadeDone => PublishesOnFadeDone(e, now, settings);
    case MaxWindowFired =>
      if Due(e.timers.maxWindow, now) {
        PublishesMaxWindowExpiry(e.(timers := e.timers.(maxWindow := None)), now, settings);
      }
    case Tick =>
      if Due(e.timers.ticker, now) {
        PublishesEmitState(e, e.(timers := e.timers.(ticker := Schedule(now, TickIntervalMs))), now);
      }
  }

  /** Over any run from a valid engine, observers only ever see coherent snapshots. */
  lemma {:induction false} RunSnapshotsCoherent(e: Engine, inputs: seq<Input>)
    requires Valid(e)
    ensures forall i :: 0 <= i < |Emits(Run(e, inputs).outputs)| ==> Coherent(Emits(Run(e, inputs).outputs)[i])
    decreases |inputs|
  {
    if |inputs| > 0 {
      var first := Step(e, inputs[0].event, inputs[0].now, inputs[0].settings);
      StepSnapshots(e, inputs[0].event, inputs[0].now, inputs[0].settings);
      StepPreservesValid(e, inputs[0].event, inputs[0].now, inputs[0].settings);
      RunSnapshotsCoherent(first.engine, inputs[1..]);
      OutputsAppend(first.outputs, Run(first.engine, inputs[1..]).outputs);
    }
  }

  // ---------------------------------------------------------------------
  // enable / disable.

  /** Enabling a disabled engine resets every field, clears the jobs but the ticker, and publishes ON_IDLE. */
  lemma EnableFromOff(e: Engine, now: int, settings: Settings)
    requires Valid(e) && !e.enabled
    ensures var t := Step(e, Enable, now, settings);
      && t.engine.enabled && t.engine.phase == OnIdle && t.engine.latest == Unknown
      && t.engine.lastStoppedAtMs.None? && t.engine.sessionEndMs.None? && t.engine.maxWindowEndMs.None?
      && t.engine.timers == NoTimers.(ticker := Some(now + TickIntervalMs))
      && Calls(t.outputs) == []
      && Emits(t.outputs) == [Snapshot(true, OnIdle, 0, 0)]
  {
    EmitStateFacts(Engine(true, OnIdle, Unknown, None, None, None,
                          NoTimers.(ticker := Schedule(now, TickIntervalMs)), e.published), now);
  }

  /** Enabling an enabled engine changes nothing and outputs nothing. */
  lemma EnableWhileEnabled(e: Engine, now: int, settings: Settings)
    requires e.enabled
    ensures Step(e, Enable, now, settings) == Transition(e, [])
  {
  }

  /** Disabling an enabled engine returns it to the initial engine, publishes OFF and calls `onDisabled` once. */
  lemma DisableResets(e: Engine, reason: DisableReason, now: int, settings: Settings)
    requires Valid(e) && e.enabled
    ensures Step(e, Disable(reason), now, settings).engine == Initial
    ensures Calls(Step(e, Disable(reason), now, settings).outputs) == [OnDisabled]
    ensures Emits(Step(e, Disable(reason), now, settings).outputs) == [OffSnapshot]
  {
    DisableInternalFacts(e, now);
  }

  /** Disabling a disabled engine changes nothing, publishes nothing, calls nothing. */
  lemma DisableWhenOff(e: Engine, reason: DisableReason, now: int, settings: Settings)
    requires Valid(e) && !e.enabled
    ensures Step(e, Disable(reason), now, settings) == Transition(e, [])
  {
  }

  /** Two disables in a row call `onDisabled` at most once and publish at most one snapshot. */
  lemma DisableTwice(e: Engine, r1: DisableReason, t1: int, r2: DisableReason, t2: int, settings: Settings)
    requires Valid(e)
    ensures var run := Run(e, [Input(Disable(r1), t1, settings), Input(Disable(r2), t2, settings)]);
      && run.engine == Initial
      && Calls(run.outputs) == (if e.enabled then [OnDisabled] else [])
      && Emits(run.outputs) == (if e.enabled then [OffSnapshot] else [])
  {
    var inputs := [Input(Disable(r1), t1, settings), Input(Disable(r2), t2, settings)];
    var first := Step(e, Disable(r1), t1, settings);
    if e.enabled { DisableInternalFacts(e, t1); }
    assert first.engine == Initial;
    assert inputs[1..] == [Input(Disable(r2), t2, settings)];
    assert inputs[1..][1..] == [];
    assert Run(first.engine, inputs[1..]) == Transition(Initial, []);
    OutputsAppend(first.outputs, []);
    assert first.outputs + [] == first.outputs;
  }

  // ---------------------------------------------------------------------
  // Playback events.

  /** A playback event is ignored while disabled. */
  lemma PlaybackIgnoredWhenDisabled(e: Engine, state: PlaybackState, now: int, settings: Settings)
    requires !e.enabled
    ensures Step(e, Playback(state), now, settings) == Transition(e, [])
  {
  }

  /**
    Once the max-window deadline has passed, any playback event runs
    max-window expiry, whatever the phase: the state is recorded, EXPIRED is
    published, and a pause is requested exactly when the new state is
    PLAYING. This holds in EXPIRED too, so a PLAYING that arrives while the
    expiry's own pause is under way requests a second pause.
   */
  lemma PlaybackPastMaxWindow(e: Engine, state: PlaybackState, now: int, settings: Settings)
    requires Valid(e) && e.enabled && MaxWindowReached(e, now)
    ensures var t := Step(e, Playback(state), now, settings);
      && t.engine.enabled && t.engine.phase == Expired && t.engine.latest == state
      && t.engine.maxWindowEndMs == e.maxWindowEndMs
      && t.engine.timers == e.timers
      && Calls(t.outputs) == (if state == Playing then [PauseCallback(settings.FadeDurationMs())] else [])
      && Emits(t.outputs) == [SnapshotOf(t.engine, now)]
  {
    MaxWindowExpiryFacts(e.(latest := state), now, settings);
  }

  /** Before the deadline, a non-PLAYING state is recorded and cancels the pending debounce, nothing else. */
  lemma NonPlayingCancelsDebounce(e: Engine, state: PlaybackState, now: int, settings: Settings)
    requires e.enabled && !MaxWindowReached(e, now) && state != Playing
    ensures Step(e, Playback(state), now, settings)
         == Transition(e.(latest := state, timers := e.timers.(debounce := None)), [])
  {
  }

  /** PLAYING during a session or a fade, or repeated PLAYING, is only recorded. */
  lemma PlayingIgnoredWhenActiveOrRepeated(e: Engine, now: int, settings: Settings)
    requires e.enabled && !MaxWindowReached(e, now)
    requires e.phase == SessionRunning || e.phase == Fading || e.latest == Playing
    ensures Step(e, Playback(Playing), now, settings) == Transition(e.(latest := Playing), [])
  {
  }

  /** Without a recorded stop there is no re-engagement window. */
  lemma NoStopNoWindow(e: Engine, now: int, settings: Settings)
    requires e.lastStoppedAtMs.None?
    ensures !WithinReengagementWindow(e, now, settings)
  {
  }

  /**
    A fresh PLAYING within the re-engagement window of the last stop arms a
    session at once and cancels the debounce. The session starts unless the
    max window, anchored now if not yet, is already over. The last stop time
    is kept: re-arming does not clear it.
   */
  lemma PlayingInsideWindowArmsAtOnce(e: Engine, now: int, settings: Settings)
    requires Valid(e) && e.enabled && !MaxWindowReached(e, now)
    requires e.phase != SessionRunning && e.phase != Fading && e.latest != Playing
    requires WithinReengagementWindow(e, now, settings)
    ensures var t := Step(e, Playback(Playing), now, settings);
      && t.engine.timers.debounce.None?
      && t.engine.lastStoppedAtMs == e.lastStoppedAtMs
      && Calls(t.outputs) == []
      && (t.engine.phase == SessionRunning <==> e.maxWindowEndMs.Some? || settings.MaxActiveWindowMs() > 0)
      && (t.engine.phase == SessionRunning ==>
            && t.engine.sessionEndMs == Some(now + settings.SessionDurationMs())
            && Emits(t.outputs) == [SnapshotOf(t.engine, now)])
  {
    ArmFacts(e.(latest := Playing, timers := e.timers.(debounce := None)), now, settings);
  }

  /** A fresh PLAYING outside the window only (re)schedules the debounce, 1500 ms out. */
  lemma PlayingOutsideWindowDebounces(e: Engine, now: int, settings: Settings)
    requires e.enabled && !MaxWindowReached(e, now)
    requires e.phase != SessionRunning && e.phase != Fading && e.latest != Playing
    requires !WithinReengagementWindow(e, now, settings)
    ensures Step(e, Playback(Playing), now, settings)
         == Transition(e.(latest := Playing, timers := e.timers.(debounce := Some(now + PlaybackStableDebounceMs))), [])
  {
  }

  // ---------------------------------------------------------------------
  // Arming through the debounce job.

  /** The debounce job does nothing unless the engine is enabled and still playing. */
  lemma DebounceNeedsPlaying(e: Engine, now: int, settings: Settings)
    requires Due(e.timers.debounce, now) && (!e.enabled || e.latest != Playing)
    ensures Step(e, DebounceFired, now, settings) == Transition(e.(timers := e.timers.(debounce := None)), [])
  {
  }

  /**
    The debounce job arms a session: the max window is anchored at
    `now + maxActiveWindowMs` only if unanchored, and a session ending
    `sessionDurationMs` from now starts exactly when that anchor lies ahead.
   */
  lemma DebounceArmsSession(e: Engine, now: int, settings: Settings)
    requires Valid(e) && Due(e.timers.debounce, now) && e.enabled && e.latest == Playing
    ensures var t := Step(e, DebounceFired, now, settings);
      var anchor := if e.maxWindowEndMs.Some? then e.maxWindowEndMs.value else now + settings.MaxActiveWindowMs();
      && t.engine.timers.debounce.None?
      && t.engine.maxWindowEndMs == Some(anchor)
      && Calls(t.outputs) == []
      && (now < anchor ==>
            && t.engine.phase == SessionRunning
            && t.engine.sessionEndMs == Some(now + settings.SessionDurationMs())
            && t.engine.timers.session == Schedule(now, settings.SessionDurationMs())
            && Emits(t.outputs) == [SnapshotOf(t.engine, now)])
      && (anchor <= now ==> t.engine.phase == e.phase && t.outputs == [])
  {
    ArmFacts(e.(timers := e.timers.(debounce := None)), now, settings);
  }

  // ---------------------------------------------------------------------
  // The max-window anchor.

  /** An anchored max-window deadline never moves, not even on expiry; only a disable, which calls `onDisabled`, clears it. */
  lemma {:induction false} AnchorStaysPut(e: Engine, ev: Event, now: int, settings: Settings)
    requires Valid(e) && e.maxWindowEndMs.Some?
    ensures var t := Step(e, ev, now, settings);
      t.engine.maxWindowEndMs == e.maxWindowEndMs
      || (t.engine == Initial && OnDisabled in Calls(t.outputs))
  {
    match ev
    case Enable =>
    case Disable(_) => DisableInternalFacts(e, now);
    case Playback(state) =>
      var recorded := e.(latest := state);
      if MaxWindowReached(recorded, now) {
        MaxWindowExpiryFacts(recorded, now, settings);
      } else if state == Playing && recorded.phase != SessionRunning && recorded.phase != Fading
        && e.latest != Playing && WithinReengagementWindow(recorded, now, settings) {
        ArmFacts(recorded.(timers := recorded.timers.(debounce := None)), now, settings);
      }
    case DebounceFired =>
      if Due(e.timers.debounce, now) && e.latest == Playing {
        ArmFacts(e.(timers := e.timers.(debounce := None)), now, settings);
      }
    case SessionFired =>
    case FadeDone =>
      var stopped := e.(latest := Paused, lastStoppedAtMs := Some(now), sessionEndMs := None, phase := StoppedRecently);
      var first := EmitState(stopped, now);
      EmitStateFacts(stopped, now);
      if MaxWindowReached(stopped, now) {
        MaxWindowExpiryFacts(first.engine, now, settings);
      }
    case MaxWindowFired =>
      if Due(e.timers.maxWindow, now) {
        MaxWindowExpiryFacts(e.(timers := e.timers.(maxWindow := None)), now, settings);
      }
    case Tick =>
  }

  /**
    Over any run, the max-window deadline anchored at the start is still the
    deadline at the end unless the engine was disabled on the way.
   */
  lemma {:induction false} AnchorFixedUntilDisabled(e: Engine, inputs: seq<Input>)
    requires Valid(e) && e.maxWindowEndMs.Some?
    ensures Run(e, inputs).engine.maxWindowEndMs == e.maxWindowEndMs
         || OnDisabled in Calls(Run(e, inputs).outputs)
    decreases |inputs|
  {
    if |inputs| > 0 {
      var first := Step(e, inputs[0].event, inputs[0].now, inputs[0].settings);
      var rest := Run(first.engine, inputs[1..]);
      AnchorStaysPut(e, inputs[0].event, inputs[0].now, inputs[0].settings);
      StepPreservesValid(e, inputs[0].event, inputs[0].now, inputs[0].settings);
      OutputsAppend(first.outputs, rest.outputs);
      if first.engine.maxWindowEndMs == e.maxWindowEndMs {
        AnchorFixedUntilDisabled(first.engine, inputs[1..]);
      }
    }
  }

  /** The first anchoring of an enabled lifetime puts the deadline `maxActiveWindowMs` after the arming time. */
  lemma {:induction false} AnchorIsArmTimePlusWindow(e: Engine, ev: Event, now: int, settings: Settings)
    requires Valid(e) && e.maxWindowEndMs.None?
    ensures var t := Step(e, ev, now, settings);
      t.engine.maxWindowEndMs.Some? ==>
        t.engine.maxWindowEndMs == Some(now + settings.MaxActiveWindowMs()) && t.engine.enabled
  {
    match ev
    case Enable =>
    case Disable(_) =>
      if e.enabled { DisableInternalFacts(e, now); }
    case Playback(state) =>
      var recorded := e.(latest := state);
      if e.enabled && state == Playing && recorded.phase != SessionRunning && recorded.phase != Fading
        && e.latest != Playing && WithinReengagementWindow(recorded, now, settings) {
        ArmFacts(recorded.(timers := recorded.timers.(debounce := None)), now, settings);
      }
    case DebounceFired =>
      if Due(e.timers.debounce, now) && e.enabled && e.latest == Playing {
        ArmFacts(e.(timers := e.timers.(debounce := None)), now, settings);
      }
    case SessionFired =>
    case FadeDone =>
    case MaxWindowFired =>
    case Tick =>
  }

  // ---------------------------------------------------------------------
  // Session expiry.

  /**
    A running session's expiry requests exactly one pause (a fade of the
    configured length when it is positive, else an immediate pause) and
    moves to FADING, or straight to STOPPED_RECENTLY without a fade. The
    session deadline is left in place until the sink returns.
   */
  lemma SessionExpiryRequestsOnePause(e: Engine, now: int, settings: Settings)
    requires Valid(e) && Due(e.timers.session, now) && e.enabled && e.phase == SessionRunning
    ensures var t := Step(e, SessionFired, now, settings);
      && t.engine.phase == (if settings.FadeDurationMs() > 0 then Fading else StoppedRecently)
      && Calls(t.outputs) == [PauseCallback(settings.FadeDurationMs())]
      && Emits(t.outputs) == [SnapshotOf(t.engine, now)]
      && t.engine.sessionEndMs == e.sessionEndMs
      && t.engine.timers.session.None?
  {
    var fadeMs := settings.FadeDurationMs();
    var fired := e.(timers := e.timers.(session := None));
    var running := EmitState(fired.(phase := if fadeMs > 0 then Fading else StoppedRecently), now);
    EmitStateFacts(fired.(phase := if fadeMs > 0 then Fading else StoppedRecently), now);
    OutputsAppend(running.outputs, [Call(PauseCallback(fadeMs))]);
    OutputsOfOne(Call(PauseCallback(fadeMs)));
  }

  /** The session job finds nothing to do unless a session is running. */
  lemma SessionExpiryIgnoredUnlessRunning(e: Engine, now: int, settings: Settings)
    requires Due(e.timers.session, now) && (!e.enabled || e.phase != SessionRunning)
    ensures Step(e, SessionFired, now, settings) == Transition(e.(timers := e.timers.(session := None)), [])
  {
  }

  /**
    When the sink returns, the engine records the stop: STOPPED_RECENTLY,
    playback PAUSED, `lastStoppedAtMs = now`, no session deadline.
   */
  lemma FadeDoneRecordsStop(e: Engine, now: int, settings: Settings)
    requires Valid(e) && e.enabled && !MaxWindowReached(e, now)
    ensures var t := Step(e, FadeDone, now, settings);
      && t.engine.enabled && t.engine.phase == StoppedRecently && t.engine.latest == Paused
      && t.engine.lastStoppedAtMs == Some(now) && t.engine.sessionEndMs.None?
      && t.engine.maxWindowEndMs == e.maxWindowEndMs && t.engine.timers == e.timers
      && Calls(t.outputs) == []
      && Emits(t.outputs) == [SnapshotOf(t.engine, now)]
  {
    EmitStateFacts(e.(latest := Paused, lastStoppedAtMs := Some(now), sessionEndMs := None, phase := StoppedRecently), now);
  }

  /**
    If the max window ran out meanwhile, the stop chains into expiry: the
    engine publishes STOPPED_RECENTLY and then EXPIRED, and since playback
    is PAUSED by then it requests no second pause.
   */
  lemma FadeDoneChainsIntoExpiry(e: Engine, now: int, settings: Settings)
    requires Valid(e) && e.enabled && MaxWindowReached(e, now)
    ensures var t := Step(e, FadeDone, now, settings);
      && t.engine.enabled && t.engine.phase == Expired && t.engine.latest == Paused
      && t.engine.lastStoppedAtMs == Some(now)
      && Calls(t.outputs) == []
      && |Emits(t.outputs)| == 2
      && Emits(t.outputs)[0].phase == StoppedRecently
      && Emits(t.outputs)[1] == SnapshotOf(t.engine, now)
  {
    var stopped := e.(latest := Paused, lastStoppedAtMs := Some(now), sessionEndMs := None, phase := StoppedRecently);
    var first := EmitState(stopped, now);
    EmitStateFacts(stopped, now);
    MaxWindowExpiryFacts(first.engine, now, settings);
    OutputsAppend(first.outputs, MaxWindowExpiry(first.engine, now, settings).outputs);
  }

  /** `FadeDone` is guarded by `enabled` alone. */
  lemma FadeDoneIgnoredWhenDisabled(e: Engine, now: int, settings: Settings)
    requires !e.enabled
    ensures Step(e, FadeDone, now, settings) == Transition(e, [])
  {
  }

  // ---------------------------------------------------------------------
  // Max-window expiry and the ticker.

  /**
    The max-window job publishes EXPIRED and requests a pause exactly when
    playback is PLAYING; the engine stays enabled, keeps its deadlines and
    every other job (the ticker included), and forgets only the job itself.
   */
  lemma MaxWindowExpiryPublishesExpired(e: Engine, now: int, settings: Settings)
    requires Valid(e) && Due(e.timers.maxWindow, now)
    ensures var t := Step(e, MaxWindowFired, now, settings);
      && t.engine.enabled && t.engine.phase == Expired
      && t.engine.latest == e.latest
      && t.engine.sessionEndMs == e.sessionEndMs && t.engine.maxWindowEndMs == e.maxWindowEndMs
      && t.engine.timers == e.timers.(maxWindow := None)
      && Calls(t.outputs) == (if e.latest == Playing then [PauseCallback(settings.FadeDurationMs())] else [])
      && Emits(t.outputs) == [SnapshotOf(t.engine, now)]
      && Emits(t.outputs)[0].isEnabled && Emits(t.outputs)[0].phase == Expired
  {
    MaxWindowExpiryFacts(e.(timers := e.timers.(maxWindow := None)), now, settings);
  }

  /**
    The whole max-window job: EXPIRED is published, the pause is requested
    when PLAYING, and once the sink returns `disableInternal` turns the mode
    off: the engine ends as constructed, OFF is published last, and
    `onDisabled` is the final callback.
   */
  lemma MaxWindowExpiryShutsDown(e: Engine, t1: int, t2: int, settings: Settings)
    requires Valid(e) && Due(e.timers.maxWindow, t1)
    ensures var run := Run(e, [Input(MaxWindowFired, t1, settings), Input(Disable(MaxWindowExpired), t2, settings)]);
      && run.engine == Initial
      && Calls(run.outputs) == (if e.latest == Playing then [PauseCallback(settings.FadeDurationMs())] else []) + [OnDisabled]
      && |Emits(run.outputs)| == 2
      && Emits(run.outputs)[0].phase == Expired && Emits(run.outputs)[0].isEnabled
      && Emits(run.outputs)[1] == OffSnapshot
  {
    var inputs := [Input(MaxWindowFired, t1, settings), Input(Disable(MaxWindowExpired), t2, settings)];
    var first := Step(e, MaxWindowFired, t1, settings);
    MaxWindowExpiryPublishesExpired(e, t1, settings);
    var second := Step(first.engine, Disable(MaxWindowExpired), t2, settings);
    DisableInternalFacts(first.engine, t2);
    assert inputs[1..] == [Input(Disable(MaxWindowExpired), t2, settings)];
    assert inputs[1..][1..] == [];
    assert Run(first.engine, inputs[1..]) == Transition(Initial, second.outputs + []);
    OutputsAppend(first.outputs, second.outputs + []);
    assert second.outputs + [] == second.outputs;
  }

  // ---------------------------------------------------------------------
  // Jobs wait out their delay.

  predicate IsJobFiring(ev: Event) {
    ev.DebounceFired? || ev.SessionFired? || ev.MaxWindowFired? || ev.Tick?
  }

  /** The slot of the job whose firing `ev` is. */
  function JobSlot(t: Timers, ev: Event): Option<int>
    requires IsJobFiring(ev)
  {
    match ev
    case DebounceFired => t.debounce
    case SessionFired => t.session
    case MaxWindowFired => t.maxWindow
    case Tick => t.ticker
  }

  /**
    A job's firing has an effect exactly when its job is pending and its
    delay has run out: before its due-time, or once cancelled, it changes
    nothing and outputs nothing.
   */
  lemma JobFiresOnlyWhenDue(e: Engine, ev: Event, now: int, settings: Settings)
    requires Valid(e) && IsJobFiring(ev)
    ensures Step(e, ev, now, settings) != Transition(e, []) <==> Due(JobSlot(e.timers, ev), now)
  {
    var t := Step(e, ev, now, settings);
    if Due(JobSlot(e.timers, ev), now) {
      match ev
      case DebounceFired =>
        if e.enabled && e.latest == Playing {
          ArmFacts(e.(timers := e.timers.(debounce := None)), now, settings);
        }
        assert t.engine.timers.debounce.None?;
      case SessionFired =>
        assert t.engine.timers.session.None?;
      case MaxWindowFired =>
        if e.enabled {
          MaxWindowExpiryFacts(e.(timers := e.timers.(maxWindow := None)), now, settings);
        }
        assert t.engine.timers.maxWindow.None?;
      case Tick =>
        assert t.engine.timers.ticker == Some(now + TickIntervalMs);
    }
  }

  /**
    A fresh PLAYING outside the re-engagement window at `t0` arms a session
    through the debounce job only once the full 1500 ms have passed: the
    job's firing at `t1` starts a session exactly when `t0 + 1500 <= t1`
    and the max window, anchored at `t1` if not yet, still lies ahead.
   */
  lemma DebounceWaitsFullDelay(e: Engine, t0: int, t1: int, settings: Settings)
    requires Valid(e) && e.enabled && !MaxWindowReached(e, t0)
    requires e.phase != SessionRunning && e.phase != Fading && e.latest != Playing
    requires !WithinReengagementWindow(e, t0, settings)
    ensures var debouncing := Step(e, Playback(Playing), t0, settings).engine;
      var anchor := if e.maxWindowEndMs.Some? then e.maxWindowEndMs.value else t1 + settings.MaxActiveWindowMs();
      (Step(debouncing, DebounceFired, t1, settings).engine.phase == SessionRunning
       <==> t0 + PlaybackStableDebounceMs <= t1 && t1 < anchor)
  {
    var debouncing := Step(e, Playback(Playing), t0, settings).engine;
    PlayingOutsideWindowDebounces(e, t0, settings);
    StepPreservesValid(e, Playback(Playing), t0, settings);
    if t0 + PlaybackStableDebounceMs <= t1 {
      DebounceArmsSession(debouncing, t1, settings);
    }
  }

  /**
    A session armed by the debounce job at `t0` expires only once its full
    length has passed: the session job's firing at `t1` requests a pause
    exactly when `t0 + sessionDurationMs <= t1`.
   */
  lemma SessionRunsFullDuration(e: Engine, t0: int, t1: int, settings: Settings)
    requires Valid(e) && Due(e.timers.debounce, t0) && e.enabled && e.latest == Playing
    requires e.maxWindowEndMs.Some? ==> t0 < e.maxWindowEndMs.value
    requires e.maxWindowEndMs.None? ==> 0 < settings.MaxActiveWindowMs()
    requires 0 <= settings.SessionDurationMs()
    ensures var armed := Step(e, DebounceFired, t0, settings).engine;
      (Calls(Step(armed, SessionFired, t1, settings).outputs) != []
       <==> t0 + settings.SessionDurationMs() <= t1)
  {
    var armed := Step(e, DebounceFired, t0, settings).engine;
    DebounceArmsSession(e, t0, settings);
    StepPreservesValid(e, DebounceFired, t0, settings);
    if t0 + settings.SessionDurationMs() <= t1 {
      SessionExpiryRequestsOnePause(armed, t1, settings);
    }
  }

  /** A tick republishes while enabled and changes nothing but the next tick's due-time. */
  lemma TickOnlyRepublishes(e: Engine, now: int, settings: Settings)
    requires Valid(e) && e.enabled && Due(e.timers.ticker, now)
    ensures var t := Step(e, Tick, now, settings);
      && t.engine.(published := e.published) == e.(timers := e.timers.(ticker := Some(now + TickIntervalMs)))
      && Calls(t.outputs) == []
      && Emits(t.outputs) == [SnapshotOf(t.engine, now)]
  {
    EmitStateFacts(e.(timers := e.timers.(ticker := Schedule(now, TickIntervalMs))), now);
  }
}
