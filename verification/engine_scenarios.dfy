/**
  The four scenarios of StickyTimerEngineTest.kt as serialized runs. The
  virtual clock reads the times at which the test's coroutine scheduler
  runs each job; the fake action sink returns at once, so every pause
  request is followed at the same instant by the rest of the job that made
  it: `FadeDone` after a session expiry, `Disable(MaxWindowExpired)` after
  a max-window expiry. Ticker turns are
  left out: a tick only republishes (see `EngineProperties.TickOnlyRepublishes`).
 */
module EngineScenarios {
  import opened Options
  import opened StickyTypes
  import opened StickySettings
  import opened TimerEngine
  import opened EngineProperties

  /** Running two input sequences one after the other is running their concatenation. */
  lemma {:induction false} RunAppend(e: Engine, a: seq<Input>, b: seq<Input>)
    ensures Run(e, a + b).engine == Run(Run(e, a).engine, b).engine
    ensures Run(e, a + b).outputs == Run(e, a).outputs + Run(Run(e, a).engine, b).outputs
    decreases |a|
  {
    hide Step;
    if |a| == 0 {
      assert a + b == b;
    } else {
      assert (a + b)[0] == a[0];
      assert (a + b)[1..] == a[1..] + b;
      var first := Step(e, a[0].event, a[0].now, a[0].settings);
      RunAppend(first.engine, a[1..], b);
    }
  }

  lemma RunOne(e: Engine, i: Input)
    ensures Run(e, [i]) == Step(e, i.event, i.now, i.settings)
  {
    assert [i][1..] == [];
  }

  /** Running one more input extends the run by that step. */
  lemma RunSnoc(e: Engine, a: seq<Input>, i: Input)
    ensures Run(e, a + [i]).engine == Step(Run(e, a).engine, i.event, i.now, i.settings).engine
    ensures Run(e, a + [i]).outputs == Run(e, a).outputs + Step(Run(e, a).engine, i.event, i.now, i.settings).outputs
  {
    RunAppend(e, a, [i]);
    RunOne(Run(e, a).engine, i);
  }

  /** Enable, PLAYING at once, and the debounce 1500 ms later, under the given settings. */
  function Arming(st: Settings): seq<Input> {
    [Input(Enable, 0, st), Input(Playback(Playing), 0, st), Input(DebounceFired, PlaybackStableDebounceMs, st)]
  }

  /** After `Arming`, a session is running and the max window is anchored at the debounce time. */
  lemma ArmingRunsSession(st: Settings)
    requires st.SessionDurationMs() >= 0 && st.MaxActiveWindowMs() > 0
    ensures var e := Run(Initial, Arming(st)).engine;
      && e.enabled && e.phase == SessionRunning && e.latest == Playing
      && e.lastStoppedAtMs.None?
      && e.sessionEndMs == Some(1_500 + st.SessionDurationMs())
      && e.maxWindowEndMs == Some(1_500 + st.MaxActiveWindowMs())
      && e.timers.session == Some(1_500 + st.SessionDurationMs())
      && e.timers.maxWindow == Some(1_500 + st.MaxActiveWindowMs())
      && e.timers.debounce.None?
      && e.published == Snapshot(true, SessionRunning, st.SessionDurationMs(), st.MaxActiveWindowMs())
      && Calls(Run(Initial, Arming(st)).outputs) == []
  {
    hide Run;
    var i0 := Input(Enable, 0, st);
    var i1 := Input(Playback(Playing), 0, st);
    var i2 := Input(DebounceFired, PlaybackStableDebounceMs, st);
    assert [i0] + [i1] == [i0, i1];
    assert [i0, i1] + [i2] == Arming(st);
    RunOne(Initial, i0);
    RunSnoc(Initial, [i0], i1);
    RunSnoc(Initial, [i0, i1], i2);
    var e0 := Run(Initial, [i0]);
    EnableFromOff(Initial, 0, st);
    assert e0.engine.timers == Timers(None, None, None, Some(1_000));
    var e1 := Run(Initial, [i0, i1]);
    PlayingOutsideWindowDebounces(e0.engine, 0, st);
    assert e1.engine.timers.debounce == Some(1_500);
    StepPreservesValid(Initial, Enable, 0, st);
    StepPreservesValid(e0.engine, Playback(Playing), 0, st);
    DebounceArmsSession(e1.engine, 1_500, st);
    OutputsAppend(e1.outputs, Step(e1.engine, DebounceFired, 1_500, st).outputs);
    OutputsAppend(e0.outputs, []);
    assert e1.outputs == e0.outputs + [];
  }

  /** firstResumeAnchorsMaxWindow: the window starts full, 90 minutes, when the first session is armed. */
  lemma FirstResumeAnchorsMaxWindow()
    ensures var st := Settings(300, 10, 30, 90);
      var e := Run(Initial, Arming(st)).engine;
      && e.published.isEnabled
      && e.published.phase == SessionRunning
      && e.published.maxWindowRemainingMs == st.MaxActiveWindowMs() == 5_400_000
  {
    ArmingRunsSession(Settings(300, 10, 30, 90));
  }

  /** sessionExpiryTriggersFadeAndPause: one fade of 5 s is requested and the engine settles in STOPPED_RECENTLY. */
  lemma SessionExpiryTriggersFadeAndPause()
    ensures var st := Settings(10, 5, 30, 90);
      var run := Run(Initial, Arming(st) + [Input(SessionFired, 11_500, st), Input(FadeDone, 11_500, st)]);
      && Calls(run.outputs) == [FadeAndPause(5_000)]
      && run.engine.published.phase == StoppedRecently
      && run.engine.lastStoppedAtMs == Some(11_500)
  {
    var st := Settings(10, 5, 30, 90);
    var s0 := Input(SessionFired, 11_500, st);
    var s1 := Input(FadeDone, 11_500, st);
    ArmingRunsSession(st);
    var a := Run(Initial, Arming(st));
    assert Arming(st) + [s0, s1] == (Arming(st) + [s0]) + [s1];
    RunSnoc(Initial, Arming(st), s0);
    RunSnoc(Initial, Arming(st) + [s0], s1);
    assert Valid(a.engine) by { RunPreservesValid(Initial, Arming(st)); }
    SessionExpiryRequestsOnePause(a.engine, 11_500, st);
    var b := Step(a.engine, SessionFired, 11_500, st);
    StepPreservesValid(a.engine, SessionFired, 11_500, st);
    FadeDoneRecordsStop(b.engine, 11_500, st);
    var c := Step(b.engine, FadeDone, 11_500, st);
    StepSnapshots(b.engine, FadeDone, 11_500, st);
    OutputsAppend(a.outputs, b.outputs);
    OutputsAppend(a.outputs + b.outputs, c.outputs);
  }

  /** The first stop of resumeInsideWindowIsImmediateOutsideWindowDebounced: a 5 s session without a fade. */
  function FirstStop(st: Settings): seq<Input> {
    Arming(st) + [Input(SessionFired, 6_500, st), Input(FadeDone, 6_500, st)]
  }

  lemma FirstStopState()
    ensures var st := Settings(5, 0, 30, 90);
      var e := Run(Initial, FirstStop(st)).engine;
      && Valid(e) && e.enabled && e.phase == StoppedRecently && e.latest == Paused
      && e.lastStoppedAtMs == Some(6_500) && e.maxWindowEndMs == Some(5_401_500)
      && e.timers.debounce.None?
  {
    var st := Settings(5, 0, 30, 90);
    var s0 := Input(SessionFired, 6_500, st);
    var s1 := Input(FadeDone, 6_500, st);
    ArmingRunsSession(st);
    var a := Run(Initial, Arming(st));
    assert FirstStop(st) == (Arming(st) + [s0]) + [s1];
    RunSnoc(Initial, Arming(st), s0);
    RunSnoc(Initial, Arming(st) + [s0], s1);
    RunPreservesValid(Initial, Arming(st));
    SessionExpiryRequestsOnePause(a.engine, 6_500, st);
    var b := Step(a.engine, SessionFired, 6_500, st);
    StepPreservesValid(a.engine, SessionFired, 6_500, st);
    FadeDoneRecordsStop(b.engine, 6_500, st);
    StepPreservesValid(b.engine, FadeDone, 6_500, st);
  }

  /**
    resumeInsideWindowIsImmediateOutsideWindowDebounced: PLAYING right after
    a stop re-arms at once; PLAYING 31 s after the second stop, outside the
    30 s window, stays STOPPED_RECENTLY until the debounce arms 1.5 s later.
   */
  lemma ResumeInsideWindowImmediateOutsideDebounced()
    ensures var st := Settings(5, 0, 30, 90);
      var resumed := FirstStop(st) + [Input(Playback(Playing), 6_500, st)];
      var secondStop := resumed + [Input(SessionFired, 11_500, st), Input(FadeDone, 11_500, st)];
      var late := secondStop + [Input(Playback(Playing), 42_500, st)];
      var armed := late + [Input(DebounceFired, 44_000, st)];
      && Run(Initial, resumed).engine.published.phase == SessionRunning
      && Run(Initial, late).engine.published.phase == StoppedRecently
      && Run(Initial, armed).engine.published.phase == SessionRunning
  {
    hide Run;
    var st := Settings(5, 0, 30, 90);
    var p0 := Input(Playback(Playing), 6_500, st);
    var f0 := Input(SessionFired, 11_500, st);
    var f1 := Input(FadeDone, 11_500, st);
    var p1 := Input(Playback(Playing), 42_500, st);
    var d1 := Input(DebounceFired, 44_000, st);
    var resumed := FirstStop(st) + [p0];
    var secondStop := resumed + [f0, f1];
    var late := secondStop + [p1];
    var armed := late + [d1];
    assert secondStop == (resumed + [f0]) + [f1];

    FirstStopState();
    var e0 := Run(Initial, FirstStop(st)).engine;
    RunSnoc(Initial, FirstStop(st), p0);
    PlayingInsideWindowArmsAtOnce(e0, 6_500, st);
    StepSnapshots(e0, Playback(Playing), 6_500, st);
    StepPreservesValid(e0, Playback(Playing), 6_500, st);
    var e1 := Run(Initial, resumed).engine;
    assert e1.phase == SessionRunning && e1.timers.session == Some(11_500);
    assert e1.maxWindowEndMs == Some(5_401_500);

    RunSnoc(Initial, resumed, f0);
    SessionExpiryRequestsOnePause(e1, 11_500, st);
    StepPreservesValid(e1, SessionFired, 11_500, st);
    var e2 := Run(Initial, resumed + [f0]).engine;
    RunSnoc(Initial, resumed + [f0], f1);
    FadeDoneRecordsStop(e2, 11_500, st);
    StepPreservesValid(e2, FadeDone, 11_500, st);
    var e3 := Run(Initial, secondStop).engine;
    assert e3.phase == StoppedRecently && e3.latest == Paused && e3.lastStoppedAtMs == Some(11_500);

    RunSnoc(Initial, secondStop, p1);
    PlayingOutsideWindowDebounces(e3, 42_500, st);
    var e4 := Run(Initial, late).engine;
    assert e4.published == e3.published;
    assert e4.timers.debounce == Some(44_000);

    RunSnoc(Initial, late, d1);
    StepPreservesValid(e3, Playback(Playing), 42_500, st);
    DebounceArmsSession(e4, 44_000, st);
    StepSnapshots(e4, DebounceFired, 44_000, st);
  }

  /**
    maxWindowExpiryWhilePlayingDisablesMode: with a one-minute window, the
    max-window job fires 60 s after arming while PLAYING, publishes EXPIRED,
    requests a 3 s fade, and disables the mode.
   */
  lemma MaxWindowExpiryWhilePlayingDisablesMode()
    ensures var st := Settings(300, 3, 30, 1);
      var expiry := [Input(MaxWindowFired, 61_500, st), Input(Disable(MaxWindowExpired), 61_500, st)];
      var run := Run(Initial, Arming(st) + expiry);
      && !run.engine.published.isEnabled
      && run.engine.published.phase == Off
      && Calls(run.outputs) == [FadeAndPause(3_000), OnDisabled]
      && 2 <= |Emits(run.outputs)|
      && Emits(run.outputs)[|Emits(run.outputs)| - 2].phase == Expired
  {
    var st := Settings(300, 3, 30, 1);
    var expiry := [Input(MaxWindowFired, 61_500, st), Input(Disable(MaxWindowExpired), 61_500, st)];
    ArmingRunsSession(st);
    var a := Run(Initial, Arming(st));
    RunAppend(Initial, Arming(st), expiry);
    RunPreservesValid(Initial, Arming(st));
    MaxWindowExpiryShutsDown(a.engine, 61_500, 61_500, st);
    OutputsAppend(a.outputs, Run(a.engine, expiry).outputs);
  }
}
