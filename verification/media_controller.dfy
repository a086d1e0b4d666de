/**
  The pure decisions inside ActiveMediaSessionController.kt: how a platform
  playback state maps onto the engine's playback enum, which media session
  is followed, when a new session replaces the followed one, and the volume
  ramp and save/restore `fadeAndPause` performs around the pause.

  The audio stream is a `Mixer` value (current volume, the stream's minimum,
  and the saved pre-fade volume); what the controller does to it is a
  sequence of `AudioAction`s in order. The pause itself (transport control,
  700 ms retry, media-key fallback) is the single action `Pause`.
 */
module MediaController {
  import opened Options
  import opened KotlinMath
  import opened StickyTypes

  // `android.media.session.PlaybackState` state codes.
  const StateNone: int := 0
  const StateStopped: int := 1
  const StatePaused: int := 2
  const StatePlaying: int := 3
  const StateFastForwarding: int := 4
  const StateRewinding: int := 5
  const StateBuffering: int := 6
  const StateError: int := 7
  const StateConnecting: int := 8
  const StateSkippingToPrevious: int := 9
  const StateSkippingToNext: int := 10
  const StateSkippingToQueueItem: int := 11

  /** The platform codes that mean "about to play, or moving within the item". */
  predicate IsTransitional(code: int) {
    code == StateBuffering || code == StateConnecting || code == StateFastForwarding || code == StateRewinding
  }

  /** `mapPlaybackState`; a missing playback state is `None`. */
  function MapPlaybackState(state: Option<int>): (r: PlaybackState)
    ensures r == Playing <==> state == Some(StatePlaying)
    ensures r == Paused <==> state == Some(StatePaused)
    ensures r == Stopped <==> state == Some(StateStopped)
    ensures r == Buffering <==> state.Some? && IsTransitional(state.value)
    ensures r == Unknown <==> (state.None? ||
      (state.value != StatePlaying && state.value != StatePaused && state.value != StateStopped && !IsTransitional(state.value)))
  {
    match state
    case None => Unknown
    case Some(code) =>
      if code == StatePlaying then Playing
      else if code == StatePaused then Paused
      else if code == StateStopped then Stopped
      else if code == StateBuffering || code == StateConnecting
           || code == StateFastForwarding || code == StateRewinding then Buffering
      else Unknown
  }

  /** A session's playback state as the platform reports it. */
  datatype PlatformPlayback = PlatformPlayback(state: int, lastPositionUpdateTime: int)

  /** A media session controller: its session token and its playback state, if any. */
  datatype Controller = Controller(token: int, playback: Option<PlatformPlayback>)

  predicate IsPlaying(c: Controller) {
    c.playback.Some? && c.playback.value.state == StatePlaying
  }

  /** `lastPositionUpdateTime`, 0 when there is no playback state. */
  function UpdateTime(c: Controller): int {
    if c.playback.Some? then c.playback.value.lastPositionUpdateTime else 0
  }

  /** The engine playback state a controller reports. */
  function ReportedState(c: Controller): PlaybackState {
    MapPlaybackState(if c.playback.Some? then Some(c.playback.value.state) else None)
  }

  /** `firstOrNull { it is PLAYING }`, as an index. */
  function FirstPlaying(cs: seq<Controller>): (r: Option<nat>)
    ensures r.Some? ==> r.value < |cs| && IsPlaying(cs[r.value])
    ensures r.Some? ==> forall j :: 0 <= j < r.value ==> !IsPlaying(cs[j])
    ensures r.None? <==> forall j :: 0 <= j < |cs| ==> !IsPlaying(cs[j])
    decreases |cs|
  {
    if |cs| == 0 then None
    else if IsPlaying(cs[0]) then Some(0)
    else
      match FirstPlaying(cs[1..])
      case None => None
      case Some(i) => Some(i + 1)
  }

  /**
    `maxByOrNull { lastPositionUpdateTime ?: 0 }` as a definition, by
    recursion on the prefix: the last controller replaces the best of the
    ones before it only when its key is strictly greater, so ties go to the
    earliest controller.
   */
  function LatestUpdated(cs: seq<Controller>): (r: Option<nat>)
    ensures r.None? <==> |cs| == 0
    ensures r.Some? ==> r.value < |cs|
    ensures r.Some? ==> forall j :: 0 <= j < |cs| ==> UpdateTime(cs[j]) <= UpdateTime(cs[r.value])
    ensures r.Some? ==> forall j :: 0 <= j < r.value ==> UpdateTime(cs[j]) < UpdateTime(cs[r.value])
    decreases |cs|
  {
    if |cs| == 0 then None
    else
      var last := |cs| - 1;
      match LatestUpdated(cs[..last])
      case None => Some(0)
      case Some(i) =>
        assert cs[..last][i] == cs[i];
        if UpdateTime(cs[i]) < UpdateTime(cs[last]) then Some(last) else Some(i)
  }

  /**
    `maxByOrNull { lastPositionUpdateTime ?: 0 }`, as an index: the library
    keeps the running maximum and replaces it only on a strictly greater key,
    which is the fold `LatestUpdated` describes.
   */
  method MaxByUpdateTime(cs: seq<Controller>) returns (r: Option<nat>)
    ensures r == LatestUpdated(cs)
    ensures r.None? <==> |cs| == 0
    ensures r.Some? ==> r.value < |cs|
    ensures r.Some? ==> forall j :: 0 <= j < |cs| ==> UpdateTime(cs[j]) <= UpdateTime(cs[r.value])
    ensures r.Some? ==> forall j :: 0 <= j < r.value ==> UpdateTime(cs[j]) < UpdateTime(cs[r.value])
  {
    if |cs| == 0 {
      return None;
    }
    var best := 0;
    var bestKey := UpdateTime(cs[0]);
    var i := 1;
    while i < |cs|
      invariant 1 <= i <= |cs|
      invariant best < i && bestKey == UpdateTime(cs[best])
      invariant forall j :: 0 <= j < i ==> UpdateTime(cs[j]) <= bestKey
      invariant forall j :: 0 <= j < best ==> UpdateTime(cs[j]) < bestKey
      invariant LatestUpdated(cs[..i]) == Some(best)
    {
      var key := UpdateTime(cs[i]);
      assert cs[..i + 1][..i] == cs[..i];
      assert cs[..i + 1][i] == cs[i] && cs[..i + 1][best] == cs[best];
      if bestKey < key {
        best, bestKey := i, key;
      }
      i := i + 1;
    }
    assert cs[..i] == cs;
    return Some(best);
  }

  /**
    What `selectController` promises of the index it picks: none exactly
    for an empty list; the first PLAYING controller when one plays; else
    the controller updated most recently, the earliest of any tie.
   */
  predicate IsSelection(cs: seq<Controller>, r: Option<nat>) {
    && (r.None? <==> |cs| == 0)
    && (r.Some? ==> r.value < |cs|)
    && (r.Some? && IsPlaying(cs[r.value]) ==> forall j :: 0 <= j < r.value ==> !IsPlaying(cs[j]))
    && ((exists j :: 0 <= j < |cs| && IsPlaying(cs[j])) ==> r.Some? && IsPlaying(cs[r.value]))
    && (r.Some? && (forall j :: 0 <= j < |cs| ==> !IsPlaying(cs[j])) ==>
          && (forall j :: 0 <= j < |cs| ==> UpdateTime(cs[j]) <= UpdateTime(cs[r.value]))
          && (forall j :: 0 <= j < r.value ==> UpdateTime(cs[j]) < UpdateTime(cs[r.value])))
  }

  /** `selectController` as a definition: `firstOrNull` PLAYING, else `maxByOrNull`. */
  function Selection(cs: seq<Controller>): (r: Option<nat>)
    ensures IsSelection(cs, r)
  {
    if FirstPlaying(cs).Some? then FirstPlaying(cs) else LatestUpdated(cs)
  }

  /** The promise pins the index down: any index that keeps it is `Selection`'s. */
  lemma SelectionUnique(cs: seq<Controller>, r: Option<nat>)
    requires IsSelection(cs, r)
    ensures r == Selection(cs)
  {
    var s := Selection(cs);
    if r.Some? && s.Some? {
      var a, b := r.value, s.value;
      if exists j :: 0 <= j < |cs| && IsPlaying(cs[j]) {
        assert IsPlaying(cs[a]) && IsPlaying(cs[b]);
        assert !(a < b) && !(b < a);
      } else {
        assert UpdateTime(cs[a]) <= UpdateTime(cs[b]) && UpdateTime(cs[b]) <= UpdateTime(cs[a]);
        assert !(a < b) && !(b < a);
      }
    }
  }

  /**
    `selectController`: the first PLAYING controller, else the one updated
    most recently (earliest on ties), else none for an empty list.
   */
  method SelectController(cs: seq<Controller>) returns (r: Option<nat>)
    ensures IsSelection(cs, r)
    ensures r == Selection(cs)
  {
    r := FirstPlaying(cs);
    if r.None? {
      r := MaxByUpdateTime(cs);
    }
  }

  /** The controller a selected index names. */
  function ControllerAt(cs: seq<Controller>, r: Option<nat>): (c: Option<Controller>)
    requires r.None? || r.value < |cs|
    ensures c.None? <==> r.None?
    ensures c.Some? ==> c.value == cs[r.value]
  {
    if r.Some? then Some(cs[r.value]) else None
  }

  function TokenOf(c: Option<Controller>): Option<int> {
    if c.Some? then Some(c.value.token) else None
  }

  /**
    `updateActiveController`: when the selected session has the followed
    session's token (both none counts as equal) nothing changes and nothing
    is reported; otherwise the selection is followed from now on and its
    playback state is reported to the engine at once.
   */
  method UpdateActiveController(active: Option<Controller>, cs: seq<Controller>)
    returns (next: Option<Controller>, report: Option<PlaybackState>)
    ensures TokenOf(next) == TokenOf(active) ==> next == active && report.None?
    ensures next != active ==> report.Some?
    ensures next != active ==> next.None? || next.value in cs
    ensures next.None? <==> |cs| == 0
    ensures report.Some? ==> report.value == (if next.Some? then ReportedState(next.value) else Unknown)
    ensures |cs| == 0 && active.Some? ==> report == Some(Unknown)
    ensures (exists j :: 0 <= j < |cs| && IsPlaying(cs[j])) && report.Some? ==> report == Some(Playing)
    ensures var selected := ControllerAt(cs, Selection(cs));
      next == (if TokenOf(selected) == TokenOf(active) then active else selected)
  {
    var i := SelectController(cs);
    var selected := ControllerAt(cs, i);
    if TokenOf(selected) == TokenOf(active) {
      return active, None;
    }
    next := selected;
    report := Some(if selected.Some? then ReportedState(selected.value) else Unknown);
  }

  // ---------------------------------------------------------------------
  // The volume ramp.

  /** Number of volume steps in a fade of `fadeMs` (> 0): one per whole 250 ms, at least 1 and at most 20. */
  function RampSteps(fadeMs: int): (steps: int)
    requires fadeMs > 0
    ensures 1 <= steps <= 20
    ensures steps <= fadeMs
    ensures fadeMs < 500 ==> steps == 1
    ensures 250 <= fadeMs <= 5_000 ==> steps == fadeMs / 250
    ensures 5_000 <= fadeMs ==> steps == 20
  {
    CoerceIn(Div(fadeMs, 250), 1, 20)
  }

  /** Delay between steps: an even share of the fade, at least 1 ms. */
  function StepDelay(fadeMs: int, steps: int): (d: int)
    requires fadeMs > 0 && 1 <= steps <= fadeMs
    ensures 1 <= d
    ensures steps * d <= fadeMs
    ensures fadeMs - steps < steps * d
  {
    var q := Div(fadeMs, steps);
    assert q * steps <= fadeMs < (q + 1) * steps;
    CoerceAtLeast(q, 1)
  }

  /** Whole fades spend at most the fade length sleeping between steps, and each step is at least 1 ms. */
  lemma RampFitsInFade(fadeMs: int)
    requires fadeMs > 0
    ensures RampSteps(fadeMs) * StepDelay(fadeMs, RampSteps(fadeMs)) <= fadeMs
    ensures 1 <= StepDelay(fadeMs, RampSteps(fadeMs))
  {
  }

  /** The volume set at step `step` (counting down from `steps` to 1). */
  function RampTarget(current: int, minVolume: int, step: int, steps: int): int
    requires minVolume < current && 1 <= step <= steps
  {
    minVolume + Div((current - minVolume) * step, steps)
  }

  lemma MulMonotone(a: int, x: int, y: int)
    requires 0 <= a && x <= y
    ensures a * x <= a * y
  {
    assert a * y - a * x == a * (y - x);
  }

  lemma DivMonotone(a: int, b: int, c: int)
    requires 0 <= a <= b && 0 < c
    ensures a / c <= b / c
  {
    var qa, qb := a / c, b / c;
    assert c * qa <= a && b < c * qb + c;
    if qa > qb {
      MulMonotone(c, qb + 1, qa);
      assert false;
    }
  }

  lemma MulDivCancel(a: int, c: int)
    requires 0 < c
    ensures (a * c) / c == a
  {
    var q := (a * c) / c;
    var r := (a * c) % c;
    assert a * c == c * q + r && 0 <= r < c;
    assert c * (a - q) == r;
    if a - q >= 1 {
      MulMonotone(c, 1, a - q);
    } else if a - q <= -1 {
      MulMonotone(c, 1, q - a);
    }
  }

  /** (span * step) / steps lies in [0, span] and is span at the first step. */
  lemma ScaledInRange(span: int, step: int, steps: int)
    requires 0 < span && 1 <= step <= steps
    ensures 0 <= (span * step) / steps <= span
    ensures step == steps ==> (span * step) / steps == span
  {
    MulMonotone(span, 0, step);
    MulMonotone(span, step, steps);
    DivMonotone(span * step, span * steps, steps);
    MulDivCancel(span, steps);
  }

  lemma ScaledMonotone(span: int, step: int, steps: int)
    requires 0 < span && 1 < step <= steps
    ensures (span * (step - 1)) / steps <= (span * step) / steps
  {
    MulMonotone(span, 0, step - 1);
    MulMonotone(span, step - 1, step);
    DivMonotone(span * (step - 1), span * step, steps);
  }

  /** Targets lie between the minimum and the starting volume, start at it, and fall as the step counts down. */
  lemma RampTargetFacts(current: int, minVolume: int, step: int, steps: int)
    requires minVolume < current && 1 <= step <= steps
    ensures minVolume <= RampTarget(current, minVolume, step, steps) <= current
    ensures step == steps ==> RampTarget(current, minVolume, step, steps) == current
    ensures 1 < step ==> RampTarget(current, minVolume, step - 1, steps) <= RampTarget(current, minVolume, step, steps)
  {
    var span := current - minVolume;
    var hi := span * step;
    MulMonotone(span, 0, step);
    ScaledInRange(span, step, steps);
    assert RampTarget(current, minVolume, step, steps) == minVolume + hi / steps;
    if 1 < step {
      var lo := span * (step - 1);
      MulMonotone(span, 0, step - 1);
      ScaledInRange(span, step - 1, steps);
      ScaledMonotone(span, step, steps);
      assert RampTarget(current, minVolume, step - 1, steps) == minVolume + lo / steps;
    }
  }

  /** The targets of the `for (step in steps downTo 1)` loop, in order. */
  method RampTargets(current: int, minVolume: int, steps: int) returns (targets: seq<int>)
    requires minVolume < current && 1 <= steps
    ensures |targets| == steps
    ensures targets[0] == current
    ensures forall i :: 0 <= i < steps ==> targets[i] == RampTarget(current, minVolume, steps - i, steps)
    ensures forall i :: 0 <= i < steps ==> minVolume <= targets[i] <= current
    ensures forall i, j :: 0 <= i <= j < steps ==> targets[j] <= targets[i]
  {
    targets := [];
    var step := steps;
    while step >= 1
      invariant 0 <= step <= steps
      invariant |targets| == steps - step
      invariant forall i :: 0 <= i < |targets| ==> targets[i] == RampTarget(current, minVolume, steps - i, steps)
      invariant forall i :: 0 <= i < |targets| ==> minVolume <= targets[i] <= current
      invariant forall i, j :: 0 <= i <= j < |targets| ==> targets[j] <= targets[i]
      decreases step
    {
      var target := RampTarget(current, minVolume, step, steps);
      RampTargetFacts(current, minVolume, step, steps);
      if step < steps {
        RampTargetFacts(current, minVolume, step + 1, steps);
        assert targets[|targets| - 1] == RampTarget(current, minVolume, step + 1, steps);
      }
      targets := targets + [target];
      step := step - 1;
    }
    RampTargetFacts(current, minVolume, steps, steps);
  }

  /** The music stream: its volume, its minimum, and the volume saved before a fade. */
  datatype Mixer = Mixer(volume: int, minVolume: int, preFadeVolume: Option<int>)

  /** `Pause` is the call to `pauseWithRetry`, which does nothing when no controller is followed. */
  datatype AudioAction = SetVolume(volume: int) | Wait(ms: int) | Pause

  /** Volume changes in a sequence of actions. */
  function VolumeSets(actions: seq<AudioAction>): seq<int>
    decreases |actions|
  {
    if |actions| == 0 then []
    else (if actions[0].SetVolume? then [actions[0].volume] else []) + VolumeSets(actions[1..])
  }

  /** Milliseconds spent waiting in a sequence of actions. */
  function WaitedMs(actions: seq<AudioAction>): int
    decreases |actions|
  {
    if |actions| == 0 then 0
    else (if actions[0].Wait? then actions[0].ms else 0) + WaitedMs(actions[1..])
  }

  /** The mixer after a sequence of actions: every `SetVolume` sets the volume. */
  function Apply(m: Mixer, actions: seq<AudioAction>): Mixer
    decreases |actions|
  {
    if |actions| == 0 then m
    else Apply(if actions[0].SetVolume? then m.(volume := actions[0].volume) else m, actions[1..])
  }

  lemma {:induction false} ActionsAppend(m: Mixer, a: seq<AudioAction>, b: seq<AudioAction>)
    ensures VolumeSets(a + b) == VolumeSets(a) + VolumeSets(b)
    ensures WaitedMs(a + b) == WaitedMs(a) + WaitedMs(b)
    ensures Apply(m, a + b) == Apply(Apply(m, a), b)
  {
    TallyAppend(a, b);
    ApplyAppend(m, a, b);
  }

  lemma {:induction false} TallyAppend(a: seq<AudioAction>, b: seq<AudioAction>)
    ensures VolumeSets(a + b) == VolumeSets(a) + VolumeSets(b)
    ensures WaitedMs(a + b) == WaitedMs(a) + WaitedMs(b)
    decreases |a|
  {
    if |a| == 0 {
      assert a + b == b;
    } else {
      var ab := a + b;
      assert ab[0] == a[0];
      assert ab[1..] == a[1..] + b;
      TallyAppend(a[1..], b);
      var v: seq<int> := if a[0].SetVolume? then [a[0].volume] else [];
      assert VolumeSets(ab) == v + (VolumeSets(a[1..]) + VolumeSets(b));
      assert v + (VolumeSets(a[1..]) + VolumeSets(b)) == (v + VolumeSets(a[1..])) + VolumeSets(b);
    }
  }

  lemma {:induction false} ApplyAppend(m: Mixer, a: seq<AudioAction>, b: seq<AudioAction>)
    ensures Apply(m, a + b) == Apply(Apply(m, a), b)
    decreases |a|
  {
    if |a| == 0 {
      assert a + b == b;
    } else {
      assert (a + b)[0] == a[0];
      assert (a + b)[1..] == a[1..] + b;
      ApplyAppend(if a[0].SetVolume? then m.(volume := a[0].volume) else m, a[1..], b);
    }
  }

  /** Actions only ever change the volume; the final volume is the last one set, if any. */
  lemma {:induction false} ApplyFacts(m: Mixer, actions: seq<AudioAction>)
    ensures Apply(m, actions) == m.(volume := Apply(m, actions).volume)
    ensures VolumeSets(actions) == [] ==> Apply(m, actions) == m
    ensures VolumeSets(actions) != [] ==> Apply(m, actions).volume == VolumeSets(actions)[|VolumeSets(actions)| - 1]
    decreases |actions|
  {
    if |actions| > 0 {
      ApplyFacts(if actions[0].SetVolume? then m.(volume := actions[0].volume) else m, actions[1..]);
    }
  }

  lemma OneAction(a: AudioAction)
    ensures VolumeSets([a]) == (if a.SetVolume? then [a.volume] else [])
    ensures WaitedMs([a]) == (if a.Wait? then a.ms else 0)
  {
    assert [a][1..] == [];
  }

  /**
    `restoreVolumeIfNeeded`: with a saved volume, set the stream back to it
    and forget it; without one, do nothing.
   */
  function RestoreVolumeIfNeeded(m: Mixer): (r: (Mixer, seq<AudioAction>))
    ensures r.0.preFadeVolume.None?
    ensures r.0.minVolume == m.minVolume
    ensures m.preFadeVolume.None? ==> r.0 == m && r.1 == []
    ensures m.preFadeVolume.Some? ==> r.0.volume == m.preFadeVolume.value && VolumeSets(r.1) == [m.preFadeVolume.value]
    ensures WaitedMs(r.1) == 0
  {
    match m.preFadeVolume
    case None => (m, [])
    case Some(v) =>
      OneAction(SetVolume(v));
      (m.(volume := v, preFadeVolume := None), [SetVolume(v)])
  }

  /** Restoring twice is restoring once, and the restore actions put the mixer in the restored state. */
  lemma RestoreIdempotent(m: Mixer)
    ensures RestoreVolumeIfNeeded(RestoreVolumeIfNeeded(m).0) == (RestoreVolumeIfNeeded(m).0, [])
    ensures Apply(m, RestoreVolumeIfNeeded(m).1).(preFadeVolume := None) == RestoreVolumeIfNeeded(m).0
  {
    ApplyFacts(m, RestoreVolumeIfNeeded(m).1);
  }

  /** Each ramp target is set, then the step delay is waited. */
  function RampActions(targets: seq<int>, delay: int): (actions: seq<AudioAction>)
    ensures VolumeSets(actions) == targets
    ensures WaitedMs(actions) == |targets| * delay
    decreases |targets|
  {
    if |targets| == 0 then []
    else
      var rest := RampActions(targets[1..], delay);
      var head := [SetVolume(targets[0]), Wait(delay)];
      OneAction(SetVolume(targets[0]));
      OneAction(Wait(delay));
      assert head == [SetVolume(targets[0])] + [Wait(delay)];
      TallyAppend([SetVolume(targets[0])], [Wait(delay)]);
      TallyAppend(head, rest);
      assert [targets[0]] + targets[1..] == targets;
      MulSucc(|targets[1..]|, delay);
      head + rest
  }

  lemma MulSucc(n: nat, d: int)
    ensures (n + 1) * d == d + n * d
  {
  }

  /**
    The volume work of a positive fade, while the lock is held: step the
    volume down from its current value when it is above the minimum, else
    wait out the fade.
   */
  method Ramp(m: Mixer, fadeMs: int) returns (ramp: seq<AudioAction>)
    requires 0 < fadeMs
    ensures Pause !in ramp
    ensures m.volume <= m.minVolume ==> VolumeSets(ramp) == [] && WaitedMs(ramp) == fadeMs
    ensures m.minVolume < m.volume ==>
      && |VolumeSets(ramp)| == RampSteps(fadeMs)
      && VolumeSets(ramp)[0] == m.volume
      && (forall i :: 0 <= i < |VolumeSets(ramp)| ==> m.minVolume <= VolumeSets(ramp)[i] <= m.volume)
      && (forall i, j :: 0 <= i <= j < |VolumeSets(ramp)| ==> VolumeSets(ramp)[j] <= VolumeSets(ramp)[i])
      && WaitedMs(ramp) <= fadeMs
  {
    if m.volume > m.minVolume {
      var steps := RampSteps(fadeMs);
      var delay := StepDelay(fadeMs, steps);
      var targets := RampTargets(m.volume, m.minVolume, steps);
      ramp := RampActions(targets, delay);
      assert Pause !in ramp by {
        RampHasNoPause(targets, delay);
      }
    } else {
      ramp := [Wait(fadeMs)];
      OneAction(Wait(fadeMs));
    }
  }

  lemma {:induction false} RampHasNoPause(targets: seq<int>, delay: int)
    ensures Pause !in RampActions(targets, delay)
    decreases |targets|
  {
    if |targets| > 0 {
      RampHasNoPause(targets[1..], delay);
    }
  }

  /**
    `fadeAndPause`. A non-positive fade pauses at once and restores any
    volume left saved. Otherwise the current volume is saved, the volume is
    ramped down (`Ramp`), playback is paused, and the saved volume is put
    back, so the stream ends at the volume it started from.
   */
  method FadeAndPause(m: Mixer, fadeMs: int) returns (r: Mixer, actions: seq<AudioAction>)
    ensures r.preFadeVolume.None?
    ensures r == Apply(m, actions).(preFadeVolume := None)
    ensures Pause in actions
    ensures fadeMs <= 0 ==> VolumeSets(actions) == (if m.preFadeVolume.Some? then [m.preFadeVolume.value] else [])
    ensures fadeMs <= 0 ==> WaitedMs(actions) == 0
    ensures 0 < fadeMs ==> r == m.(preFadeVolume := None)
    ensures 0 < fadeMs ==> |VolumeSets(actions)| > 0 && VolumeSets(actions)[|VolumeSets(actions)| - 1] == m.volume
    ensures 0 < fadeMs && m.volume <= m.minVolume ==> VolumeSets(actions) == [m.volume] && WaitedMs(actions) == fadeMs
    ensures 0 < fadeMs && m.minVolume < m.volume ==>
      && |VolumeSets(actions)| == RampSteps(fadeMs) + 1
      && VolumeSets(actions)[0] == m.volume
      && (forall i :: 0 <= i < |VolumeSets(actions)| ==> m.minVolume <= VolumeSets(actions)[i] <= m.volume)
      && (forall i, j :: 0 <= i <= j < RampSteps(fadeMs) ==> VolumeSets(actions)[j] <= VolumeSets(actions)[i])
      && WaitedMs(actions) <= fadeMs
  {
    OneAction(Pause);
    if fadeMs <= 0 {
      var restored := RestoreVolumeIfNeeded(m);
      actions := [Pause] + restored.1;
      ActionsAppend(m, [Pause], restored.1);
      RestoreIdempotent(m);
      assert Apply(m, [Pause]) == m by { ApplyFacts(m, [Pause]); }
      r := restored.0;
      return;
    }
    var ramp := Ramp(m, fadeMs);
    var tail := [Pause, SetVolume(m.volume)];
    assert tail[1..] == [SetVolume(m.volume)] && tail[1..][1..] == [];
    assert VolumeSets(tail) == [m.volume] && WaitedMs(tail) == 0;
    actions := ramp + tail;
    ActionsAppend(m, ramp, tail);
    ApplyFacts(m, actions);
    assert actions[|ramp|] == Pause;
    r := m.(preFadeVolume := None);
  }
}
