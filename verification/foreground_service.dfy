/**
  The decisions of StickyForegroundService.kt: the countdown text, the
  status line per phase, and the latch that reacts to published snapshots
  and to start commands by starting, updating or stopping the foreground
  notification.

  The Android calls become `ServiceAction`s in order: `startForeground`
  with a built notification is `StartForeground`, `notify` is
  `UpdateNotification`, `stopForeground` + `stopSelf` is `StopService`, and
  the coordinator's `disable` is `DisableEngine`. What the coordinator's
  `enable` answers is a parameter.
 */
module ForegroundService {
  import opened Options
  import opened KotlinMath
  import opened Text
  import opened StickyTypes

  // ---------------------------------------------------------------------
  // `formatRemainingSession`.

  /** Whole seconds left, rounded up; a negative remainder counts as none. */
  function RemainingSeconds(remainingMs: int): (t: int)
    ensures 0 <= t
    ensures CoerceAtLeast(remainingMs, 0) <= t * 1000 < CoerceAtLeast(remainingMs, 0) + 1000
    ensures t == 0 <==> remainingMs <= 0
  {
    Div(CoerceAtLeast(remainingMs, 0) + 999, 1000)
  }

  /** Minutes and seconds of a non-negative number of seconds. */
  function ClockParts(totalSeconds: int): (r: (int, int))
    requires 0 <= totalSeconds
    ensures 0 <= r.0 && 0 <= r.1 < 60
    ensures r.0 * 60 + r.1 == totalSeconds
  {
    (Div(totalSeconds, 60), Rem(totalSeconds, 60))
  }

  /** `"%d:%02d"` of the rounded-up minutes and seconds left. */
  function FormatRemainingSession(remainingMs: int): string {
    var parts := ClockParts(RemainingSeconds(remainingMs));
    Decimal(parts.0) + [':'] + PadTwo(parts.1)
  }

  /** Reads an `m:ss` text back as a number of seconds. */
  function ParseClock(s: string): Option<int> {
    match IndexOf(s, ':')
    case None => None
    case Some(i) =>
      var minutes := s[..i];
      var seconds := s[i + 1..];
      if 1 <= |minutes| && AllDigits(minutes) && |seconds| == 2 && AllDigits(seconds) && ValueOf(seconds) < 60
      then Some(ValueOf(minutes) * 60 + ValueOf(seconds))
      else None
  }

  /** The countdown text reads back as exactly the rounded-up seconds left. */
  lemma FormatRemainingSessionRoundTrip(remainingMs: int)
    ensures ParseClock(FormatRemainingSession(remainingMs)) == Some(RemainingSeconds(remainingMs))
  {
    var parts := ClockParts(RemainingSeconds(remainingMs));
    var m := Decimal(parts.0);
    var ss := PadTwo(parts.1);
    var s := m + [':'] + ss;
    IndexOfAfterDigits(m, ':', ss);
    assert s[..|m|] == m;
    assert s[|m| + 1..] == ss;
    ValueOfDecimal(parts.0);
  }

  /** Two remainders show the same text exactly when they round up to the same second. */
  lemma FormatRemainingSessionInjective(a: int, b: int)
    ensures FormatRemainingSession(a) == FormatRemainingSession(b) <==> RemainingSeconds(a) == RemainingSeconds(b)
  {
    FormatRemainingSessionRoundTrip(a);
    FormatRemainingSessionRoundTrip(b);
  }

  // ---------------------------------------------------------------------
  // `statusText`.

  /** The notification's status line, by string resource. */
  datatype StatusLine =
    | IdleText
    | RunningWithRemaining(remaining: string)
    | FadingText
    | RecentStopText
    | ExpiredText

  function StatusText(snapshot: Snapshot): (r: StatusLine)
    ensures r.RunningWithRemaining? <==> snapshot.phase == SessionRunning
    ensures r.RunningWithRemaining? ==> ParseClock(r.remaining) == Some(RemainingSeconds(snapshot.remainingSessionMs))
    ensures r == IdleText <==> snapshot.phase == Off || snapshot.phase == OnIdle
  {
    match snapshot.phase
    case Off => IdleText
    case OnIdle => IdleText
    case SessionRunning =>
      FormatRemainingSessionRoundTrip(snapshot.remainingSessionMs);
      RunningWithRemaining(FormatRemainingSession(snapshot.remainingSessionMs))
    case Fading => FadingText
    case StoppedRecently => RecentStopText
    case Expired => ExpiredText
  }

  /** Apart from OFF and ON_IDLE sharing the idle text, distinct phases give distinct lines. */
  lemma StatusTextDistinguishesPhases(a: Snapshot, b: Snapshot)
    requires StatusText(a) == StatusText(b)
    ensures a.phase == b.phase || ({a.phase, b.phase} == {Off, OnIdle})
  {
  }

  // ---------------------------------------------------------------------
  // The service latch.

  datatype ServiceState = ServiceState(notificationStarted: bool, hasEverBeenEnabled: bool, stopIssued: bool)

  datatype ServiceAction =
    | StartForeground(status: StatusLine)
    | UpdateNotification(status: StatusLine)
    | StopService
    | DisableEngine

  /** The intent actions the service handles; anything else is `OtherAction`. */
  datatype Command = ActionEnable | ActionDisable | ActionNotificationStop | OtherAction

  datatype ServiceInput =
    | Published(snapshot: Snapshot)
    /** `current` is the status store's value; `enableAccepted` what the coordinator's `enable` answers. */
    | Started(command: Command, current: Snapshot, enableAccepted: bool)

  datatype Reaction = Reaction(state: ServiceState, actions: seq<ServiceAction>)

  /** `ensureForeground`: start the foreground notification the first time, update it after. */
  function EnsureForeground(s: ServiceState, snapshot: Snapshot): (r: Reaction)
    ensures r.state.notificationStarted
    ensures r.state.hasEverBeenEnabled == s.hasEverBeenEnabled && r.state.stopIssued == s.stopIssued
    ensures !s.notificationStarted ==> r.actions == [StartForeground(StatusText(snapshot))]
    ensures s.notificationStarted ==> r.actions == [UpdateNotification(StatusText(snapshot))]
  {
    if !s.notificationStarted then Reaction(s.(notificationStarted := true), [StartForeground(StatusText(snapshot))])
    else Reaction(s, [UpdateNotification(StatusText(snapshot))])
  }

  /** The reaction to one snapshot from the status store. */
  function OnSnapshot(s: ServiceState, snapshot: Snapshot): Reaction {
    if snapshot.isEnabled then EnsureForeground(s.(hasEverBeenEnabled := true), snapshot)
    else if s.hasEverBeenEnabled && !s.stopIssued then Reaction(s.(stopIssued := true), [StopService])
    else if s.notificationStarted then Reaction(s, [UpdateNotification(StatusText(snapshot))])
    else Reaction(s, [])
  }

  /** `onStartCommand`. */
  function OnStartCommand(s: ServiceState, command: Command, current: Snapshot, enableAccepted: bool): Reaction {
    match command
    case ActionEnable =>
      var started := EnsureForeground(s, current);
      if enableAccepted then started else Reaction(started.state, started.actions + [StopService])
    case ActionDisable => Reaction(s.(stopIssued := true), [DisableEngine, StopService])
    case ActionNotificationStop => Reaction(s.(stopIssued := true), [DisableEngine, StopService])
    case OtherAction => Reaction(s, [])
  }

  function React(s: ServiceState, input: ServiceInput): Reaction {
    match input
    case Published(snapshot) => OnSnapshot(s, snapshot)
    case Started(command, current, accepted) => OnStartCommand(s, command, current, accepted)
  }

  /** A sequence of inputs, handled one at a time on the main thread. */
  function ReactAll(s: ServiceState, inputs: seq<ServiceInput>): Reaction
    decreases |inputs|
  {
    if |inputs| == 0 then Reaction(s, [])
    else
      var first := React(s, inputs[0]);
      var rest := ReactAll(first.state, inputs[1..]);
      Reaction(rest.state, first.actions + rest.actions)
  }

  function CountStops(actions: seq<ServiceAction>): nat
    decreases |actions|
  {
    if |actions| == 0 then 0 else (if actions[0] == StopService then 1 else 0) + CountStops(actions[1..])
  }

  function CountStarts(actions: seq<ServiceAction>): nat
    decreases |actions|
  {
    if |actions| == 0 then 0 else (if actions[0].StartForeground? then 1 else 0) + CountStarts(actions[1..])
  }

  lemma {:induction false} CountsAppend(a: seq<ServiceAction>, b: seq<ServiceAction>)
    ensures CountStops(a + b) == CountStops(a) + CountStops(b)
    ensures CountStarts(a + b) == CountStarts(a) + CountStarts(b)
    decreases |a|
  {
    if |a| == 0 {
      assert a + b == b;
    } else {
      assert (a + b)[0] == a[0];
      assert (a + b)[1..] == a[1..] + b;
      CountsAppend(a[1..], b);
    }
  }

  lemma CountsOfOne(x: ServiceAction)
    ensures CountStops([x]) == (if x == StopService then 1 else 0)
    ensures CountStarts([x]) == (if x.StartForeground? then 1 else 0)
  {
    assert [x][1..] == [];
  }

  /**
    One snapshot: an enabled one marks the service as having been enabled
    and shows the notification; a disabled one after an enable stops the
    service unless a stop was already issued; otherwise it only refreshes a
    notification that is showing. Each latch only ever turns on.
   */
  lemma OnSnapshotReaction(s: ServiceState, snapshot: Snapshot)
    ensures var r := OnSnapshot(s, snapshot);
      && (s.notificationStarted ==> r.state.notificationStarted)
      && (s.hasEverBeenEnabled ==> r.state.hasEverBeenEnabled)
      && (s.stopIssued ==> r.state.stopIssued)
      && (snapshot.isEnabled ==> r.state.hasEverBeenEnabled && r.state.notificationStarted)
      && CountStarts(r.actions) == (if snapshot.isEnabled && !s.notificationStarted then 1 else 0)
      && CountStops(r.actions) == (if !snapshot.isEnabled && s.hasEverBeenEnabled && !s.stopIssued then 1 else 0)
      && (CountStops(r.actions) == 1 ==> r.state.stopIssued)
      && (!snapshot.isEnabled && !(s.hasEverBeenEnabled && !s.stopIssued) ==>
            r.state == s && r.actions == (if s.notificationStarted then [UpdateNotification(StatusText(snapshot))] else []))
  {
    var r := OnSnapshot(s, snapshot);
    if snapshot.isEnabled {
      CountsOfOne(r.actions[0]);
      assert r.actions == [r.actions[0]];
    } else if s.hasEverBeenEnabled && !s.stopIssued {
      CountsOfOne(StopService);
    } else if s.notificationStarted {
      CountsOfOne(UpdateNotification(StatusText(snapshot)));
    }
  }

  /** Whatever snapshots arrive, the service stops itself at most once, and never after a stop was issued. */
  lemma {:induction false} SnapshotsStopAtMostOnce(s: ServiceState, snapshots: seq<Snapshot>)
    ensures var r := ReactAll(s, AsPublished(snapshots));
      CountStops(r.actions) <= (if s.stopIssued then 0 else 1)
      && (s.stopIssued ==> r.state.stopIssued)
      && (CountStops(r.actions) == 1 ==> r.state.stopIssued)
    decreases |snapshots|
  {
    if |snapshots| > 0 {
      var inputs := AsPublished(snapshots);
      assert inputs[0] == Published(snapshots[0]);
      assert inputs[1..] == AsPublished(snapshots[1..]);
      var first := OnSnapshot(s, snapshots[0]);
      OnSnapshotReaction(s, snapshots[0]);
      SnapshotsStopAtMostOnce(first.state, snapshots[1..]);
      CountsAppend(first.actions, ReactAll(first.state, inputs[1..]).actions);
    }
  }

  /** The snapshots as service inputs. */
  function AsPublished(snapshots: seq<Snapshot>): (r: seq<ServiceInput>)
    ensures |r| == |snapshots|
    ensures forall i :: 0 <= i < |r| ==> r[i] == Published(snapshots[i])
  {
    seq(|snapshots|, i requires 0 <= i < |snapshots| => Published(snapshots[i]))
  }

  /** After an explicit disable or a stop from the notification, no snapshot stops the service again. */
  lemma DisableCommandSilencesSnapshots(s: ServiceState, command: Command, current: Snapshot, accepted: bool, snapshots: seq<Snapshot>)
    requires command == ActionDisable || command == ActionNotificationStop
    ensures var afterCommand := OnStartCommand(s, command, current, accepted);
      && afterCommand.state.stopIssued
      && CountStops(afterCommand.actions) == 1
      && CountStops(ReactAll(afterCommand.state, AsPublished(snapshots)).actions) == 0
  {
    var afterCommand := OnStartCommand(s, command, current, accepted);
    assert afterCommand.actions == [DisableEngine] + [StopService];
    CountsAppend([DisableEngine], [StopService]);
    CountsOfOne(DisableEngine);
    CountsOfOne(StopService);
    SnapshotsStopAtMostOnce(afterCommand.state, snapshots);
  }

  /** Over any mix of snapshots and commands, the foreground notification is started at most once. */
  lemma {:induction false} ForegroundStartedAtMostOnce(s: ServiceState, inputs: seq<ServiceInput>)
    ensures CountStarts(ReactAll(s, inputs).actions) <= (if s.notificationStarted then 0 else 1)
    ensures s.notificationStarted ==> ReactAll(s, inputs).state.notificationStarted
    ensures CountStarts(ReactAll(s, inputs).actions) == 1 ==> ReactAll(s, inputs).state.notificationStarted
    decreases |inputs|
  {
    if |inputs| > 0 {
      var first := React(s, inputs[0]);
      assert CountStarts(first.actions) <= (if s.notificationStarted then 0 else 1)
        && (s.notificationStarted ==> first.state.notificationStarted)
        && (CountStarts(first.actions) == 1 ==> first.state.notificationStarted) by {
        match inputs[0]
        case Published(snapshot) => OnSnapshotReaction(s, snapshot);
        case Started(command, current, accepted) =>
          var started := EnsureForeground(s, current);
          CountsOfOne(started.actions[0]);
          assert started.actions == [started.actions[0]];
          CountsAppend(started.actions, [StopService]);
          CountsOfOne(StopService);
          CountsAppend([DisableEngine], [StopService]);
          assert [DisableEngine, StopService] == [DisableEngine] + [StopService];
          CountsOfOne(DisableEngine);
      }
      ForegroundStartedAtMostOnce(first.state, inputs[1..]);
      CountsAppend(first.actions, ReactAll(first.state, inputs[1..]).actions);
    }
  }

  /** A disabled snapshot before the mode was ever enabled never stops the service. */
  lemma NoStopBeforeFirstEnable(s: ServiceState, snapshot: Snapshot)
    requires !s.hasEverBeenEnabled && !snapshot.isEnabled
    ensures CountStops(OnSnapshot(s, snapshot).actions) == 0
    ensures OnSnapshot(s, snapshot).state == s
  {
    OnSnapshotReaction(s, snapshot);
  }
}
