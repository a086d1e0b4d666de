/**
  The arithmetic of StickySettingsScreen.kt: the `Nm Ss` duration label,
  the tick count each duration slider is given, the max-window slider's
  minutes-to-seconds display and seconds-to-minutes persistence, how the
  slider ranges sit against the store's clamps, and the phase label.
 */
module SettingsScreen {
  import opened Options
  import opened KotlinMath
  import opened Text
  import opened StickyTypes
  import opened SettingsRepository

  // ---------------------------------------------------------------------
  // `formatDuration`.

  /** Minutes and seconds of `totalSeconds` with Kotlin's truncating `/` and `%`. */
  function DurationParts(totalSeconds: int): (r: (int, int))
    ensures r.0 * 60 + r.1 == totalSeconds
    ensures -60 < r.1 < 60
    ensures 0 <= totalSeconds ==> 0 <= r.0 && 0 <= r.1
    ensures totalSeconds <= 0 ==> r.0 <= 0 && r.1 <= 0
    ensures r.1 == 0 <==> totalSeconds % 60 == 0
  {
    var minutes := Div(totalSeconds, 60);
    var seconds := Rem(totalSeconds, 60);
    assert seconds == 0 <==> totalSeconds % 60 == 0 by {
      if seconds == 0 {
        assert totalSeconds == 60 * minutes;
      } else if totalSeconds % 60 == 0 {
        var k := totalSeconds / 60;
        assert totalSeconds == 60 * k;
        RemOfMultiple(k, minutes, seconds);
      }
    }
    (minutes, seconds)
  }

  /** A non-zero remainder below 60 in size cannot complete a multiple of 60. */
  lemma RemOfMultiple(k: int, q: int, r: int)
    requires 60 * k == 60 * q + r && -60 < r < 60
    ensures r == 0
  {
    assert r == 60 * (k - q);
  }

  /** `"${minutes}m"` when the seconds are zero, else `"${minutes}m ${seconds}s"`. */
  function FormatDuration(totalSeconds: int): (s: string)
    ensures 2 <= |s|
    ensures s[|s| - 1] == 'm' <==> totalSeconds % 60 == 0
    ensures s[|s| - 1] == 's' <==> totalSeconds % 60 != 0
  {
    var parts := DurationParts(totalSeconds);
    if parts.1 == 0 then IntString(parts.0) + "m"
    else IntString(parts.0) + "m " + IntString(parts.1) + "s"
  }

  /** Reads a non-negative `Nm` or `Nm Ss` label back as seconds. */
  function ParseDuration(s: string): Option<int> {
    match IndexOf(s, 'm')
    case None => None
    case Some(i) =>
      match (ParseNat(s[..i]), ParseSecondsPart(s[i + 1..]))
      case (Some(minutes), Some(seconds)) => Some(minutes * 60 + seconds)
      case _ => None
  }

  /** What follows the `m`: nothing (no seconds), or ` Ss`. */
  function ParseSecondsPart(rest: string): Option<nat> {
    if rest == [] then Some(0)
    else if 3 <= |rest| && rest[0] == ' ' && rest[|rest| - 1] == 's' then ParseNat(rest[1..|rest| - 1])
    else None
  }

  /** Every label of a non-negative duration reads back as that duration. */
  lemma FormatDurationRoundTrip(totalSeconds: int)
    requires 0 <= totalSeconds
    ensures ParseDuration(FormatDuration(totalSeconds)) == Some(totalSeconds)
  {
    var parts := DurationParts(totalSeconds);
    if parts.1 == 0 {
      WholeMinutesLabel(parts.0);
    } else {
      MinutesAndSecondsLabel(parts.0, parts.1);
    }
  }

  /** `Nm` reads back as N minutes. */
  lemma WholeMinutesLabel(minutes: nat)
    ensures ParseDuration(Decimal(minutes) + "m") == Some(minutes * 60)
  {
    var m := Decimal(minutes);
    assert m + "m" == m + ['m'] + [];
    ParseNatDecimal(minutes);
    ParseAfterMinutes(m, []);
  }

  /** `Nm Ss` reads back as N minutes and S seconds. */
  lemma MinutesAndSecondsLabel(minutes: nat, seconds: nat)
    ensures ParseDuration(Decimal(minutes) + "m " + Decimal(seconds) + "s") == Some(minutes * 60 + seconds)
  {
    hide *;
    var m := Decimal(minutes);
    var tail := " " + Decimal(seconds) + "s";
    assert Decimal(minutes) + "m " + Decimal(seconds) + "s" == m + ['m'] + tail;
    ParseNatDecimal(minutes);
    SecondsPartLabel(seconds);
    ParseAfterMinutes(m, tail);
  }

  /** ` Ss` reads back as S seconds. */
  lemma SecondsPartLabel(seconds: nat)
    ensures ParseSecondsPart(" " + Decimal(seconds) + "s") == Some(seconds)
  {
    var tail := " " + Decimal(seconds) + "s";
    assert tail[1..|tail| - 1] == Decimal(seconds);
    ParseNatDecimal(seconds);
  }

  /** After the minute digits and their `m`, the parse reads the minutes and what follows. */
  lemma ParseAfterMinutes(m: string, rest: string)
    requires AllDigits(m)
    ensures ParseDuration(m + ['m'] + rest)
         == match (ParseNat(m), ParseSecondsPart(rest))
            case (Some(minutes), Some(seconds)) => Some(minutes * 60 + seconds)
            case _ => None
  {
    var s := m + ['m'] + rest;
    IndexOfAfterDigits(m, 'm', rest);
    assert s[..|m|] == m;
    assert s[|m| + 1..] == rest;
  }

  // ---------------------------------------------------------------------
  // Duration sliders.

  /** A `DurationSlider`'s range and step, in seconds. */
  datatype Slider = Slider(minSeconds: int, maxSeconds: int, stepSeconds: int)

  const SessionSlider: Slider := Slider(10, 1800, 5)
  const FadeSlider: Slider := Slider(0, 60, 1)
  const ReengagementSlider: Slider := Slider(5, 180, 5)
  const MaxWindowSlider: Slider := Slider(15 * 60, 300 * 60, 5 * 60)

  /**
    The `steps` the Material slider is given: the number of tick marks
    strictly between the ends, one less than the number of whole steps in
    the range, and never negative.
   */
  function SliderSteps(sl: Slider): (steps: int)
    requires sl.stepSeconds != 0
    ensures 0 <= steps
    ensures 0 < sl.stepSeconds && sl.stepSeconds <= sl.maxSeconds - sl.minSeconds ==>
      steps + 1 == (sl.maxSeconds - sl.minSeconds) / sl.stepSeconds
    ensures 0 < sl.stepSeconds && sl.maxSeconds - sl.minSeconds < sl.stepSeconds ==> steps == 0
  {
    CoerceAtLeast(Div(sl.maxSeconds - sl.minSeconds, sl.stepSeconds), 1) - 1
  }

  /** The k-th stop of a slider, counting the lower end as stop 0. */
  function Stop(sl: Slider, k: nat): int {
    sl.minSeconds + k * sl.stepSeconds
  }

  /**
    With `SliderSteps` ticks between the ends, the slider has `SliderSteps + 2`
    stops, all inside the range, and for a range that is a whole number of
    steps the last one is the upper end.
   */
  lemma SliderStopsSpanRange(sl: Slider, k: nat)
    requires 0 < sl.stepSeconds && sl.stepSeconds <= sl.maxSeconds - sl.minSeconds
    requires k <= SliderSteps(sl) + 1
    ensures sl.minSeconds <= Stop(sl, k) <= sl.maxSeconds
    ensures k == SliderSteps(sl) + 1 && (sl.maxSeconds - sl.minSeconds) % sl.stepSeconds == 0 ==>
      Stop(sl, k) == sl.maxSeconds
  {
    var span := sl.maxSeconds - sl.minSeconds;
    var n := span / sl.stepSeconds;
    assert k <= n;
    assert n * sl.stepSeconds <= span by {
      assert span == sl.stepSeconds * n + span % sl.stepSeconds;
    }
    assert 0 <= k * sl.stepSeconds <= n * sl.stepSeconds by {
      MulLe(k, n, sl.stepSeconds);
    }
  }

  lemma MulLe(a: nat, b: int, c: int)
    requires a <= b && 0 < c
    ensures 0 <= a * c <= b * c
  {
    assert b * c - a * c == (b - a) * c;
  }

  /** The four sliders of the screen get 357, 59, 34 and 56 ticks. */
  lemma ScreenSliderSteps()
    ensures SliderSteps(SessionSlider) == 357
    ensures SliderSteps(FadeSlider) == 59
    ensures SliderSteps(ReengagementSlider) == 34
    ensures SliderSteps(MaxWindowSlider) == 56
  {
  }

  // ---------------------------------------------------------------------
  // The max-window slider works in seconds over a value stored in minutes.

  /** `maxActiveWindowMin * 60`: the slider position shown for the stored minutes. */
  function MaxWindowShownSeconds(minutes: int): (seconds: int)
    ensures seconds % 60 == 0
  {
    minutes * 60
  }

  /** `sec / 60`: the minutes persisted for a slider position. */
  function MaxWindowPersistedMinutes(seconds: int): (minutes: int)
    ensures 0 <= seconds ==> minutes * 60 <= seconds < minutes * 60 + 60
  {
    Div(seconds, 60)
  }

  /** Showing the stored minutes and persisting that position stores the same minutes again. */
  lemma MaxWindowRoundTrip(minutes: int)
    ensures MaxWindowPersistedMinutes(MaxWindowShownSeconds(minutes)) == minutes
  {
    var s := minutes * 60;
    if minutes < 0 {
      assert Div(s, 60) == -((-s) / 60);
      assert -s == (-minutes) * 60;
    }
  }

  /** Every stop of the max-window slider persists as a minute count the store keeps unchanged. */
  lemma MaxWindowStopsWithinClamp(k: nat)
    requires k <= SliderSteps(MaxWindowSlider) + 1
    ensures var minutes := MaxWindowPersistedMinutes(Stop(MaxWindowSlider, k));
      && minutes == 15 + 5 * k
      && Lower(MaxActiveWindowMin) <= minutes <= Upper(MaxActiveWindowMin)
      && Update(EmptyStore, MaxActiveWindowMin, minutes).ints[MaxActiveWindowMin] == minutes
  {
    assert Stop(MaxWindowSlider, k) == (15 + 5 * k) * 60;
    MaxWindowRoundTrip(15 + 5 * k);
  }

  /** Every stop of the fade and re-engagement sliders is stored as is. */
  lemma FadeAndReengagementStopsWithinClamp(k: nat)
    ensures k <= SliderSteps(FadeSlider) + 1 ==>
      Lower(FadeDurationSec) <= Stop(FadeSlider, k) <= Upper(FadeDurationSec)
    ensures k <= SliderSteps(ReengagementSlider) + 1 ==>
      Lower(ReengagementWindowSec) <= Stop(ReengagementSlider, k) <= Upper(ReengagementWindowSec)
  {
  }

  /**
    The session slider starts at 10 s, but the store raises anything below
    60 s to 60 s: the first ten stops (10 s to 55 s) are shown but stored as
    60 s, and every later stop is stored as is.
   */
  lemma SessionSliderBelowClamp(k: nat)
    requires k <= SliderSteps(SessionSlider) + 1
    ensures var stored := Update(EmptyStore, SessionDurationSec, Stop(SessionSlider, k)).ints[SessionDurationSec];
      && (k < 10 ==> Stop(SessionSlider, k) < 60 && stored == 60)
      && (10 <= k ==> stored == Stop(SessionSlider, k))
  {
  }

  // ---------------------------------------------------------------------
  // `phaseLabel`.

  /** The phase label's string resource. */
  datatype PhaseLabelText = PhaseOffText | PhaseOnIdleText | PhaseSessionRunningText
                          | PhaseFadingText | PhaseStoppedRecentlyText | PhaseExpiredText

  function PhaseLabel(phase: Phase): PhaseLabelText {
    match phase
    case Off => PhaseOffText
    case OnIdle => PhaseOnIdleText
    case SessionRunning => PhaseSessionRunningText
    case Fading => PhaseFadingText
    case StoppedRecently => PhaseStoppedRecentlyText
    case Expired => PhaseExpiredText
  }

  /** The phase a label names. */
  function LabelPhase(text: PhaseLabelText): Phase {
    match text
    case PhaseOffText => Off
    case PhaseOnIdleText => OnIdle
    case PhaseSessionRunningText => SessionRunning
    case PhaseFadingText => Fading
    case PhaseStoppedRecentlyText => StoppedRecently
    case PhaseExpiredText => Expired
  }

  /** Every phase has its own label: the label names the phase back, and every label is used. */
  lemma PhaseLabelBijective(phase: Phase, text: PhaseLabelText)
    ensures LabelPhase(PhaseLabel(phase)) == phase
    ensures PhaseLabel(LabelPhase(text)) == text
  {
  }
}
