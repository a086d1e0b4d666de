/**
  The settings store (StickySettingsRepository.kt). The preferences file is
  abstracted as two typed maps: the four integer keys and the one boolean
  key. Every write clamps its value into a fixed range first, and every read
  substitutes the StickySettings default for a key that was never written.
 */
module SettingsRepository {
  import opened Options
  import opened KotlinMath
  import opened StickySettings

  /** The integer preference keys, named in the store as
      `session_duration_sec`, `fade_duration_sec`, `reengagement_window_sec`
      and `max_active_window_min`. */
  datatype IntKey = SessionDurationSec | FadeDurationSec | ReengagementWindowSec | MaxActiveWindowMin

  /** The boolean preference key `last_mode_state`. */
  datatype BoolKey = LastModeState

  datatype Store = Store(ints: map<IntKey, int>, bools: map<BoolKey, bool>)

  const EmptyStore: Store := Store(map[], map[])

  /** The `coerceIn` bounds each `update*` applies to its key. */
  function Lower(k: IntKey): int {
    match k
    case SessionDurationSec => 60
    case FadeDurationSec => 0
    case ReengagementWindowSec => 5
    case MaxActiveWindowMin => 15
  }

  function Upper(k: IntKey): (hi: int)
    ensures Lower(k) <= hi
  {
    match k
    case SessionDurationSec => 1800
    case FadeDurationSec => 60
    case ReengagementWindowSec => 180
    case MaxActiveWindowMin => 300
  }

  /** The value a read yields for a key that was never written. */
  function DefaultFor(k: IntKey): int {
    match k
    case SessionDurationSec => DefaultSessionDurationSec
    case FadeDurationSec => DefaultFadeDurationSec
    case ReengagementWindowSec => DefaultReengagementWindowSec
    case MaxActiveWindowMin => DefaultMaxActiveWindowMin
  }

  /** The field of a Settings value that key `k` feeds. */
  function Field(s: Settings, k: IntKey): int {
    match k
    case SessionDurationSec => s.sessionDurationSec
    case FadeDurationSec => s.fadeDurationSec
    case ReengagementWindowSec => s.reengagementWindowSec
    case MaxActiveWindowMin => s.maxActiveWindowMin
  }

  /**
    `updateSessionDurationSec`, `updateFadeDurationSec`,
    `updateReengagementWindowSec` and `updateMaxActiveWindowMin`: store the
    value clamped into the key's range, and touch no other key.
   */
  function Update(s: Store, k: IntKey, value: int): (r: Store)
    ensures k in r.ints && Lower(k) <= r.ints[k] <= Upper(k)
    ensures Lower(k) <= value <= Upper(k) ==> r.ints[k] == value
    ensures value < Lower(k) ==> r.ints[k] == Lower(k)
    ensures Upper(k) < value ==> r.ints[k] == Upper(k)
    ensures r.ints.Keys == s.ints.Keys + {k}
    ensures forall k' :: k' in s.ints && k' != k ==> r.ints[k'] == s.ints[k']
    ensures r.bools == s.bools
  {
    s.(ints := s.ints[k := CoerceIn(value, Lower(k), Upper(k))])
  }

  /** `setLastModeEnabled`: writes the boolean key only. */
  function SetLastModeEnabled(s: Store, enabled: bool): (r: Store)
    ensures r.ints == s.ints
    ensures LastModeEnabled(r) == enabled
  {
    s.(bools := s.bools[LastModeState := enabled])
  }

  /** The `lastModeEnabled` flow: a missing key reads as false. */
  function LastModeEnabled(s: Store): bool {
    if LastModeState in s.bools then s.bools[LastModeState] else false
  }

  /** One read of an integer key, with the default standing in for a missing key. */
  function Read(s: Store, k: IntKey): (v: int)
    ensures k in s.ints ==> v == s.ints[k]
    ensures k !in s.ints ==> v == DefaultFor(k)
  {
    if k in s.ints then s.ints[k] else DefaultFor(k)
  }

  /** The `settings` flow: one Settings value per read of the store. */
  function ReadSettings(s: Store): (r: Settings)
    ensures forall k :: Field(r, k) == Read(s, k)
  {
    Settings(
      Read(s, SessionDurationSec),
      Read(s, FadeDurationSec),
      Read(s, ReengagementWindowSec),
      Read(s, MaxActiveWindowMin))
  }

  /** Every stored integer lies in its key's range. */
  predicate InRange(s: Store) {
    forall k :: k in s.ints ==> Lower(k) <= s.ints[k] <= Upper(k)
  }

  /** Every field of a Settings value lies in the range its key enforces. */
  predicate SettingsInRange(st: Settings) {
    forall k :: Lower(k) <= Field(st, k) <= Upper(k)
  }

  /** A store never written reads as the defaults and as "mode off". */
  lemma EmptyStoreReadsDefaults()
    ensures ReadSettings(EmptyStore) == Default
    ensures !LastModeEnabled(EmptyStore)
  {
    var r := ReadSettings(EmptyStore);
    assert Field(r, SessionDurationSec) == DefaultSessionDurationSec;
    assert Field(r, FadeDurationSec) == DefaultFadeDurationSec;
    assert Field(r, ReengagementWindowSec) == DefaultReengagementWindowSec;
    assert Field(r, MaxActiveWindowMin) == DefaultMaxActiveWindowMin;
  }

  /** Reading after an update sees the clamped value under that key and the old reads elsewhere. */
  lemma ReadAfterUpdate(s: Store, k: IntKey, value: int)
    ensures Field(ReadSettings(Update(s, k, value)), k) == CoerceIn(value, Lower(k), Upper(k))
    ensures forall k' :: k' != k ==> Field(ReadSettings(Update(s, k, value)), k') == Field(ReadSettings(s), k')
    ensures LastModeEnabled(Update(s, k, value)) == LastModeEnabled(s)
  {
  }

  /** The defaults lie inside the ranges the store enforces. */
  lemma DefaultsInRange()
    ensures SettingsInRange(Default)
  {
    forall k ensures Lower(k) <= Field(Default, k) <= Upper(k) {
      match k
      case SessionDurationSec =>
      case FadeDurationSec =>
      case ReengagementWindowSec =>
      case MaxActiveWindowMin =>
    }
  }

  /**
    Whatever sequence of writes produced a store, it reads back as settings
    inside the clamp ranges: writes keep the store in range, and a missing
    key reads as an in-range default.
   */
  lemma UpdatesKeepInRange(s: Store, k: IntKey, value: int, enabled: bool)
    requires InRange(s)
    ensures InRange(Update(s, k, value))
    ensures InRange(SetLastModeEnabled(s, enabled))
    ensures SettingsInRange(ReadSettings(s))
  {
    DefaultsInRange();
    var r := ReadSettings(s);
    forall k' ensures Lower(k') <= Field(r, k') <= Upper(k') {
      assert Field(r, k') == Read(s, k');
      if k' !in s.ints {
        assert Field(Default, k') == DefaultFor(k') by {
          match k'
          case SessionDurationSec =>
          case FadeDurationSec =>
          case ReengagementWindowSec =>
          case MaxActiveWindowMin =>
        }
      }
    }
  }

  /** A write of an in-range value is read back unchanged, and writing it again changes nothing. */
  lemma UpdateIdempotent(s: Store, k: IntKey, value: int)
    ensures Update(Update(s, k, value), k, value) == Update(s, k, value)
    ensures Read(Update(s, k, value), k) == CoerceIn(value, Lower(k), Upper(k))
  {
  }
}
