/**
 * The two value types that the timer and the settings editor share: the phase of a session
 * (`PomodoroState`) and a typed settings change (`Settings`), with the conversions between them.
 */
module PomodoroTypes {
  import opened Constants

  /** A phase of the session, carrying the configured length of that phase in seconds. */
  datatype PomodoroState = Work(duration: int) | Break(duration: int)

  /** A settings change; the payload is optional, as in the editor's requests. */
  datatype Settings =
    | WorkTime(time: Option<int>)
    | BreakTime(time: Option<int>)
    | Iterations(count: Option<u8>)

  /** True when the change carries a value. */
  predicate HasPayload(s: Settings)
  {
    match s
    case WorkTime(t) => t.Some?
    case BreakTime(t) => t.Some?
    case Iterations(n) => n.Some?
  }

  /** The configured length of a phase, whichever phase it is. */
  function GetDuration(p: PomodoroState): (d: int)
    ensures p == Work(d) || p == Break(d)
  {
    match p
    case Work(dur) => dur
    case Break(dur) => dur
  }

  /**
   * The phase a settings change describes. Only a work or break length with a value names a phase;
   * an iteration count or a missing value yields the placeholder `Break(-1)`.
   */
  function StateFromSetting(s: Settings): (p: PomodoroState)
    ensures p.Work? <==> s.WorkTime? && s.time.Some?
    ensures p.Work? ==> p.duration == s.time.value
    ensures s.BreakTime? && s.time.Some? ==> p == Break(s.time.value)
    ensures !HasPayload(s) || s.Iterations? ==> p == Break(-1)
  {
    match s
    case WorkTime(Some(time)) => Work(time)
    case BreakTime(Some(time)) => Break(time)
    case _ => Break(-1)
  }

  /** The settings change that describes a phase: its kind and its length. */
  function SettingFromState(p: PomodoroState): (s: Settings)
    ensures HasPayload(s) && !s.Iterations?
    ensures StateFromSetting(s) == p
  {
    match p
    case Work(time) => WorkTime(Some(time))
    case Break(time) => BreakTime(Some(time))
  }

  /** The settings change that carries an iteration count. */
  function SettingFromCount(n: u8): (s: Settings)
    ensures HasPayload(s) && s.Iterations? && s.count.value == n
    ensures StateFromSetting(s) == Break(-1)
  {
    Iterations(Some(n))
  }

  /**
   * The by-reference conversion from a phase to a settings change. It always produces a break
   * length, also for a work phase, so converting back loses the phase kind.
   */
  function SettingFromStateRef(p: PomodoroState): (s: Settings)
    ensures s.BreakTime? && HasPayload(s)
    ensures StateFromSetting(s) == Break(GetDuration(p))
  {
    match p
    case Break(time) => BreakTime(Some(time))
    case Work(time) => BreakTime(Some(time))
  }

  /** `SettingFromState` is a left inverse of `StateFromSetting` on changes that name a phase. */
  lemma SettingRoundTrip(s: Settings)
    requires HasPayload(s) && !s.Iterations?
    ensures SettingFromState(StateFromSetting(s)) == s
  {
  }

  /** The by-reference conversion agrees with `SettingFromState` exactly on break phases. */
  lemma RefConversionOnlyAgreesOnBreak(p: PomodoroState)
    ensures SettingFromStateRef(p) == SettingFromState(p) <==> p.Break?
  {
  }
}
