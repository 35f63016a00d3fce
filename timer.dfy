/**
 * The timer engine: a countdown over work and break phases, driven by control commands and by a
 * one-second tick. The engine's record of state is the class `Timer`; `Snapshot` is the same record
 * as a value, and the functions over snapshots say what each step of the engine does.
 */
module Timer {
  import opened Constants
  import opened PomodoroTypes

  /** The control commands the engine accepts. */
  datatype TimerCommand = Start | NextIteration | Customize(setting: Settings) | Stop

  /** The engine's fields, as a value. */
  datatype Snapshot = Snapshot(
    running: bool,
    timeLeft: int,
    iteration: u8,
    totalIterations: u8,
    totalTime: int,
    totalElapsed: int,
    workState: PomodoroState,
    breakState: PomodoroState,
    currentState: PomodoroState,
    nextState: PomodoroState)

  /**
   * The phase invariant: the work slot holds a work phase, the break slot a break phase, and the
   * current phase is one of the two configured ones.
   */
  ghost predicate Valid(s: Snapshot)
  {
    s.workState.Work? && s.breakState.Break? &&
    (s.currentState == s.workState || s.currentState == s.breakState)
  }

  /** The state the engine starts in. */
  function DefaultSnapshot(): Snapshot
  {
    Snapshot(
      running := false, timeLeft := GetDuration(Work(DEFAULT_WORK)), iteration := 1,
      totalIterations := DEFAULT_ITERATIONS,
      totalTime := GetDuration(Work(DEFAULT_WORK)) * DEFAULT_ITERATIONS,
      totalElapsed := 0, workState := Work(DEFAULT_WORK), breakState := Break(DEFAULT_BREAK),
      currentState := Work(DEFAULT_WORK), nextState := Break(DEFAULT_BREAK))
  }

  /** Recompute the aggregate session length from the work length and the iteration count. */
  function WithTotalTime(s: Snapshot): (r: Snapshot)
  {
    s.(totalTime := GetDuration(s.workState) * s.totalIterations)
  }

  /**
   * Phase swap. Stopped: the phase after the current one becomes current (a work phase is followed
   * by the configured break, a break by the configured work phase) and the countdown is reloaded
   * with its length. Running: nothing changes.
   */
  function Swapped(s: Snapshot): (r: Snapshot)
  {
    if s.running then s
    else
      var (current, next) :=
        match s.currentState
        case Work(_) => (s.breakState, s.workState)
        case Break(_) => (s.workState, s.breakState);
      s.(currentState := current, nextState := next, timeLeft := GetDuration(current))
  }

  /** True when advancing the iteration would increment the iteration counter. */
  predicate AdvancesIntoWork(s: Snapshot)
  {
    Swapped(s).currentState.Work?
  }

  /** The iteration counter is a `u8`: advancing into work must not overflow it. */
  predicate CanAdvance(s: Snapshot)
  {
    AdvancesIntoWork(s) ==> s.iteration < 255
  }

  /** Swap phases, then count an iteration if the engine is now in a work phase. */
  function AfterNextIteration(s: Snapshot): (r: Snapshot)
    requires CanAdvance(s)
  {
    var t := Swapped(s);
    if t.currentState.Work? then t.(iteration := t.iteration + 1) else t
  }

  /**
   * Restart: go back to a work phase (through a swap, which happens only when stopped), then reset
   * the iteration, the countdown, the elapsed counter and the running flag, and recompute the
   * session length.
   */
  function Restarted(s: Snapshot): (r: Snapshot)
  {
    var t := if s.currentState.Break? then Swapped(s) else s;
    WithTotalTime(t.(iteration := 1, timeLeft := GetDuration(t.workState), totalElapsed := 0,
                     running := false))
  }

  /** An iteration count without a value is unwrapped; the engine panics unless it ignores the change. */
  predicate SettingAllowed(s: Snapshot, setting: Settings)
  {
    setting.Iterations? && setting.count.None? ==> s.running
  }

  /** The field update that a settings change makes between the two restarts. */
  function ApplyChange(s: Snapshot, setting: Settings): (r: Snapshot)
    requires setting.Iterations? ==> setting.count.Some?
  {
    match setting
    case Iterations(n) => s.(totalIterations := n.value)
    case WorkTime(_) =>
      s.(currentState := StateFromSetting(setting), workState := StateFromSetting(setting))
    case BreakTime(_) => s.(nextState := StateFromSetting(setting))
  }

  /** Apply a settings change: ignored while running, otherwise restart, update, restart. */
  function AfterSetting(s: Snapshot, setting: Settings): (r: Snapshot)
    requires SettingAllowed(s, setting)
  {
    if s.running then s
    else Restarted(ApplyChange(Restarted(s), setting))
  }

  /** The guard of the tick arm: the countdown runs and has not yet passed zero. */
  predicate TickEnabled(s: Snapshot)
  {
    s.running && s.timeLeft >= 0
  }

  /** One second of countdown; work seconds also accrue to the elapsed counter. */
  function AfterTick(s: Snapshot): (r: Snapshot)
    requires TickEnabled(s)
  {
    s.(timeLeft := s.timeLeft - 1,
       totalElapsed := if s.currentState.Work? then s.totalElapsed + 1 else s.totalElapsed)
  }

  /** The preconditions of the command arm: no `u8` overflow, no unwrap of a missing count. */
  predicate CommandAllowed(s: Snapshot, cmd: TimerCommand)
  {
    match cmd
    case NextIteration => CanAdvance(s)
    case Customize(setting) => SettingAllowed(s, setting)
    case _ => true
  }

  /** The command arm of the engine loop. */
  function AfterCommand(s: Snapshot, cmd: TimerCommand): (r: Snapshot)
    requires CommandAllowed(s, cmd)
  {
    match cmd
    case Start => s.(running := true)
    case Stop => s.(running := false)
    case NextIteration => AfterNextIteration(s)
    case Customize(setting) => AfterSetting(s, setting)
  }

  /** `n` consecutive firings of the tick arm with no command in between. */
  function Ticks(s: Snapshot, n: nat): (r: Snapshot)
    requires s.running && n <= s.timeLeft + 1
    decreases n
  {
    if n == 0 then s else Ticks(AfterTick(s), n - 1)
  }

  /** A command whose settings change, if any, carries a value. */
  predicate CommandHasPayload(cmd: TimerCommand)
  {
    cmd.Customize? ==> HasPayload(cmd.setting)
  }

  class Timer {
    var running: bool
    var timeLeft: int
    var iteration: u8
    var totalIterations: u8
    var totalTime: int
    var totalElapsed: int
    var workState: PomodoroState
    var breakState: PomodoroState
    var currentState: PomodoroState
    var nextState: PomodoroState

    /** The fields of this timer, as a value. */
    function State(): Snapshot
      reads this
    {
      Snapshot(running, timeLeft, iteration, totalIterations, totalTime, totalElapsed,
               workState, breakState, currentState, nextState)
    }

    /** The default timer: stopped at the start of the first of four 1800-second work phases. */
    constructor ()
      ensures State() == DefaultSnapshot()
      ensures !running && iteration == 1 && timeLeft == 1800 && totalElapsed == 0
      ensures currentState == Work(1800) && nextState == Break(300)
      ensures workState == Work(1800) && breakState == Break(300)
      ensures totalIterations == 4 && totalTime == 1800 * 4
      ensures Valid(State())
    {
      var work := Work(DEFAULT_WORK);
      var brk := Break(DEFAULT_BREAK);
      var total := DEFAULT_ITERATIONS;
      var duration := GetDuration(work);
      running := false;
      totalIterations := total;
      currentState := work;
      timeLeft := duration;
      nextState := brk;
      iteration := 1;
      totalTime := duration * total;
      totalElapsed := 0;
      workState := work;
      breakState := brk;
    }

    /** Recompute the session length from the work length and the iteration count. */
    method SetTotalTime()
      modifies this
      ensures State() == WithTotalTime(old(State()))
    {
      var duration := GetDuration(workState);
      totalTime := duration * totalIterations;
    }

    /** Swap to the following phase, when stopped. */
    method SwapStates()
      modifies this
      ensures State() == Swapped(old(State()))
    {
      if !running {
        match currentState {
          case Work(_) =>
            currentState := breakState;
            nextState := workState;
          case Break(_) =>
            currentState := workState;
            nextState := breakState;
        }
        var duration := GetDuration(currentState);
        timeLeft := duration;
      }
    }

    /** Swap phases and count the iteration when the new phase is a work phase. */
    method NextIteration()
      requires CanAdvance(State())
      modifies this
      ensures State() == AfterNextIteration(old(State()))
    {
      SwapStates();
      if currentState.Work? {
        iteration := iteration + 1;
      }
    }

    /** Apply a settings change when stopped, resetting the session around it. */
    method SetSetting(setting: Settings)
      requires SettingAllowed(State(), setting)
      modifies this
      ensures State() == AfterSetting(old(State()), setting)
    {
      if running { return; }
      Restart();
      match setting {
        case Iterations(n) => totalIterations := n.value;
        case WorkTime(_) =>
          currentState := StateFromSetting(setting);
          workState := StateFromSetting(setting);
        case BreakTime(_) => nextState := StateFromSetting(setting);
      }
      Restart();
    }

    /** Return to the first iteration of a stopped work phase. */
    method Restart()
      modifies this
      ensures State() == Restarted(old(State()))
    {
      if currentState.Break? {
        SwapStates();
      }
      iteration := 1;
      timeLeft := GetDuration(workState);
      totalElapsed := 0;
      running := false;
      SetTotalTime();
    }

    /** The command arm of the engine loop: one command, applied at once. */
    method ApplyCommand(cmd: TimerCommand)
      requires CommandAllowed(State(), cmd)
      modifies this
      ensures State() == AfterCommand(old(State()), cmd)
      ensures Valid(old(State())) && CommandHasPayload(cmd) ==> Valid(State())
    {
      if Valid(State()) && CommandHasPayload(cmd) {
        CommandPreservesValid(State(), cmd);
      }
      match cmd {
        case Start => running := true;
        case Stop => running := false;
        case NextIteration => NextIteration();
        case Customize(setting) => SetSetting(setting);
      }
    }

    /** The tick arm of the engine loop; returns the value sent to the tick consumer. */
    method Tick() returns (emitted: int)
      requires running && timeLeft >= 0
      modifies this
      ensures State() == AfterTick(old(State()))
      ensures emitted == timeLeft
      ensures Valid(old(State())) ==> Valid(State())
    {
      timeLeft := timeLeft - 1;
      if currentState.Work? {
        totalElapsed := totalElapsed + 1;
      }
      emitted := timeLeft;
    }
  }

  // ---------------------------------------------------------------------------------------------
  // Properties of the engine's steps

  /** The default state satisfies the phase invariant and the session-length equation. */
  lemma DefaultIsValid()
    ensures Valid(DefaultSnapshot())
    ensures DefaultSnapshot().totalTime == GetDuration(DefaultSnapshot().workState) * DefaultSnapshot().totalIterations
  {
  }

  /** `Start` and `Stop` set the running flag, change nothing else, and are idempotent. */
  lemma StartStopOnlySetRunning(s: Snapshot)
    ensures AfterCommand(s, Start) == s.(running := true)
    ensures AfterCommand(s, Stop) == s.(running := false)
    ensures AfterCommand(AfterCommand(s, Start), Start) == AfterCommand(s, Start)
    ensures AfterCommand(AfterCommand(s, Stop), Stop) == AfterCommand(s, Stop)
  {
  }

  /** A tick takes exactly one second off the countdown, never below -1, and emits the new value. */
  lemma TickCountsDown(s: Snapshot)
    requires TickEnabled(s)
    ensures AfterTick(s).timeLeft == s.timeLeft - 1 >= -1
    ensures AfterTick(s).totalElapsed == if s.currentState.Work? then s.totalElapsed + 1 else s.totalElapsed
    ensures AfterTick(s).(timeLeft := s.timeLeft, totalElapsed := s.totalElapsed) == s
  {
  }

  /**
   * At the sentinel -1 no tick is enabled, and no single command re-enables one: a swap or restart
   * that reloads the countdown also leaves the engine stopped, and starting leaves the time at -1.
   */
  lemma SentinelDisablesTick(s: Snapshot, cmd: TimerCommand)
    requires s.timeLeft == -1
    requires CommandAllowed(s, cmd)
    ensures !TickEnabled(s)
    ensures !TickEnabled(AfterCommand(s, cmd))
  {
  }

  /**
   * Ticking alone counts down one second per tick: after `n` ticks the countdown is `n` lower and
   * the elapsed counter is `n` higher in a work phase, unchanged in a break phase. After
   * `timeLeft + 1` ticks the countdown is at the sentinel -1 and no further tick is enabled.
   */
  lemma {:induction false} TicksCountDown(s: Snapshot, n: nat)
    requires s.running && n <= s.timeLeft + 1
    ensures Ticks(s, n).timeLeft == s.timeLeft - n >= -1
    ensures Ticks(s, n).totalElapsed == if s.currentState.Work? then s.totalElapsed + n else s.totalElapsed
    ensures Ticks(s, n).(timeLeft := s.timeLeft, totalElapsed := s.totalElapsed) == s
    ensures n == s.timeLeft + 1 ==> !TickEnabled(Ticks(s, n))
    decreases n
  {
    if n > 0 {
      TicksCountDown(AfterTick(s), n - 1);
    }
  }

  /** While running, a swap changes nothing. */
  lemma SwapWhileRunningIsIdentity(s: Snapshot)
    requires s.running
    ensures Swapped(s) == s
  {
  }

  /** A stopped swap goes from work to the configured break and from break to the configured work. */
  lemma SwapWhileStopped(s: Snapshot)
    requires !s.running
    ensures s.currentState.Work? ==>
      Swapped(s).currentState == s.breakState && Swapped(s).nextState == s.workState
    ensures s.currentState.Break? ==>
      Swapped(s).currentState == s.workState && Swapped(s).nextState == s.breakState
    ensures Swapped(s).timeLeft == GetDuration(Swapped(s).currentState)
    ensures Swapped(s).(currentState := s.currentState, nextState := s.nextState, timeLeft := s.timeLeft) == s
  {
  }

  /** Two stopped swaps restore the current phase and reload its full length. */
  lemma SwapTwiceRestores(s: Snapshot)
    requires Valid(s) && !s.running
    ensures Swapped(Swapped(s)).currentState == s.currentState
    ensures Swapped(Swapped(s)).timeLeft == GetDuration(s.currentState)
    ensures Valid(Swapped(s))
  {
  }

  /** Advancing counts an iteration exactly when it lands in a work phase. */
  lemma NextIterationCounts(s: Snapshot)
    requires CanAdvance(s)
    ensures AfterNextIteration(s).currentState == Swapped(s).currentState
    ensures AfterNextIteration(s).iteration ==
      if AfterNextIteration(s).currentState.Work? then s.iteration + 1 else s.iteration
  {
  }

  /**
   * The four cases of advancing in a valid state: stopped in a break gives work and one more
   * iteration, stopped in work gives the break with the same iteration, running in work keeps the
   * phase and still counts an iteration, running in a break changes nothing.
   */
  lemma NextIterationCases(s: Snapshot)
    requires Valid(s) && CanAdvance(s)
    ensures !s.running && s.currentState.Break? ==>
      AfterNextIteration(s).currentState == s.workState && AfterNextIteration(s).iteration == s.iteration + 1
    ensures !s.running && s.currentState.Work? ==>
      AfterNextIteration(s).currentState == s.breakState && AfterNextIteration(s).iteration == s.iteration
    ensures s.running && s.currentState.Work? ==>
      AfterNextIteration(s).currentState == s.currentState && AfterNextIteration(s).iteration == s.iteration + 1
    ensures s.running && s.currentState.Break? ==> AfterNextIteration(s) == s
  {
  }

  /** A settings change while running is ignored. */
  lemma SettingWhileRunningIsIgnored(s: Snapshot, setting: Settings)
    requires s.running
    ensures AfterSetting(s, setting) == s
  {
  }

  /** A restart from a valid stopped state lands at the start of a fresh session in the work phase. */
  lemma RestartResets(s: Snapshot)
    requires Valid(s) && !s.running
    ensures var r := Restarted(s);
      !r.running && r.iteration == 1 && r.totalElapsed == 0 &&
      r.currentState == r.workState == s.workState && r.timeLeft == GetDuration(s.workState) &&
      r.totalTime == GetDuration(s.workState) * s.totalIterations && Valid(r)
  {
  }

  /**
   * A settings change with a value, applied while stopped, resets the session: stopped, first
   * iteration, nothing elapsed, in the work phase with its full length, and the session length
   * recomputed from the work length and the iteration count.
   */
  lemma SettingResetsSession(s: Snapshot, setting: Settings)
    requires Valid(s) && !s.running && HasPayload(setting)
    ensures var r := AfterSetting(s, setting);
      !r.running && r.iteration == 1 && r.totalElapsed == 0 &&
      r.currentState.Work? && r.currentState == r.workState &&
      r.timeLeft == GetDuration(r.workState) &&
      r.totalTime == GetDuration(r.workState) * r.totalIterations &&
      Valid(r)
  {
  }

  /**
   * What each kind of change sets: a work length becomes the work phase and the countdown, an
   * iteration count becomes the configured count, and a break length is written to the next-phase
   * slot only, leaving the configured break phase as it was.
   */
  lemma SettingPerVariant(s: Snapshot, setting: Settings)
    requires Valid(s) && !s.running && HasPayload(setting)
    ensures var r := AfterSetting(s, setting);
      match setting
      case WorkTime(t) =>
        r.workState == Work(t.value) && r.timeLeft == t.value &&
        r.breakState == s.breakState && r.totalIterations == s.totalIterations
      case Iterations(n) =>
        r.totalIterations == n.value && r.workState == s.workState && r.breakState == s.breakState
      case BreakTime(t) =>
        r.nextState == Break(t.value) && r.breakState == s.breakState &&
        r.workState == s.workState && r.totalIterations == s.totalIterations
  {
  }

  /**
   * Consequence of the previous lemma: after a break-length change, the next advance enters the
   * break phase that was configured before the change, not the one just set.
   */
  lemma ChangedBreakNotEntered(s: Snapshot, t: int)
    requires Valid(s) && !s.running
    ensures var r := AfterNextIteration(AfterSetting(s, BreakTime(Some(t))));
      r.currentState == s.breakState && r.timeLeft == GetDuration(s.breakState)
  {
  }

  /** Every command with a value-carrying change keeps the phase invariant. */
  lemma CommandPreservesValid(s: Snapshot, cmd: TimerCommand)
    requires Valid(s) && CommandAllowed(s, cmd) && CommandHasPayload(cmd)
    ensures Valid(AfterCommand(s, cmd))
  {
  }

  /** A tick keeps the phase invariant. */
  lemma TickPreservesValid(s: Snapshot)
    requires Valid(s) && TickEnabled(s)
    ensures Valid(AfterTick(s))
  {
  }
}
