/**
 * The settings editor: a cursor over three numeric settings (work length, break length, iteration
 * count), moved up and down with wrap-around, and adjusted in fixed steps.
 */
module SettingsEditor {
  import opened Constants
  import opened PomodoroTypes

  /** Number of entries the cursor moves over. */
  const SETTING_COUNT: nat := 3

  /** The editor's fields, as a value. */
  datatype Tab = Tab(selectedSetting: nat, workTime: int, breakTime: int, iterations: u8)

  /** Cursor one entry down, wrapping from the last entry to the first. */
  function SelectedBelow(i: nat): (j: nat)
    ensures i < SETTING_COUNT ==> j == (i + 1) % SETTING_COUNT
    ensures i >= SETTING_COUNT ==> j == i + 1
  {
    if i == 2 then 0 else i + 1
  }

  /** Cursor one entry up, wrapping from the first entry to the last. */
  function SelectedAbove(i: nat): (j: nat)
    ensures i < SETTING_COUNT ==> j == (i + SETTING_COUNT - 1) % SETTING_COUNT
    ensures i >= SETTING_COUNT ==> j == i - 1
  {
    if i == 0 then 2 else i - 1
  }

  /** The `u8` iteration count must not underflow when the cursor is on it. */
  predicate CanDecrement(t: Tab)
  {
    t.selectedSetting == 2 ==> t.iterations > 0
  }

  /** The `u8` iteration count must not overflow when the cursor is on it. */
  predicate CanIncrement(t: Tab)
  {
    t.selectedSetting == 2 ==> t.iterations < 255
  }

  /**
   * One step down for the selected entry: work and break lengths drop by their step unless that
   * would make them exactly zero, the iteration count drops by one, other cursor positions do
   * nothing. Only the selected entry can change.
   */
  function Decremented(t: Tab): (r: Tab)
    requires CanDecrement(t)
    ensures r.selectedSetting == t.selectedSetting
    ensures r.workTime != t.workTime ==>
      t.selectedSetting == 0 && r.workTime == t.workTime - WORK_TIME_INCR != 0
    ensures r.breakTime != t.breakTime ==>
      t.selectedSetting == 1 && r.breakTime == t.breakTime - BREAK_TIME_INCR != 0
    ensures t.selectedSetting == 0 && t.workTime - WORK_TIME_INCR != 0 ==>
      r.workTime == t.workTime - WORK_TIME_INCR
    ensures t.selectedSetting == 1 && t.breakTime - BREAK_TIME_INCR != 0 ==>
      r.breakTime == t.breakTime - BREAK_TIME_INCR
    ensures r.iterations != t.iterations ==> t.selectedSetting == 2
    ensures t.selectedSetting == 2 ==> r.iterations == t.iterations - 1
    ensures t.selectedSetting >= SETTING_COUNT ==> r == t
  {
    match t.selectedSetting
    case 0 =>
      if t.workTime - WORK_TIME_INCR != 0 then t.(workTime := t.workTime - WORK_TIME_INCR) else t
    case 1 =>
      if t.breakTime - BREAK_TIME_INCR != 0 then t.(breakTime := t.breakTime - BREAK_TIME_INCR) else t
    case 2 => t.(iterations := t.iterations - 1)
    case _ => t
  }

  /**
   * One step up for the selected entry: work length by 900 seconds, break length by 60 seconds,
   * iteration count by one. Only the selected entry changes; other cursor positions do nothing.
   */
  function Incremented(t: Tab): (r: Tab)
    requires CanIncrement(t)
    ensures r.selectedSetting == t.selectedSetting
    ensures r.workTime == if t.selectedSetting == 0 then t.workTime + WORK_TIME_INCR else t.workTime
    ensures r.breakTime == if t.selectedSetting == 1 then t.breakTime + BREAK_TIME_INCR else t.breakTime
    ensures r.iterations == if t.selectedSetting == 2 then t.iterations + 1 else t.iterations
  {
    match t.selectedSetting
    case 0 => t.(workTime := t.workTime + WORK_TIME_INCR)
    case 1 => t.(breakTime := t.breakTime + BREAK_TIME_INCR)
    case 2 => t.(iterations := t.iterations + 1)
    case _ => t
  }

  class SettingsTab {
    var selectedSetting: nat
    var workTime: int
    var breakTime: int
    var iterations: u8

    /** The fields of this editor, as a value. */
    function State(): Tab
      reads this
    {
      Tab(selectedSetting, workTime, breakTime, iterations)
    }

    /** The default editor: cursor on the work length, defaults for all three settings. */
    constructor ()
      ensures State() == Tab(0, 1800, 300, 4)
    {
      selectedSetting := 0;
      workTime := DEFAULT_WORK;
      breakTime := DEFAULT_BREAK;
      iterations := DEFAULT_ITERATIONS;
    }

    /** The request for one setting, with this editor's current value; the given payload is ignored. */
    function GetSetting(setting: Settings): (r: Settings)
      reads this
      ensures HasPayload(r)
      ensures r.WorkTime? <==> setting.WorkTime?
      ensures r.BreakTime? <==> setting.BreakTime?
      ensures r.WorkTime? ==> r.time.value == workTime
      ensures r.BreakTime? ==> r.time.value == breakTime
      ensures r.Iterations? ==> r.count.value == iterations
    {
      match setting
      case BreakTime(_) => BreakTime(Some(breakTime))
      case WorkTime(_) => WorkTime(Some(workTime))
      case Iterations(_) => Iterations(Some(iterations))
    }

    /** Move the cursor down. */
    method SelectDown()
      modifies this
      ensures State() == old(State()).(selectedSetting := SelectedBelow(old(selectedSetting)))
    {
      if selectedSetting == 2 {
        selectedSetting := 0;
      } else {
        selectedSetting := selectedSetting + 1;
      }
    }

    /** Move the cursor up. */
    method SelectUp()
      modifies this
      ensures State() == old(State()).(selectedSetting := SelectedAbove(old(selectedSetting)))
    {
      if selectedSetting == 0 {
        selectedSetting := 2;
      } else {
        selectedSetting := selectedSetting - 1;
      }
    }

    /** Lower the selected setting by one step. */
    method Decrement()
      requires CanDecrement(State())
      modifies this
      ensures State() == Decremented(old(State()))
    {
      match selectedSetting {
        case 0 =>
          if workTime - WORK_TIME_INCR != 0 {
            workTime := workTime - WORK_TIME_INCR;
          }
        case 1 =>
          if breakTime - BREAK_TIME_INCR != 0 {
            breakTime := breakTime - BREAK_TIME_INCR;
          }
        case 2 => iterations := iterations - 1;
        case _ =>
      }
    }

    /** Raise the selected setting by one step. */
    method Increment()
      requires CanIncrement(State())
      modifies this
      ensures State() == Incremented(old(State()))
    {
      match selectedSetting {
        case 0 => workTime := workTime + WORK_TIME_INCR;
        case 1 => breakTime := breakTime + BREAK_TIME_INCR;
        case 2 => iterations := iterations + 1;
        case _ =>
      }
    }
  }

  // ---------------------------------------------------------------------------------------------
  // Properties of the editor

  /** Down cycles 0, 1, 2, 0 and up cycles 0, 2, 1, 0; both stay within the three entries. */
  lemma SelectionCycles(i: nat)
    requires i < SETTING_COUNT
    ensures SelectedBelow(i) < SETTING_COUNT && SelectedAbove(i) < SETTING_COUNT
    ensures SelectedBelow(SelectedBelow(SelectedBelow(i))) == i
    ensures SelectedAbove(SelectedAbove(SelectedAbove(i))) == i
    ensures SelectedBelow(0) == 1 && SelectedBelow(1) == 2 && SelectedBelow(2) == 0
    ensures SelectedAbove(0) == 2 && SelectedAbove(2) == 1 && SelectedAbove(1) == 0
  {
  }

  /** On the three entries, moving up undoes moving down and the other way round. */
  lemma SelectionInverse(i: nat)
    requires i < SETTING_COUNT
    ensures SelectedAbove(SelectedBelow(i)) == i
    ensures SelectedBelow(SelectedAbove(i)) == i
  {
  }

  /** Decrementing never turns a work or break length into exactly zero. */
  lemma DecrementNeverZero(t: Tab)
    requires CanDecrement(t)
    ensures Decremented(t).workTime == 0 ==> t.workTime == 0
    ensures Decremented(t).breakTime == 0 ==> t.breakTime == 0
  {
  }

  /** Incrementing then decrementing the same entry restores it, given a nonzero length and no overflow. */
  lemma IncrementThenDecrement(t: Tab)
    requires CanIncrement(t)
    requires t.selectedSetting == 0 ==> t.workTime != 0
    requires t.selectedSetting == 1 ==> t.breakTime != 0
    ensures CanDecrement(Incremented(t))
    ensures Decremented(Incremented(t)) == t
  {
  }

  /** Decrementing then incrementing restores the entry whenever the decrement took effect. */
  lemma DecrementThenIncrement(t: Tab)
    requires CanDecrement(t) && Decremented(t) != t
    ensures CanIncrement(Decremented(t))
    ensures Incremented(Decremented(t)) == t
  {
  }

  /** The request for a work or break length converts to the phase with the editor's length. */
  lemma GetSettingNamesPhase(tab: SettingsTab, o: Option<int>)
    ensures StateFromSetting(tab.GetSetting(WorkTime(o))) == Work(tab.workTime)
    ensures StateFromSetting(tab.GetSetting(BreakTime(o))) == Break(tab.breakTime)
    ensures SettingFromState(StateFromSetting(tab.GetSetting(WorkTime(o)))) == tab.GetSetting(WorkTime(o))
  {
  }
}
