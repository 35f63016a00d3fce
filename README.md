# romodoro timer core in Dafny

This project models the core of romodoro, a terminal Pomodoro timer, in Dafny. Three parts are modelled:

- **The timer engine** (`timer.dfy`, module `Timer`). The class `Timer.Timer` has the ten fields of the Rust `Timer`. Its methods are the command arm of the run loop (`ApplyCommand`: `Start`, `Stop`, `NextIteration`, `Customize`), the one-second tick arm (`Tick`), and the helpers `SwapStates`, `NextIteration`, `SetSetting`, `Restart` and `SetTotalTime`. The unnamed constructor is `Default`. `Snapshot` holds the same ten fields as a value. The functions `Swapped`, `AfterNextIteration`, `Restarted`, `AfterSetting`, `AfterTick` and `AfterCommand` say what each step does to a snapshot. Every method ensures `State() == F(old(State()))` for its function `F`, and the lemmas state the engine's properties about those functions.
- **The settings editor** (`settings.dfy`, module `SettingsEditor`). The class `SettingsTab` has a cursor and three numeric settings. It moves the cursor with wrap-around (`SelectDown`, `SelectUp`), adjusts the selected setting in fixed steps (`Increment`, `Decrement`) and reads it as a settings change (`GetSetting`). `Tab` holds the editor's fields as a value.
- **The big-digit clock** (`ui.dfy`, module `ClockText`). `FormatAsciiTime` renders a string of digits and colons as seven rows of block glyphs from the table `ASCII_NUMBERS`. `HmsString` splits the remaining seconds into hours, minutes and seconds. `ClockString` picks between the hidden clock and the real one.

`types.dfy` (module `PomodoroTypes`) holds the phase type `PomodoroState`, the settings change `Settings`, and the conversions between them. In Rust these live in `src/timer.rs` and `src/settings.rs`, which import each other. Dafny modules cannot import each other in a cycle, so both types go in a shared module. `constants.dfy` (module `Constants`) holds the constants of `src/lib.rs`, the `u8` range and `Option`.

Three behaviours of the code are worth knowing, and the model keeps them:

- A `Customize` command sent while running is ignored, and no error reaches the sender.
- The hidden countdown is shown as zeros whenever the timer runs, in work and break phases alike.
- A break-length change writes only the next-phase slot. The next swap out of work takes the break phase from the break slot, so the new length is never entered (`Timer.ChangedBreakNotEntered`).

## Model

| member | source | states |
|---|---|---|
| `PomodoroTypes.GetDuration` | src/timer.rs:31-35 | the result is the length carried by the phase, whichever phase it is |
| `PomodoroTypes.StateFromSetting` | src/timer.rs:157-166 | a work phase comes exactly from a work length with a value, and carries it; a break length with a value gives that break; a missing value or an iteration count gives `Break(-1)` |
| `PomodoroTypes.SettingFromState` | src/settings.rs:17-24 | the change carries a value, is not an iteration count, and converts back to the same phase |
| `PomodoroTypes.SettingFromCount` | src/settings.rs:25-29 | the change is an iteration count carrying the value, and converts to the placeholder phase `Break(-1)` |
| `PomodoroTypes.SettingFromStateRef` | src/timer.rs:149-156 | the change is always a break length; converting back gives a break with the phase's length |
| `PomodoroTypes.SettingRoundTrip` | src/timer.rs:157-166 | on work or break changes with a value, phase conversion followed by the reverse conversion is the identity |
| `PomodoroTypes.RefConversionOnlyAgreesOnBreak` | src/timer.rs:149-156 | the by-reference conversion agrees with the by-value one exactly on break phases |
| `Timer.Timer.constructor` | src/timer.rs:180-190 | stopped, iteration 1, 1800 seconds left, nothing elapsed, current `Work(1800)`, next `Break(300)`, four iterations, total 1800*4, phase invariant holds |
| `Timer.Timer.SetTotalTime` | src/timer.rs:36-39 | the total becomes the work length times the iteration count; nothing else changes |
| `Timer.Timer.SwapStates` | src/timer.rs:64-80 | the new state is the swap of the old one |
| `Timer.Timer.NextIteration` | src/timer.rs:81-86 | the new state is the swap followed by an iteration count when the result is a work phase; requires no `u8` overflow |
| `Timer.Timer.SetSetting` | src/timer.rs:87-96 | the new state is a restart, the field update, then a restart; unchanged while running |
| `Timer.Timer.Restart` | src/timer.rs:99-108 | the new state is the old one reset to a stopped first iteration of the work phase |
| `Timer.Timer.ApplyCommand` | src/timer.rs:44-51 | the new state is the command's effect on the old one; a command whose change carries a value keeps the phase invariant |
| `Timer.Timer.Tick` | src/timer.rs:52-58 | needs the tick guard; the new state is one second down, the emitted value is the new time left, and the phase invariant is kept |
| `Timer.DefaultSnapshot` | src/timer.rs:180-190 | no contract of its own; `DefaultIsValid` and the constructor state its fields and the invariant |
| `Timer.WithTotalTime` | src/timer.rs:36-39 | no contract of its own; `Timer.Timer.SetTotalTime` states the new total and that nothing else changes |
| `Timer.Swapped` | src/timer.rs:64-80 | no contract of its own; `SwapWhileRunningIsIdentity`, `SwapWhileStopped` and `SwapTwiceRestores` state both branches |
| `Timer.AfterNextIteration` | src/timer.rs:81-86 | no contract of its own; `NextIterationCounts` and `NextIterationCases` state the phase and the counter |
| `Timer.Restarted` | src/timer.rs:99-108 | no contract of its own; `RestartResets` states the reset fields and the invariant |
| `Timer.ApplyChange` | src/timer.rs:90-94 | no contract of its own; `SettingPerVariant` states each arm |
| `Timer.AfterSetting` | src/timer.rs:87-96 | no contract of its own; `SettingWhileRunningIsIgnored`, `SettingResetsSession`, `SettingPerVariant` and `ChangedBreakNotEntered` state it |
| `Timer.AfterTick` | src/timer.rs:52-58 | no contract of its own; `TickCountsDown`, `TicksCountDown` and `TickPreservesValid` state one and n ticks |
| `Timer.AfterCommand` | src/timer.rs:44-51 | no contract of its own; `StartStopOnlySetRunning` and `CommandPreservesValid` state the four arms |
| `Timer.DefaultIsValid` | src/timer.rs:180-190 | the default state keeps the phase invariant and total = work length * iterations |
| `Timer.StartStopOnlySetRunning` | src/timer.rs:46-47 | `Start`/`Stop` set the running flag to true/false, change nothing else, and are idempotent |
| `Timer.TickCountsDown` | src/timer.rs:52-58 | a tick lowers the time left by exactly one, never below -1; elapsed time grows by one in work and stays in break; nothing else changes |
| `Timer.TickEnabled` | src/timer.rs:52 | no contract of its own; `TickCountsDown`, `SentinelDisablesTick` and `TicksCountDown` state that it holds down to time left 0 and fails at -1 |
| `Timer.SentinelDisablesTick` | src/timer.rs:52-57 | at time left -1 no tick is enabled, and no single command (`Start`, `Stop`, `NextIteration`, `Customize`) re-enables one |
| `Timer.TicksCountDown` | src/timer.rs:52-58 | n ticks in a row lower the time left by n, add n elapsed seconds in work only, and after time-left+1 ticks the timer sits at -1 with no tick enabled |
| `Timer.SwapWhileRunningIsIdentity` | src/timer.rs:64-65 | a swap while running changes nothing |
| `Timer.SwapWhileStopped` | src/timer.rs:64-80 | stopped: from work, current becomes the break slot and next the work slot; from break, the reverse; time left becomes the new phase's length; nothing else changes |
| `Timer.SwapTwiceRestores` | src/timer.rs:64-80 | two stopped swaps restore the current phase and its full length, and keep the invariant |
| `Timer.NextIterationCounts` | src/timer.rs:81-86 | the phase is the swapped one, and the iteration grows by one exactly when that phase is a work phase |
| `Timer.NextIterationCases` | src/timer.rs:81-86 | stopped in break gives work with iteration+1; stopped in work gives the break with the same iteration; running in work keeps work and still adds one; running in break changes nothing |
| `Timer.SettingWhileRunningIsIgnored` | src/timer.rs:87-88 | a settings change while running leaves every field unchanged |
| `Timer.RestartResets` | src/timer.rs:99-108 | from a valid stopped state: stopped, iteration 1, nothing elapsed, current = work slot, full work length left, total recomputed, invariant kept |
| `Timer.SettingResetsSession` | src/timer.rs:87-108 | a change with a value while stopped ends stopped, at iteration 1, nothing elapsed, in the work phase with its full length, total = work length * iterations, invariant kept |
| `Timer.SettingPerVariant` | src/timer.rs:90-94 | a work length becomes the work phase and the time left; an iteration count becomes the configured count; a break length sets only the next phase and leaves the break slot unchanged |
| `Timer.ChangedBreakNotEntered` | src/timer.rs:64-96 | after a break-length change, the next advance enters the previously configured break, with its old length |
| `Timer.CommandPreservesValid` | src/timer.rs:44-51 | every command whose change carries a value keeps the phase invariant |
| `Timer.TickPreservesValid` | src/timer.rs:52-58 | a tick keeps the phase invariant |
| `SettingsEditor.SelectedBelow` | src/settings.rs:48-52 | on 0..2 the cursor moves to (i+1) mod 3; above 2 it just grows by one |
| `SettingsEditor.SelectedAbove` | src/settings.rs:53-57 | on 0..2 the cursor moves to (i+2) mod 3; above 2 it just drops by one |
| `SettingsEditor.Decremented` | src/settings.rs:58-65 | only the selected entry changes; the work or break length drops by 900/60 exactly when that does not give 0, and otherwise stays; the count drops by one; positions 3 and up change nothing |
| `SettingsEditor.Incremented` | src/settings.rs:66-73 | only the selected entry changes, by 900, 60 or 1; positions 3 and up change nothing |
| `SettingsEditor.SettingsTab.constructor` | src/settings.rs:75-79 | cursor 0, work 1800, break 300, four iterations |
| `SettingsEditor.SettingsTab.GetSetting` | src/settings.rs:33-46 | the result has the same kind as the request, carries a value, and that value is the editor's current one; the request's payload plays no part |
| `SettingsEditor.SettingsTab.SelectDown` | src/settings.rs:48-52 | only the cursor changes, to the entry below |
| `SettingsEditor.SettingsTab.SelectUp` | src/settings.rs:53-57 | only the cursor changes, to the entry above |
| `SettingsEditor.SettingsTab.Decrement` | src/settings.rs:58-65 | the new fields are the decrement of the old ones; requires no `u8` underflow |
| `SettingsEditor.SettingsTab.Increment` | src/settings.rs:66-73 | the new fields are the increment of the old ones; requires no `u8` overflow |
| `SettingsEditor.SelectionCycles` | src/settings.rs:48-57 | down maps 0→1→2→0, up maps 0→2→1→0, both stay in 0..2, and three moves return to the start |
| `SettingsEditor.SelectionInverse` | src/settings.rs:48-57 | on 0..2, up after down and down after up are the identity |
| `SettingsEditor.DecrementNeverZero` | src/settings.rs:60-61 | a decrement never makes the work or break length 0 unless it was already 0 |
| `SettingsEditor.IncrementThenDecrement` | src/settings.rs:58-73 | with a nonzero length and no overflow, a decrement undoes an increment on the same entry |
| `SettingsEditor.DecrementThenIncrement` | src/settings.rs:58-73 | an increment undoes any decrement that took effect |
| `SettingsEditor.GetSettingNamesPhase` | src/settings.rs:33-46 | the editor's work/break request converts to the phase with the editor's length, and back again |
| `ClockText.GlyphShape` | src/ui.rs:388-400 | eleven glyphs, each with seven rows; digit rows 7 columns wide, colon rows 8; no row holds a line break |
| `ClockText.GlyphIndex` | src/ui.rs:371-375 | a digit d selects glyph d, ':' selects glyph 10, and every other character selects none |
| `ClockText.AppendGlyph` | src/ui.rs:377-382 | one more character keeps exactly seven rows |
| `ClockText.AsciiRows` | src/ui.rs:367-383 | a rendering always has exactly seven rows |
| `ClockText.FormatAsciiTime` | src/ui.rs:367-386 | the loops produce the seven glyph rows of the input joined by line breaks |
| `ClockText.RowsHaveNoLineBreak` | src/ui.rs:388-400 | no rendered row contains a line break |
| `ClockText.JoinCountsBreaks` | src/ui.rs:385 | joining k rows that hold no line break gives exactly k-1 line breaks |
| `ClockText.SplitInvertsJoin` | src/ui.rs:385 | splitting the joined text at line breaks gives back the rows |
| `ClockText.RenderedTextHasSevenLines` | src/ui.rs:367-386 | the rendered text holds exactly 6 line breaks and splits back into its 7 rows |
| `ClockText.RowsOfConcat` | src/ui.rs:370-383 | row i of the rendering of a+b is row i of a followed by row i of b |
| `ClockText.EmptyRows` | src/ui.rs:368 | no contract of its own; `EmptyInputRendersEmptyRows` states that it is seven empty rows and the rendering of the empty string |
| `ClockText.EmptyInputRendersEmptyRows` | src/ui.rs:368 | the empty string renders as seven empty rows |
| `ClockText.SingleCharacterRows` | src/ui.rs:371-382 | one recognised character renders row i of its glyph and two spaces; any other character renders nothing |
| `ClockText.SkippedCharacterIsInvisible` | src/ui.rs:374 | removing an unrecognised character anywhere leaves the rendering unchanged |
| `ClockText.RowsAreRectangular` | src/ui.rs:379-382 | every row has the same width: the sum over recognised characters of glyph width + 2 |
| `ClockText.TruncDiv` | src/ui.rs:134 | division truncates toward zero, as Rust's does: the quotient leaves a remainder with the dividend's sign, smaller than the divisor |
| `ClockText.TruncRem` | src/ui.rs:134 | quotient*divisor + remainder gives back the dividend; the remainder has the dividend's sign and is smaller than the divisor |
| `ClockText.DecimalRoundTrip` | src/ui.rs:134 | number formatting gives only digits, and they read back as the number |
| `ClockText.Pad2RoundTrip` | src/ui.rs:134 | `{:02}` of 0..99 is two digits that read back as the value |
| `ClockText.Hours` | src/ui.rs:134 | no contract of its own; `HmsDecomposition` states that for time >= 0 the hours are what is left after minutes and seconds, and `SentinelClockString` that -1 gives 0 hours |
| `ClockText.Minutes` | src/ui.rs:134 | no contract of its own; `HmsDecomposition` states that for time >= 0 the minutes are within 0..59 and add back up to the time |
| `ClockText.Seconds` | src/ui.rs:134 | no contract of its own; `HmsDecomposition` states that for time >= 0 the seconds are within 0..59 and add back up to the time |
| `ClockText.HmsDecomposition` | src/ui.rs:134 | for time >= 0: h*3600 + m*60 + s == time, 0 <= m < 60, 0 <= s < 60 |
| `ClockText.HmsStringReadsBack` | src/ui.rs:134 | below 100 hours the clock string is `hh:mm:ss`, and its fields read back as the time |
| `ClockText.SentinelClockString` | src/ui.rs:134 | the sentinel -1 shows as `00:00:-1` |
| `ClockText.ZeroClockString` | src/ui.rs:130 | the hidden clock string `00:00:00` is what a zero countdown shows |
| `ClockText.ClockStringChoice` | src/ui.rs:127-140 | a hidden, running clock shows the zero clock whatever the time; in every other case the clock shows h:m:s of the time |
| `ClockText.Join` | src/ui.rs:385 | no contract of its own; `JoinCountsBreaks` and `SplitInvertsJoin` state that k rows give k-1 line breaks and split back into the rows |
| `ClockText.Pad2` | src/ui.rs:134 | `{:02}` gives at least two characters; `Pad2RoundTrip` states that 0..99 gives two digits that read back as the value |
| `ClockText.HmsString` | src/ui.rs:134 | the clock string has at least eight characters; `HmsStringReadsBack` and `SentinelClockString` state its layout and the `00:00:-1` case |
| `ClockText.ClockString` | src/ui.rs:127-140 | no contract of its own; `ClockStringChoice` states which of the two strings is shown |
| `ClockText.RenderClock` | src/ui.rs:127-140 | the clock text is the glyph rendering of the chosen clock string |

## Left out

- The asynchronous run loop (src/timer.rs:41-62) is not modelled: the `tokio::select!` choice, the channels, the one-second `sleep` and the cancellation token. Its command arm is `ApplyCommand` and its tick arm is `Tick`; the caller decides which arm fires. The cancellation arm ends the loop and changes no state.
- The panic on `send(...).unwrap()` when the tick consumer is gone (src/timer.rs:57) is not modelled. `Tick` returns the value instead of sending it.
- `Timer.Timer.SetSetting`: the `unwrap()` of an iteration count without a value (src/timer.rs:91) becomes a precondition, `Timer.SettingAllowed`. It binds only when the timer is stopped, since only then is the value unwrapped.
- `Timer.Timer.NextIteration`: the `u8` iteration counter must not pass 255 when the advance enters a work phase (`Timer.CanAdvance`). The model takes the debug-build panic as a precondition and does not model release-build wrap-around.
- `SettingsEditor.SettingsTab.Increment`, `SettingsEditor.SettingsTab.Decrement`: the `u8` iteration count must not overflow or underflow when selected (`CanIncrement`, `CanDecrement`). The same choice as above.
- `i64` and `usize` overflow are not modelled. Time values and the cursor are unbounded integers; reaching the limits would take absurd inputs, such as 2^63 seconds or 2^64 cursor moves.
- Settings changes without a value (`WorkTime(None)`, `BreakTime(None)`) are modelled as the code handles them, yielding `Break(-1)`. The phase invariant lemmas assume a value: `WorkTime(None)` puts the placeholder break `Break(-1)` into the work slot, and `BreakTime(None)` writes it into the next-phase slot, which the invariant does not constrain.
- The getters and setters of `Timer` (src/timer.rs:109-146) are not modelled as separate members: the Dafny class's fields are read and written directly. `Display for PomodoroState` (src/timer.rs:168-179) is text formatting for the view.
- `format_ascii_time` splits each raw glyph string with `.lines()`. The model keeps the table already split into rows, and `ClockText.GlyphShape` states its shape. `output.join("\n")` is the function `ClockText.Join`.
- The hide-countdown flag (`ui_settings.hide_work_countdown`) is a field the shown `SettingsTab` lacks. It is a parameter of `ClockString` and `RenderClock`.
- Rendering and layout are not modelled: every `Widget::render` body apart from the clock string, `centered_rect`, styles, and the float progress ratios (src/ui.rs:118, src/app.rs:181).
- Also not modelled: the terminal application and its input loop (src/app.rs), the session coordinator's channel plumbing and `cycle` (src/romodoro.rs), process wiring (src/main.rs), and the error messages (src/error.rs). The coordinator's end-of-phase handling of the -1 sentinel is not part of this model.
