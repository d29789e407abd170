# Pomodoro timers of booltox-plugins, modelled in Dafny

This project models the two Pomodoro timers of the repository and proves
properties of them.

* **The standalone Qt demo** (`packages/examples/python-standalone-demo/main.py`).
  The engine cycles focus → short break / long break → focus. It counts
  completed focus sessions and grants a long break after every Nth one. A
  per-day statistics store logs each finished focus phase. The window wires
  the engine's `cycleCompleted` signal to two listeners: stats logging and an
  auto-start hook. The modules are:
  * `Engine`: the phases, the settings, the engine state and its transitions, and the class `PomodoroEngine`.
  * `Stats`: the store `StatsStore` and its weekly report.
  * `Display`: the `MM:SS` clock text.
  * `Window`: the class `PomodoroWindow`, with both listeners and the buttons.
* **The plugin backend** (`packages/official/pomodoro/backend/server.py`).
  A single countdown driven by JSON-RPC 2.0 requests. It answers on the same
  output stream that carries its `$event` notifications. This is module
  `TimerServer`, with the class `PomodoroTimer`.

Every class keeps the source's fields and updates them in place. A
`State()` function reads the fields into a datatype. Each mutating method is
proved to leave `State() == F(old(State()))`, where `F` is a pure transition
on that datatype. The properties are stated on those transitions, as their
ensures clauses and as lemmas.

Modelling choices:

* Qt signals and stdout lines are appended to an event log (`events`, `outbox`).
* The `QTimer` timeout is the explicit `Tick` / `TimerFired` method.
* The background thread's loop is `RunLoop`. One iteration of it is `TickOnce`.
* A `QDate` is an abstract day number, so `addDays(-n)` is subtraction.
* The current day and `datetime.now()` are parameters.
* Python's `//` and `%` by 60 are Dafny's `/` and `%`. For a positive divisor, Euclidean and floor division agree.

## Model

| member | source | states |
|---|---|---|
| `Engine.Label` | packages/examples/python-standalone-demo/main.py:57-63 | every phase has a non-empty display name |
| `Engine.LabelsDistinct` | packages/examples/python-standalone-demo/main.py:57-63 | two phases have the same name only if they are the same phase |
| `Engine.DurationForMode` | packages/examples/python-standalone-demo/main.py:91-96 | selects the phase's own minutes field; its contract is stated through `TotalSeconds` and `Display.FullPhaseShowsWholeMinutes` |
| `Engine.TotalSeconds` | packages/examples/python-standalone-demo/main.py:171-172 | a phase's length in seconds is whole minutes, and those minutes are the phase's own configured field |
| `Engine.NextModeRule` | packages/examples/python-standalone-demo/main.py:224-233 | a break is followed by focus with the counter kept; focus is followed by a long break (counter reset to 0) iff the counter is positive and divisible by the interval, else by a short break |
| `Engine.EngineState.Start` | packages/examples/python-standalone-demo/main.py:174-179 | the engine runs afterwards; phase, time and counter are unchanged; a tick is emitted only if it was stopped, and otherwise nothing changes |
| `Engine.EngineState.Pause` | packages/examples/python-standalone-demo/main.py:181-185 | the engine is stopped afterwards; phase, time, counter and event log are unchanged |
| `Engine.EngineState.Reset` | packages/examples/python-standalone-demo/main.py:187-192 | stopped, with the full time of the phase; the phase becomes focus iff `keep_mode` is false; the counter is untouched; one tick is emitted |
| `Engine.EngineState.Counted` | packages/examples/python-standalone-demo/main.py:216-217 | the counter grows by exactly one iff a focus phase ended without being forced, and otherwise stays |
| `Engine.EngineState.EmitCycleCompleted` | packages/examples/python-standalone-demo/main.py:213-215 | stopped, phase, time and counter kept, and cycleCompleted(finished phase) appended |
| `Engine.EngineState.Advance` | packages/examples/python-standalone-demo/main.py:216-222 | the running flag is kept; the next phase by the counter rule with its full time; modeChanged and tick appended |
| `Engine.EngineState.CompleteCycle` | packages/examples/python-standalone-demo/main.py:212-222 | stopped in the next phase with its full time; the counter grows only for a non-forced focus; long break iff that count is a positive multiple of the interval; emits cycleCompleted(finished), modeChanged(next), tick, in that order |
| `Engine.EngineState.UpdateConfig` | packages/examples/python-standalone-demo/main.py:200-203 | the new settings apply; remaining becomes min(old remaining, new full length), so it never increases; phase, counter and running flag are kept |
| `Engine.EngineState.HandleTick` | packages/examples/python-standalone-demo/main.py:205-210 | the phase completes iff the decremented time is ≤ 0; otherwise only remaining drops by exactly 1 and a tick is emitted |
| `Engine.EngineState.TimerFires` | packages/examples/python-standalone-demo/main.py:163-165 | a timer timeout changes nothing on a stopped engine |
| `Engine.Init` | packages/examples/python-standalone-demo/main.py:166-169 | a new engine is stopped in focus with the full focus time, counter 0, nothing emitted, and meets the counter bound |
| `Engine.SkipNeverCounts` | packages/examples/python-standalone-demo/main.py:194-195 | `skip` always changes the phase and never increases the session counter |
| `Engine.TransitionsKeepSessionsBound` | packages/examples/python-standalone-demo/main.py:224-233 | with fixed settings, every operation keeps `0 <= completed_sessions < long_break_interval` |
| `Engine.CompleteCycleKeepsBound` | packages/examples/python-standalone-demo/main.py:216-230 | completing a phase keeps the counter below the interval |
| `Engine.RoundsCount` | packages/examples/python-standalone-demo/main.py:212-233 | after n full focus+break rounds the engine is in focus again, with the counter advanced by n modulo the interval |
| `Engine.LongBreakEveryNth` | packages/examples/python-standalone-demo/main.py:224-233 | on a new engine, the (j+1)-th completed focus leads to a long break iff j+1 is a multiple of the interval |
| `Engine.TicksCountDown` | packages/examples/python-standalone-demo/main.py:205-210 | while more than k seconds are left, k timeouts only count the time down, by k |
| `Engine.CycleEndsAfterRemainingTicks` | packages/examples/python-standalone-demo/main.py:205-210 | a running phase with r seconds left completes exactly on the r-th timeout, with the state a direct completion gives |
| `Engine.CompletionAgrees` | packages/examples/python-standalone-demo/main.py:212-222 | the result of a completion depends only on the phase, the counter and the settings |
| `Engine.PomodoroEngine.constructor` | packages/examples/python-standalone-demo/main.py:160-169 | a new engine is stopped, in focus, with the full focus time and counter 0 |
| `Engine.PomodoroEngine.Start` | packages/examples/python-standalone-demo/main.py:174-179 | implements `EngineState.Start` on the fields |
| `Engine.PomodoroEngine.Pause` | packages/examples/python-standalone-demo/main.py:181-185 | implements `EngineState.Pause` on the fields |
| `Engine.PomodoroEngine.Reset` | packages/examples/python-standalone-demo/main.py:187-192 | implements `EngineState.Reset`, by way of `pause` as in the source |
| `Engine.PomodoroEngine.Skip` | packages/examples/python-standalone-demo/main.py:194-195 | a forced completion |
| `Engine.PomodoroEngine.IsRunning` | packages/examples/python-standalone-demo/main.py:197-198 | returns the running flag |
| `Engine.PomodoroEngine.UpdateConfig` | packages/examples/python-standalone-demo/main.py:200-203 | implements `EngineState.UpdateConfig` |
| `Engine.PomodoroEngine.CountDown` | packages/examples/python-standalone-demo/main.py:206-206 | one second less, nothing else changes |
| `Engine.PomodoroEngine.HandleTick` | packages/examples/python-standalone-demo/main.py:205-210 | implements `EngineState.HandleTick` |
| `Engine.PomodoroEngine.Tick` | packages/examples/python-standalone-demo/main.py:163-165 | the QTimer timeout reaches `_handle_tick` only while running |
| `Engine.PomodoroEngine.CompleteCycle` | packages/examples/python-standalone-demo/main.py:212-222 | implements `EngineState.CompleteCycle` as an emit step followed by an advance step |
| `Engine.PomodoroEngine.EmitCycleCompleted` | packages/examples/python-standalone-demo/main.py:213-215 | stops the engine, emits cycleCompleted with the phase that ended, and returns that phase |
| `Engine.PomodoroEngine.Advance` | packages/examples/python-standalone-demo/main.py:216-222 | counts the session, moves to the next phase with its full time, and emits modeChanged and tick |
| `Engine.PomodoroEngine.NextMode` | packages/examples/python-standalone-demo/main.py:224-233 | the returned phase and the new counter are those of `NextModeRule`; no other field changes |
| `Engine.PomodoroEngine.EmitTick` | packages/examples/python-standalone-demo/main.py:179-179 | appends the tick signal for the current state |
| `Stats.Logged` | packages/examples/python-standalone-demo/main.py:116-123 | today gains one pomodoro and the minutes, starting from zeros if absent; every other day is unchanged; no key other than today is added |
| `Stats.LoggedReport` | packages/examples/python-standalone-demo/main.py:116-134 | after a log, only the newest line of the weekly report changes, by +1 pomodoro and +minutes |
| `Stats.StatsStore.constructor` | packages/examples/python-standalone-demo/main.py:100-102 | the store starts from the given history |
| `Stats.StatsStore.LogFocus` | packages/examples/python-standalone-demo/main.py:116-123 | the history becomes `Logged(old history, today, minutes)` |
| `Stats.StatsStore.WeeklyReport` | packages/examples/python-standalone-demo/main.py:125-134 | exactly 7 lines, oldest first and ending today; each line holds that day's counters, zeros if missing |
| `Stats.StatsStore.TodayStats` | packages/examples/python-standalone-demo/main.py:136-139 | today's counters, or zeros when today has no entry |
| `Display.ClockSplit` | packages/examples/python-standalone-demo/main.py:313-315 | minutes*60 + seconds == remaining, with 0 <= seconds < 60 (Python floor semantics) |
| `Display.ClockSplitUnique` | packages/examples/python-standalone-demo/main.py:313-315 | the split is the only one with seconds in [0, 60) |
| `Display.FullPhaseShowsWholeMinutes` | packages/examples/python-standalone-demo/main.py:171-172 | a phase with its full time left shows its configured minutes and 00 seconds |
| `Display.Format02` | packages/examples/python-standalone-demo/main.py:316-316 | `02d` gives at least two characters, all digits for a non-negative number and a leading `-` otherwise; `Format02TwoDigits` states the two-digit case exactly |
| `Display.TimeLabel` | packages/examples/python-standalone-demo/main.py:313-316 | the label is the minutes text, a `:` and the seconds text, at least five characters; `TimeLabelRoundTrip` states the round trip |
| `Display.Format02TwoDigits` | packages/examples/python-standalone-demo/main.py:316-316 | `02d` prints 0..99 as exactly two digits |
| `Display.TimeLabelRoundTrip` | packages/examples/python-standalone-demo/main.py:313-316 | below 100 minutes the label is `MM:SS`, and reading it back gives the remaining seconds |
| `Window.AutoStartWanted` | packages/examples/python-standalone-demo/main.py:480-483 | which setting the hook reads for the phase it sees; its contract is stated through `AutoStarted` |
| `Window.AutoStarted` | packages/examples/python-standalone-demo/main.py:478-483 | the hook starts the engine iff the setting for the phase the engine currently shows asks for it; a start of a stopped engine appends one tick for that phase; phase, time, counter and settings are kept; with the setting off the state is unchanged |
| `Window.HistoryAfter` | packages/examples/python-standalone-demo/main.py:325-327 | a finished focus phase adds one pomodoro and the configured focus minutes to today; a finished break leaves the history as it was; other days never change |
| `Window.ToggleStart` | packages/examples/python-standalone-demo/main.py:303-311 | the start button flips the running flag and keeps phase and time |
| `Window.WindowState.CompleteCycle` | packages/examples/python-standalone-demo/main.py:212-222 | with both listeners: same phase, counter and time as a plain completion; a focus phase is logged; the engine runs on iff the setting of the FINISHED phase asks for auto-start; the signals are cycleCompleted(finished), then a tick for the finished phase iff it auto-started, then modeChanged(next) and tick(next) |
| `Window.WindowState.CompleteCycleIntended` | packages/examples/python-standalone-demo/main.py:478-483 | corrected order: same as above, but the engine runs on iff the setting of the NEXT phase asks for auto-start, and the extra tick, if any, comes last and is for the next phase |
| `Window.WindowState.HandleTick` | packages/examples/python-standalone-demo/main.py:205-210 | with the listeners connected: the engine alone on a non-final tick, the window's completion on the final one |
| `Window.WindowState.TimerFires` | packages/examples/python-standalone-demo/main.py:163-165 | a timeout changes nothing when the engine is stopped |
| `Window.AutoStartReadsFinishedPhase` | packages/examples/python-standalone-demo/main.py:478-483 | with the default settings, the break after a focus phase stays stopped and the focus phase after a break starts |
| `Window.AutoStartIntendedFollowsSettings` | packages/examples/python-standalone-demo/main.py:480-483 | on those inputs the corrected completion starts the break and leaves focus stopped |
| `Window.SkippedFocusIsLogged` | packages/examples/python-standalone-demo/main.py:325-327 | skipping focus counts no session, yet today's statistics gain a pomodoro |
| `Window.PomodoroWindow.constructor` | packages/examples/python-standalone-demo/main.py:451-457 | a fresh engine in its initial state and a store over the given history |
| `Window.PomodoroWindow.OnCycleComplete` | packages/examples/python-standalone-demo/main.py:325-327 | logs the configured focus minutes when the finished phase is focus |
| `Window.PomodoroWindow.HandleAutoStart` | packages/examples/python-standalone-demo/main.py:478-483 | implements `AutoStarted` on the engine object |
| `Window.PomodoroWindow.CompleteCycle` | packages/examples/python-standalone-demo/main.py:212-222 | emit, then the stats listener, then the auto-start hook, then advance; equals `WindowState.CompleteCycle` |
| `Window.PomodoroWindow.CompleteCycleIntended` | packages/examples/python-standalone-demo/main.py:475-483 | the hook runs after the advance; equals `WindowState.CompleteCycleIntended` |
| `Window.PomodoroWindow.TimerFired` | packages/examples/python-standalone-demo/main.py:205-210 | the one-second timer with the listeners connected |
| `Window.PomodoroWindow.SkipPressed` | packages/examples/python-standalone-demo/main.py:297-297 | a forced completion with the listeners connected |
| `Window.PomodoroWindow.StartPressed` | packages/examples/python-standalone-demo/main.py:303-309 | pauses a running engine, starts a stopped one |
| `Window.PomodoroWindow.ResetPressed` | packages/examples/python-standalone-demo/main.py:296-296 | `reset(keep_mode=True)` |
| `Window.PomodoroWindow.ConfigChanged` | packages/examples/python-standalone-demo/main.py:485-488 | new settings reach the engine through `update_config` |
| `TimerServer.Truthy` | packages/official/pomodoro/backend/server.py:84-84 | Python's truth test of the optional duration: present and non-zero; its contract is stated through `TimerState.StartTimer` |
| `TimerServer.MethodText` | packages/official/pomodoro/backend/server.py:165-165 | how the f-string shows the method name; its contract is stated through `TimerState.Route` |
| `TimerServer.TimerState.StartTimer` | packages/official/pomodoro/backend/server.py:79-97 | a running timer refuses with "Timer already running" and nothing changes; otherwise it runs from a truthy duration (which it also stores) or from the old duration, stamps the start time and returns the new remaining |
| `TimerServer.TimerState.PauseTimer` | packages/official/pomodoro/backend/server.py:99-105 | a stopped timer refuses with "Timer not running"; otherwise only the running flag clears |
| `TimerServer.TimerState.ResetTimer` | packages/official/pomodoro/backend/server.py:107-118 | always succeeds: stopped, remaining == duration, no start time, one reset event carrying remaining |
| `TimerServer.TimerState.GetStatus` | packages/official/pomodoro/backend/server.py:120-127 | reports exactly the running flag, remaining and duration; the start time is null iff it is unset |
| `TimerServer.TimerState.TickOnce` | packages/official/pomodoro/backend/server.py:50-66 | one second less with a tick event (remaining, total); stops with a complete event exactly when 0 is reached; no-op when the loop guard fails; never below 0 from a non-negative start |
| `TimerServer.TimerState.Countdown` | packages/official/pomodoro/backend/server.py:48-66 | the loop ends only when its condition fails, keeping duration and start time, and leaves a timer whose condition fails at once as it is; `CountdownRunsOut` states the ticks written |
| `TimerServer.TimerState.Route` | packages/official/pomodoro/backend/server.py:155-165 | the four names route to their methods; any other name gives error -32601 "Method not found: …" and changes nothing |
| `TimerServer.TimerState.Handle` | packages/official/pomodoro/backend/server.py:167-169 | a response is written iff the request id is non-null, after whatever the routed method wrote; the timer fields are those of the routed method |
| `TimerServer.CountdownTicks` | packages/official/pomodoro/backend/server.py:52-59 | a countdown from n announces n-1, …, 0 in order |
| `TimerServer.CountdownRunsOut` | packages/official/pomodoro/backend/server.py:48-66 | a running timer with time left ends stopped at 0 after every tick and one complete event; with no time left it stays running and writes nothing |
| `TimerServer.StartAfterPauseRestarts` | packages/official/pomodoro/backend/server.py:84-88 | start, any number of ticks, pause, then start without a duration gives the full duration again |
| `TimerServer.TickKeepsDuration` | packages/official/pomodoro/backend/server.py:50-59 | the loop never changes the duration |
| `TimerServer.PomodoroTimer.constructor` | packages/official/pomodoro/backend/server.py:16-21 | duration == remaining == 1500, stopped, no start time |
| `TimerServer.PomodoroTimer.Send` | packages/official/pomodoro/backend/server.py:23-31 | appends one `$event` notification |
| `TimerServer.PomodoroTimer.SendReady` | packages/official/pomodoro/backend/server.py:133-137 | appends the `$ready` notification with version 1.0.0 and the four method names |
| `TimerServer.PomodoroTimer.StartTimer` | packages/official/pomodoro/backend/server.py:79-97 | implements `TimerState.StartTimer` on the fields |
| `TimerServer.PomodoroTimer.PauseTimer` | packages/official/pomodoro/backend/server.py:99-105 | implements `TimerState.PauseTimer` |
| `TimerServer.PomodoroTimer.ResetTimer` | packages/official/pomodoro/backend/server.py:107-118 | implements `TimerState.ResetTimer` |
| `TimerServer.PomodoroTimer.GetStatus` | packages/official/pomodoro/backend/server.py:120-127 | returns exactly the four status fields |
| `TimerServer.PomodoroTimer.TickOnce` | packages/official/pomodoro/backend/server.py:52-66 | one loop iteration, as `TimerState.TickOnce` |
| `TimerServer.PomodoroTimer.RunLoop` | packages/official/pomodoro/backend/server.py:48-66 | the loop ends in the state `Countdown` describes, which `CountdownRunsOut` characterises |
| `TimerServer.PomodoroTimer.HandleRequest` | packages/official/pomodoro/backend/server.py:140-169 | one pass of the request loop, as `TimerState.Handle` |

## Findings

| source | as written | input that shows it | evidently intended | confidence | as-written member | corrected member |
|---|---|---|---|---|---|---|
| packages/examples/python-standalone-demo/main.py:478-483 | `_handle_auto_start` runs inside the `cycleCompleted` emit (line 215). `current_mode` moves on only at line 219, so `engine.current_mode`, stored in a variable called `next_mode`, is still the phase that just finished. Each auto-start setting therefore acts on the wrong phase. | Default settings (`auto_start_break` on, `auto_start_focus` off). A focus phase runs out: the short break stays stopped. A short break then runs out: focus starts by itself. | The hook decides on the phase that comes next, so a break starts iff `auto_start_break` is on and focus starts iff `auto_start_focus` is on. | medium: the name `next_mode` shows the intent; not executed | `Window.AutoStartReadsFinishedPhase` (over `Window.WindowState.CompleteCycle`) | `Window.WindowState.CompleteCycleIntended` (with `Window.AutoStartIntendedFollowsSettings`) |

The timer path `PomodoroWindow.TimerFired` keeps the source's order, because
that is what the program does. The corrected order is
`PomodoroWindow.CompleteCycleIntended`.

## Left out

- Qt widgets, layouts, InfoBar, theme, fonts: user interface.
- `QSettings` persistence (`from_settings`, `persist`): foreign library. `from_settings` does not enforce the SpinBox ranges, so the model accepts any integers in `Config`.
- JSON encoding and decoding in `StatsStore._load` / `_save`: foreign library. The store is an in-memory map, and a corrupt stored value (which `_load` turns into `{}`) is not modelled.
- The ISO date strings of `QDate.toString`: a day is an abstract number, and the report's `date` field holds that number.
- The progress percentage `int((remaining / total) * 100)` in `_on_tick`: floating point.
- The mode label and status texts set on widgets by `_on_mode_change` and `_toggle_start`: user interface.
- `plyer` notifications and `SystemNotifier`, in both files: external side effects.
- Threading and `time.sleep` in `timer_loop` / `start_timer`: concurrency. A tick that lands after `pause`, and two loop threads alive after a quick pause-start, are out of scope. A tick is an explicit sequential step.
- Reading stdin, JSON framing, `JSONDecodeError`, and the `Exception` → -32603 path of `main`: I/O. A request is given already decoded, with an integer or absent `duration` and a string or absent `method`.
- Engine.NextModeRule: requires a non-zero `long_break_interval` only when a focus phase ends with a positive counter, which is exactly when line 228 divides by it. With interval 0 the source then raises ZeroDivisionError after the pause, the emit and the counter increment; that exception path is not modelled. `EngineState.Advance`, `CompleteCycle`, `HandleTick` and `TimerFires`, and the class methods over them, inherit the condition as `CanAdvance`. A negative interval is accepted: Python's and Dafny's `%` both give 0 exactly for a multiple. The counter-bound lemmas (`SessionsBound`, `RoundsCount`, `LongBreakEveryNth`) are stated for a positive interval.
- Settings are values here. In the source one `PomodoroConfig` object is shared and mutated in place by the settings page just before `update_config` runs. Nothing observes the difference in between.
- `packages/examples/backend-demo/backend/server.py`, `packages/official/uiautodev/backend/main.py`, `packages/official/uiautodev/uiautodev/router/proxy.py`: OS metrics, subprocesses, sockets, HTTP routes and file streaming are not part of this model.
