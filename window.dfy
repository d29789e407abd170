/**
  The main window of the standalone Qt Pomodoro demo, reduced to what it
  does with the engine: the two listeners of `cycleCompleted` (the timer
  page logging a finished focus phase to the statistics, then the window's
  auto-start hook), the buttons, the one-second timer and new settings.

  Qt runs the slots of a signal synchronously and in connection order, so
  both listeners run in the middle of `_complete_cycle`, after the
  `cycleCompleted` emit and before `current_mode` moves on.
*/
module Window {

  import opened Arith
  import opened Engine
  import opened Stats

  /** Whether the auto-start hook starts the engine when it sees `seen` as
      the engine's current phase. */
  function AutoStartWanted(c: Config, seen: Mode): bool {
    if seen == Focus then c.autoStartFocus else c.autoStartBreak
  }

  /** `_handle_auto_start`: start the engine when the setting for the phase
      it currently shows asks for it.  Starting a stopped engine emits a tick
      for the phase it currently shows; when the setting does not ask, nothing
      changes at all. */
  function AutoStarted(e: EngineState): (r: EngineState)
    ensures r.running == (e.running || AutoStartWanted(e.config, e.mode))
    ensures r.mode == e.mode && r.sessions == e.sessions && r.remaining == e.remaining && r.config == e.config
    ensures r.events == if !e.running && AutoStartWanted(e.config, e.mode) then e.events + [e.TickEvent()] else e.events
    ensures !AutoStartWanted(e.config, e.mode) ==> r == e
  {
    if AutoStartWanted(e.config, e.mode) then e.Start() else e
  }

  /** `TimerPage._on_cycle_complete`: a finished focus phase is logged with
      the configured focus minutes; a finished break logs nothing. */
  function HistoryAfter(h: History, c: Config, finished: Mode, today: Day): (r: History)
    ensures finished != Focus ==> r == h
    ensures finished == Focus ==>
              Lookup(r, today).pomodoros == Lookup(h, today).pomodoros + 1 &&
              Lookup(r, today).focusMinutes == Lookup(h, today).focusMinutes + c.focusMinutes
    ensures forall d :: d != today ==> Lookup(r, d) == Lookup(h, d)
  {
    if finished == Focus then Logged(h, today, c.focusMinutes) else h
  }

  /** What the window sees: the engine and the statistics history. */
  datatype WindowState = WindowState(engine: EngineState, history: History)
  {
    /** `_complete_cycle` with the window's listeners connected, as the
        source runs it: the hook sees the phase that has just FINISHED, so
        the engine keeps running in the next phase exactly when the setting
        of the finished phase asks for auto-start.  The start shows up in the
        signal log as a tick for the finished phase between `cycleCompleted`
        and `modeChanged`. */
    function CompleteCycle(forced: bool, today: Day): (r: WindowState)
      requires engine.CanAdvance(engine.mode, forced)
      ensures r.engine.running == AutoStartWanted(engine.config, engine.mode)
      ensures r.engine.events ==
                engine.events + [CycleCompleted(engine.mode)] +
                (if AutoStartWanted(engine.config, engine.mode) then [Tick(engine.mode, engine.remaining, engine.Total())] else []) +
                [ModeChanged(r.engine.mode), r.engine.TickEvent()]
      ensures r.engine.config == engine.config
      ensures r.engine.mode == engine.CompleteCycle(forced).mode
      ensures r.engine.sessions == engine.CompleteCycle(forced).sessions
      ensures r.engine.remaining == r.engine.Total()
      ensures r.history == HistoryAfter(history, engine.config, engine.mode, today)
    {
      var e1 := engine.EmitCycleCompleted();
      var h := HistoryAfter(history, e1.config, engine.mode, today);
      var e2 := AutoStarted(e1);
      CompletionAgrees(e2, engine, forced);
      WindowState(e2.Advance(engine.mode, forced), h)
    }

    /** The evidently intended completion: the hook decides on the phase
        that comes NEXT, so the engine runs on exactly when the setting of the
        next phase asks for auto-start. */
    function CompleteCycleIntended(forced: bool, today: Day): (r: WindowState)
      requires engine.CanAdvance(engine.mode, forced)
      ensures r.engine.running == AutoStartWanted(engine.config, r.engine.mode)
      ensures r.engine.events ==
                engine.events + [CycleCompleted(engine.mode), ModeChanged(r.engine.mode), r.engine.TickEvent()] +
                (if AutoStartWanted(engine.config, r.engine.mode) then [r.engine.TickEvent()] else [])
      ensures r.engine.config == engine.config
      ensures r.engine.mode == engine.CompleteCycle(forced).mode
      ensures r.engine.sessions == engine.CompleteCycle(forced).sessions
      ensures r.engine.remaining == r.engine.Total()
      ensures r.history == HistoryAfter(history, engine.config, engine.mode, today)
    {
      var e1 := engine.EmitCycleCompleted();
      var h := HistoryAfter(history, e1.config, engine.mode, today);
      var e2 := e1.Advance(engine.mode, forced);
      CompletionAgrees(e1, engine, forced);
      WindowState(AutoStarted(e2), h)
    }

    /** `_handle_tick` with the listeners connected. */
    function HandleTick(today: Day): (r: WindowState)
      requires engine.remaining > 1 || engine.CanAdvance(engine.mode, false)
      ensures engine.remaining > 1 ==> r.history == history && r.engine == engine.HandleTick()
      ensures engine.remaining <= 1 ==> r == WindowState(engine.(remaining := engine.remaining - 1), history).CompleteCycle(false, today)
    {
      var d := engine.(remaining := engine.remaining - 1);
      if d.remaining <= 0 then WindowState(d, history).CompleteCycle(false, today)
      else WindowState(d.(events := d.events + [d.TickEvent()]), history)
    }

    /** The one-second timer: `_handle_tick` runs only while the engine runs. */
    function TimerFires(today: Day): (r: WindowState)
      requires engine.running ==> engine.remaining > 1 || engine.CanAdvance(engine.mode, false)
      ensures !engine.running ==> r == this
    {
      if engine.running then HandleTick(today) else this
    }
  }

  /** `TimerPage._toggle_start`: the start button flips the running state
      and keeps phase and remaining time. */
  function ToggleStart(e: EngineState): (r: EngineState)
    ensures r.running == !e.running
    ensures r.mode == e.mode && r.remaining == e.remaining && r.sessions == e.sessions && r.config == e.config
  {
    if e.running then e.Pause() else e.Start()
  }

  /** With the default settings (`auto_start_break` on, `auto_start_focus`
      off) the source does the opposite of what they say: a focus phase that
      runs out leaves the short break stopped, and a short break that runs out
      starts the next focus phase. */
  lemma AutoStartReadsFinishedPhase()
    ensures var w := WindowState(EngineState(DefaultConfig, Focus, 1, 0, true, []), map[]);
            var r := w.TimerFires(0);
            DefaultConfig.autoStartBreak && r.engine.mode == ShortBreak && !r.engine.running
    ensures var w := WindowState(EngineState(DefaultConfig, ShortBreak, 1, 1, true, []), map[]);
            var r := w.TimerFires(0);
            !DefaultConfig.autoStartFocus && r.engine.mode == Focus && r.engine.running
  {
    var w := WindowState(EngineState(DefaultConfig, Focus, 1, 0, true, []), map[]);
    ModSmall(1, 4);
    assert w.engine.CompleteCycle(false).mode == ShortBreak;
  }

  /** On the same inputs the intended completion follows the settings: the
      short break starts by itself and the following focus phase does not. */
  lemma AutoStartIntendedFollowsSettings()
    ensures var w := WindowState(EngineState(DefaultConfig, Focus, 0, 0, true, []), map[]);
            var r := w.CompleteCycleIntended(false, 0);
            r.engine.mode == ShortBreak && r.engine.running
    ensures var w := WindowState(EngineState(DefaultConfig, ShortBreak, 0, 1, true, []), map[]);
            var r := w.CompleteCycleIntended(false, 0);
            r.engine.mode == Focus && !r.engine.running
  {
    ModSmall(1, 4);
  }

  /** `skip` on a focus phase does not count a session, yet the timer page
      still logs a pomodoro for today, because it listens to the same
      `cycleCompleted` signal. */
  lemma SkippedFocusIsLogged(w: WindowState, today: Day)
    requires w.engine.CanAdvance(w.engine.mode, true) && w.engine.mode == Focus && w.engine.sessions >= 0
    ensures var r := w.CompleteCycle(true, today);
            r.engine.sessions <= w.engine.sessions &&
            Lookup(r.history, today).pomodoros == Lookup(w.history, today).pomodoros + 1
  {
    SkipNeverCounts(w.engine);
  }

  /** The window object, holding the engine and the statistics store. */
  class PomodoroWindow {
    const engine: PomodoroEngine
    const stats: StatsStore

    function State(): WindowState
      reads this, engine, stats
    {
      WindowState(engine.State(), stats.history)
    }

    constructor (config: Config, history: History)
      ensures fresh(engine) && fresh(stats)
      ensures State() == WindowState(Init(config), history)
    {
      engine := new PomodoroEngine(config);
      stats := new StatsStore(history);
    }

    /** `TimerPage._on_cycle_complete`, connected first. */
    method OnCycleComplete(finished: Mode, today: Day)
      modifies stats
      ensures stats.history == HistoryAfter(old(stats.history), engine.config, finished, today)
    {
      if finished == Focus {
        stats.LogFocus(today, engine.config.focusMinutes);
      }
    }

    /** `_handle_auto_start`, connected second. */
    method HandleAutoStart()
      modifies engine
      ensures engine.State() == AutoStarted(old(engine.State()))
    {
      var next := engine.currentMode;
      if next == Focus && engine.config.autoStartFocus {
        engine.Start();
      } else if next != Focus && engine.config.autoStartBreak {
        engine.Start();
      }
    }

    /** `_complete_cycle` with both listeners running inside the
        `cycleCompleted` emit. */
    method CompleteCycle(forced: bool, today: Day)
      requires engine.State().CanAdvance(engine.currentMode, forced)
      modifies engine, stats
      ensures State() == old(State()).CompleteCycle(forced, today)
    {
      var mode := engine.EmitCycleCompleted();
      OnCycleComplete(mode, today);
      HandleAutoStart();
      engine.Advance(mode, forced);
    }

    /** The corrected order: the hook runs once the next phase is loaded. */
    method CompleteCycleIntended(forced: bool, today: Day)
      requires engine.State().CanAdvance(engine.currentMode, forced)
      modifies engine, stats
      ensures State() == old(State()).CompleteCycleIntended(forced, today)
    {
      var mode := engine.EmitCycleCompleted();
      OnCycleComplete(mode, today);
      engine.Advance(mode, forced);
      HandleAutoStart();
    }

    /** The engine's one-second timer, with the listeners connected. */
    method TimerFired(today: Day)
      requires engine.isRunning ==> engine.remaining > 1 || engine.State().CanAdvance(engine.currentMode, false)
      modifies engine, stats
      ensures State() == old(State()).TimerFires(today)
    {
      if !engine.isRunning {
        return;
      }
      engine.CountDown();
      if engine.remaining <= 0 {
        CompleteCycle(false, today);
        return;
      }
      engine.EmitTick();
    }

    /** The skip button (`engine.skip`). */
    method SkipPressed(today: Day)
      requires engine.State().CanAdvance(engine.currentMode, true)
      modifies engine, stats
      ensures State() == old(State()).CompleteCycle(true, today)
    {
      CompleteCycle(true, today);
    }

    /** The start/pause button. */
    method StartPressed()
      modifies engine
      ensures engine.State() == ToggleStart(old(engine.State()))
    {
      var running := engine.IsRunning();
      if running {
        engine.Pause();
      } else {
        engine.Start();
      }
    }

    /** The reset button: `reset(keep_mode=True)`. */
    method ResetPressed()
      modifies engine
      ensures engine.State() == old(engine.State()).Reset(true)
    {
      engine.Reset(true);
    }

    /** `_on_config_changed`, reduced to its effect on the engine. */
    method ConfigChanged(config: Config)
      modifies engine
      ensures engine.State() == old(engine.State()).UpdateConfig(config)
    {
      engine.UpdateConfig(config);
    }
  }
}
