/**
  The cycle machine of the standalone Qt Pomodoro demo: the phases
  (`PomodoroMode`), the settings record (`PomodoroConfig`) and the engine
  (`PomodoroEngine`) that counts a phase down second by second and moves
  focus -> break -> focus, giving a long break after every Nth completed
  focus session.

  Qt signals are modelled as an event log that every emit appends to; the
  `QTimer` is the explicit `Tick` method.  Each mutating method of the class
  is specified by a pure transition on `EngineState`, and the properties of
  the engine are stated about those transitions.
*/
module Engine {

  import opened Arith

  /** The three phases of a Pomodoro cycle. */
  datatype Mode = Focus | ShortBreak | LongBreak

  /** The name a phase is shown under (`PomodoroMode.label`). */
  function Label(m: Mode): (s: string)
    ensures |s| >= 2
  {
    match m
    case Focus => "专注"
    case ShortBreak => "短休息"
    case LongBreak => "长休息"
  }

  /** Different phases are shown under different names. */
  lemma LabelsDistinct(a: Mode, b: Mode)
    ensures Label(a) == Label(b) <==> a == b
  {
    if a != b {
      assert Label(a)[0] != Label(b)[0] || |Label(a)| != |Label(b)|;
    }
  }

  /** The user settings.  Durations are in minutes. */
  datatype Config = Config(
    focusMinutes: int,
    shortBreakMinutes: int,
    longBreakMinutes: int,
    longBreakInterval: int,
    autoStartFocus: bool,
    autoStartBreak: bool,
    soundEnabled: bool)

  /** The defaults of the settings record. */
  const DefaultConfig := Config(25, 5, 15, 4, false, true, false)

  /** The configured length, in minutes, of a phase. */
  function DurationForMode(c: Config, m: Mode): int {
    match m
    case Focus => c.focusMinutes
    case ShortBreak => c.shortBreakMinutes
    case LongBreak => c.longBreakMinutes
  }

  /** The length of a phase in seconds: always whole minutes, namely the
      phase's own configured minutes. */
  function TotalSeconds(c: Config, m: Mode): (r: int)
    ensures r % 60 == 0 && r / 60 == DurationForMode(c, m)
  {
    DurationForMode(c, m) * 60
  }

  /** The signals of the engine: `tick(mode, remaining, total)`,
      `modeChanged(mode)` and `cycleCompleted(mode)`. */
  datatype Event =
    | Tick(mode: Mode, remaining: int, total: int)
    | ModeChanged(mode: Mode)
    | CycleCompleted(mode: Mode)

  /** The decision of `_next_mode`: the phase that follows `mode` and the
      session counter afterwards.  Every break is followed by focus; a focus
      phase is followed by a long break exactly when the counter is a positive
      multiple of the interval, and then the counter starts again from 0.
      The interval only divides the counter when the phase is focus and the
      counter is positive (the `and` at line 227 short-circuits), so only
      then must it be non-zero; a negative interval is a divisibility test
      as in Python. */
  function NextModeRule(mode: Mode, sessions: int, interval: int): (r: (Mode, int))
    requires mode == Focus && sessions > 0 ==> interval != 0
    ensures mode != Focus ==> r == (Focus, sessions)
    ensures mode == Focus ==> r.0 != Focus
    ensures mode == Focus ==> (r.0 == LongBreak <==> sessions > 0 && sessions % interval == 0)
    ensures r.0 == LongBreak ==> r.1 == 0
    ensures r.0 != LongBreak ==> r.1 == sessions
  {
    if mode == Focus then
      if sessions > 0 && sessions % interval == 0 then (LongBreak, 0) else (ShortBreak, sessions)
    else
      (Focus, sessions)
  }

  /** The observable state of an engine: its settings, `current_mode`,
      `remaining` (seconds), `completed_sessions`, `_is_running`, and the
      signals emitted so far. */
  datatype EngineState = EngineState(
    config: Config,
    mode: Mode,
    remaining: int,
    sessions: int,
    running: bool,
    events: seq<Event>)
  {
    /** Full length of the current phase (`_total_seconds(current_mode)`). */
    function Total(): int {
      TotalSeconds(config, mode)
    }

    /** The `tick` signal for the current state. */
    function TickEvent(): Event {
      Tick(mode, remaining, Total())
    }

    /** `start`: a no-op on a running engine; otherwise the engine runs and a
        tick is emitted, with phase and remaining time untouched. */
    function Start(): (r: EngineState)
      ensures r.running
      ensures r.config == config && r.mode == mode && r.remaining == remaining && r.sessions == sessions
      ensures r.events == if running then events else events + [TickEvent()]
    {
      if running then this else this.(running := true, events := events + [TickEvent()])
    }

    /** `pause`: a no-op on a stopped engine; otherwise only the running flag
        is cleared and nothing is emitted. */
    function Pause(): (r: EngineState)
      ensures !r.running
      ensures r.config == config && r.mode == mode && r.remaining == remaining && r.sessions == sessions
      ensures r.events == events
    {
      if !running then this else this.(running := false)
    }

    /** `reset(keep_mode)`: the engine is stopped with the full time of its
        phase, which is kept or becomes focus; the session count is kept. */
    function Reset(keepMode: bool): (r: EngineState)
      ensures !r.running && r.remaining == r.Total()
      ensures r.mode == if keepMode then mode else Focus
      ensures r.config == config && r.sessions == sessions
      ensures r.events == events + [r.TickEvent()]
    {
      var p := Pause();
      var m := if keepMode then p.mode else Focus;
      var q := p.(mode := m, remaining := TotalSeconds(p.config, m));
      q.(events := q.events + [q.TickEvent()])
    }

    /** The session counter after the phase `finished` ends: one more only
        when a focus phase ran out on its own (not skipped). */
    function Counted(finished: Mode, forced: bool): (r: int)
      ensures r == sessions || r == sessions + 1
      ensures r == sessions + 1 <==> finished == Focus && !forced
    {
      if finished == Focus && !forced then sessions + 1 else sessions
    }

    /** Whether `_next_mode` decides after `finished` ends without a division
        by a zero interval, which would raise `ZeroDivisionError`. */
    predicate CanAdvance(finished: Mode, forced: bool) {
      finished == Focus && Counted(finished, forced) > 0 ==> config.longBreakInterval != 0
    }

    /** First half of `_complete_cycle`: stop, then emit `cycleCompleted`
        with the phase that has just ended.  Listeners of that signal run
        at this point, while `current_mode` is still the finished phase. */
    function EmitCycleCompleted(): (r: EngineState)
      ensures !r.running && r.config == config && r.mode == mode && r.remaining == remaining && r.sessions == sessions
      ensures r.events == events + [CycleCompleted(mode)]
    {
      var p := Pause();
      p.(events := p.events + [CycleCompleted(p.mode)])
    }

    /** Second half of `_complete_cycle`: count the session, choose the next
        phase, load its full time and emit `modeChanged` and `tick`. */
    function Advance(finished: Mode, forced: bool): (r: EngineState)
      requires CanAdvance(finished, forced)
      ensures r.config == config && r.running == running
      ensures r.remaining == r.Total()
      ensures finished != Focus ==> r.mode == Focus && r.sessions == sessions
      ensures finished == Focus ==> r.mode != Focus
      ensures r.mode == LongBreak <==>
                finished == Focus && Counted(finished, forced) > 0 && Counted(finished, forced) % config.longBreakInterval == 0
      ensures r.sessions == if r.mode == LongBreak then 0 else Counted(finished, forced)
      ensures r.events == events + [ModeChanged(r.mode), r.TickEvent()]
    {
      var (next, left) := NextModeRule(finished, Counted(finished, forced), config.longBreakInterval);
      var total := TotalSeconds(config, next);
      this.(mode := next, remaining := total, sessions := left,
            events := events + [ModeChanged(next), Tick(next, total, total)])
    }

    /** `_complete_cycle(forced)`: the engine stops in the next phase with
        that phase's full time; the counter grows only for a focus phase that
        was not forced, and a long break follows exactly when the grown
        counter is a positive multiple of the interval. */
    function CompleteCycle(forced: bool): (r: EngineState)
      requires CanAdvance(mode, forced)
      ensures !r.running && r.config == config
      ensures r.remaining == r.Total()
      ensures mode != Focus ==> r.mode == Focus && r.sessions == sessions
      ensures mode == Focus ==> r.mode != Focus
      ensures r.mode == LongBreak <==>
                mode == Focus && Counted(mode, forced) > 0 && Counted(mode, forced) % config.longBreakInterval == 0
      ensures r.sessions == if r.mode == LongBreak then 0 else Counted(mode, forced)
      ensures r.events == events + [CycleCompleted(mode), ModeChanged(r.mode), r.TickEvent()]
    {
      EmitCycleCompleted().Advance(mode, forced)
    }

    /** `update_config`: the new settings apply at once and the remaining
        time is capped at the new full length of the phase, never raised. */
    function UpdateConfig(c: Config): (r: EngineState)
      ensures r.config == c && r.mode == mode && r.sessions == sessions && r.running == running
      ensures r.remaining == if remaining <= TotalSeconds(c, mode) then remaining else TotalSeconds(c, mode)
      ensures r.remaining <= remaining && r.remaining <= r.Total()
      ensures r.events == events + [r.TickEvent()]
    {
      var total := TotalSeconds(c, mode);
      var q := this.(config := c, remaining := if remaining <= total then remaining else total);
      q.(events := q.events + [q.TickEvent()])
    }

    /** `_handle_tick`: one second less; the phase completes exactly when the
        new remaining time is not positive, and otherwise only the remaining
        time changes and a tick is emitted. */
    function HandleTick(): (r: EngineState)
      requires remaining > 1 || CanAdvance(mode, false)
      ensures r.config == config
      ensures remaining > 1 ==>
                r.mode == mode && r.sessions == sessions && r.running == running &&
                r.remaining == remaining - 1 && r.events == events + [r.TickEvent()]
      ensures remaining <= 1 ==> r == this.(remaining := remaining - 1).CompleteCycle(false)
      ensures |r.events| > |events| && (r.events[|events|] == CycleCompleted(mode) <==> remaining <= 1)
    {
      var d := this.(remaining := remaining - 1);
      if d.remaining <= 0 then d.CompleteCycle(false) else d.(events := d.events + [d.TickEvent()])
    }

    /** The one-second `QTimer` timeout: it reaches `_handle_tick` only while
        the timer is started, that is while the engine runs. */
    function TimerFires(): (r: EngineState)
      requires running ==> remaining > 1 || CanAdvance(mode, false)
      ensures r.config == config
      ensures !running ==> r == this
    {
      if running then HandleTick() else this
    }

    /** The state after `k` timer timeouts. */
    function Ticks(k: nat): (r: EngineState)
      requires config.longBreakInterval != 0
      ensures r.config == config
    {
      if k == 0 then this else Ticks(k - 1).TimerFires()
    }

    /** The state after `n` full rounds, each letting the current phase and
        then the following one run out. */
    function Rounds(n: nat): (r: EngineState)
      requires config.longBreakInterval != 0
      ensures r.config == config
    {
      if n == 0 then this else Rounds(n - 1).CompleteCycle(false).CompleteCycle(false)
    }

    /** The invariant the cycle rule keeps while the settings stay fixed. */
    predicate SessionsBound() {
      0 <= sessions < config.longBreakInterval
    }
  }

  /** A new engine: stopped, in focus, with the full focus time, no session
      counted yet and nothing emitted; it meets the counter bound. */
  function Init(c: Config): (r: EngineState)
    ensures r.config == c && r.mode == Focus && !r.running && r.remaining == r.Total()
    ensures r.sessions == 0 && r.events == []
    ensures c.longBreakInterval > 0 ==> r.SessionsBound()
  {
    EngineState(c, Focus, TotalSeconds(c, Focus), 0, false, [])
  }

  /** `skip` ends the phase without counting it: the counter never grows. */
  lemma SkipNeverCounts(s: EngineState)
    requires s.CanAdvance(s.mode, true) && s.sessions >= 0
    ensures 0 <= s.CompleteCycle(true).sessions <= s.sessions
    ensures s.CompleteCycle(true).mode != s.mode
  {
  }

  /** With fixed settings, `0 <= completed_sessions < long_break_interval`
      holds after every operation of the engine. */
  lemma TransitionsKeepSessionsBound(s: EngineState, keepMode: bool, forced: bool)
    requires s.SessionsBound()
    ensures s.Start().SessionsBound() && s.Pause().SessionsBound()
    ensures s.Reset(keepMode).SessionsBound()
    ensures s.CompleteCycle(forced).SessionsBound()
    ensures s.HandleTick().SessionsBound() && s.TimerFires().SessionsBound()
  {
    CompleteCycleKeepsBound(s, forced);
    CompleteCycleKeepsBound(s.(remaining := s.remaining - 1), false);
  }

  lemma CompleteCycleKeepsBound(s: EngineState, forced: bool)
    requires s.SessionsBound()
    ensures s.CompleteCycle(forced).SessionsBound()
  {
    var n := s.config.longBreakInterval;
    var c := s.Counted(s.mode, forced);
    if 0 < c < n {
      ModSmall(c, n);
    }
  }

  /** After `n` rounds from a focus phase, the engine is again in focus and
      the counter has advanced by `n`, modulo the interval. */
  lemma {:induction false} RoundsCount(s: EngineState, n: nat)
    requires s.mode == Focus && s.SessionsBound()
    ensures s.Rounds(n).mode == Focus
    ensures s.Rounds(n).sessions == (s.sessions + n) % s.config.longBreakInterval
  {
    var k := s.config.longBreakInterval;
    if n == 0 {
      ModSmall(s.sessions, k);
    } else {
      RoundsCount(s, n - 1);
      var t := s.Rounds(n - 1);
      var x := t.sessions;
      assert 0 <= x < k;
      ModIncrement(s.sessions + n - 1, k);
      var c1 := t.CompleteCycle(false);
      if x + 1 < k {
        ModSmall(x + 1, k);
      }
      assert c1.sessions == (s.sessions + n) % k;
      assert c1.mode != Focus;
    }
  }

  /** Every Nth completed focus session is followed by a long break: on a
      new engine, the focus phase that completes as the (j+1)-th leads to a
      long break exactly when j+1 is a multiple of `long_break_interval`. */
  lemma LongBreakEveryNth(c: Config, j: nat)
    requires c.longBreakInterval > 0
    ensures Init(c).Rounds(j).CompleteCycle(false).mode == LongBreak <==> (j + 1) % c.longBreakInterval == 0
  {
    var k := c.longBreakInterval;
    RoundsCount(Init(c), j);
    var t := Init(c).Rounds(j);
    assert t.sessions == j % k;
    ModIncrement(j, k);
    if j % k + 1 < k {
      ModSmall(j % k + 1, k);
    }
  }

  /** While a phase has more than `k` seconds left, `k` timer timeouts only
      count the remaining time down. */
  lemma {:induction false} TicksCountDown(s: EngineState, k: nat)
    requires s.config.longBreakInterval != 0 && s.running && k < s.remaining
    ensures s.Ticks(k).running && s.Ticks(k).mode == s.mode && s.Ticks(k).sessions == s.sessions
    ensures s.Ticks(k).remaining == s.remaining - k
  {
    if k > 0 {
      TicksCountDown(s, k - 1);
    }
  }

  /** A running phase with `remaining` seconds left completes on exactly the
      `remaining`-th timeout, in the state a direct completion gives. */
  lemma CycleEndsAfterRemainingTicks(s: EngineState)
    requires s.config.longBreakInterval != 0 && s.running && s.remaining >= 1
    ensures s.Ticks(s.remaining - 1).mode == s.mode
    ensures s.Ticks(s.remaining).mode == s.CompleteCycle(false).mode
    ensures s.Ticks(s.remaining).sessions == s.CompleteCycle(false).sessions
    ensures s.Ticks(s.remaining).remaining == s.CompleteCycle(false).remaining
    ensures !s.Ticks(s.remaining).running
  {
    var k := s.remaining - 1;
    TicksCountDown(s, k);
    var t := s.Ticks(k);
    assert t.running && t.remaining == 1 && t.mode == s.mode && t.sessions == s.sessions;
    var u := t.(remaining := 0);
    TicksStep(s, k);
    assert t.TimerFires() == u.CompleteCycle(false);
    CompletionAgrees(u, s, false);
  }

  lemma TicksStep(s: EngineState, k: nat)
    requires s.config.longBreakInterval != 0
    ensures s.Ticks(k + 1) == s.Ticks(k).TimerFires()
  {
  }

  /** The state a completion leaves depends only on the phase, the counter
      and the settings before it. */
  lemma CompletionAgrees(a: EngineState, b: EngineState, forced: bool)
    requires a.config == b.config && a.mode == b.mode && a.sessions == b.sessions
    requires a.CanAdvance(a.mode, forced)
    ensures a.CompleteCycle(forced).mode == b.CompleteCycle(forced).mode
    ensures a.CompleteCycle(forced).sessions == b.CompleteCycle(forced).sessions
    ensures a.CompleteCycle(forced).remaining == b.CompleteCycle(forced).remaining
  {
    assert a.Counted(a.mode, forced) == b.Counted(b.mode, forced);
  }

  /** The engine object of the demo.  Its fields are those of the source;
      `events` records every signal the engine has emitted. */
  class PomodoroEngine {
    var config: Config
    var currentMode: Mode
    var remaining: int
    var completedSessions: int
    var isRunning: bool
    var events: seq<Event>

    function State(): EngineState
      reads this
    {
      EngineState(config, currentMode, remaining, completedSessions, isRunning, events)
    }

    constructor (config: Config)
      ensures State() == Init(config)
    {
      this.config := config;
      currentMode := Focus;
      remaining := TotalSeconds(config, Focus);
      completedSessions := 0;
      isRunning := false;
      events := [];
    }

    method EmitTick()
      modifies this
      ensures State() == old(State()).(events := old(events) + [old(State()).TickEvent()])
    {
      events := events + [Event.Tick(currentMode, remaining, TotalSeconds(config, currentMode))];
    }

    method Start()
      modifies this
      ensures State() == old(State()).Start()
    {
      if isRunning {
        return;
      }
      isRunning := true;
      EmitTick();
    }

    method Pause()
      modifies this
      ensures State() == old(State()).Pause()
    {
      if !isRunning {
        return;
      }
      isRunning := false;
    }

    method Reset(keepMode: bool)
      modifies this
      ensures State() == old(State()).Reset(keepMode)
    {
      Pause();
      if !keepMode {
        currentMode := Focus;
      }
      remaining := TotalSeconds(config, currentMode);
      EmitTick();
    }

    method Skip()
      requires State().CanAdvance(currentMode, true)
      modifies this
      ensures State() == old(State()).CompleteCycle(true)
    {
      CompleteCycle(true);
    }

    method IsRunning() returns (running: bool)
      ensures running == isRunning
    {
      running := isRunning;
    }

    method UpdateConfig(newConfig: Config)
      modifies this
      ensures State() == old(State()).UpdateConfig(newConfig)
    {
      config := newConfig;
      var total := TotalSeconds(config, currentMode);
      remaining := if remaining <= total then remaining else total;
      EmitTick();
    }

    /** The first statement of `_handle_tick`. */
    method CountDown()
      modifies this
      ensures State() == old(State()).(remaining := old(remaining) - 1)
    {
      remaining := remaining - 1;
    }

    method HandleTick()
      requires remaining > 1 || State().CanAdvance(currentMode, false)
      modifies this
      ensures State() == old(State()).HandleTick()
    {
      CountDown();
      if remaining <= 0 {
        CompleteCycle(false);
        return;
      }
      EmitTick();
    }

    /** The `QTimer` timeout, delivered only while the timer is started. */
    method Tick()
      requires isRunning ==> remaining > 1 || State().CanAdvance(currentMode, false)
      modifies this
      ensures State() == old(State()).TimerFires()
    {
      if isRunning {
        HandleTick();
      }
    }

    method CompleteCycle(forced: bool)
      requires State().CanAdvance(currentMode, forced)
      modifies this
      ensures State() == old(State()).CompleteCycle(forced)
    {
      var mode := EmitCycleCompleted();
      Advance(mode, forced);
    }

    /** Stop and emit `cycleCompleted`; returns the phase that ended. */
    method EmitCycleCompleted() returns (mode: Mode)
      modifies this
      ensures mode == old(currentMode)
      ensures State() == old(State()).EmitCycleCompleted()
    {
      Pause();
      mode := currentMode;
      events := events + [CycleCompleted(mode)];
    }

    /** The part of `_complete_cycle` after the `cycleCompleted` emit;
        `finished` is the phase captured before the emit. */
    method Advance(finished: Mode, forced: bool)
      requires State().CanAdvance(finished, forced)
      modifies this
      ensures State() == old(State()).Advance(finished, forced)
    {
      if finished == Focus && !forced {
        completedSessions := completedSessions + 1;
      }
      var next := NextMode(finished);
      currentMode := next;
      remaining := TotalSeconds(config, next);
      events := events + [ModeChanged(next)];
      EmitTick();
    }

    /** `_next_mode`, which also resets the counter when it grants a long
        break. */
    method NextMode(mode: Mode) returns (next: Mode)
      requires mode == Focus && completedSessions > 0 ==> config.longBreakInterval != 0
      modifies this
      ensures (next, completedSessions) == NextModeRule(mode, old(completedSessions), old(config).longBreakInterval)
      ensures State() == old(State()).(sessions := completedSessions)
    {
      if mode == Focus {
        if completedSessions > 0 && completedSessions % config.longBreakInterval == 0 {
          completedSessions := 0;
          return LongBreak;
        }
        return ShortBreak;
      }
      return Focus;
    }
  }
}
