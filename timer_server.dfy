/**
  The backend of the Pomodoro plugin: one countdown (`PomodoroTimer`) driven
  by JSON-RPC 2.0 requests read line by line, answering on the same output
  stream that carries its `$event` notifications.

  The output stream is the `outbox` sequence.  The clock reading of
  `datetime.now()` is a parameter.  The background thread's loop is the
  sequential `RunLoop`, one iteration of which is `TickOnce`.
*/
module TimerServer {

  import opened Wrappers

  /** A reading of the wall clock. */
  type Instant = int

  /** 25 minutes, in seconds: the initial duration. */
  const DefaultDuration := 25 * 60

  /** "Method not found" (section 5.1 of the JSON-RPC 2.0 specification). */
  const MethodNotFound := -32601

  /** The method names announced in the `$ready` notification. */
  const MethodNames: seq<string> := ["start", "pause", "reset", "getStatus"]

  /** The payloads of the `$event` notification. */
  datatype Event =
    | TickEvent(remaining: int, total: int)
    | CompleteEvent
    | ResetEvent(remaining: int)

  /** The result dictionaries of the four methods. */
  datatype Reply =
    | Accepted(remaining: int)                       // {"success": True, "remaining": …}
    | Refused(error: string)                         // {"success": False, "error": …}
    | Status(isRunning: bool, remaining: int, duration: int, startTime: Option<Instant>)

  /** The body of a response: a result or an error object. */
  datatype Outcome = Result(reply: Reply) | Error(code: int, message: string)

  /** A non-null JSON-RPC request id. */
  datatype RequestId = NumberId(number: int) | StringId(text: string)

  /** One line written to standard output. */
  datatype Message =
    | EventNote(event: Event)                                  // method "$event"
    | ReadyNote(version: string, methods: seq<string>)         // method "$ready"
    | Response(id: RequestId, outcome: Outcome)

  /** A decoded request: its `method` name, the `duration` of its params, and its
      `id` (None for a missing or null id). */
  datatype Request = Request(methodName: Option<string>, duration: Option<int>, id: Option<RequestId>)

  /** Python's truth value of the optional `duration` parameter. */
  predicate Truthy(d: Option<int>) {
    d.Some? && d.value != 0
  }

  /** How `f"{method}"` shows the method name. */
  function MethodText(m: Option<string>): string {
    if m.Some? then m.value else "None"
  }

  /** The timer's fields and everything written so far. */
  datatype TimerState = TimerState(
    duration: int,
    remaining: int,
    running: bool,
    startTime: Option<Instant>,
    outbox: seq<Message>)
  {
    /** `start_timer(duration)`: refused, changing nothing, while the timer
        runs; otherwise the countdown restarts from the given duration (which
        becomes the new duration) or, without one, from the old duration, so
        a start after a pause restarts instead of resuming. */
    function StartTimer(d: Option<int>, now: Instant): (r: (TimerState, Reply))
      ensures running ==> r == (this, Refused("Timer already running"))
      ensures !running ==> r.0.running && r.0.startTime == Some(now) && r.0.outbox == outbox
      ensures !running ==> r.0.duration == (if Truthy(d) then d.value else duration)
      ensures !running ==> r.0.remaining == r.0.duration && r.1 == Accepted(r.0.remaining)
    {
      if running then (this, Refused("Timer already running"))
      else
        var t := if Truthy(d) then this.(duration := d.value, remaining := d.value)
                 else this.(remaining := duration);
        var u := t.(running := true, startTime := Some(now));
        (u, Accepted(u.remaining))
    }

    /** `pause_timer`: refused on a stopped timer; otherwise only the running
        flag is cleared. */
    function PauseTimer(): (r: (TimerState, Reply))
      ensures !running ==> r == (this, Refused("Timer not running"))
      ensures running ==> r.0 == this.(running := false) && r.1 == Accepted(remaining)
    {
      if !running then (this, Refused("Timer not running"))
      else (this.(running := false), Accepted(remaining))
    }

    /** `reset_timer`: always succeeds; the timer is stopped with the full
        duration, its start time cleared, and a reset event announced. */
    function ResetTimer(): (r: (TimerState, Reply))
      ensures !r.0.running && r.0.remaining == duration && r.0.duration == duration
      ensures r.0.startTime == None
      ensures r.0.outbox == outbox + [EventNote(ResetEvent(duration))]
      ensures r.1 == Accepted(duration)
    {
      var t := this.(running := false, remaining := duration, startTime := None);
      (t.(outbox := t.outbox + [EventNote(ResetEvent(t.remaining))]), Accepted(t.remaining))
    }

    /** `get_status`: exactly the four fields, the start time absent when it
        was never set or was reset. */
    function GetStatus(): (r: Reply)
      ensures r.Status? && r.isRunning == running && r.remaining == remaining && r.duration == duration
      ensures r.startTime.None? <==> startTime.None?
      ensures startTime.Some? ==> r.startTime == startTime
    {
      Status(running, remaining, duration, startTime)
    }

    /** One iteration of `timer_loop`, when its condition holds: one second
        less, a tick event with the new value and the duration, and when zero
        is reached the timer stops and a complete event follows.  The
        remaining time never drops below zero. */
    function TickOnce(): (r: TimerState)
      ensures !(running && remaining > 0) ==> r == this
      ensures running && remaining > 0 ==>
                r.remaining == remaining - 1 && r.duration == duration && r.startTime == startTime &&
                r.running == (remaining > 1) &&
                r.outbox == outbox + [EventNote(TickEvent(remaining - 1, duration))] +
                            (if remaining == 1 then [EventNote(CompleteEvent)] else [])
      ensures remaining >= 0 ==> r.remaining >= 0
    {
      if !(running && remaining > 0) then this
      else
        var t := this.(remaining := remaining - 1);
        var u := t.(outbox := t.outbox + [EventNote(TickEvent(t.remaining, t.duration))]);
        if u.remaining <= 0 then u.(running := false, outbox := u.outbox + [EventNote(CompleteEvent)])
        else u
    }

    /** The whole of `timer_loop` run without interruption: it ends when the
        loop condition fails, with the duration and start time untouched; a
        timer whose condition fails at once is left as it is. */
    function Countdown(): (r: TimerState)
      ensures !(r.running && r.remaining > 0)
      ensures r.duration == duration && r.startTime == startTime
      ensures !(running && remaining > 0) ==> r == this
      decreases if remaining > 0 then remaining else 0
    {
      if running && remaining > 0 then TickOnce().Countdown() else this
    }

    /** The method dispatch of `main`: the four names route to their
        methods and any other name is "Method not found", changing nothing. */
    function Route(name: Option<string>, d: Option<int>, now: Instant): (r: (TimerState, Outcome))
      ensures name == Some("start") ==> r == (StartTimer(d, now).0, Result(StartTimer(d, now).1))
      ensures name == Some("pause") ==> r == (PauseTimer().0, Result(PauseTimer().1))
      ensures name == Some("reset") ==> r == (ResetTimer().0, Result(ResetTimer().1))
      ensures name == Some("getStatus") ==> r == (this, Result(GetStatus()))
      ensures r.1.Error? <==> !(name.Some? && name.value in MethodNames)
      ensures r.1.Error? ==> r.0 == this && r.1 == Error(MethodNotFound, "Method not found: " + MethodText(name))
    {
      if name == Some("start") then
        var (t, reply) := StartTimer(d, now); (t, Result(reply))
      else if name == Some("pause") then
        var (t, reply) := PauseTimer(); (t, Result(reply))
      else if name == Some("reset") then
        var (t, reply) := ResetTimer(); (t, Result(reply))
      else if name == Some("getStatus") then
        (this, Result(GetStatus()))
      else
        (this, Error(MethodNotFound, "Method not found: " + MethodText(name)))
    }

    /** One pass of the request loop: dispatch, then answer only when the
        request has a non-null id. */
    function Handle(req: Request, now: Instant): (r: TimerState)
      ensures var (t, out) := Route(req.methodName, req.duration, now);
              r.outbox == t.outbox + (if req.id.Some? then [Response(req.id.value, out)] else [])
      ensures var (t, _) := Route(req.methodName, req.duration, now);
              r == t.(outbox := r.outbox)
    {
      var (t, out) := Route(req.methodName, req.duration, now);
      if req.id.Some? then t.(outbox := t.outbox + [Response(req.id.value, out)]) else t
    }
  }

  /** A new timer: 25 minutes, stopped, nothing written. */
  const Initial := TimerState(DefaultDuration, DefaultDuration, false, None, [])

  /** The tick events of a countdown from `from` seconds, newest value last. */
  function CountdownTicks(from: nat, total: int): (r: seq<Message>)
    ensures |r| == from
    ensures forall i :: 0 <= i < from ==> r[i] == EventNote(TickEvent(from - 1 - i, total))
  {
    if from == 0 then [] else [EventNote(TickEvent(from - 1, total))] + CountdownTicks(from - 1, total)
  }

  /** A running timer with time left counts down to zero, announcing every
      second and then completion, and ends stopped; a running timer with no
      time left (a non-positive duration) stays running and writes nothing. */
  lemma {:induction false} CountdownRunsOut(t: TimerState)
    requires t.running
    ensures t.remaining > 0 ==>
              !t.Countdown().running && t.Countdown().remaining == 0 &&
              t.Countdown().outbox == t.outbox + CountdownTicks(t.remaining, t.duration) + [EventNote(CompleteEvent)]
    ensures t.remaining <= 0 ==> t.Countdown() == t
    decreases if t.remaining > 0 then t.remaining else 0
  {
    if t.remaining > 1 {
      var u := t.TickOnce();
      CountdownRunsOut(u);
      assert CountdownTicks(t.remaining, t.duration) ==
             [EventNote(TickEvent(t.remaining - 1, t.duration))] + CountdownTicks(u.remaining, t.duration);
    } else if t.remaining == 1 {
      assert t.TickOnce().Countdown() == t.TickOnce();
    }
  }

  /** Pausing and starting again without a duration restarts the countdown
      from the full duration, whatever time was left. */
  lemma StartAfterPauseRestarts(t: TimerState, k: nat, now: Instant, later: Instant)
    requires !t.running
    ensures var s := t.StartTimer(None, now).0;
            var p := Tick(s, k).PauseTimer().0;
            p.StartTimer(None, later).0.remaining == t.duration
  {
    var s := t.StartTimer(None, now).0;
    TickKeepsDuration(s, k);
  }

  /** `k` loop iterations. */
  function Tick(t: TimerState, k: nat): TimerState {
    if k == 0 then t else Tick(t, k - 1).TickOnce()
  }

  lemma {:induction false} TickKeepsDuration(t: TimerState, k: nat)
    ensures Tick(t, k).duration == t.duration
  {
    if k > 0 {
      TickKeepsDuration(t, k - 1);
    }
  }

  /** The timer object of the backend. */
  class PomodoroTimer {
    var duration: int
    var remaining: int
    var isRunning: bool
    var startTime: Option<Instant>
    /** Every line written to standard output so far. */
    var outbox: seq<Message>

    function State(): TimerState
      reads this
    {
      TimerState(duration, remaining, isRunning, startTime, outbox)
    }

    constructor ()
      ensures State() == Initial
      ensures duration == 1500 && remaining == 1500 && !isRunning
    {
      duration := DefaultDuration;
      remaining := duration;
      isRunning := false;
      startTime := None;
      outbox := [];
    }

    method Send(event: Event)
      modifies this
      ensures State() == old(State()).(outbox := old(outbox) + [EventNote(event)])
    {
      outbox := outbox + [EventNote(event)];
    }

    /** The `$ready` notification `main` writes before reading requests. */
    method SendReady()
      modifies this
      ensures State() == old(State()).(outbox := old(outbox) + [ReadyNote("1.0.0", MethodNames)])
    {
      outbox := outbox + [ReadyNote("1.0.0", MethodNames)];
    }

    method StartTimer(d: Option<int>, now: Instant) returns (reply: Reply)
      modifies this
      ensures (State(), reply) == old(State()).StartTimer(d, now)
    {
      if isRunning {
        return Refused("Timer already running");
      }
      if Truthy(d) {
        duration := d.value;
        remaining := d.value;
      } else {
        remaining := duration;
      }
      isRunning := true;
      startTime := Some(now);
      reply := Accepted(remaining);
    }

    method PauseTimer() returns (reply: Reply)
      modifies this
      ensures (State(), reply) == old(State()).PauseTimer()
    {
      if !isRunning {
        return Refused("Timer not running");
      }
      isRunning := false;
      reply := Accepted(remaining);
    }

    method ResetTimer() returns (reply: Reply)
      modifies this
      ensures (State(), reply) == old(State()).ResetTimer()
    {
      isRunning := false;
      remaining := duration;
      startTime := None;
      Send(ResetEvent(remaining));
      reply := Accepted(remaining);
    }

    method GetStatus() returns (reply: Reply)
      ensures reply == Status(isRunning, remaining, duration, startTime)
    {
      reply := Status(isRunning, remaining, duration, startTime);
    }

    /** One iteration of the body of `timer_loop`, when its guard holds. */
    method TickOnce()
      modifies this
      ensures State() == old(State()).TickOnce()
    {
      if !(isRunning && remaining > 0) {
        return;
      }
      remaining := remaining - 1;
      Send(TickEvent(remaining, duration));
      if remaining <= 0 {
        isRunning := false;
        Send(CompleteEvent);
      }
    }

    /** `timer_loop`, with no request handled while it runs. */
    method RunLoop()
      modifies this
      ensures State() == old(State()).Countdown()
    {
      while isRunning && remaining > 0
        invariant State().Countdown() == old(State()).Countdown()
        decreases if remaining > 0 then remaining else 0
      {
        TickOnce();
      }
    }

    /** One pass of the request loop of `main`. */
    method HandleRequest(req: Request, now: Instant)
      modifies this
      ensures State() == old(State()).Handle(req, now)
    {
      var outcome: Outcome;
      if req.methodName == Some("start") {
        var reply := StartTimer(req.duration, now);
        outcome := Result(reply);
      } else if req.methodName == Some("pause") {
        var reply := PauseTimer();
        outcome := Result(reply);
      } else if req.methodName == Some("reset") {
        var reply := ResetTimer();
        outcome := Result(reply);
      } else if req.methodName == Some("getStatus") {
        var reply := GetStatus();
        outcome := Result(reply);
      } else {
        outcome := Error(MethodNotFound, "Method not found: " + MethodText(req.methodName));
      }
      if req.id.Some? {
        outbox := outbox + [Response(req.id.value, outcome)];
      }
    }
  }
}
