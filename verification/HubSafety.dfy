/** What the hub agent guarantees over every run: decodable replies, bounded commands, and the watchdog. */
module HubSafety {
  import opened Wrappers
  import opened Text
  import opened HubFrame
  import opened HubAgent

  // ---------------------------------------------------------------- replies

  predicate AllDecode(lines: Option<seq<string>>) {
    lines.Some? ==> forall i :: 0 <= i < |lines.value| ==> Decode(Some(lines.value[i])).Some?
  }

  lemma SaidDecodes(a: Agent, op: Operation, args: seq<string>)
    ensures AllDecode(Say(a, op, args).lines)
  {
    hide Encode, Decode;
    var b := Say(a, op, args).agent;
    if Encode(b.sequence, op, args).Some? { RoundTrip(b.sequence, op, args); }
  }

  /** Every line is answered, whatever the hardware says, and every answer decodes. */
  lemma RepliesDecode(hub: Hub, a: Agent, line: Option<string>, now: int, env: Readings)
    ensures Handled(hub, a, line, now, env).lines.Some? && AllDecode(Handled(hub, a, line, now, env).lines)
  {
    hide Say, Decode, ReadInt, PortReport, GoodArgument;
    forall b: Agent, op: Operation, args: seq<string>
      ensures AllDecode(Say(b, op, args).lines)
    {
      SaidDecodes(b, op, args);
    }
    var frame := Decode(line);
    if frame.None? {
      RepliesEncode(a, 0, "BAD_FRAME");
    } else {
      var done := Dispatch(hub, a.(lastFrameAt := now), frame.value, env);
      RepliesEncode(done.agent, frame.value.sequence, "BAD_ARGUMENT");
    }
  }

  /** The poll's lines decode too, when it does not raise. */
  lemma PollDecodes(hub: Hub, a: Agent, now: int, env: Readings)
    ensures AllDecode(Polled(hub, a, now, env).lines)
  {
    hide Say, Decode, Reported;
    var pressed := Pressed(a, env);
    var watched := Watched(hub, pressed.agent, now);
    SaidDecodes(Stopped(a), Telemetry, ["button", env.button]);
    SaidDecodes(Stopped(pressed.agent), Error, [NatText(0), "WATCHDOG"]);
    ReportDecodes(watched.agent, 0, now, env);
  }

  lemma {:induction false} ReportDecodes(a: Agent, i: nat, now: int, env: Readings)
    requires i <= |a.subscriptions|
    ensures AllDecode(Reported(a, i, now, env).lines)
    decreases |a.subscriptions| - i
  {
    hide Say, Decode;
    if i < |a.subscriptions| {
      var s := a.subscriptions[i];
      if now - s.last < s.interval {
        ReportDecodes(a, i + 1, now, env);
      } else {
        var b, value := a.(subscriptions := a.subscriptions[i := s.(last := now)]), env.sensor(s.port, s.kind);
        if value.None? {
          ReportDecodes(b, i + 1, now, env);
        } else {
          SaidKeeps(b, Telemetry, [s.kind, value.value]);
          SaidDecodes(b, Telemetry, [s.kind, value.value]);
          ReportDecodes(Say(b, Telemetry, [s.kind, value.value]).agent, i + 1, now, env);
        }
      }
    }
  }

  /** The hub never acts on a line it cannot decode: only a reply number is spent. */
  lemma NeverActsOnBadFrame(hub: Hub, a: Agent, line: Option<string>, now: int, env: Readings)
    requires Decode(line).None?
    ensures Handled(hub, a, line, now, env).agent == a.(sequence := (a.sequence + 1) % SEQUENCE_MODULUS)
  {
    hide Decode;
  }

  // ---------------------------------------------------------------- bounded commands

  predicate Bounded(hub: Hub, call: Call) {
    match call
    case RunMotor(port, speed, milliseconds) =>
      IsMotor(hub, port) && -1000 <= speed <= 1000 && 1 <= milliseconds <= 5000
    case RunMotorAngle(port, speed, angle) => IsMotor(hub, port) && -1000 <= speed <= 1000 && -3600 <= angle <= 3600
    case RunMotorTarget(port, speed, angle) => IsMotor(hub, port) && -1000 <= speed <= 1000 && -3600 <= angle <= 3600
    case StopMotor(port) => IsMotor(hub, port)
    case StopEverything => true
    case DriveBase(speed, turn, milliseconds) =>
      hub.driveBase && -1000 <= speed <= 1000 && -100 <= turn <= 100 && 1 <= milliseconds <= 5000
    case DriveBaseStraight(millimetres) => hub.driveBase && -2000 <= millimetres <= 2000
    case TurnBase(angle) => hub.driveBase && -720 <= angle <= 720
    case ShowText(text) => GoodArgument(text)
    case PlaySound(frequency, milliseconds) => 50 <= frequency <= 10000 && 1 <= milliseconds <= 5000
  }

  // ---------------------------------------------------------------- what is commanded to move

  /** A motor on its own, or the drive base. */
  datatype Actuator = Motor(port: string) | Base

  function After(moving: set<Actuator>, call: Call): set<Actuator> {
    match call
    case RunMotor(port, _, _) => moving + {Motor(port)}
    case RunMotorAngle(port, _, _) => moving + {Motor(port)}
    case RunMotorTarget(port, _, _) => moving + {Motor(port)}
    case StopMotor(port) => moving - {Motor(port)}
    case StopEverything => {}
    case DriveBase(_, _, _) => moving + {Base}
    case DriveBaseStraight(_) => moving + {Base}
    case TurnBase(_) => moving + {Base}
    case ShowText(_) => moving
    case PlaySound(_, _) => moving
  }

  function Moving(calls: seq<Call>): set<Actuator> {
    if calls == [] then {} else After(Moving(calls[..|calls| - 1]), calls[|calls| - 1])
  }

  lemma MovingActed(a: Agent, call: Call)
    ensures Moving(Acted(a, call).calls) == After(Moving(a.calls), call)
  {
    var calls := Acted(a, call).calls;
    assert calls[..|calls| - 1] == a.calls && calls[|calls| - 1] == call;
  }

  /** Something is commanded to move only while the running flag is set. */
  predicate Flagged(a: Agent) { Moving(a.calls) != {} ==> a.motorsRunning }

  /** The port of a frame that stops a single motor. */
  function StoppedPort(hub: Hub, f: Frame): Option<string> {
    if f.op.MotorStop? && |f.args| == 1 && f.args[0] != "ALL" && IsMotor(hub, f.args[0]) then Some(f.args[0]) else None
  }

  function StoppedBy(hub: Hub, line: Option<string>): Option<string> {
    var f := Decode(line);
    if f.None? then None else StoppedPort(hub, f.value)
  }

  /** A line that stops one motor while something else is commanded to move. */
  predicate RiskyStop(hub: Hub, a: Agent, line: Option<string>) {
    StoppedBy(hub, line).Some? && Moving(a.calls) - {Motor(StoppedBy(hub, line).value)} != {}
  }

  /** What one frame does to the hardware: nothing, or one bounded command with the flag it belongs with. */
  ghost predicate OneCall(hub: Hub, a: Agent, f: Frame, b: Agent) {
    || (b.calls == a.calls && b.motorsRunning == a.motorsRunning)
    || (exists call :: Bounded(hub, call) && b.calls == a.calls + [call] && Sets(hub, a, f, call, b.motorsRunning))
  }

  predicate Sets(hub: Hub, a: Agent, f: Frame, call: Call, flag: bool) {
    match call
    case StopEverything => !flag
    case StopMotor(port) => !flag && StoppedPort(hub, f) == Some(port)
    case ShowText(_) => flag == a.motorsRunning
    case PlaySound(_, _) => flag == a.motorsRunning
    case RunMotor(_, _, _) => flag
    case RunMotorAngle(_, _, _) => flag
    case RunMotorTarget(_, _, _) => flag
    case DriveBase(_, _, _) => flag
    case DriveBaseStraight(_) => flag
    case TurnBase(_) => flag
  }

  lemma DispatchedCall(hub: Hub, a: Agent, f: Frame, env: Readings)
    requires GoodArguments(f.op, f.args)
    ensures var b := Dispatch(hub, a, f, env).agent;
            && OneCall(hub, a, f, b) && b.lastFrameAt == a.lastFrameAt
            && (StoppedPort(hub, f).Some? ==>
              b.calls == a.calls + [StopMotor(StoppedPort(hub, f).value)] && !b.motorsRunning)
  {
    hide Dispatch, GoodArguments, OneCall;
    if f.op.StopAll? || f.op.MotorStop? || f.op.MotorRun? || f.op.Display? || f.op.Sound? {
      OwnCall(hub, a, f, env);
    } else {
      OtherCall(hub, a, f, env);
    }
  }

  lemma OwnCall(hub: Hub, a: Agent, f: Frame, env: Readings)
    requires GoodArguments(f.op, f.args)
    requires f.op.StopAll? || f.op.MotorStop? || f.op.MotorRun? || f.op.Display? || f.op.Sound?
    ensures var b := Dispatch(hub, a, f, env).agent;
            && OneCall(hub, a, f, b) && b.lastFrameAt == a.lastFrameAt
            && (StoppedPort(hub, f).Some? ==>
              b.calls == a.calls + [StopMotor(StoppedPort(hub, f).value)] && !b.motorsRunning)
  {
    hide Encode, ReadInt, GoodArgument, OneCall;
    var b := Dispatch(hub, a, f, env).agent;
    if b.calls == a.calls { NoCall(hub, a, f, b); } else { MadeCall(hub, a, f, b.calls[|a.calls|], b); }
  }

  lemma OtherCall(hub: Hub, a: Agent, f: Frame, env: Readings)
    requires GoodArguments(f.op, f.args)
    requires !f.op.StopAll? && !f.op.MotorStop? && !f.op.MotorRun? && !f.op.Display? && !f.op.Sound?
    ensures OneCall(hub, a, f, Dispatch(hub, a, f, env).agent) &&
            Dispatch(hub, a, f, env).agent.lastFrameAt == a.lastFrameAt
  {
    hide Encode, ReadInt, PortReport, GoodArgument, DispatchAngle, DispatchDrive, OneCall;
    if f.op.MotorRunAngle? || f.op.MotorRunTarget? {
      AngleCall(hub, a, f);
    } else if f.op.Drive? || f.op.DriveStraight? || f.op.Turn? {
      BaseCall(hub, a, f);
    } else {
      NoCall(hub, a, f, Dispatch(hub, a, f, env).agent);
    }
  }

  lemma NoCall(hub: Hub, a: Agent, f: Frame, b: Agent)
    requires b.calls == a.calls && b.motorsRunning == a.motorsRunning
    ensures OneCall(hub, a, f, b)
  {
  }

  lemma MadeCall(hub: Hub, a: Agent, f: Frame, call: Call, b: Agent)
    requires Bounded(hub, call) && b.calls == a.calls + [call] && Sets(hub, a, f, call, b.motorsRunning)
    ensures OneCall(hub, a, f, b)
  {
  }

  lemma AngleCall(hub: Hub, a: Agent, f: Frame)
    requires GoodArguments(f.op, f.args) && (f.op.MotorRunAngle? || f.op.MotorRunTarget?)
    ensures OneCall(hub, a, f, DispatchAngle(hub, a, f).agent) &&
            DispatchAngle(hub, a, f).agent.lastFrameAt == a.lastFrameAt
  {
    hide Encode, ReadInt, GoodArgument, OneCall;
    var b := DispatchAngle(hub, a, f).agent;
    if b.calls == a.calls { NoCall(hub, a, f, b); } else { MadeCall(hub, a, f, b.calls[|a.calls|], b); }
  }

  lemma BaseCall(hub: Hub, a: Agent, f: Frame)
    requires GoodArguments(f.op, f.args) && (f.op.Drive? || f.op.DriveStraight? || f.op.Turn?)
    ensures OneCall(hub, a, f, DispatchDrive(hub, a, f).agent) &&
            DispatchDrive(hub, a, f).agent.lastFrameAt == a.lastFrameAt
  {
    hide Encode, ReadInt, GoodArgument, OneCall;
    var b := DispatchDrive(hub, a, f).agent;
    if b.calls == a.calls { NoCall(hub, a, f, b); } else { MadeCall(hub, a, f, b.calls[|a.calls|], b); }
  }

  lemma HandledCall(hub: Hub, a: Agent, line: Option<string>, now: int, env: Readings)
    requires Decode(line).Some?
    ensures var f, b := Decode(line).value, Handled(hub, a, line, now, env).agent;
            && OneCall(hub, a, f, b) && b.lastFrameAt == now
            && (StoppedBy(hub, line).Some? ==>
              b.calls == a.calls + [StopMotor(StoppedBy(hub, line).value)] && !b.motorsRunning)
  {
    hide Decode, Dispatch, Encode, GoodArgument, Bounded;
    var f := Decode(line).value;
    var at := a.(lastFrameAt := now);
    var done := Dispatch(hub, at, f, env);
    DispatchedCall(hub, at, f, env);
    if call :|
       Bounded(hub, call) && done.agent.calls == at.calls + [call] && Sets(hub, at, f, call, done.agent.motorsRunning) {
      assert Sets(hub, a, f, call, Handled(hub, a, line, now, env).agent.motorsRunning);
    }
  }

  // ---------------------------------------------------------------- the flag

  /** A line keeps the flag right exactly when it is not a stop of one motor while something else moves. */
  lemma FlagKeptExactly(hub: Hub, a: Agent, line: Option<string>, now: int, env: Readings)
    requires Flagged(a)
    ensures Flagged(Handled(hub, a, line, now, env).agent) <==> !RiskyStop(hub, a, line)
  {
    hide Decode, Handled, Bounded, StoppedPort;
    var b := Handled(hub, a, line, now, env).agent;
    if Decode(line).None? {
      NeverActsOnBadFrame(hub, a, line, now, env);
    } else {
      HandledCall(hub, a, line, now, env);
      var f := Decode(line).value;
      if call :| Bounded(hub, call) && b.calls == a.calls + [call] && Sets(hub, a, f, call, b.motorsRunning) {
        MovingActed(a, call);
      }
    }
  }

  // ---------------------------------------------------------------- the watchdog

  lemma {:induction false} ReportKeeps(a: Agent, i: nat, now: int, env: Readings)
    requires i <= |a.subscriptions|
    ensures var b := Reported(a, i, now, env).agent;
            b.calls == a.calls && b.motorsRunning == a.motorsRunning && b.lastFrameAt == a.lastFrameAt
    decreases |a.subscriptions| - i
  {
    hide Say;
    if i < |a.subscriptions| {
      var s := a.subscriptions[i];
      if now - s.last < s.interval {
        ReportKeeps(a, i + 1, now, env);
      } else {
        var b, value := a.(subscriptions := a.subscriptions[i := s.(last := now)]), env.sensor(s.port, s.kind);
        if value.None? {
          ReportKeeps(b, i + 1, now, env);
        } else {
          SaidKeeps(b, Telemetry, [s.kind, value.value]);
          ReportKeeps(Say(b, Telemetry, [s.kind, value.value]).agent, i + 1, now, env);
        }
      }
    }
  }

  /** What a poll does to the hardware, raising or not: it stops everything when the button is pressed or time is up. */
  lemma PolledCalls(hub: Hub, a: Agent, now: int, env: Readings)
    ensures var b := Polled(hub, a, now, env).agent;
            && b.lastFrameAt == a.lastFrameAt
            && (env.button != "" || (a.motorsRunning && now - a.lastFrameAt > hub.watchdog) ==>
                  b.calls == a.calls + [StopEverything] && !b.motorsRunning)
            && (env.button == "" && !(a.motorsRunning && now - a.lastFrameAt > hub.watchdog) ==>
                  b.calls == a.calls && b.motorsRunning == a.motorsRunning)
  {
    hide Encode, Reported;
    var pressed := Pressed(a, env);
    var watched := Watched(hub, pressed.agent, now);
    ReportKeeps(watched.agent, 0, now, env);
  }

  /** After any poll of a flagged agent nothing moves past the watchdog's time, even when the poll raises. */
  lemma WatchdogStops(hub: Hub, a: Agent, now: int, env: Readings)
    requires Flagged(a)
    ensures var b := Polled(hub, a, now, env).agent;
            Flagged(b) && (Moving(b.calls) != {} ==> now - b.lastFrameAt <= hub.watchdog)
  {
    hide Polled;
    PolledCalls(hub, a, now, env);
    MovingActed(a, StopEverything);
  }

  // ---------------------------------------------------------------- runs

  datatype Event =
    | Line(line: Option<string>, now: int, env: Readings)
    | Tick(now: int, env: Readings)

  function Next(hub: Hub, a: Agent, e: Event): Agent {
    match e
    case Line(line, now, env) => Handled(hub, a, line, now, env).agent
    case Tick(now, env) => Polled(hub, a, now, env).agent
  }

  function Run(hub: Hub, events: seq<Event>): Agent {
    if events == [] then START else Next(hub, Run(hub, events[..|events| - 1]), events[|events| - 1])
  }

  /** No line of the run stops one motor while something else moves. */
  predicate Careful(hub: Hub, events: seq<Event>) {
    forall i :: 0 <= i < |events| && events[i].Line? ==> !RiskyStop(hub, Run(hub, events[..i]), events[i].line)
  }

  lemma {:induction false} CarefulFlagged(hub: Hub, events: seq<Event>)
    requires Careful(hub, events)
    ensures Flagged(Run(hub, events))
  {
    hide Handled, Polled, Decode, RiskyStop, Flagged;
    if events == [] {
      assert Flagged(START) by { StartFlagged(); }
    } else {
      var n := |events| - 1;
      var before, e := Run(hub, events[..n]), events[n];
      assert Careful(hub, events[..n]) by {
        forall i | 0 <= i < n && events[..n][i].Line?
          ensures !RiskyStop(hub, Run(hub, events[..n][..i]), events[..n][i].line)
        {
          assert events[..n][..i] == events[..i];
        }
      }
      CarefulFlagged(hub, events[..n]);
      match e
      case Line(line, now, env) => FlagKeptExactly(hub, before, line, now, env);
      case Tick(now, env) => WatchdogStops(hub, before, now, env);
    }
  }

  lemma StartFlagged()
    ensures Flagged(START)
  {
  }

  /** The time of the last line of the run that decoded; 0 before there is one. */
  function LastHeard(events: seq<Event>): int {
    if events == [] then 0
    else
      var e := events[|events| - 1];
      if e.Line? && Decode(e.line).Some? then e.now else LastHeard(events[..|events| - 1])
  }

  lemma {:induction false} HeardIsLastFrame(hub: Hub, events: seq<Event>)
    ensures Run(hub, events).lastFrameAt == LastHeard(events)
  {
    hide Handled, Polled, Decode;
    if events != [] {
      var n := |events| - 1;
      var before, e := Run(hub, events[..n]), events[n];
      HeardIsLastFrame(hub, events[..n]);
      if e.Tick? {
        PolledCalls(hub, before, e.now, e.env);
      } else if Decode(e.line).None? {
        NeverActsOnBadFrame(hub, before, e.line, e.now, e.env);
      } else {
        HandledCall(hub, before, e.line, e.now, e.env);
      }
    }
  }

  /** In a careful run, a poll leaves nothing moving longer than the watchdog's time after the last decodable line. */
  lemma NothingRunsAway(hub: Hub, events: seq<Event>, now: int, env: Readings)
    requires Careful(hub, events)
    ensures Moving(Run(hub, events + [Tick(now, env)]).calls) != {} ==> now - LastHeard(events) <= hub.watchdog
  {
    hide Moving, Polled, Flagged;
    var all := events + [Tick(now, env)];
    assert all[..|all| - 1] == events && all[|all| - 1] == Tick(now, env);
    CarefulFlagged(hub, events);
    HeardIsLastFrame(hub, events);
    WatchdogStops(hub, Run(hub, events), now, env);
    PolledCalls(hub, Run(hub, events), now, env);
  }

  /** Neither the button, nor a stop, nor a new motor command. */
  predicate LeavesMotors(e: Event) {
    match e
    case Tick(_, env) => env.button == ""
    case Line(line, _, _) => Decode(line).Some? ==> !ForMotors(Decode(line).value.op)
  }

  predicate ForMotors(op: Operation) {
    op.StopAll? || op.MotorStop? || op.MotorRun? || op.MotorRunAngle? || op.MotorRunTarget? || op.Drive? ||
      op.DriveStraight? || op.Turn?
  }

  function RunFrom(hub: Hub, a: Agent, events: seq<Event>): Agent {
    if events == [] then a else Next(hub, RunFrom(hub, a, events[..|events| - 1]), events[|events| - 1])
  }

  /**
   * After a risky stop something moves that nothing stops, however late, until the button, a stop or a new motor
   * command.
   */
  lemma RiskyStopRunsAway(hub: Hub, a: Agent, line: Option<string>, now: int, env: Readings, later: seq<Event>)
    requires Flagged(a) && RiskyStop(hub, a, line) && forall i :: 0 <= i < |later| ==> LeavesMotors(later[i])
    ensures var b := RunFrom(hub, Handled(hub, a, line, now, env).agent, later);
            Moving(b.calls) == Moving(a.calls) - {Motor(StoppedBy(hub, line).value)} != {} && !b.motorsRunning
  {
    hide Decode, Handled, Flagged, LeavesMotors;
    HandledCall(hub, a, line, now, env);
    MovingActed(a, StopMotor(StoppedBy(hub, line).value));
    StillMoving(hub, Handled(hub, a, line, now, env).agent, later);
  }

  lemma {:induction false} StillMoving(hub: Hub, a: Agent, later: seq<Event>)
    requires !a.motorsRunning && forall i :: 0 <= i < |later| ==> LeavesMotors(later[i])
    ensures var b := RunFrom(hub, a, later); Moving(b.calls) == Moving(a.calls) && !b.motorsRunning
  {
    hide Moving, LeavesMotors, Next;
    if later != [] {
      var n := |later| - 1;
      StillMoving(hub, a, later[..n]);
      MotorsLeft(hub, RunFrom(hub, a, later[..n]), later[n]);
    }
  }

  lemma MotorsLeft(hub: Hub, a: Agent, e: Event)
    requires !a.motorsRunning && LeavesMotors(e)
    ensures Moving(Next(hub, a, e).calls) == Moving(a.calls) && !Next(hub, a, e).motorsRunning
  {
    hide Decode, Handled, Polled, Moving, Dispatch;
    match e
    case Tick(now, env) => PolledCalls(hub, a, now, env);
    case Line(line, now, env) =>
      if Decode(line).None? {
        NeverActsOnBadFrame(hub, a, line, now, env);
      } else {
        OtherOperation(hub, a.(lastFrameAt := now), Decode(line).value, env);
        HandledKeeps(hub, a, line, now, env);
      }
  }

  /** The reply of a decoded line adds nothing to what its dispatch did. */
  lemma HandledKeeps(hub: Hub, a: Agent, line: Option<string>, now: int, env: Readings)
    requires Decode(line).Some?
    ensures var done, b := Dispatch(hub, a.(lastFrameAt := now), Decode(line).value, env).agent,
            Handled(hub, a, line, now, env).agent;
            b.calls == done.calls && b.motorsRunning == done.motorsRunning && b.subscriptions == done.subscriptions
  {
    hide Decode, Dispatch, Encode;
  }

  lemma OtherOperation(hub: Hub, a: Agent, f: Frame, env: Readings)
    requires GoodArguments(f.op, f.args) && !ForMotors(f.op)
    ensures var b := Dispatch(hub, a, f, env).agent;
            Moving(b.calls) == Moving(a.calls) && b.motorsRunning == a.motorsRunning
  {
    hide Encode, ReadInt, PortReport, GoodArgument, DispatchAngle, DispatchDrive, IntText, NatText, Clamp, Moving,
         PercentToSpeed;
    var b := Dispatch(hub, a, f, env).agent;
    if f.op.Display? || f.op.Sound? {
      if b.calls != a.calls { MovingActed(a, b.calls[|a.calls|]); }
    }
  }

  /** A port a frame can name on its own: not blank at the end, and not the word for all of them. */
  predicate Nameable(port: string) { GoodArgument(port) && port != "ALL" && (port == "" || port[|port| - 1] != ' ') }

  /** Such a run exists on every hub with two motors: run both, stop one. */
  lemma RunawayExists(hub: Hub, p: string, q: string, now: int, env: Readings)
    requires p != q && IsMotor(hub, p) && IsMotor(hub, q) && Nameable(p) && Nameable(q) && env.button == ""
    ensures exists events :: Moving(Run(hub, events + [Tick(now, env)]).calls) == {Motor(q)} && !Careful(hub, events)
  {
    hide Decode, Handled, Polled, Careful, Nameable, IsMotor;
    var runP, runQ, stopP := RunLine(p), RunLine(q), StopLine(p);
    var e1, e2, e3, e4 := Line(runP, 0, env), Line(runQ, 0, env), Line(stopP, 0, env), Tick(now, env);
    var a1 := Next(hub, START, e1);
    var a2 := Next(hub, a1, e2);
    MotorStarts(hub, START, runP, p, env);
    MotorStarts(hub, a1, runQ, q, env);
    assert Moving(a2.calls) == {Motor(p), Motor(q)};
    assert Flagged(a2) && StoppedBy(hub, stopP) == Some(p) by { NotAll(p); }
    assert Motor(q) in Moving(a2.calls) - {Motor(p)};
    HandledCall(hub, a2, stopP, 0, env);
    MovingActed(a2, StopMotor(p));
    PolledCalls(hub, Handled(hub, a2, stopP, 0, env).agent, now, env);
    RunOfFour(hub, e1, e2, e3, e4);
    assert !Careful(hub, [e1, e2, e3]) by { NotCareful(hub, e1, e2, e3); }
  }

  lemma NotAll(port: string)
    requires Nameable(port)
    ensures port != "ALL"
  {
  }

  lemma RunOfFour(hub: Hub, e1: Event, e2: Event, e3: Event, e4: Event)
    ensures Run(hub, [e1, e2, e3] + [e4]) == Next(hub, Next(hub, Next(hub, Next(hub, START, e1), e2), e3), e4)
  {
    hide Next;
    var all := [e1, e2, e3] + [e4];
    assert all[..3] == [e1, e2, e3] && all[..3][..2] == [e1, e2] && [e1, e2][..1] == [e1] && [e1][..0] == [];
    assert Run(hub, []) == START && Run(hub, [e1]) == Next(hub, START, e1);
    assert Run(hub, [e1, e2]) == Next(hub, Run(hub, [e1]), e2);
    assert Run(hub, [e1, e2, e3]) == Next(hub, Run(hub, [e1, e2]), e3);
  }

  lemma NotCareful(hub: Hub, e1: Event, e2: Event, e3: Event)
    requires e3.Line? && RiskyStop(hub, Next(hub, Next(hub, START, e1), e2), e3.line)
    ensures !Careful(hub, [e1, e2, e3])
  {
    hide Next, RiskyStop;
    var all := [e1, e2, e3];
    assert all[..2] == [e1, e2] && [e1, e2][..1] == [e1] && [e1][..0] == [];
    assert Run(hub, [e1]) == Next(hub, START, e1);
    assert all[2].Line? && RiskyStop(hub, Run(hub, all[..2]), all[2].line);
  }

  lemma MotorStarts(hub: Hub, a: Agent, line: Option<string>, port: string, env: Readings)
    requires IsMotor(hub, port) && Decode(line) == Some(Frame(1, MotorRun, [port, "50", "1000"]))
    ensures var b := Handled(hub, a, line, 0, env).agent;
            b.motorsRunning && Moving(b.calls) == Moving(a.calls) + {Motor(port)}
  {
    hide Decode, Dispatch, Moving;
    HandledKeeps(hub, a, line, 0, env);
    RunDispatched(hub, a.(lastFrameAt := 0), port, env);
    MovingActed(a, RunMotor(port, 500, 1000));
  }

  lemma RunDispatched(hub: Hub, a: Agent, port: string, env: Readings)
    requires IsMotor(hub, port) && GoodArguments(MotorRun, [port, "50", "1000"])
    ensures var b := Dispatch(hub, a, Frame(1, MotorRun, [port, "50", "1000"]), env).agent;
            b.motorsRunning && b.calls == a.calls + [RunMotor(port, 500, 1000)]
  {
    hide Encode, ReadInt, GoodArgument, IsMotor, NatText;
    NumbersRead();
  }

  lemma NumbersRead()
    ensures ReadInt("50") == Some(50) && ReadInt("1000") == Some(1000)
  {
    hide ReadInt;
    ReadIntText(50);
    ReadIntText(1000);
    assert NatText(50) == NatText(5) + [DigitChar(0)] && NatText(5) == [DigitChar(5)];
    assert NatText(1000) == NatText(100) + [DigitChar(0)] && NatText(100) == NatText(10) + [DigitChar(0)];
    assert NatText(10) == NatText(1) + [DigitChar(0)] && NatText(1) == [DigitChar(1)];
    assert IntText(50) == "50" && IntText(1000) == "1000";
  }

  function RunLine(port: string): (line: Option<string>)
    requires Nameable(port)
    ensures Decode(line) == Some(Frame(1, MotorRun, [port, "50", "1000"]))
  {
    RunLineDecodes(port);
    Encode(1, MotorRun, [port, "50", "1000"])
  }

  lemma RunLineDecodes(port: string)
    requires Nameable(port)
    ensures Decode(Encode(1, MotorRun, [port, "50", "1000"])) == Some(Frame(1, MotorRun, [port, "50", "1000"]))
  {
    hide Encode, Decode;
    var args := [port, "50", "1000"];
    JoinSplits(args);
    JoinSplits(args[1..]);
    JoinSplits(args[1..][1..]);
    assert GoodArgument(port) && GoodArgument("50") && GoodArgument("1000");
    ShortEncodes(1, MotorRun, args);
    RoundTripExactly(1, MotorRun, args);
  }

  function StopLine(port: string): (line: Option<string>)
    requires Nameable(port)
    ensures Decode(line) == Some(Frame(2, MotorStop, [port]))
  {
    StopLineDecodes(port);
    Encode(2, MotorStop, [port])
  }

  lemma StopLineDecodes(port: string)
    requires Nameable(port)
    ensures Decode(Encode(2, MotorStop, [port])) == Some(Frame(2, MotorStop, [port]))
  {
    hide Encode, Decode;
    assert GoodArgument(port);
    FewFit([port]);
    ShortEncodes(2, MotorStop, [port]);
    RoundTripExactly(2, MotorStop, [port]);
  }

  /** Every command of every run is within its bounds, and every motor command goes to a motor. */
  lemma {:induction false} CommandsBounded(hub: Hub, events: seq<Event>)
    ensures forall i :: 0 <= i < |Run(hub, events).calls| ==> Bounded(hub, Run(hub, events).calls[i])
  {
    hide Handled, Polled, Decode, Bounded, Sets;
    if events != [] {
      var n := |events| - 1;
      var before, e := Run(hub, events[..n]), events[n];
      CommandsBounded(hub, events[..n]);
      if e.Tick? {
        PolledCalls(hub, before, e.now, e.env);
        StopBounded(hub);
      } else if Decode(e.line).None? {
        NeverActsOnBadFrame(hub, before, e.line, e.now, e.env);
      } else {
        HandledCall(hub, before, e.line, e.now, e.env);
      }
    }
  }

  lemma StopBounded(hub: Hub)
    ensures Bounded(hub, StopEverything)
  {
  }

  // ---------------------------------------------------------------- a poll that does not raise

  /** Every reading the hardware gives is a text a frame can carry. */
  ghost predicate Carriable(env: Readings) {
    GoodArgument(env.button) && forall port, kind :: env.sensor(port, kind).Some? ==>
      GoodArgument(env.sensor(port, kind).value)
  }

  /** Subscriptions only ever hold decoded arguments. */
  predicate KindsGood(a: Agent) { forall i :: 0 <= i < |a.subscriptions| ==> GoodArgument(a.subscriptions[i].kind) }

  lemma TelemetryEncodes(a: Agent, kind: string, value: string)
    requires GoodArgument(kind) && GoodArgument(value)
    ensures Say(a, Telemetry, [kind, value]).lines.Some?
  {
    hide Encode, GoodArgument;
    FewFit([kind, value]);
    ShortEncodes((a.sequence + 1) % SEQUENCE_MODULUS, Telemetry, [kind, value]);
  }

  lemma {:induction false} ReportAnswers(a: Agent, i: nat, now: int, env: Readings)
    requires i <= |a.subscriptions| && KindsGood(a) && Carriable(env)
    ensures Reported(a, i, now, env).lines.Some? && KindsGood(Reported(a, i, now, env).agent)
    decreases |a.subscriptions| - i
  {
    hide Say, GoodArgument;
    if i < |a.subscriptions| {
      var s := a.subscriptions[i];
      var b, value := a.(subscriptions := a.subscriptions[i := s.(last := now)]), env.sensor(s.port, s.kind);
      if now - s.last < s.interval {
        ReportAnswers(a, i + 1, now, env);
      } else if value.None? {
        ReportAnswers(b, i + 1, now, env);
      } else {
        SaidKeeps(b, Telemetry, [s.kind, value.value]);
        TelemetryEncodes(b, s.kind, value.value);
        ReportAnswers(Say(b, Telemetry, [s.kind, value.value]).agent, i + 1, now, env);
      }
    }
  }

  /** A poll raises nothing while the hardware's readings fit a frame. */
  lemma PollAnswers(hub: Hub, a: Agent, now: int, env: Readings)
    requires KindsGood(a) && Carriable(env)
    ensures Polled(hub, a, now, env).lines.Some? && KindsGood(Polled(hub, a, now, env).agent)
  {
    hide Say, Reported, GoodArgument;
    assert GoodArgument("button") by { ButtonGood(); }
    TelemetryEncodes(Stopped(a), "button", env.button);
    SaidKeeps(Stopped(a), Telemetry, ["button", env.button]);
    var pressed := Pressed(a, env);
    RepliesEncode(Stopped(pressed.agent), 0, "WATCHDOG");
    SaidKeeps(Stopped(pressed.agent), Error, [NatText(0), "WATCHDOG"]);
    ReportAnswers(Watched(hub, pressed.agent, now).agent, 0, now, env);
  }

  lemma ButtonGood()
    ensures GoodArgument("button")
  {
  }

  /** A line adds at most a subscription with a decoded kind. */
  lemma KindsKept(hub: Hub, a: Agent, line: Option<string>, now: int, env: Readings)
    requires KindsGood(a)
    ensures KindsGood(Handled(hub, a, line, now, env).agent)
  {
    hide Decode, Handled, Dispatch, GoodArgument;
    if Decode(line).None? {
      NeverActsOnBadFrame(hub, a, line, now, env);
    } else {
      var f := Decode(line).value;
      HandledKeeps(hub, a, line, now, env);
      SubscriptionsGrow(hub, a.(lastFrameAt := now), f, env);
      assert |f.args| > 1 ==> GoodArgument(f.args[1]);
    }
  }

  lemma SubscriptionsGrow(hub: Hub, a: Agent, f: Frame, env: Readings)
    requires GoodArguments(f.op, f.args)
    ensures var b := Dispatch(hub, a, f, env).agent;
            b.subscriptions == a.subscriptions ||
            (|f.args| > 1 && |b.subscriptions| == |a.subscriptions| + 1 && a.subscriptions <= b.subscriptions &&
             b.subscriptions[|a.subscriptions|].kind == f.args[1])
  {
    hide Say, ReadInt, PortReport, GoodArgument, IsMotor;
    forall b: Agent, op: Operation, args: seq<string>
      ensures Say(b, op, args).agent == b.(sequence := (b.sequence + 1) % SEQUENCE_MODULUS) { SaidKeeps(b, op, args); }
  }

  lemma {:induction false} ReportKinds(a: Agent, i: nat, now: int, env: Readings)
    requires i <= |a.subscriptions| && KindsGood(a)
    ensures KindsGood(Reported(a, i, now, env).agent)
    decreases |a.subscriptions| - i
  {
    hide Say, GoodArgument;
    if i < |a.subscriptions| {
      var s := a.subscriptions[i];
      var b, value := a.(subscriptions := a.subscriptions[i := s.(last := now)]), env.sensor(s.port, s.kind);
      if now - s.last < s.interval {
        ReportKinds(a, i + 1, now, env);
      } else if value.None? {
        ReportKinds(b, i + 1, now, env);
      } else {
        SaidKeeps(b, Telemetry, [s.kind, value.value]);
        ReportKinds(Say(b, Telemetry, [s.kind, value.value]).agent, i + 1, now, env);
      }
    }
  }

  lemma PollKinds(hub: Hub, a: Agent, now: int, env: Readings)
    requires KindsGood(a)
    ensures KindsGood(Polled(hub, a, now, env).agent)
  {
    hide Say, Reported, GoodArgument;
    SaidKeeps(Stopped(a), Telemetry, ["button", env.button]);
    var pressed := Pressed(a, env);
    SaidKeeps(Stopped(pressed.agent), Error, [NatText(0), "WATCHDOG"]);
    ReportKinds(Watched(hub, pressed.agent, now).agent, 0, now, env);
  }

  lemma {:induction false} RunKinds(hub: Hub, events: seq<Event>)
    ensures KindsGood(Run(hub, events))
  {
    hide Handled, Polled, KindsGood;
    if events == [] {
      assert KindsGood(START) by { StartKinds(); }
    } else {
      var n := |events| - 1;
      RunKinds(hub, events[..n]);
      match events[n]
      case Line(line, now, env) => KindsKept(hub, Run(hub, events[..n]), line, now, env);
      case Tick(now, env) => PollKinds(hub, Run(hub, events[..n]), now, env);
    }
  }

  lemma StartKinds()
    ensures KindsGood(START)
  {
  }

  /** In every run, a poll whose readings fit a frame does not raise. */
  lemma NoPollRaises(hub: Hub, events: seq<Event>, now: int, env: Readings)
    requires Carriable(env)
    ensures Polled(hub, Run(hub, events), now, env).lines.Some?
  {
    hide Polled, Run, KindsGood, Carriable;
    RunKinds(hub, events);
    PollAnswers(hub, Run(hub, events), now, env);
  }
}
