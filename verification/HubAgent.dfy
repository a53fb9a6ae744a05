/** The hub agent: it acts on decoded frames, answers every line, and stops its motors when the runtime goes quiet. */
module HubAgent {
  import opened Wrappers
  import opened Text
  import opened HubFrame

  const WATCHDOG_MILLISECONDS := 500
  const MAX_MOTOR_PERCENT := 100
  const MAX_COMMAND_MILLISECONDS := 5000
  const MAX_MOTOR_DEGREES_PER_SECOND := 1000

  /** What a hub is built with; `ports` says what is plugged in where. */
  datatype Hub = Hub(modelId: string, portOrder: seq<string>, ports: map<string, string>, driveBase: bool,
                     watchdog: int := WATCHDOG_MILLISECONDS)

  /** What the hardware answers during one call, already as text. */
  datatype Readings = Readings(battery: string, sensor: (string, string) -> Option<string>, button: string)

  /** A command to the hardware. */
  datatype Call =
    | RunMotor(port: string, speed: int, milliseconds: int)
    | RunMotorAngle(port: string, speed: int, angle: int)
    | RunMotorTarget(port: string, speed: int, angle: int)
    | StopMotor(port: string)
    | StopEverything
    | DriveBase(speed: int, turn: int, milliseconds: int)
    | DriveBaseStraight(millimetres: int)
    | TurnBase(angle: int)
    | ShowText(text: string)
    | PlaySound(frequency: int, milliseconds: int)

  datatype Subscription = Subscription(port: string, kind: string, interval: int, last: int)

  datatype Agent = Agent(
    sequence: nat, lastFrameAt: int, motorsRunning: bool, subscriptions: seq<Subscription>, calls: seq<Call>)

  const START := Agent(0, 0, false, [], [])

  // ---------------------------------------------------------------- numbers

  function Clamp(value: int, low: int, high: int): (r: int)
    requires low <= high
    ensures low <= r <= high && (low <= value <= high ==> r == value)
    ensures value < low ==> r == low
    ensures value > high ==> r == high
  {
    if value < low then low else if value > high then high else value
  }

  /** The product is a multiple of 100, so the division is exact and no rounding happens. */
  function PercentToSpeed(percent: int): (speed: int)
    ensures speed == 10 * Clamp(percent, -MAX_MOTOR_PERCENT, MAX_MOTOR_PERCENT)
    ensures -MAX_MOTOR_DEGREES_PER_SECOND <= speed <= MAX_MOTOR_DEGREES_PER_SECOND
  {
    Clamp(percent, -MAX_MOTOR_PERCENT, MAX_MOTOR_PERCENT) * MAX_MOTOR_DEGREES_PER_SECOND / 100
  }

  // ---------------------------------------------------------------- replies

  /** The agent afterwards and its lines; no lines is a raised FrameError. */
  datatype Outcome = Outcome(agent: Agent, lines: Option<seq<string>>)

  function Prefixed(lines: seq<string>, o: Outcome): Outcome {
    if o.lines.None? then o else o.(lines := Some(lines + o.lines.value))
  }

  /** One line; its sequence number is spent even when it cannot be encoded. */
  function Say(a: Agent, op: Operation, args: seq<string>): Outcome {
    var b := a.(sequence := (a.sequence + 1) % SEQUENCE_MODULUS);
    var line := Encode(b.sequence, op, args);
    Outcome(b, if line.None? then None else Some([line.value]))
  }

  function SayAck(a: Agent, sequence: nat): Outcome { Say(a, Ack, [NatText(sequence)]) }

  function SayError(a: Agent, sequence: nat, code: string): Outcome { Say(a, Error, [NatText(sequence), code]) }

  predicate ErrorCode(code: string) {
    code == "BAD_FRAME" || code == "BAD_ARGUMENT" || code == "BAD_PORT" || code == "UNSUPPORTED" || code == "WATCHDOG"
  }

  lemma ShortEncodes(sequence: int, op: Operation, args: seq<string>)
    requires args != [] && GoodArguments(op, args) && |Join(args, '|')| <= 71
    ensures Encode(sequence, op, args).Some?
  {
    var number := sequence % SEQUENCE_MODULUS;
    NatTextLength(number);
    NameShape(op);
    var fields := Fields(number, op, args);
    JoinSplits(fields);
    JoinSplits(fields[1..]);
    assert fields[1..][1..] == [Name(op)] + args;
    JoinSplits([Name(op)] + args);
    assert ([Name(op)] + args)[1..] == args;
  }

  /** One or two arguments always fit. */
  lemma FewFit(args: seq<string>)
    requires 1 <= |args| <= 2 && forall i :: 0 <= i < |args| ==> GoodArgument(args[i])
    ensures |Join(args, '|')| <= 49
  {
    assert GoodArgument(args[0]) && GoodArgument(args[|args| - 1]);
    JoinSplits(args);
    if |args| == 2 { JoinSplits(args[1..]); }
  }

  lemma JoinSplits(parts: seq<string>)
    requires parts != []
    ensures |Join(parts, '|')| == |parts[0]| + if |parts| == 1 then 0 else 1 + |Join(parts[1..], '|')|
  {
  }

  /** Acknowledgements and the fixed error replies always encode. */
  lemma RepliesEncode(a: Agent, sequence: nat, code: string)
    requires sequence < SEQUENCE_MODULUS && ErrorCode(code)
    ensures SayAck(a, sequence).lines.Some? && SayError(a, sequence, code).lines.Some?
  {
    NatTextLength(sequence);
    assert GoodArgument(NatText(sequence)) && GoodArgument(code);
    FewFit([NatText(sequence)]);
    FewFit([NatText(sequence), code]);
    ShortEncodes((a.sequence + 1) % SEQUENCE_MODULUS, Ack, [NatText(sequence)]);
    ShortEncodes((a.sequence + 1) % SEQUENCE_MODULUS, Error, [NatText(sequence), code]);
  }

  // ---------------------------------------------------------------- commands

  function Acted(a: Agent, call: Call): Agent { a.(calls := a.calls + [call]) }

  function Started(a: Agent, call: Call): Agent { Acted(a, call).(motorsRunning := true) }

  function Stopped(a: Agent): Agent { Acted(a, StopEverything).(motorsRunning := false) }

  predicate IsMotor(hub: Hub, port: string) { port in hub.ports && hub.ports[port] == "motor" }

  function PortCode(hub: Hub, port: string): char {
    if port !in hub.ports then '-'
    else
      var kind := hub.ports[port];
      if kind == "motor" then 'm' else if kind == "distance" then 'd' else if kind == "color" then 'c'
         else if kind == "force" then 'f' else '-'
  }

  function PortReport(hub: Hub, order: seq<string>): string {
    if order == [] then "" else [PortCode(hub, order[0])] + PortReport(hub, order[1..])
  }

  function Dispatch(hub: Hub, a: Agent, f: Frame, env: Readings): Outcome
    requires GoodArguments(f.op, f.args)
  {
    match f.op
    case Hello => Say(a, Hello, ["1", hub.modelId, env.battery, PortReport(hub, hub.portOrder)])
    case Heartbeat => SayAck(a, f.sequence)
    case StopAll => SayAck(Stopped(a), f.sequence)
    case MotorStop =>
      if f.args[0] == "ALL" then SayAck(Stopped(a), f.sequence)
      else if !IsMotor(hub, f.args[0]) then SayError(a, f.sequence, "BAD_PORT")
      else SayAck(Acted(a, StopMotor(f.args[0])).(motorsRunning := false), f.sequence)
    case MotorRun =>
      if !IsMotor(hub, f.args[0]) then SayError(a, f.sequence, "BAD_PORT")
      else
        var percent, milliseconds := ReadInt(f.args[1]), ReadInt(f.args[2]);
        if percent.None? || milliseconds.None? then Outcome(a, None)
        else
          var call := RunMotor(
            f.args[0], PercentToSpeed(Clamp(percent.value, -MAX_MOTOR_PERCENT, MAX_MOTOR_PERCENT)),
            Clamp(milliseconds.value, 1, MAX_COMMAND_MILLISECONDS));
          SayAck(Started(a, call), f.sequence)
    case MotorRunAngle => DispatchAngle(hub, a, f)
    case MotorRunTarget => DispatchAngle(hub, a, f)
    case Drive => DispatchDrive(hub, a, f)
    case DriveStraight => DispatchDrive(hub, a, f)
    case Turn => DispatchDrive(hub, a, f)
    case SensorRead =>
      var value := env.sensor(f.args[0], f.args[1]);
      if value.None? then SayError(a, f.sequence, "BAD_PORT")
      else
        var ack := SayAck(a, f.sequence);
        if ack.lines.None? then ack else Prefixed(ack.lines.value, Say(ack.agent, Telemetry, [f.args[1], value.value]))
    case SensorSubscribe =>
      var interval := ReadInt(f.args[2]);
      if interval.None? then Outcome(a, None)
      else if env.sensor(f.args[0], f.args[1]).None? then SayError(a, f.sequence, "BAD_PORT")
      else
        var subscription := Subscription(f.args[0], f.args[1], Clamp(interval.value, 50, 5000), 0);
        SayAck(a.(subscriptions := a.subscriptions + [subscription]), f.sequence)
    case Display => SayAck(Acted(a, ShowText(f.args[0])), f.sequence)
    case Sound =>
      var frequency, milliseconds := ReadInt(f.args[0]), ReadInt(f.args[1]);
      if frequency.None? || milliseconds.None? then Outcome(a, None)
      else
        SayAck(
          Acted(a, PlaySound(Clamp(frequency.value, 50, 10000),
            Clamp(milliseconds.value, 1, MAX_COMMAND_MILLISECONDS))), f.sequence)
    case Ack => SayError(a, f.sequence, "UNSUPPORTED")
    case Error => SayError(a, f.sequence, "UNSUPPORTED")
    case Telemetry => SayError(a, f.sequence, "UNSUPPORTED")
  }

  function DispatchAngle(hub: Hub, a: Agent, f: Frame): Outcome
    requires GoodArguments(f.op, f.args) && (f.op.MotorRunAngle? || f.op.MotorRunTarget?)
  {
    if !IsMotor(hub, f.args[0]) then SayError(a, f.sequence, "BAD_PORT")
    else
      var angle, percent := ReadInt(f.args[1]), ReadInt(f.args[2]);
      if angle.None? || percent.None? then Outcome(a, None)
      else
        var speed := PercentToSpeed(Clamp(percent.value, -MAX_MOTOR_PERCENT, MAX_MOTOR_PERCENT));
        var call := if f.op.MotorRunAngle? then RunMotorAngle(f.args[0], speed, Clamp(angle.value, -3600, 3600))
                    else RunMotorTarget(f.args[0], speed, Clamp(angle.value, -3600, 3600));
        SayAck(Started(a, call), f.sequence)
  }

  function DriveCall(op: Operation, args: seq<string>): Option<Call>
    requires |args| >= 1 && (op.Drive? ==> |args| == 3)
  {
    var first := ReadInt(args[0]);
    if first.None? then None
    else if op.Drive? then
      var turn, milliseconds := ReadInt(args[1]), ReadInt(args[2]);
      if turn.None? || milliseconds.None? then None
      else
        Some(DriveBase(
               PercentToSpeed(Clamp(first.value, -MAX_MOTOR_PERCENT, MAX_MOTOR_PERCENT)),
               Clamp(turn.value, -MAX_MOTOR_PERCENT, MAX_MOTOR_PERCENT),
                 Clamp(milliseconds.value, 1, MAX_COMMAND_MILLISECONDS)))
    else if op.DriveStraight? then Some(DriveBaseStraight(Clamp(first.value, -2000, 2000)))
    else Some(TurnBase(Clamp(first.value, -720, 720)))
  }

  function DispatchDrive(hub: Hub, a: Agent, f: Frame): Outcome
    requires GoodArguments(f.op, f.args) && (f.op.Drive? || f.op.DriveStraight? || f.op.Turn?)
  {
    if !hub.driveBase then SayError(a, f.sequence, "UNSUPPORTED")
    else
      var call := DriveCall(f.op, f.args);
      if call.None? then Outcome(a, None) else SayAck(Started(a, call.value), f.sequence)
  }

  /** One received line. */
  function Handled(hub: Hub, a: Agent, line: Option<string>, now: int, env: Readings): Outcome {
    var frame := Decode(line);
    if frame.None? then SayError(a, 0, "BAD_FRAME")
    else
      var done := Dispatch(hub, a.(lastFrameAt := now), frame.value, env);
      if done.lines.Some? then done else SayError(done.agent, frame.value.sequence, "BAD_ARGUMENT")
  }

  // ---------------------------------------------------------------- the poll

  /** Reports the subscriptions from the i-th on that are due. */
  function Reported(a: Agent, i: nat, now: int, env: Readings): Outcome
    requires i <= |a.subscriptions|
    decreases |a.subscriptions| - i
  {
    if i == |a.subscriptions| then Outcome(a, Some([]))
    else
      var s := a.subscriptions[i];
      if now - s.last < s.interval then Reported(a, i + 1, now, env)
      else
        var b, value := a.(subscriptions := a.subscriptions[i := s.(last := now)]), env.sensor(s.port, s.kind);
        if value.None? then Reported(b, i + 1, now, env)
        else
          var said := Say(b, Telemetry, [s.kind, value.value]);
          if said.lines.None? then said else Prefixed(said.lines.value, Reported(said.agent, i + 1, now, env))
  }

  function Pressed(a: Agent, env: Readings): Outcome {
    if env.button == "" then Outcome(a, Some([])) else Say(Stopped(a), Telemetry, ["button", env.button])
  }

  function Watched(hub: Hub, a: Agent, now: int): Outcome {
    if a.motorsRunning && now - a.lastFrameAt > hub.watchdog then SayError(Stopped(a), 0, "WATCHDOG")
       else Outcome(a, Some([]))
  }

  function Polled(hub: Hub, a: Agent, now: int, env: Readings): Outcome {
    var pressed := Pressed(a, env);
    if pressed.lines.None? then pressed
    else
      var watched := Watched(hub, pressed.agent, now);
      if watched.lines.None? then watched
      else Prefixed(pressed.lines.value + watched.lines.value, Reported(watched.agent, 0, now, env))
  }

  // ---------------------------------------------------------------- the object

  class HubAgent {
    const hub: Hub
    var sequence: nat
    var lastFrameAt: int
    var motorsRunning: bool
    var subscriptions: seq<Subscription>
    /** Every command the hardware was given. */
    ghost var calls: seq<Call>

    ghost function Contents(): Agent
      reads this
    {
      Agent(sequence, lastFrameAt, motorsRunning, subscriptions, calls)
    }

    constructor (hub: Hub)
      ensures Contents() == START && this.hub == hub
    {
      this.hub, sequence, lastFrameAt, motorsRunning, subscriptions, calls := hub, 0, 0, false, [], [];
    }

    method Emit(op: Operation, args: seq<string>) returns (line: Option<string>)
      modifies this`sequence
      ensures var said := Say(old(Contents()), op, args);
              Contents() == said.agent && said.lines == if line.None? then None else Some([line.value])
    {
      sequence := (sequence + 1) % SEQUENCE_MODULUS;
      line := Encode(sequence, op, args);
    }

    method EmitAll(op: Operation, args: seq<string>) returns (lines: Option<seq<string>>)
      modifies this`sequence
      ensures Outcome(Contents(), lines) == Say(old(Contents()), op, args)
    {
      var line := Emit(op, args);
      lines := if line.None? then None else Some([line.value]);
    }

    method StopAllMotors()
      modifies this`motorsRunning, this`calls
      ensures Contents() == Stopped(old(Contents()))
    {
      calls := calls + [StopEverything];
      motorsRunning := false;
    }

    method ReportPorts() returns (report: string)
      ensures report == PortReport(hub, hub.portOrder)
    {
      report := "";
      for i := 0 to |hub.portOrder|
        invariant report + PortReport(hub, hub.portOrder[i..]) == PortReport(hub, hub.portOrder)
      {
        assert hub.portOrder[i..][1..] == hub.portOrder[i + 1..];
        report := report + [PortCode(hub, hub.portOrder[i])];
      }
    }

    method HandleLine(line: Option<string>, now: int, env: Readings) returns (replies: seq<string>)
      modifies this
      ensures Outcome(Contents(), Some(replies)) == Handled(hub, old(Contents()), line, now, env)
    {
      hide Decode, Dispatch, Encode;
      var frame := Decode(line);
      if frame.None? {
        RepliesEncode(Contents(), 0, "BAD_FRAME");
        var bad := EmitAll(Error, [NatText(0), "BAD_FRAME"]);
        return bad.value;
      }
      lastFrameAt := now;
      var lines := DispatchFrame(frame.value, env);
      if lines.None? {
        RepliesEncode(Contents(), frame.value.sequence, "BAD_ARGUMENT");
        lines := EmitAll(Error, [NatText(frame.value.sequence), "BAD_ARGUMENT"]);
      }
      replies := lines.value;
    }

    method DispatchFrame(f: Frame, env: Readings) returns (lines: Option<seq<string>>)
      requires GoodArguments(f.op, f.args)
      modifies this
      ensures Outcome(Contents(), lines) == Dispatch(hub, old(Contents()), f, env)
    {
      hide Say, ReadInt, GoodArgument, PortReport;
      var ack, badPort := [NatText(f.sequence)], [NatText(f.sequence), "BAD_PORT"];
      match f.op
      case Hello =>
        var ports := ReportPorts();
        lines := EmitAll(Hello, ["1", hub.modelId, env.battery, ports]);
      case Heartbeat =>
        lines := EmitAll(Ack, ack);
      case StopAll =>
        StopAllMotors();
        lines := EmitAll(Ack, ack);
      case MotorStop =>
        if f.args[0] == "ALL" {
          StopAllMotors();
          lines := EmitAll(Ack, ack);
        } else if !IsMotor(hub, f.args[0]) {
          lines := EmitAll(Error, badPort);
        } else {
          calls := calls + [StopMotor(f.args[0])];
          motorsRunning := false;
          lines := EmitAll(Ack, ack);
        }
      case MotorRun =>
        if !IsMotor(hub, f.args[0]) {
          lines := EmitAll(Error, badPort);
        } else {
          var percent, milliseconds := ReadInt(f.args[1]), ReadInt(f.args[2]);
          if percent.None? || milliseconds.None? {
            return None;
          }
          calls := calls + [RunMotor(
              f.args[0], PercentToSpeed(Clamp(percent.value, -MAX_MOTOR_PERCENT, MAX_MOTOR_PERCENT)),
              Clamp(milliseconds.value, 1, MAX_COMMAND_MILLISECONDS))];
          motorsRunning := true;
          lines := EmitAll(Ack, ack);
        }
      case MotorRunAngle =>
        lines := DispatchToAngle(f);
      case MotorRunTarget =>
        lines := DispatchToAngle(f);
      case Drive =>
        lines := DispatchToBase(f);
      case DriveStraight =>
        lines := DispatchToBase(f);
      case Turn =>
        lines := DispatchToBase(f);
      case SensorRead =>
        var value := env.sensor(f.args[0], f.args[1]);
        if value.None? {
          lines := EmitAll(Error, badPort);
        } else {
          var first := EmitAll(Ack, ack);
          if first.None? {
            return None;
          }
          var second := EmitAll(Telemetry, [f.args[1], value.value]);
          lines := if second.None? then None else Some(first.value + second.value);
        }
      case SensorSubscribe =>
        var interval := ReadInt(f.args[2]);
        if interval.None? {
          return None;
        }
        if env.sensor(f.args[0], f.args[1]).None? {
          lines := EmitAll(Error, badPort);
        } else {
          subscriptions := subscriptions + [Subscription(f.args[0], f.args[1], Clamp(interval.value, 50, 5000), 0)];
          lines := EmitAll(Ack, ack);
        }
      case Display =>
        calls := calls + [ShowText(f.args[0])];
        lines := EmitAll(Ack, ack);
      case Sound =>
        var frequency, milliseconds := ReadInt(f.args[0]), ReadInt(f.args[1]);
        if frequency.None? || milliseconds.None? {
          return None;
        }
        calls := calls + [PlaySound(Clamp(frequency.value, 50, 10000),
          Clamp(milliseconds.value, 1, MAX_COMMAND_MILLISECONDS))];
        lines := EmitAll(Ack, ack);
      case Ack =>
        lines := EmitAll(Error, [NatText(f.sequence), "UNSUPPORTED"]);
      case Error =>
        lines := EmitAll(Error, [NatText(f.sequence), "UNSUPPORTED"]);
      case Telemetry =>
        lines := EmitAll(Error, [NatText(f.sequence), "UNSUPPORTED"]);
    }

    method DispatchToAngle(f: Frame) returns (lines: Option<seq<string>>)
      requires GoodArguments(f.op, f.args) && (f.op.MotorRunAngle? || f.op.MotorRunTarget?)
      modifies this
      ensures Outcome(Contents(), lines) == DispatchAngle(hub, old(Contents()), f)
    {
      hide Say, ReadInt, GoodArgument;
      if !IsMotor(hub, f.args[0]) {
        lines := EmitAll(Error, [NatText(f.sequence), "BAD_PORT"]);
        return;
      }
      var angle, percent := ReadInt(f.args[1]), ReadInt(f.args[2]);
      if angle.None? || percent.None? {
        return None;
      }
      var degrees := Clamp(angle.value, -3600, 3600);
      var speed := PercentToSpeed(Clamp(percent.value, -MAX_MOTOR_PERCENT, MAX_MOTOR_PERCENT));
      if f.op.MotorRunAngle? {
        calls := calls + [RunMotorAngle(f.args[0], speed, degrees)];
      } else {
        calls := calls + [RunMotorTarget(f.args[0], speed, degrees)];
      }
      motorsRunning := true;
      lines := EmitAll(Ack, [NatText(f.sequence)]);
    }

    method DispatchToBase(f: Frame) returns (lines: Option<seq<string>>)
      requires GoodArguments(f.op, f.args) && (f.op.Drive? || f.op.DriveStraight? || f.op.Turn?)
      modifies this
      ensures Outcome(Contents(), lines) == DispatchDrive(hub, old(Contents()), f)
    {
      hide Say, ReadInt, GoodArgument;
      if !hub.driveBase {
        lines := EmitAll(Error, [NatText(f.sequence), "UNSUPPORTED"]);
        return;
      }
      var first := ReadInt(f.args[0]);
      if first.None? {
        return None;
      }
      if f.op.Drive? {
        var turn, milliseconds := ReadInt(f.args[1]), ReadInt(f.args[2]);
        if turn.None? || milliseconds.None? {
          return None;
        }
        calls := calls + [DriveBase(
            PercentToSpeed(Clamp(first.value, -MAX_MOTOR_PERCENT, MAX_MOTOR_PERCENT)),
            Clamp(turn.value, -MAX_MOTOR_PERCENT, MAX_MOTOR_PERCENT),
              Clamp(milliseconds.value, 1, MAX_COMMAND_MILLISECONDS))];
      } else if f.op.DriveStraight? {
        calls := calls + [DriveBaseStraight(Clamp(first.value, -2000, 2000))];
      } else {
        calls := calls + [TurnBase(Clamp(first.value, -720, 720))];
      }
      motorsRunning := true;
      lines := EmitAll(Ack, [NatText(f.sequence)]);
    }

    /** None is a FrameError that leaves the poll: a reading the frame cannot carry. */
    method Poll(now: int, env: Readings) returns (outgoing: Option<seq<string>>)
      modifies this
      ensures Outcome(Contents(), outgoing) == Polled(hub, old(Contents()), now, env)
    {
      hide Say, NatText;
      var lines: seq<string> := [];
      if env.button != "" {
        StopAllMotors();
        var pressed := EmitAll(Telemetry, ["button", env.button]);
        if pressed.None? {
          return None;
        }
        lines := pressed.value;
      }
      if motorsRunning && now - lastFrameAt > hub.watchdog {
        StopAllMotors();
        var stopped := EmitAll(Error, [NatText(0), "WATCHDOG"]);
        if stopped.None? {
          return None;
        }
        lines := lines + stopped.value;
      } else {
        assert lines + [] == lines;
      }
      outgoing := Report(now, env, lines);
    }

    method Report(now: int, env: Readings, said: seq<string>) returns (outgoing: Option<seq<string>>)
      modifies this`sequence, this`subscriptions
      ensures Outcome(Contents(), outgoing) == Prefixed(said, Reported(old(Contents()), 0, now, env))
    {
      hide Say;
      var lines := said;
      ghost var all := Prefixed(said, Reported(Contents(), 0, now, env));
      var i := 0;
      while i < |subscriptions|
        invariant 0 <= i <= |subscriptions| == |old(subscriptions)|
        invariant Prefixed(lines, Reported(Contents(), i, now, env)) == all
      {
        var s := subscriptions[i];
        if now - s.last >= s.interval {
          subscriptions := subscriptions[i := s.(last := now)];
          var value := env.sensor(s.port, s.kind);
          if value.Some? {
            ghost var before := Contents();
            var line := EmitAll(Telemetry, [s.kind, value.value]);
            SaidKeeps(before, Telemetry, [s.kind, value.value]);
            if line.None? {
              return None;
            }
            PrefixedTwice(lines, line.value, Reported(Contents(), i + 1, now, env));
            lines := lines + line.value;
          }
        }
        i := i + 1;
      }
      assert lines + [] == lines;
      outgoing := Some(lines);
    }
  }

  lemma PrefixedTwice(a: seq<string>, b: seq<string>, o: Outcome)
    ensures Prefixed(a, Prefixed(b, o)) == Prefixed(a + b, o)
  {
    if o.lines.Some? { assert a + (b + o.lines.value) == a + b + o.lines.value; }
  }

  lemma SaidKeeps(a: Agent, op: Operation, args: seq<string>)
    ensures Say(a, op, args).agent == a.(sequence := (a.sequence + 1) % SEQUENCE_MODULUS)
  {
  }
}
