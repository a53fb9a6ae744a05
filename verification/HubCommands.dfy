/** What one received line does: the exact command it gives the hardware and the exact messages that answer it. */
module HubCommands {
  import opened Wrappers
  import opened Text
  import opened HubFrame
  import opened HubAgent
  import opened HubSafety

  // ---------------------------------------------------------------- the commands

  /** The number the text reads as, or the nearest one within the limits. */
  predicate Within(text: string, low: int, high: int, n: int) {
    && ReadInt(text).Some? && low <= n <= high
    && (n == ReadInt(text).value || (n == low && ReadInt(text).value < low) ||
      (n == high && ReadInt(text).value > high))
  }

  /** Ten degrees per second a percent, from -100 to 100 percent. */
  predicate SpeedOf(text: string, speed: int) { speed % 10 == 0 && Within(text, -100, 100, speed / 10) }

  /** The frame's argument at this place. */
  function Arg(f: Frame, i: nat): string { if i < |f.args| then f.args[i] else "" }

  predicate OnMotor(hub: Hub, f: Frame, port: string) {
    port == Arg(f, 0) && port in hub.ports && hub.ports[port] == "motor"
  }

  /** The frame orders this command. */
  predicate Orders(hub: Hub, f: Frame, call: Call) {
    match call
    case RunMotor(port, speed, milliseconds) =>
      f.op == MotorRun && OnMotor(hub, f, port) && SpeedOf(Arg(f, 1), speed) && Within(Arg(f, 2), 1, 5000, milliseconds)
    case RunMotorAngle(port, speed, angle) =>
      f.op == MotorRunAngle && OnMotor(hub, f, port) && Within(Arg(f, 1), -3600, 3600, angle) &&
        SpeedOf(Arg(f, 2), speed)
    case RunMotorTarget(port, speed, angle) =>
      f.op == MotorRunTarget && OnMotor(hub, f, port) && Within(Arg(f, 1), -3600, 3600, angle) &&
        SpeedOf(Arg(f, 2), speed)
    case StopMotor(port) => f.op == MotorStop && port != "ALL" && OnMotor(hub, f, port)
    case StopEverything => f.op == StopAll || (f.op == MotorStop && Arg(f, 0) == "ALL")
    case DriveBase(speed, turn, milliseconds) =>
      f.op == Drive && hub.driveBase && SpeedOf(Arg(f, 0), speed) && Within(Arg(f, 1), -100, 100, turn) &&
        Within(Arg(f, 2), 1, 5000, milliseconds)
    case DriveBaseStraight(millimetres) =>
      f.op == DriveStraight && hub.driveBase && Within(Arg(f, 0), -2000, 2000, millimetres)
    case TurnBase(angle) => f.op == Turn && hub.driveBase && Within(Arg(f, 0), -720, 720, angle)
    case ShowText(text) => f.op == Display && text == Arg(f, 0)
    case PlaySound(frequency, milliseconds) =>
      f.op == Sound && Within(Arg(f, 0), 50, 10000, frequency) && Within(Arg(f, 1), 1, 5000, milliseconds)
  }

  /** A command that moves something sets the flag, a stop clears it, and the rest leaves it. */
  predicate FlagAfter(call: Call, before: bool, after: bool) {
    match call
    case StopMotor(_) => !after
    case StopEverything => !after
    case ShowText(_) => after == before
    case PlaySound(_, _) => after == before
    case _ => after
  }

  /** From `a` to `b` the one ordered command was given, or none when there is none. */
  ghost predicate Obeyed(hub: Hub, f: Frame, a: Agent, b: Agent) {
    && (b.calls == a.calls || exists call :: b.calls == a.calls + [call])
    && (forall call :: Orders(hub, f, call) <==> b.calls == a.calls + [call])
    && (forall call :: Orders(hub, f, call) ==> FlagAfter(call, a.motorsRunning, b.motorsRunning))
    && (b.calls == a.calls ==> b.motorsRunning == a.motorsRunning)
  }

  lemma GivenOne(hub: Hub, f: Frame, a: Agent, b: Agent, call: Call)
    requires Orders(hub, f, call) && b.calls == a.calls + [call]
    requires forall other :: Orders(hub, f, other) ==> other == call
    requires FlagAfter(call, a.motorsRunning, b.motorsRunning)
    ensures Obeyed(hub, f, a, b)
  {
    hide Orders, FlagAfter;
    forall other ensures Orders(hub, f, other) <==> b.calls == a.calls + [other] {
      if b.calls == a.calls + [other] {
        assert b.calls[|a.calls|] == other;
      }
    }
  }

  lemma GivenNone(hub: Hub, f: Frame, a: Agent, b: Agent)
    requires b.calls == a.calls && b.motorsRunning == a.motorsRunning
    requires forall call :: !Orders(hub, f, call)
    ensures Obeyed(hub, f, a, b)
  {
    hide Orders, FlagAfter;
    forall call ensures b.calls != a.calls + [call] {
      assert |a.calls + [call]| == |a.calls| + 1;
    }
  }

  lemma WithinClamped(text: string, low: int, high: int)
    requires low <= high && ReadInt(text).Some?
    ensures forall n :: Within(text, low, high, n) <==> n == Clamp(ReadInt(text).value, low, high)
  {
    hide ReadInt;
  }

  lemma SpeedClamped(text: string)
    requires ReadInt(text).Some?
    ensures forall speed ::
              SpeedOf(text, speed) <==> speed == PercentToSpeed(Clamp(ReadInt(text).value, -100, 100))
  {
    hide ReadInt;
  }

  lemma Unread(text: string, low: int, high: int)
    requires ReadInt(text).None?
    ensures forall n :: !Within(text, low, high, n) && !SpeedOf(text, n)
  {
    hide ReadInt;
  }

  lemma RunOrdered(hub: Hub, a: Agent, f: Frame, env: Readings)
    requires GoodArguments(f.op, f.args) && f.op == MotorRun
    ensures Obeyed(hub, f, a, Dispatch(hub, a, f, env).agent)
  {
    hide ReadInt, Encode, PercentToSpeed, Within, SpeedOf, Obeyed, GoodArgument, Clamp;
    var b := Dispatch(hub, a, f, env).agent;
    if ReadInt(f.args[1]).None? { Unread(f.args[1], 0, 0); } else { SpeedClamped(f.args[1]); }
    if ReadInt(f.args[2]).None? { Unread(f.args[2], 1, 5000); } else { WithinClamped(f.args[2], 1, 5000); }
    if b.calls == a.calls { GivenNone(hub, f, a, b); } else { GivenOne(hub, f, a, b, b.calls[|a.calls|]); }
  }

  lemma AngleOrdered(hub: Hub, a: Agent, f: Frame)
    requires GoodArguments(f.op, f.args) && (f.op == MotorRunAngle || f.op == MotorRunTarget)
    ensures Obeyed(hub, f, a, DispatchAngle(hub, a, f).agent)
  {
    hide ReadInt, Encode, PercentToSpeed, Within, SpeedOf, Obeyed, GoodArgument, Clamp;
    var b := DispatchAngle(hub, a, f).agent;
    if ReadInt(f.args[1]).None? { Unread(f.args[1], -3600, 3600); } else { WithinClamped(f.args[1], -3600, 3600); }
    if ReadInt(f.args[2]).None? { Unread(f.args[2], 0, 0); } else { SpeedClamped(f.args[2]); }
    if b.calls == a.calls { GivenNone(hub, f, a, b); } else { GivenOne(hub, f, a, b, b.calls[|a.calls|]); }
  }

  lemma DriveOrdered(hub: Hub, a: Agent, f: Frame)
    requires GoodArguments(f.op, f.args) && f.op == Drive
    ensures Obeyed(hub, f, a, DispatchDrive(hub, a, f).agent)
  {
    hide ReadInt, Encode, PercentToSpeed, Within, SpeedOf, Obeyed, GoodArgument, Clamp;
    var b := DispatchDrive(hub, a, f).agent;
    if ReadInt(f.args[0]).None? { Unread(f.args[0], 0, 0); } else { SpeedClamped(f.args[0]); }
    if ReadInt(f.args[1]).None? { Unread(f.args[1], -100, 100); } else { WithinClamped(f.args[1], -100, 100); }
    if ReadInt(f.args[2]).None? { Unread(f.args[2], 1, 5000); } else { WithinClamped(f.args[2], 1, 5000); }
    if b.calls == a.calls { GivenNone(hub, f, a, b); } else { GivenOne(hub, f, a, b, b.calls[|a.calls|]); }
  }

  lemma BaseOrdered(hub: Hub, a: Agent, f: Frame)
    requires GoodArguments(f.op, f.args) && (f.op == DriveStraight || f.op == Turn)
    ensures Obeyed(hub, f, a, DispatchDrive(hub, a, f).agent)
  {
    hide ReadInt, Encode, PercentToSpeed, Within, SpeedOf, Obeyed, GoodArgument, Clamp;
    var b := DispatchDrive(hub, a, f).agent;
    if ReadInt(f.args[0]).None? {
      Unread(f.args[0], -2000, 2000);
      Unread(f.args[0], -720, 720);
    } else {
      WithinClamped(f.args[0], -2000, 2000);
      WithinClamped(f.args[0], -720, 720);
    }
    if b.calls == a.calls { GivenNone(hub, f, a, b); } else { GivenOne(hub, f, a, b, b.calls[|a.calls|]); }
  }

  lemma SoundOrdered(hub: Hub, a: Agent, f: Frame, env: Readings)
    requires GoodArguments(f.op, f.args) && f.op == Sound
    ensures Obeyed(hub, f, a, Dispatch(hub, a, f, env).agent)
  {
    hide ReadInt, Encode, Within, SpeedOf, Obeyed, GoodArgument, Clamp;
    var b := Dispatch(hub, a, f, env).agent;
    if ReadInt(f.args[0]).None? { Unread(f.args[0], 50, 10000); } else { WithinClamped(f.args[0], 50, 10000); }
    if ReadInt(f.args[1]).None? { Unread(f.args[1], 1, 5000); } else { WithinClamped(f.args[1], 1, 5000); }
    if b.calls == a.calls { GivenNone(hub, f, a, b); } else { GivenOne(hub, f, a, b, b.calls[|a.calls|]); }
  }

  lemma PlainOrdered(hub: Hub, a: Agent, f: Frame, env: Readings)
    requires GoodArguments(f.op, f.args)
    requires f.op == StopAll || f.op == MotorStop || f.op == Display || f.op == Hello || f.op == Heartbeat ||
             f.op == SensorRead || f.op == SensorSubscribe || f.op == Ack || f.op == Error || f.op == Telemetry
    ensures Obeyed(hub, f, a, Dispatch(hub, a, f, env).agent)
  {
    hide ReadInt, Encode, Within, SpeedOf, Obeyed, GoodArgument, Clamp, PortReport, NatText;
    var b := Dispatch(hub, a, f, env).agent;
    if b.calls == a.calls { GivenNone(hub, f, a, b); } else { GivenOne(hub, f, a, b, b.calls[|a.calls|]); }
  }

  lemma DispatchObeyed(hub: Hub, a: Agent, f: Frame, env: Readings)
    requires GoodArguments(f.op, f.args)
    ensures Obeyed(hub, f, a, Dispatch(hub, a, f, env).agent)
  {
    hide Obeyed, GoodArguments, DispatchAngle, DispatchDrive, ReadInt, Say, PortReport;
    if f.op == MotorRun {
      RunOrdered(hub, a, f, env);
    } else if f.op == MotorRunAngle || f.op == MotorRunTarget {
      AngleOrdered(hub, a, f);
    } else if f.op == Drive {
      DriveOrdered(hub, a, f);
    } else if f.op == DriveStraight || f.op == Turn {
      BaseOrdered(hub, a, f);
    } else if f.op == Sound {
      SoundOrdered(hub, a, f, env);
    } else {
      PlainOrdered(hub, a, f, env);
    }
  }

  /**
   * A line gives the hardware exactly the command its frame orders, and none when it orders none or does not decode;
   * the running flag follows the command.
   */
  lemma CommandsExactly(hub: Hub, a: Agent, line: Option<string>, now: int, env: Readings)
    ensures var b := Handled(hub, a, line, now, env).agent;
            match Decode(line)
            case Some(f) => Obeyed(hub, f, a, b) && b.lastFrameAt == now
            case None => b.calls == a.calls && b.motorsRunning == a.motorsRunning && b.lastFrameAt == a.lastFrameAt
  {
    hide Decode, Dispatch, Encode, GoodArguments, Orders, FlagAfter;
    var frame := Decode(line);
    if frame.Some? {
      DispatchObeyed(hub, a.(lastFrameAt := now), frame.value, env);
      DispatchKeeps(hub, a.(lastFrameAt := now), frame.value, env);
    }
  }

  // ---------------------------------------------------------------- the subscriptions

  /** The frame asks for reports of a sensor that answers. */
  predicate Subscribes(f: Frame, env: Readings) {
    f.op == SensorSubscribe && ReadInt(Arg(f, 2)).Some? && env.sensor(Arg(f, 0), Arg(f, 1)).Some?
  }

  lemma DispatchKeeps(hub: Hub, a: Agent, f: Frame, env: Readings)
    requires GoodArguments(f.op, f.args)
    ensures var b := Dispatch(hub, a, f, env).agent;
            && b.lastFrameAt == a.lastFrameAt
            && (Subscribes(f, env) ==>
                  |b.subscriptions| > 0 &&
                  b.subscriptions == a.subscriptions + [b.subscriptions[|b.subscriptions| - 1]] &&
                  var s := b.subscriptions[|b.subscriptions| - 1];
                  s.port == f.args[0] && s.kind == f.args[1] && s.last == 0 &&
                  Within(f.args[2], 50, 5000, s.interval))
            && (!Subscribes(f, env) ==> b.subscriptions == a.subscriptions)
  {
    hide ReadInt, Encode, GoodArgument, PercentToSpeed, PortReport, NatText, Clamp, Within;
    if f.op == SensorSubscribe && ReadInt(f.args[2]).Some? { WithinClamped(f.args[2], 50, 5000); }
  }

  /** A line adds a subscription exactly when it asks for one of a sensor that answers, at a bounded interval. */
  lemma SubscriptionsExactly(hub: Hub, a: Agent, line: Option<string>, now: int, env: Readings)
    ensures var b := Handled(hub, a, line, now, env).agent;
            if Decode(line).Some? && Subscribes(Decode(line).value, env) then
              var f := Decode(line).value;
              exists n :: Within(Arg(f, 2), 50, 5000, n) &&
                          b.subscriptions == a.subscriptions + [Subscription(Arg(f, 0), Arg(f, 1), n, 0)]
            else b.subscriptions == a.subscriptions
  {
    hide Decode, Dispatch, Encode, GoodArgument, ReadInt, Within;
    var frame := Decode(line);
    if frame.Some? {
      var f := frame.value;
      DispatchKeeps(hub, a.(lastFrameAt := now), f, env);
      if Subscribes(f, env) {
        var added := Handled(hub, a, line, now, env).agent.subscriptions;
        var s := added[|added| - 1];
        assert added == a.subscriptions + [Subscription(f.args[0], f.args[1], s.interval, 0)];
      }
    }
  }

  // ---------------------------------------------------------------- the replies

  datatype Message = Message(op: Operation, args: seq<string>)

  /** The frame is refused with this code. */
  predicate Refused(hub: Hub, f: Frame, env: Readings, code: string) {
    match f.op
    case MotorStop => code == "BAD_PORT" && Arg(f, 0) != "ALL" && !OnMotor(hub, f, Arg(f, 0))
    case Drive =>
      if hub.driveBase then
        code == "BAD_ARGUMENT" && !(ReadInt(Arg(f, 0)).Some? && ReadInt(Arg(f, 1)).Some? && ReadInt(Arg(f, 2)).Some?)
      else code == "UNSUPPORTED"
    case DriveStraight =>
      if hub.driveBase then code == "BAD_ARGUMENT" && ReadInt(Arg(f, 0)).None? else code == "UNSUPPORTED"
    case Turn =>
      if hub.driveBase then code == "BAD_ARGUMENT" && ReadInt(Arg(f, 0)).None? else code == "UNSUPPORTED"
    case SensorRead => code == "BAD_PORT" && env.sensor(Arg(f, 0), Arg(f, 1)).None?
    case SensorSubscribe =>
      if ReadInt(Arg(f, 2)).Some? then code == "BAD_PORT" && env.sensor(Arg(f, 0), Arg(f, 1)).None?
      else code == "BAD_ARGUMENT"
    case Sound => code == "BAD_ARGUMENT" && !(ReadInt(Arg(f, 0)).Some? && ReadInt(Arg(f, 1)).Some?)
    case Ack => code == "UNSUPPORTED"
    case Error => code == "UNSUPPORTED"
    case Telemetry => code == "UNSUPPORTED"
    case Hello => false
    case Heartbeat => false
    case StopAll => false
    case Display => false
    case _ =>
      if OnMotor(hub, f, Arg(f, 0)) then
        code == "BAD_ARGUMENT" && !(ReadInt(Arg(f, 1)).Some? && ReadInt(Arg(f, 2)).Some?)
      else code == "BAD_PORT"
  }

  /** One letter a port, in port order. */
  predicate TellsPorts(hub: Hub, report: string) {
    && |report| == |hub.portOrder|
    && forall i :: 0 <= i < |report| ==> TellsPort(hub, hub.portOrder[i], report[i])
  }

  predicate TellsPort(hub: Hub, port: string, letter: char) {
    var kind := if port in hub.ports then hub.ports[port] else "empty";
    && (kind == "motor" ==> letter == 'm') && (kind == "distance" ==> letter == 'd')
    && (kind == "color" ==> letter == 'c') && (kind == "force" ==> letter == 'f')
    && (kind !in {"motor", "distance", "color", "force"} ==> letter == '-')
  }

  /** The messages that answer the frame: a refusal with its code, what was asked for, or an acknowledgement. */
  ghost predicate Answers(hub: Hub, f: Frame, env: Readings, messages: seq<Message>) {
    var number := NatText(f.sequence);
    && (forall code :: Refused(hub, f, env, code) ==> messages == [Message(Error, [number, code])])
    && ((forall code :: !Refused(hub, f, env, code)) ==>
          if f.op == Hello then
            exists report ::
              TellsPorts(hub, report) && messages == [Message(Hello, ["1", hub.modelId, env.battery, report])]
          else if f.op == SensorRead then
            && env.sensor(Arg(f, 0), Arg(f, 1)).Some?
            && messages ==
               [Message(Ack, [number]), Message(Telemetry, [Arg(f, 1), env.sensor(Arg(f, 0), Arg(f, 1)).value])]
          else messages == [Message(Ack, [number])])
  }

  /** The lines are these messages, numbered onwards from the last number used. */
  ghost predicate Sent(last: nat, messages: seq<Message>, lines: seq<string>) {
    && |lines| == |messages|
    && forall k :: 0 <= k < |lines| ==> Encode(last + k + 1, messages[k].op, messages[k].args) == Some(lines[k])
  }

  /** Some of the messages cannot be encoded. */
  ghost predicate Unsendable(last: nat, messages: seq<Message>) {
    exists k :: 0 <= k < |messages| && Encode(last + k + 1, messages[k].op, messages[k].args).None?
  }

  lemma EncodeModulo(sequence: int, op: Operation, args: seq<string>)
    ensures Encode(sequence % SEQUENCE_MODULUS, op, args) == Encode(sequence, op, args)
  {
    hide Join, Fields;
  }

  lemma SayOne(a: Agent, op: Operation, args: seq<string>)
    ensures var o, m := Say(a, op, args), [Message(op, args)];
            && o.agent == a.(sequence := (a.sequence + 1) % SEQUENCE_MODULUS)
            && (o.lines.Some? ==> Sent(a.sequence, m, o.lines.value) && !Unsendable(a.sequence, m))
            && (o.lines.None? ==> Unsendable(a.sequence, m))
  {
    hide Encode;
    EncodeModulo(a.sequence + 1, op, args);
    var m := [Message(op, args)];
    assert m[0] == Message(op, args);
  }

  /** The messages answer the frame, and the outcome says them, or could not. */
  ghost predicate Told(hub: Hub, a: Agent, f: Frame, env: Readings, o: Outcome, messages: seq<Message>) {
    && Answers(hub, f, env, messages)
    && (o.lines.Some? ==> Sent(a.sequence, messages, o.lines.value) && !Unsendable(a.sequence, messages))
    && (o.lines.None? ==>
          || (messages == [Message(Error, [NatText(f.sequence), "BAD_ARGUMENT"])] && o.agent.sequence == a.sequence)
          || (Unsendable(a.sequence, messages) && o.agent.sequence == (a.sequence + |messages|) % SEQUENCE_MODULUS))
  }

  lemma ToldRefused(hub: Hub, a: Agent, f: Frame, env: Readings, o: Outcome, code: string)
    requires GoodArguments(f.op, f.args) && f.sequence < SEQUENCE_MODULUS && Refused(hub, f, env, code) &&
             ErrorCode(code)
    requires forall other :: Refused(hub, f, env, other) ==> other == code
    requires o.lines == SayError(a, f.sequence, code).lines ||
             (o.lines.None? && code == "BAD_ARGUMENT" && o.agent.sequence == a.sequence)
    ensures Told(hub, a, f, env, o, [Message(Error, [NatText(f.sequence), code])])
  {
    hide Say, Refused, Sent, Unsendable, NatText;
    RepliesEncode(a, f.sequence, code);
    SayOne(a, Error, [NatText(f.sequence), code]);
  }

  lemma ToldAck(hub: Hub, a: Agent, f: Frame, env: Readings, o: Outcome)
    requires GoodArguments(f.op, f.args) && f.sequence < SEQUENCE_MODULUS && f.op != Hello && f.op != SensorRead
    requires forall code :: !Refused(hub, f, env, code)
    requires o.lines == SayAck(a, f.sequence).lines
    ensures Told(hub, a, f, env, o, [Message(Ack, [NatText(f.sequence)])])
  {
    hide Say, Refused, Sent, Unsendable, NatText;
    RepliesEncode(a, f.sequence, "BAD_FRAME");
    SayOne(a, Ack, [NatText(f.sequence)]);
  }

  lemma PlainTold(hub: Hub, a: Agent, f: Frame, env: Readings) returns (messages: seq<Message>)
    requires GoodArguments(f.op, f.args) && f.sequence < SEQUENCE_MODULUS
    requires f.op == StopAll || f.op == Heartbeat || f.op == Display
    ensures Told(hub, a, f, env, Dispatch(hub, a, f, env), messages)
  {
    hide Encode, Told, NatText, PortReport, GoodArgument, DispatchAngle, DispatchDrive, ReadInt;
    messages := [Message(Ack, [NatText(f.sequence)])];
    ToldAck(hub, a, f, env, Dispatch(hub, a, f, env));
  }

  lemma StopTold(hub: Hub, a: Agent, f: Frame, env: Readings) returns (messages: seq<Message>)
    requires GoodArguments(f.op, f.args) && f.sequence < SEQUENCE_MODULUS && f.op == MotorStop
    ensures Told(hub, a, f, env, Dispatch(hub, a, f, env), messages)
  {
    hide Encode, Told, NatText, PortReport, GoodArgument, DispatchAngle, DispatchDrive, ReadInt;
    var o := Dispatch(hub, a, f, env);
    if Refused(hub, f, env, "BAD_PORT") {
      messages := [Message(Error, [NatText(f.sequence), "BAD_PORT"])];
      ToldRefused(hub, a, f, env, o, "BAD_PORT");
    } else {
      messages := [Message(Ack, [NatText(f.sequence)])];
      ToldAck(hub, a, f, env, o);
    }
  }

  lemma ForeignTold(hub: Hub, a: Agent, f: Frame, env: Readings) returns (messages: seq<Message>)
    requires GoodArguments(f.op, f.args) && f.sequence < SEQUENCE_MODULUS
    requires f.op == Ack || f.op == Error || f.op == Telemetry
    ensures Told(hub, a, f, env, Dispatch(hub, a, f, env), messages)
  {
    hide Encode, Told, NatText, PortReport, GoodArgument, Say;
    messages := [Message(Error, [NatText(f.sequence), "UNSUPPORTED"])];
    ToldRefused(hub, a, f, env, Dispatch(hub, a, f, env), "UNSUPPORTED");
  }

  lemma MotorTold(hub: Hub, a: Agent, f: Frame, env: Readings) returns (messages: seq<Message>)
    requires GoodArguments(f.op, f.args) && f.sequence < SEQUENCE_MODULUS
    requires f.op == MotorRun || f.op == MotorRunAngle || f.op == MotorRunTarget
    ensures Told(hub, a, f, env, Dispatch(hub, a, f, env), messages)
  {
    hide Encode, Told, NatText, PortReport, ReadInt, Clamp, PercentToSpeed;
    var o := Dispatch(hub, a, f, env);
    if !OnMotor(hub, f, f.args[0]) {
      messages := [Message(Error, [NatText(f.sequence), "BAD_PORT"])];
      ToldRefused(hub, a, f, env, o, "BAD_PORT");
    } else if ReadInt(f.args[1]).None? || ReadInt(f.args[2]).None? {
      messages := [Message(Error, [NatText(f.sequence), "BAD_ARGUMENT"])];
      ToldRefused(hub, a, f, env, o, "BAD_ARGUMENT");
    } else {
      messages := [Message(Ack, [NatText(f.sequence)])];
      ToldAck(hub, a, f, env, o);
    }
  }

  lemma BaseTold(hub: Hub, a: Agent, f: Frame, env: Readings) returns (messages: seq<Message>)
    requires GoodArguments(f.op, f.args) && f.sequence < SEQUENCE_MODULUS
    requires f.op == Drive || f.op == DriveStraight || f.op == Turn
    ensures Told(hub, a, f, env, Dispatch(hub, a, f, env), messages)
  {
    hide Encode, Told, NatText, PortReport, ReadInt, Clamp, PercentToSpeed;
    var o := Dispatch(hub, a, f, env);
    if !hub.driveBase {
      messages := [Message(Error, [NatText(f.sequence), "UNSUPPORTED"])];
      ToldRefused(hub, a, f, env, o, "UNSUPPORTED");
    } else if Refused(hub, f, env, "BAD_ARGUMENT") {
      messages := [Message(Error, [NatText(f.sequence), "BAD_ARGUMENT"])];
      ToldRefused(hub, a, f, env, o, "BAD_ARGUMENT");
    } else {
      messages := [Message(Ack, [NatText(f.sequence)])];
      ToldAck(hub, a, f, env, o);
    }
  }

  lemma NumbersTold(hub: Hub, a: Agent, f: Frame, env: Readings) returns (messages: seq<Message>)
    requires GoodArguments(f.op, f.args) && f.sequence < SEQUENCE_MODULUS
    requires f.op == Sound || f.op == SensorSubscribe
    ensures Told(hub, a, f, env, Dispatch(hub, a, f, env), messages)
  {
    hide Encode, Told, NatText, PortReport, ReadInt, Clamp;
    var o := Dispatch(hub, a, f, env);
    if Refused(hub, f, env, "BAD_ARGUMENT") {
      messages := [Message(Error, [NatText(f.sequence), "BAD_ARGUMENT"])];
      ToldRefused(hub, a, f, env, o, "BAD_ARGUMENT");
    } else if Refused(hub, f, env, "BAD_PORT") {
      messages := [Message(Error, [NatText(f.sequence), "BAD_PORT"])];
      ToldRefused(hub, a, f, env, o, "BAD_PORT");
    } else {
      messages := [Message(Ack, [NatText(f.sequence)])];
      ToldAck(hub, a, f, env, o);
    }
  }

  lemma {:induction false} PortsTold(hub: Hub, order: seq<string>)
    ensures var report := PortReport(hub, order);
            |report| == |order| && forall i :: 0 <= i < |report| ==> TellsPort(hub, order[i], report[i])
  {
    if order != [] { PortsTold(hub, order[1..]); }
  }

  lemma HelloTold(hub: Hub, a: Agent, f: Frame, env: Readings) returns (messages: seq<Message>)
    requires GoodArguments(f.op, f.args) && f.op == Hello
    ensures Told(hub, a, f, env, Dispatch(hub, a, f, env), messages)
  {
    hide Say, NatText, PortReport, Sent, Unsendable, TellsPort;
    PortsTold(hub, hub.portOrder);
    var report := PortReport(hub, hub.portOrder);
    assert TellsPorts(hub, report);
    messages := [Message(Hello, ["1", hub.modelId, env.battery, report])];
    SayOne(a, Hello, ["1", hub.modelId, env.battery, report]);
  }

  lemma SensorTold(hub: Hub, a: Agent, f: Frame, env: Readings) returns (messages: seq<Message>)
    requires GoodArguments(f.op, f.args) && f.sequence < SEQUENCE_MODULUS && f.op == SensorRead
    ensures Told(hub, a, f, env, Dispatch(hub, a, f, env), messages)
  {
    hide Say, NatText, Sent, Unsendable;
    var o, value, number := Dispatch(hub, a, f, env), env.sensor(f.args[0], f.args[1]), NatText(f.sequence);
    if value.None? {
      messages := [Message(Error, [number, "BAD_PORT"])];
      ToldRefused(hub, a, f, env, o, "BAD_PORT");
    } else {
      var reading := [f.args[1], value.value];
      messages := [Message(Ack, [number]), Message(Telemetry, reading)];
      RepliesEncode(a, f.sequence, "BAD_FRAME");
      var ack := SayAck(a, f.sequence);
      SayOne(a, Ack, [number]);
      SayOne(ack.agent, Telemetry, reading);
      MoreSent(a.sequence, Message(Ack, [number]), [Message(Telemetry, reading)], ack.lines.value);
      assert messages == [Message(Ack, [number])] + [Message(Telemetry, reading)];
      assert Answers(hub, f, env, messages);
    }
  }

  /** More messages behind one that was sent. */
  lemma MoreSent(last: nat, first: Message, rest: seq<Message>, line: seq<string>)
    requires Sent(last, [first], line)
    ensures var next, all := (last + 1) % SEQUENCE_MODULUS, [first] + rest;
            && (forall lines :: Sent(next, rest, lines) ==> Sent(last, all, line + lines))
            && (Unsendable(next, rest) <==> Unsendable(last, all))
            && (next + |rest|) % SEQUENCE_MODULUS == (last + |all|) % SEQUENCE_MODULUS
  {
    hide Encode;
    var next, all := (last + 1) % SEQUENCE_MODULUS, [first] + rest;
    assert [first][0] == first && Encode(last + 1, first.op, first.args).Some?;
    forall k: nat | k < |rest|
      ensures Encode(next + k + 1, rest[k].op, rest[k].args) == Encode(last + k + 2, all[k + 1].op, all[k + 1].args)
    {
      NextNumber(last, k);
      EncodeModulo(next + k + 1, rest[k].op, rest[k].args);
      EncodeModulo(last + k + 2, rest[k].op, rest[k].args);
    }
    NextNumber(last, |rest| - 1);
    NumbersShift(last, next, all, rest);
  }

  lemma NextNumber(last: nat, k: int)
    ensures ((last + 1) % SEQUENCE_MODULUS + k + 1) % SEQUENCE_MODULUS == (last + k + 2) % SEQUENCE_MODULUS
  {
  }

  lemma NumbersShift(last: nat, next: nat, all: seq<Message>, rest: seq<Message>)
    requires all != [] && |all| == |rest| + 1 && Encode(last + 1, all[0].op, all[0].args).Some?
    requires forall k: nat :: k < |rest| ==>
               Encode(next + k + 1, rest[k].op, rest[k].args) == Encode(last + k + 2, all[k + 1].op, all[k + 1].args)
    ensures Unsendable(next, rest) <==> Unsendable(last, all)
  {
    hide Encode;
    if k :| 0 <= k < |rest| && Encode(next + k + 1, rest[k].op, rest[k].args).None? {
      assert Encode(last + (k + 1) + 1, all[k + 1].op, all[k + 1].args).None?;
    }
    if k :| 0 <= k < |all| && Encode(last + k + 1, all[k].op, all[k].args).None? {
      assert k > 0 && Encode(next + (k - 1) + 1, rest[k - 1].op, rest[k - 1].args).None?;
    }
  }

  lemma DispatchTold(hub: Hub, a: Agent, f: Frame, env: Readings) returns (messages: seq<Message>)
    requires GoodArguments(f.op, f.args) && f.sequence < SEQUENCE_MODULUS
    ensures Told(hub, a, f, env, Dispatch(hub, a, f, env), messages)
  {
    hide Told, GoodArguments, Dispatch;
    match f.op
    case Hello => messages := HelloTold(hub, a, f, env);
    case SensorRead => messages := SensorTold(hub, a, f, env);
    case SensorSubscribe => messages := NumbersTold(hub, a, f, env);
    case Sound => messages := NumbersTold(hub, a, f, env);
    case Drive => messages := BaseTold(hub, a, f, env);
    case DriveStraight => messages := BaseTold(hub, a, f, env);
    case Turn => messages := BaseTold(hub, a, f, env);
    case MotorRun => messages := MotorTold(hub, a, f, env);
    case MotorRunAngle => messages := MotorTold(hub, a, f, env);
    case MotorRunTarget => messages := MotorTold(hub, a, f, env);
    case Ack => messages := ForeignTold(hub, a, f, env);
    case Error => messages := ForeignTold(hub, a, f, env);
    case Telemetry => messages := ForeignTold(hub, a, f, env);
    case MotorStop => messages := StopTold(hub, a, f, env);
    case _ => messages := PlainTold(hub, a, f, env);
  }

  /**
   * Every line is answered by exactly the messages its frame asks for, under the next sequence numbers; when one of
   * them cannot be encoded a single refusal takes their place, behind the numbers they spent.
   */
  lemma AnsweredExactly(hub: Hub, a: Agent, line: Option<string>, now: int, env: Readings)
    returns (messages: seq<Message>)
    ensures match Decode(line)
            case Some(f) => Answers(hub, f, env, messages)
            case None => messages == [Message(Error, ["0", "BAD_FRAME"])] && !Unsendable(a.sequence, messages)
    ensures var lines := Handled(hub, a, line, now, env).lines;
            && lines.Some?
            && (!Unsendable(a.sequence, messages) ==> Sent(a.sequence, messages, lines.value))
            && (Unsendable(a.sequence, messages) && Decode(line).Some? ==>
                  Sent(a.sequence + |messages|,
                    [Message(Error, [NatText(Decode(line).value.sequence), "BAD_ARGUMENT"])], lines.value))
  {
    hide Decode, Dispatch, Say, Sent, Unsendable, Answers, GoodArguments;
    var frame := Decode(line);
    if frame.None? {
      messages := [Message(Error, ["0", "BAD_FRAME"])];
      assert NatText(0) == "0";
      RepliesEncode(a, 0, "BAD_FRAME");
      SayOne(a, Error, ["0", "BAD_FRAME"]);
    } else {
      var f, at := frame.value, a.(lastFrameAt := now);
      messages := DispatchTold(hub, at, f, env);
      var done := Dispatch(hub, at, f, env);
      if done.lines.None? {
        var refusal := [Message(Error, [NatText(f.sequence), "BAD_ARGUMENT"])];
        RepliesEncode(done.agent, f.sequence, "BAD_ARGUMENT");
        SayOne(done.agent, Error, [NatText(f.sequence), "BAD_ARGUMENT"]);
        SentModulo(done.agent.sequence, a.sequence + |messages|, refusal, SayError(done.agent, f.sequence,
          "BAD_ARGUMENT").lines.value);
      }
    }
  }

  lemma SentModulo(last: nat, other: nat, messages: seq<Message>, lines: seq<string>)
    requires Sent(last, messages, lines) && |messages| == 1
    ensures last == other % SEQUENCE_MODULUS ==> Sent(other, messages, lines)
  {
    hide Encode;
    EncodeModulo(last + 1, messages[0].op, messages[0].args);
    EncodeModulo(other + 1, messages[0].op, messages[0].args);
  }

  // ---------------------------------------------------------------- the poll

  /** A report is due and there is a reading for it. */
  predicate Reports(s: Subscription, now: int, env: Readings) {
    s.last + s.interval <= now && env.sensor(s.port, s.kind).Some?
  }

  /** The readings of exactly the subscriptions, from the i-th on, that report, in their order. */
  ghost predicate ReadingsOf(
    subscriptions: seq<Subscription>, i: nat, now: int, env: Readings, due: seq<nat>, messages: seq<Message>)
  {
    && |messages| == |due|
    && (forall j, k :: 0 <= j < k < |due| ==> due[j] < due[k])
    && (forall n :: n in due <==> i <= n < |subscriptions| && Reports(subscriptions[n], now, env))
    && (forall j :: 0 <= j < |due| && due[j] < |subscriptions| ==>
          var s := subscriptions[due[j]];
          env.sensor(s.port, s.kind).Some? &&
          messages[j] == Message(Telemetry, [s.kind, env.sensor(s.port, s.kind).value]))
  }

  lemma NoReadings(subscriptions: seq<Subscription>, now: int, env: Readings)
    ensures ReadingsOf(subscriptions, |subscriptions|, now, env, [], [])
  {
  }

  lemma SkipReading(subscriptions: seq<Subscription>, i: nat, now: int, env: Readings, due: seq<nat>,
      messages: seq<Message>)
    requires i < |subscriptions| && ReadingsOf(subscriptions, i + 1, now, env, due, messages)
    requires !Reports(subscriptions[i], now, env)
    ensures ReadingsOf(subscriptions, i, now, env, due, messages)
  {
    hide Reports;
  }

  lemma OneReading(subscriptions: seq<Subscription>, i: nat, now: int, env: Readings, due: seq<nat>,
      messages: seq<Message>)
    requires i < |subscriptions| && ReadingsOf(subscriptions, i + 1, now, env, due, messages)
    requires Reports(subscriptions[i], now, env)
    ensures var s := subscriptions[i];
            ReadingsOf(subscriptions, i, now, env, [i] + due,
              [Message(Telemetry, [s.kind, env.sensor(s.port, s.kind).value])] + messages)
  {
    var s, all := subscriptions[i], [i] + due;
    var first := Message(Telemetry, [s.kind, env.sensor(s.port, s.kind).value]);
    assert all[0] == i && ([first] + messages)[0] == first;
    forall j | 0 < j < |all| ensures i < all[j] && all[j] == due[j - 1] && ([first] + messages)[j] == messages[j - 1] {
      assert due[j - 1] in due;
    }
    forall n ensures n in all <==> i <= n < |subscriptions| && Reports(subscriptions[n], now, env) {
      assert n in all <==> n == i || n in due;
    }
  }

  /** From the i-th on, every subscription whose interval is over was marked as read now; the others stand. */
  ghost predicate Marked(before: seq<Subscription>, i: nat, now: int, after: seq<Subscription>) {
    && |after| == |before|
    && forall n :: 0 <= n < |before| ==>
      after[n] == if i <= n && before[n].last + before[n].interval <= now then before[n].(last := now) else before[n]
  }

  lemma {:induction false} ReportedExactly(a: Agent, i: nat, now: int, env: Readings)
    returns (due: seq<nat>, messages: seq<Message>)
    requires i <= |a.subscriptions|
    ensures ReadingsOf(a.subscriptions, i, now, env, due, messages)
    ensures var o := Reported(a, i, now, env);
            && (o.lines.None? <==> Unsendable(a.sequence, messages))
            && (o.lines.Some? ==>
                  Sent(a.sequence, messages, o.lines.value) && Marked(a.subscriptions, i, now, o.agent.subscriptions))
    decreases |a.subscriptions| - i
  {
    hide Say, Sent, Unsendable, ReadingsOf, Marked;
    if i == |a.subscriptions| {
      due, messages := [], [];
      NoReadings(a.subscriptions, now, env);
      NothingSent(a, i, now);
    } else {
      var s := a.subscriptions[i];
      var elapsed := s.last + s.interval <= now;
      var b := if elapsed then a.(subscriptions := a.subscriptions[i := s.(last := now)]) else a;
      var value := env.sensor(s.port, s.kind);
      var said := Say(b, Telemetry, [s.kind, if value.Some? then value.value else ""]);
      var speaks := elapsed && value.Some?;
      if speaks { SayOne(b, Telemetry, [s.kind, value.value]); }
      var next := if speaks then said.agent else b;
      due, messages := ReportedExactly(next, i + 1, now, env);
      ReadingsRest(a.subscriptions, next.subscriptions, i, now, env, due, messages);
      if speaks {
        OneReading(a.subscriptions, i, now, env, due, messages);
      } else {
        SkipReading(a.subscriptions, i, now, env, due, messages);
      }
      if Reported(next, i + 1, now, env).lines.Some? {
        MarkedRest(a.subscriptions, i, now, Reported(next, i + 1, now, env).agent.subscriptions);
      }
      if speaks {
        var first := Message(Telemetry, [s.kind, value.value]);
        if said.lines.Some? {
          MoreSent(a.sequence, first, messages, said.lines.value);
        } else {
          FirstUnsendable(a.sequence, first, messages);
        }
        due, messages := [i] + due, [first] + messages;
      }
    }
  }

  lemma NothingSent(a: Agent, i: nat, now: int)
    requires i == |a.subscriptions|
    ensures Sent(a.sequence, [], []) && !Unsendable(a.sequence, []) && Marked(a.subscriptions, i, now, a.subscriptions)
  {
  }

  lemma FirstUnsendable(last: nat, first: Message, rest: seq<Message>)
    requires Unsendable(last, [first])
    ensures Unsendable(last, [first] + rest)
  {
    hide Encode;
    var all := [first] + rest;
    assert all[0] == first && Encode(last + 0 + 1, all[0].op, all[0].args).None?;
  }

  lemma ReadingsRest(before: seq<Subscription>, after: seq<Subscription>, i: nat, now: int, env: Readings,
      due: seq<nat>, messages: seq<Message>)
    requires i < |before| == |after| && forall n :: i < n < |before| ==> before[n] == after[n]
    requires ReadingsOf(after, i + 1, now, env, due, messages)
    ensures ReadingsOf(before, i + 1, now, env, due, messages)
  {
    forall j | 0 <= j < |due| ensures i < due[j] < |before| { assert due[j] in due; }
  }

  lemma MarkedRest(before: seq<Subscription>, i: nat, now: int, after: seq<Subscription>)
    requires i < |before|
    requires var s := before[i];
             Marked(if s.last + s.interval <= now then before[i := s.(last := now)] else before, i + 1, now, after)
    ensures Marked(before, i, now, after)
  {
  }

  /** What a poll says before the readings: that the button was pressed, or else that the runtime went quiet. */
  function Notices(hub: Hub, a: Agent, now: int, env: Readings): seq<Message> {
    if env.button != "" then [Message(Telemetry, ["button", env.button])]
    else if a.motorsRunning && a.lastFrameAt + hub.watchdog < now then [Message(Error, ["0", "WATCHDOG"])]
    else []
  }

  /**
   * A poll stops everything exactly when the button is pressed or a flagged agent heard nothing for longer than the
   * watchdog's time; it says so and then reports exactly the subscriptions that are due, in order, and marks them. It
   * raises exactly when one of these messages cannot be encoded.
   */
  lemma PolledExactly(hub: Hub, a: Agent, now: int, env: Readings) returns (due: seq<nat>, readings: seq<Message>)
    ensures ReadingsOf(a.subscriptions, 0, now, env, due, readings)
    ensures var o, messages := Polled(hub, a, now, env), Notices(hub, a, now, env) + readings;
            && (o.lines.None? <==> Unsendable(a.sequence, messages))
            && (o.lines.Some? ==>
                  Sent(a.sequence, messages, o.lines.value) && Marked(a.subscriptions, 0, now, o.agent.subscriptions))
    ensures var b := Polled(hub, a, now, env).agent;
            && b.calls == a.calls + (if Notices(hub, a, now, env) == [] then [] else [StopEverything])
            && (b.motorsRunning <==> a.motorsRunning && Notices(hub, a, now, env) == [])
            && b.lastFrameAt == a.lastFrameAt
  {
    hide Say, Sent, Unsendable, ReadingsOf, Marked, Reported;
    var notices, stopped := Notices(hub, a, now, env), Stopped(a);
    var none: seq<string> := [];
    assert NatText(0) == "0" && none + none == none;
    if notices == [] {
      due, readings := ReportedExactly(a, 0, now, env);
      ReportKeeps(a, 0, now, env);
      assert notices + readings == readings;
      PrefixedNone(Reported(a, 0, now, env));
    } else {
      SayOne(stopped, notices[0].op, notices[0].args);
      var said := Say(stopped, notices[0].op, notices[0].args);
      assert notices == [notices[0]];
      due, readings := ReportedExactly(said.agent, 0, now, env);
      ReportKeeps(said.agent, 0, now, env);
      if said.lines.Some? {
        MoreSent(a.sequence, notices[0], readings, said.lines.value);
        assert said.lines.value + none == said.lines.value && none + said.lines.value == said.lines.value;
      } else {
        FirstUnsendable(a.sequence, notices[0], readings);
      }
    }
  }

  lemma PrefixedNone(o: Outcome)
    ensures Prefixed([], o) == o
  {
    if o.lines.Some? { assert [] + o.lines.value == o.lines.value; }
  }
}
