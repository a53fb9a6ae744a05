/** Compiling preserves meaning: running the generated module leaves the trace the blocks stand for. */
module Correct {
  import opened Wrappers
  import opened Text
  import opened Values
  import opened Catalog
  import opened Python
  import opened Generate
  import opened Structure
  import opened Literals
  import opened Meaning

  // ---------------------------------------------------------------- the environment a body runs in

  const SDK_NAMES: set<string> := {"every", "log", "parallel", "sleep", "when"}

  /** Every alias is bound to its device, and the SDK names in use are what was imported. */
  ghost predicate Ready(env: Env, bindings: seq<Binding>, used: set<string>) {
    && (forall b :: b in bindings ==>
          AliasIdentifier(b.alias) in env && env[AliasIdentifier(b.alias)] == DeviceObject(b.deviceId))
    && (forall n :: n in used ==> IsSdk(env, n))
    && used <= SDK_NAMES
    && IsSdk(env, "range")
    && (forall b :: b in bindings ==> AliasIdentifier(b.alias) != "_")
  }

  lemma ReadyInLoop(env: Env, bindings: seq<Binding>, used: set<string>)
    requires Ready(env, bindings, used)
    ensures Ready(env["_" := LoopIndex], bindings, used)
  {
    assert "_" !in SDK_NAMES by { assert forall n :: n in SDK_NAMES ==> |n| > 1; }
    assert "range" != "_" by { assert |"range"| != |"_"|; }
  }

  // ---------------------------------------------------------------- devices

  lemma {:induction false} DeviceWithAliasBound(alias: string, bindings: seq<Binding>)
    ensures var r := DeviceWithAlias(alias, bindings);
            if r.Some? then Binding(alias, r.value) in bindings else forall b :: b in bindings ==> b.alias != alias
  {
    if bindings != [] { DeviceWithAliasBound(alias, bindings[1..]); }
  }

  lemma {:induction false} AliasByDeviceIdBound(deviceId: string, bindings: seq<Binding>)
    requires HasDeviceId(deviceId, bindings)
    ensures Binding(AliasByDeviceId(deviceId, bindings), deviceId) in bindings
  {
    if bindings[0].deviceId != deviceId {
      var i :| 0 <= i < |bindings| && bindings[i].deviceId == deviceId;
      assert bindings[1..][i - 1].deviceId == deviceId;
      AliasByDeviceIdBound(deviceId, bindings[1..]);
    } else {
      assert bindings[0] in bindings;
    }
  }

  lemma {:induction false} AliasByDeviceIdUnbound(deviceId: string, bindings: seq<Binding>)
    requires !HasDeviceId(deviceId, bindings)
    ensures AliasByDeviceId(deviceId, bindings) == deviceId
  {
    if bindings != [] {
      assert forall i :: 0 <= i < |bindings[1..]| ==> bindings[1..][i] == bindings[i + 1];
      AliasByDeviceIdUnbound(deviceId, bindings[1..]);
    }
  }

  /** A device resolves exactly when the block names one, and the emitted target is bound to that device. */
  lemma TargetIsDevice(b: Block, bindings: seq<Binding>)
    ensures ResolvedAlias(b, bindings).Some? <==> DeviceOf(b, bindings).Some?
    ensures ResolvedAlias(b, bindings).Some? ==>
              Binding(ResolvedAlias(b, bindings).value, DeviceOf(b, bindings).value) in bindings
  {
    var requested := FieldOf(b, Device);
    if requested.Str? && requested.text != "" {
      var name := requested.text;
      DeviceWithAliasBound(name, bindings);
      if HasDeviceId(name, bindings) {
        AliasByDeviceIdBound(name, bindings);
        var i :| 0 <= i < |bindings| && bindings[i].deviceId == name;
        assert IsKnown(name, bindings);
      } else {
        AliasByDeviceIdUnbound(name, bindings);
        if DeviceWithAlias(name, bindings).Some? {
          var i :| 0 <= i < |bindings| && bindings[i] == Binding(name, DeviceWithAlias(name, bindings).value);
          assert bindings[i].alias == name;
        } else {
          forall i | 0 <= i < |bindings| ensures bindings[i].alias != name && bindings[i].deviceId != name {
            assert bindings[i] in bindings;
          }
        }
      }
    }
  }

  // ---------------------------------------------------------------- calls

  lemma DecodeArgsStep(a: Arg, rest: seq<Arg>)
    requires Decode(a.literal).Some? && DecodeArgs(rest).Some?
    ensures DecodeArgs([a] + rest) == Some([(a.name, Decode(a.literal).value)] + DecodeArgs(rest).value)
  {
    assert ([a] + rest)[1..] == rest;
  }

  lemma DecodeArgs1(a: Arg)
    requires Decode(a.literal).Some?
    ensures DecodeArgs([a]) == Some([(a.name, Decode(a.literal).value)])
  {
    DecodeArgsStep(a, []);
    assert [a] + [] == [a];
    var first := (a.name, Decode(a.literal).value);
    assert [first] + [] == [first];
  }

  lemma DecodeArgs2(a: Arg, b: Arg)
    requires Decode(a.literal).Some? && Decode(b.literal).Some?
    ensures DecodeArgs([a, b]) == Some([(a.name, Decode(a.literal).value), (b.name, Decode(b.literal).value)])
  {
    DecodeArgs1(b);
    DecodeArgsStep(a, [b]);
    assert [a] + [b] == [a, b];
    var first, second := (a.name, Decode(a.literal).value), (b.name, Decode(b.literal).value);
    assert [first] + [second] == [first, second];
  }

  lemma DecodeArgs3(a: Arg, b: Arg, c: Arg)
    requires Decode(a.literal).Some? && Decode(b.literal).Some? && Decode(c.literal).Some?
    ensures DecodeArgs([a, b, c]) ==
            Some([(a.name, Decode(a.literal).value), (b.name, Decode(b.literal).value),
              (c.name, Decode(c.literal).value)])
  {
    DecodeArgs2(b, c);
    DecodeArgsStep(a, [b, c]);
    assert [a] + [b, c] == [a, b, c];
    var first, second, third :=
      (a.name, Decode(a.literal).value), (b.name, Decode(b.literal).value), (c.name, Decode(c.literal).value);
    assert [first] + [second, third] == [first, second, third];
  }

  lemma {:induction false} DefaultFound(spec: BlockSpec, name: FieldName, i: nat)
    requires i < |spec.fields| && spec.fields[i].name == name && spec.fields[i].default.Number?
    requires forall j :: 0 <= j < i ==> spec.fields[j].name != name
    ensures DefaultOf(spec, name) == spec.fields[i].default.num
    decreases i
  {
    if i > 0 {
      var rest := spec.(fields := spec.fields[1..]);
      assert forall j :: 0 <= j < |rest.fields| ==> rest.fields[j] == spec.fields[j + 1];
      DefaultFound(rest, name, i - 1);
      assert FindField(spec.fields, name) == FindField(rest.fields, name);
    }
  }

  /** The catalogue's defaults are the usual numbers. */
  lemma DefaultMeant(t: BlockType, name: FieldName, i: nat, usual: Num)
    requires BlockSpecOf(t).Some? && i < |BlockSpecOf(t).value.fields| <= 4
    requires var fields := BlockSpecOf(t).value.fields;
             fields[i].name == name && fields[i].default == Number(usual) &&
             forall j :: 0 <= j < i ==> fields[j].name != name
    ensures DefaultOf(BlockSpecOf(t).value, name) == usual
  {
    DefaultFound(BlockSpecOf(t).value, name, i);
  }

  lemma NumArgDecodes(b: Block, key: string, name: FieldName, usual: Num)
    requires BlockSpecOf(b.typ).Some? && DefaultOf(BlockSpecOf(b.typ).value, name) == usual
    ensures var a := NumArg(b, BlockSpecOf(b.typ).value, key, name);
            Decode(a.literal).Some? && (a.name, Decode(a.literal).value) == NumData(b, key, name, usual)
  {
    PythonNumberDecodes(FieldOf(b, name), DefaultOf(BlockSpecOf(b.typ).value, name));
  }

  lemma PortArgDecodes(b: Block)
    requires Clean(FieldOf(b, Port))
    ensures Decode(PortArg(b).literal).Some? && (PortArg(b).name, Decode(PortArg(b).literal).value) == PortData(b)
  {
    PythonStringDecodes(OrElse(FieldOf(b, Port), Plain("A")));
  }

  lemma CaptionArgDecodes(b: Block)
    requires Clean(FieldOf(b, Caption))
    ensures DecodeArgs([CaptionArg(b)]) == Some([CaptionData(b)])
  {
    PythonStringDecodes(FieldOf(b, Caption));
    DecodeArgs1(CaptionArg(b));
  }

  lemma TwoNumArgs(b: Block, k1: string, f1: FieldName, u1: Num, k2: string, f2: FieldName, u2: Num)
    requires BlockSpecOf(b.typ).Some?
    requires DefaultOf(BlockSpecOf(b.typ).value, f1) == u1 && DefaultOf(BlockSpecOf(b.typ).value, f2) == u2
    ensures var spec := BlockSpecOf(b.typ).value;
            DecodeArgs([NumArg(b, spec, k1, f1), NumArg(b, spec, k2, f2)]) ==
              Some([NumData(b, k1, f1, u1), NumData(b, k2, f2, u2)])
  {
    hide DefaultOf;
    var spec := BlockSpecOf(b.typ).value;
    NumArgDecodes(b, k1, f1, u1);
    NumArgDecodes(b, k2, f2, u2);
    DecodeArgs2(NumArg(b, spec, k1, f1), NumArg(b, spec, k2, f2));
  }

  lemma PortAndTwoNumArgs(b: Block, k1: string, f1: FieldName, u1: Num, k2: string, f2: FieldName, u2: Num)
    requires BlockSpecOf(b.typ).Some? && Clean(FieldOf(b, Port))
    requires DefaultOf(BlockSpecOf(b.typ).value, f1) == u1 && DefaultOf(BlockSpecOf(b.typ).value, f2) == u2
    ensures var spec := BlockSpecOf(b.typ).value;
            DecodeArgs([PortArg(b), NumArg(b, spec, k1, f1), NumArg(b, spec, k2, f2)]) ==
            Some([PortData(b), NumData(b, k1, f1, u1), NumData(b, k2, f2, u2)])
  {
    hide DefaultOf;
    var spec := BlockSpecOf(b.typ).value;
    PortArgDecodes(b);
    NumArgDecodes(b, k1, f1, u1);
    NumArgDecodes(b, k2, f2, u2);
    DecodeArgs3(PortArg(b), NumArg(b, spec, k1, f1), NumArg(b, spec, k2, f2));
  }

  lemma MotorArgsDecode(b: Block)
    requires (b.typ.MotorRun? || b.typ.MotorAngle?) && CleanTexts(b)
    ensures DecodeArgs(DeviceArgs(b, BlockSpecOf(b.typ).value)) == Some(DeviceData(b))
  {
    hide DefaultOf, NumArg, NumData, PortArg, PortData, FieldOf;
    var t := b.typ;
    if t.MotorRun? {
      DefaultMeant(t, Speed, 2, STEADY);
      DefaultMeant(t, DurationSeconds, 3, ONE);
      PortAndTwoNumArgs(b, "speed", Speed, STEADY, "durationSeconds", DurationSeconds, ONE);
    } else {
      DefaultMeant(t, Angle, 2, QUARTER);
      DefaultMeant(t, Speed, 3, STEADY);
      PortAndTwoNumArgs(b, "angle", Angle, QUARTER, "speed", Speed, STEADY);
    }
  }

  lemma DeviceArgsDecode(b: Block)
    requires IsDeviceCall(b.typ) && CleanTexts(b)
    ensures DecodeArgs(DeviceArgs(b, BlockSpecOf(b.typ).value)) == Some(DeviceData(b))
  {
    hide DefaultOf, NumArg, NumData, PortArg, PortData, CaptionArg, CaptionData, FieldOf;
    var t := b.typ;
    match t
    case DriveVelocity =>
      DefaultMeant(t, Speed, 1, SLOW);
      DefaultMeant(t, DurationSeconds, 2, ONE);
      TwoNumArgs(b, "speed", Speed, SLOW, "durationSeconds", DurationSeconds, ONE);
    case Stop =>
    case MotorRun => MotorArgsDecode(b);
    case MotorAngle => MotorArgsDecode(b);
    case DriveStraight =>
      DefaultMeant(t, DistanceMillimetres, 1, Num(200, 0));
      DefaultMeant(t, Speed, 2, STEADY);
      TwoNumArgs(b, "distanceMillimetres", DistanceMillimetres, Num(200, 0), "speed", Speed, STEADY);
    case DriveTurn =>
      DefaultMeant(t, Angle, 1, QUARTER);
      DefaultMeant(t, Speed, 2, STEADY);
      TwoNumArgs(b, "angle", Angle, QUARTER, "speed", Speed, STEADY);
    case HubDisplay => CaptionArgDecodes(b);
    case Gimbal =>
      DefaultMeant(t, Pitch, 1, ZERO);
      DefaultMeant(t, Yaw, 2, ZERO);
      TwoNumArgs(b, "pitch", Pitch, ZERO, "yaw", Yaw, ZERO);
    case HudShow => CaptionArgDecodes(b);
  }

  /** A wait, message or device block, as a statement or inside `parallel`, has the effect it stands for. */
  lemma ActionCorrect(b: Block, bindings: seq<Binding>, env: Env, used: set<string>)
    requires CompilableAction(b, bindings) && Ready(env, bindings, used) && ItemOut(b, bindings).used <= used
    ensures ActionOf(b, bindings).Some?
    ensures CallEffect(ItemCall(b, bindings), env) == ActionOf(b, bindings)
  {
    hide PythonString, PythonNumber, DeviceArgs, DeviceData, AliasIdentifier, DevicePath, Resolve, DeviceOf, DefaultOf,
         Deed;
    var spec := BlockSpecOf(b.typ).value;
    if b.typ.Wait? {
      assert "sleep" in ItemOut(b, bindings).used;
      DefaultMeant(b.typ, Seconds, 0, ONE);
      PythonNumberDecodes(FieldOf(b, Seconds), DefaultOf(spec, Seconds));
    } else if b.typ.Log? {
      assert "log" in ItemOut(b, bindings).used;
      PythonStringDecodes(FieldOf(b, Message));
    } else {
      TargetIsDevice(b, bindings);
      DeviceArgsDecode(b);
      assert DevicePath(b.typ) == Deed(b.typ) by { DeedsMeant(b.typ); }
    }
  }

  lemma DeedsMeant(t: BlockType)
    requires IsDeviceCall(t)
    ensures DevicePath(t) == Deed(t)
  {
  }

  lemma {:induction false} ItemsCorrect(children: seq<Block>, depth: nat, bindings: seq<Binding>, env: Env,
      used: set<string>)
    requires CompilableItems(children, bindings) && Ready(env, bindings, used)
    requires ItemsOut(children, depth, bindings).used <= used
    ensures CallEffects(ItemCalls(children, bindings), env) == Some(ActionsOf(children, bindings))
  {
    hide ItemCall, ItemOut, ActionOf, CallEffect;
    if children != [] {
      assert forall i :: 0 <= i < |children[1..]| ==> children[1..][i] == children[i + 1];
      ItemsCorrect(children[1..], depth, bindings, env, used);
      if !children[0].disabled {
        assert ItemOut(children[0], bindings).used <= ItemsOut(children, depth, bindings).used;
        ActionCorrect(children[0], bindings, env, used);
        var calls := ItemCalls(children, bindings);
        assert calls[1..] == ItemCalls(children[1..], bindings);
      }
    }
  }

  // ---------------------------------------------------------------- statements

  lemma {:induction false} RunAppend(a: seq<Node>, b: seq<Node>, env: Env, oracle: Oracle, t: Trace)
    ensures RunNodes(a + b, env, oracle, t) ==
            if RunNodes(a, env, oracle, t).None? then None
               else RunNodes(b, env, oracle, RunNodes(a, env, oracle, t).value)
  {
    if a == [] {
      assert a + b == b;
    } else {
      assert (a + b)[1..] == a[1..] + b;
      var first := RunNode(a[0], env, oracle, t);
      if first.Some? { RunAppend(a[1..], b, env, oracle, first.value); }
    }
  }

  lemma RunOne(node: Node, env: Env, oracle: Oracle, t: Trace)
    ensures RunNodes([node], env, oracle, t) == RunNode(node, env, oracle, t)
  {
    var first := RunNode(node, env, oracle, t);
    assert [node][1..] == [];
    if first.Some? { assert RunNodes([], env, oracle, first.value) == first; }
  }

  lemma {:induction false} ChildrenCorrect(
    children: seq<Block>, depth: nat, bindings: seq<Binding>, env: Env, used: set<string>, oracle: Oracle, t: Trace)
    requires CompilableChildren(children, bindings) && Ready(env, bindings, used)
    requires ChildrenOut(children, depth, bindings).used <= used
    ensures RunNodes(TranslateChildren(children, bindings), env, oracle, t) ==
            Some(Perform(children, bindings, oracle, t))
    decreases children, 0
  {
    hide StatementOut, Translate, PerformBlock, Compilable;
    if children != [] {
      if children[0].disabled {
        ChildrenCorrect(children[1..], depth, bindings, env, used, oracle, t);
      } else {
        var next := PerformBlock(children[0], bindings, oracle, t);
        StatementCorrect(children[0], depth, bindings, env, used, oracle, t);
        ChildrenCorrect(children[1..], depth, bindings, env, used, oracle, next);
        RunAppend(Translate(children[0], bindings), TranslateChildren(children[1..], bindings), env, oracle, t);
      }
    }
  }

  lemma {:induction false} BodyCorrect(
    children: seq<Block>, depth: nat, bindings: seq<Binding>, env: Env, used: set<string>, oracle: Oracle, t: Trace)
    requires CompilableChildren(children, bindings) && Ready(env, bindings, used)
    requires BodyOut(children, depth, bindings).used <= used
    ensures RunNodes(TranslateBody(children, bindings), env, oracle, t) == Some(Perform(children, bindings, oracle, t))
    decreases children, 1
  {
    ChildrenCorrect(children, depth, bindings, env, used, oracle, t);
    if TranslateChildren(children, bindings) == [] { RunOne(PassNode, env, oracle, t); }
  }

  lemma {:induction false} RoundsCorrect(
    children: seq<Block>, depth: nat, bindings: seq<Binding>, env: Env, used: set<string>, oracle: Oracle, t: Trace,
      rounds: nat)
    requires CompilableChildren(children, bindings) && Ready(env, bindings, used)
    requires BodyOut(children, depth, bindings).used <= used
    ensures RunRounds(TranslateBody(children, bindings), env, oracle, t, rounds) ==
            Some(PerformRounds(children, bindings, oracle, t, rounds))
    decreases children, 2, rounds
  {
    if rounds > 0 {
      BodyCorrect(children, depth, bindings, env, used, oracle, t);
      RoundsCorrect(children, depth, bindings, env, used, oracle, Perform(children, bindings, oracle, t), rounds - 1);
    }
  }

  /** One block: its Python statements leave the trace it stands for, for every sensor oracle. */
  lemma {:induction false} StatementCorrect(
    b: Block, depth: nat, bindings: seq<Binding>, env: Env, used: set<string>, oracle: Oracle, t: Trace)
    requires Compilable(b, bindings) && Ready(env, bindings, used)
    requires StatementOut(b, depth, bindings).used <= used
    ensures RunNodes(Translate(b, bindings), env, oracle, t) == Some(PerformBlock(b, bindings, oracle, t))
    decreases b, 1
  {
    hide PythonNumber, ItemCall, Ready, Decode, ReadNum, DeviceArgs, DeviceData, AliasIdentifier, DeviceOf,
         CompilableAction, PerformRounds, TranslateBody, BodyOut, RunRounds, CompilableItems, CommentOut, ItemsOut,
           Resolve;
    if BlockSpecOf(b.typ).None? { return; }
    var spec := BlockSpecOf(b.typ).value;
    assert OwnOut(b, depth, bindings, spec).used <= StatementOut(b, depth, bindings).used;
    if IsAction(b.typ) {
      ActionStatement(b, depth, bindings, env, used, oracle, t);
    } else if b.typ.Repeat? {
      RepeatCorrect(b, depth, bindings, env, used, oracle, t);
    } else if b.typ.If? {
      var origin := Some(Origin(b.id, b.typ, OwnAlias(b, spec, bindings)));
      IfCorrect(b, depth, bindings, origin, env, used, oracle, t);
    } else if b.typ.Parallel? {
      var origin := Some(Origin(b.id, b.typ, OwnAlias(b, spec, bindings)));
      ParallelCorrect(b, depth, bindings, origin, env, used, oracle, t);
    } else {
      DeviceFieldsDeclared(b.typ);
    }
  }

  lemma {:induction false} RepeatCorrect(
    b: Block, depth: nat, bindings: seq<Binding>, env: Env, used: set<string>, oracle: Oracle, t: Trace)
    requires b.typ.Repeat? && Compilable(b, bindings) && Ready(env, bindings, used)
    requires BodyOut(b.children, depth + 1, bindings).used <= used
    ensures RunNodes(Translate(b, bindings), env, oracle, t) == Some(PerformBlock(b, bindings, oracle, t))
    decreases b, 0
  {
    hide PythonNumber, Decode, TranslateBody, BodyOut, PerformRounds, CompilableChildren, RunRounds, RunNodes, ReadNum;
    DefaultMeant(Repeat, Times, 0, Num(4, 0));
    PythonNumberDecodes(FieldOf(b, Times), DefaultOf(BlockSpecOf(Repeat).value, Times));
    RangeIsSdk(env, bindings, used);
    ReadyInLoop(env, bindings, used);
    RoundsCorrect(b.children, depth + 1, bindings, env["_" := LoopIndex], used, oracle, t, RoundsOf(b));
    RunOne(Translate(b, bindings)[0], env, oracle, t);
  }

  lemma RangeIsSdk(env: Env, bindings: seq<Binding>, used: set<string>)
    requires Ready(env, bindings, used)
    ensures IsSdk(env, "range")
  {
  }

  lemma ItemUsesLess(b: Block, depth: nat, bindings: seq<Binding>)
    requires CompilableAction(b, bindings)
    ensures ItemOut(b, bindings).used <= OwnOut(b, depth, bindings, BlockSpecOf(b.typ).value).used
  {
    hide PythonString, PythonNumber, DeviceArgs, AliasIdentifier, DevicePath, Resolve, DeviceOf, DefaultOf, Deed;
  }

  lemma ActionNode(b: Block, bindings: seq<Binding>)
    requires CompilableAction(b, bindings)
    ensures Translate(b, bindings) == [AwaitNode(ItemCall(b, bindings))]
  {
    hide PythonString, PythonNumber, DeviceArgs, AliasIdentifier, DevicePath, Resolve, DeviceOf, DefaultOf, Deed;
    if IsDeviceCall(b.typ) { TargetIsDevice(b, bindings); }
  }

  lemma ActionStatement(
    b: Block, depth: nat, bindings: seq<Binding>, env: Env, used: set<string>, oracle: Oracle, t: Trace)
    requires CompilableAction(b, bindings) && Ready(env, bindings, used)
    requires OwnOut(b, depth, bindings, BlockSpecOf(b.typ).value).used <= used
    ensures RunNodes(Translate(b, bindings), env, oracle, t) == Some(PerformBlock(b, bindings, oracle, t))
  {
    hide ItemCall, ItemOut, OwnOut, Translate, DeviceData;
    ItemUsesLess(b, depth, bindings);
    ActionNode(b, bindings);
    ActionCorrect(b, bindings, env, used);
    RunOne(AwaitNode(ItemCall(b, bindings)), env, oracle, t);
  }

  lemma {:induction false} IfCorrect(
    b: Block, depth: nat, bindings: seq<Binding>, origin: Option<Origin>, env: Env, used: set<string>, oracle: Oracle,
      t: Trace)
    requires b.typ.If? && Compilable(b, bindings) && Ready(env, bindings, used)
    requires IfOut(b.children, depth, bindings, origin).used <= used
    ensures RunNodes(Translate(b, bindings), env, oracle, t) == Some(PerformBlock(b, bindings, oracle, t))
    decreases b, 0
  {
    hide ExpressionOf, SensorTrue, Ready, BodyOut, ExpressionOut, DeviceOf, DeviceArgs, Holds, ItemCall;
    if b.children == [] {
      EmptyBody(bindings);
      TrueHolds(env, oracle, t);
      RunOne(IfNode(TrueLiteral, [PassNode]), env, oracle, t);
      RunOne(PassNode, env, oracle, t);
    } else {
      var condition, rest := b.children[0], b.children[1..];
      ConditionCorrect(condition, bindings, env, used, oracle, t);
      assert BodyOut(rest, depth + 1, bindings).used <= IfOut(b.children, depth, bindings, origin).used;
      BodyCorrect(rest, depth + 1, bindings, env, used, oracle, t);
      RunOne(IfNode(ExpressionOf(condition, bindings), TranslateBody(rest, bindings)), env, oracle, t);
    }
  }

  lemma TrueHolds(env: Env, oracle: Oracle, t: Trace)
    ensures Holds(TrueLiteral, env, oracle, t) == Some(true)
  {
  }

  lemma ConditionCorrect(condition: Block, bindings: seq<Binding>, env: Env, used: set<string>, oracle: Oracle,
      t: Trace)
    requires IsReporter(condition.typ) && DeviceOf(condition, bindings).Some? && Ready(env, bindings, used)
    ensures Holds(ExpressionOf(condition, bindings), env, oracle, t) == Some(SensorTrue(condition, bindings, oracle, t))
  {
    TargetIsDevice(condition, bindings);
    SensorLiteral(condition.typ);
  }

  predicate PlainChar(c: char) { IsIdentChar(c) || c == '.' }

  lemma SensorNamePlain(t: BlockType)
    requires IsReporter(t)
    ensures forall i :: 0 <= i < |SensorName(t)| ==> PlainChar(SensorName(t)[i])
  {
    match t
    case ReadDistance =>
    case ReadColor =>
    case ReadForce =>
  }

  lemma SensorLiteral(t: BlockType)
    requires IsReporter(t)
    ensures Decode("\"" + SensorName(t) + "\"") == Some(StrDatum(SensorName(t)))
  {
    SensorNamePlain(t);
    PlainLiteral(SensorName(t));
  }

  lemma PlainLiteral(name: string)
    requires forall i :: 0 <= i < |name| ==> PlainChar(name[i])
    ensures Decode("\"" + name + "\"") == Some(StrDatum(name))
  {
    PlainEscape(name);
    DecodeEscaped(name);
    assert ("\"" + name + "\"")[1..] == name + "\"";
  }

  lemma {:induction false} PlainEscape(s: string)
    requires forall i :: 0 <= i < |s| ==> PlainChar(s[i])
    ensures EscapeOnce(s) == s
  {
    if s != "" {
      PlainEscape(s[1..]);
      assert s == [s[0]] + s[1..];
    }
  }

  lemma ParallelCorrect(
    b: Block, depth: nat, bindings: seq<Binding>, origin: Option<Origin>, env: Env, used: set<string>, oracle: Oracle,
      t: Trace)
    requires b.typ.Parallel? && Compilable(b, bindings) && Ready(env, bindings, used)
    requires ParallelOut(b.children, depth, bindings, origin).used <= used
    ensures RunNodes(Translate(b, bindings), env, oracle, t) == Some(PerformBlock(b, bindings, oracle, t))
  {
    RunOne(Translate(b, bindings)[0], env, oracle, t);
    var out := ParallelOut(b.children, depth, bindings, origin);
    assert "parallel" in out.used;
    if AnyEnabled(b.children) {
      assert ItemsOut(b.children, depth + 1, bindings).used <= out.used;
      ItemsCorrect(b.children, depth + 1, bindings, env, used);
    }
  }
}
