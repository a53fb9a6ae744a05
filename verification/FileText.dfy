/**
 * The text of the generated file: no line holds a line feed, so splitting gives the emitter's lines back, and reading
 * the characters the way Python ends its lines gives the statements back, exactly when no comment and no literal is cut
 * by a carriage return. With the compiler theorem this goes from file text to meaning.
 */
module FileText {
  import opened Wrappers
  import opened Text
  import opened Values
  import opened Catalog
  import opened Python
  import opened PythonText
  import opened PythonReader
  import opened Generate
  import opened Structure
  import opened Literals
  import opened Meaning
  import opened Correct
  import opened Program
  import opened PythonLines
  import opened LineEnds

  // ---------------------------------------------------------------- the tokens of emitted statements

  predicate Token(literal: string) { IsLiteral(literal) && Guarded(literal, false) }

  predicate TargetOf(name: string, bindings: seq<Binding>) {
    exists b :: b in bindings && name == AliasIdentifier(b.alias)
  }

  predicate EmittedCall(call: Call, bindings: seq<Binding>) {
    match call
    case NoneCall => true
    case Sleep(seconds) => Token(seconds)
    case LogCall(message) => Token(message)
    case OnDevice(target, path, args) =>
      TargetOf(target, bindings) && (forall i :: 0 <= i < |path| ==> IsPathChar(path[i])) &&
      (forall i :: 0 <= i < |args| ==> IsName(args[i].name) && Token(args[i].literal))
  }

  ghost predicate TimerName(name: string, suited: bool) {
    exists n: Num :: name == EveryName(NumText(n)) && (suited ==> n.mantissa >= 0)
  }

  /** The statements the generator emits; `suited` says no timer has a negative period. */
  ghost predicate EmittedStmt(stmt: Stmt, bindings: seq<Binding>, suited: bool) {
    match stmt
    case Comment(text) => '\n' !in text
    case Import(names) => names != [] && forall n :: n in names ==> n in IMPORT_ORDER
    case Assign(name, literal) => TargetOf(name, bindings) && Token(literal)
    case MarkLine(mark) =>
      if mark.EveryMark? then Token(mark.seconds)
      else (TargetOf(mark.source, bindings) || mark.source == "leap") && Token(mark.gesture)
    case AsyncDef(name) => name == "main" || name == "on_gesture" || TimerName(name, suited)
    case ForRange(times) => Token(times)
    case IfHeader(cond) =>
      cond.Reading? ==> (TargetOf(cond.target, bindings) || cond.target == UNRESOLVED_TARGET) && Token(cond.sensor)
    case ParallelItem(call) => EmittedCall(call, bindings)
    case Await(call) => EmittedCall(call, bindings)
    case _ => true
  }

  ghost predicate Emitted(lines: seq<Line>, bindings: seq<Binding>, suited: bool) {
    forall i :: 0 <= i < |lines| ==>
      EmittedStmt(lines[i].stmt, bindings, suited) && (lines[i].stmt.Blank? ==> lines[i].depth == 0)
  }

  lemma EmittedAppend(a: seq<Line>, b: seq<Line>, bindings: seq<Binding>, suited: bool)
    requires Emitted(a, bindings, suited) && Emitted(b, bindings, suited)
    ensures Emitted(a + b, bindings, suited)
  {
    hide EmittedStmt;
  }

  // ---------------------------------------------------------------- literals are tokens

  lemma {:induction false} NumLengthAll(s: string)
    requires forall i :: 0 <= i < |s| ==> IsNumChar(s[i])
    ensures NumLength(s) == |s|
  {
    if s != "" { NumLengthAll(s[1..]); }
  }

  lemma NumTextToken(n: Num)
    ensures Token(NumText(n))
  {
    ReadNumText(n);
    NumLengthAll(NumText(n));
    assert IsNumChar(NumText(n)[0]);
    UnquotedGuarded(NumText(n));
  }

  lemma NumberToken(v: Value, fallback: Num)
    ensures Token(PythonNumber(v, fallback))
  {
    NumTextToken(NumberOf(v, fallback));
  }

  lemma {:induction false} EscapedEnd(s: string)
    ensures StringEnd(EscapeOnce(s) + "\"") == Some(|EscapeOnce(s)| + 1)
  {
    if s == "" {
      assert EscapeOnce(s) + "\"" == "\"";
    } else {
      var c, rest := s[0], EscapeOnce(s[1..]) + "\"";
      EscapedEnd(s[1..]);
      assert EscapeOnce(s) + "\"" == EscapeChar(c) + rest;
      if c == '\\' || c == '"' || c == '\n' {
        assert (EscapeChar(c) + rest)[2..] == rest;
      } else {
        assert ([c] + rest)[1..] == rest;
      }
    }
  }

  lemma {:induction false} EscapedGuarded(s: string)
    ensures Guarded(EscapeOnce(s) + "\"", true)
  {
    if s == "" {
      assert EscapeOnce(s) + "\"" == "\"";
    } else {
      var c, rest := s[0], EscapeOnce(s[1..]) + "\"";
      EscapedGuarded(s[1..]);
      assert EscapeOnce(s) + "\"" == EscapeChar(c) + rest;
      if c == '\\' || c == '"' || c == '\n' {
        assert (EscapeChar(c) + rest)[2..] == rest;
      } else {
        assert ([c] + rest)[1..] == rest;
      }
    }
  }

  lemma StringToken(v: Value)
    ensures Token(PythonString(v))
  {
    hide EscapeOnce, ReplaceAll;
    ThreePassesEscapeOnce(TextOf(v));
    EscapedEnd(TextOf(v));
    EscapedGuarded(TextOf(v));
    assert PythonString(v) == "\"" + ThreePasses(TextOf(v)) + "\"";
    assert PythonString(v)[1..] == ThreePasses(TextOf(v)) + "\"";
  }

  // ---------------------------------------------------------------- everything emitted is emittable

  lemma TargetEmitted(b: Block, bindings: seq<Binding>)
    ensures Target(ResolvedAlias(b, bindings)).Some? ==> TargetOf(Target(ResolvedAlias(b, bindings)).value, bindings)
  {
    hide AliasIdentifier;
    TargetIsDevice(b, bindings);
    if ResolvedAlias(b, bindings).Some? {
      var binding := Binding(ResolvedAlias(b, bindings).value, DeviceOf(b, bindings).value);
      assert binding in bindings;
    }
  }

  lemma MotionArgNames()
    ensures IsName("speed") && IsName("durationSeconds") && IsName("distanceMillimetres")
  {
    assert "speed" !in KEYWORDS && "durationSeconds" !in KEYWORDS && "distanceMillimetres" !in KEYWORDS;
  }

  lemma OtherArgNames()
    ensures IsName("port") && IsName("angle") && IsName("text")
  {
    assert "port" !in KEYWORDS && "angle" !in KEYWORDS && "text" !in KEYWORDS;
  }

  lemma GimbalArgNames()
    ensures IsName("pitch") && IsName("yaw")
  {
    assert "pitch" !in KEYWORDS && "yaw" !in KEYWORDS;
  }

  lemma ArgsEmitted(b: Block, spec: BlockSpec)
    requires IsDeviceCall(b.typ)
    ensures forall i :: 0 <= i < |DeviceArgs(b, spec)| ==>
              IsName(DeviceArgs(b, spec)[i].name) && Token(DeviceArgs(b, spec)[i].literal)
  {
    hide IsName, Token, PythonString, PythonNumber, FieldOf, DefaultOf;
    MotionArgNames();
    OtherArgNames();
    GimbalArgNames();
    forall name { NumberToken(FieldOf(b, name), DefaultOf(spec, name)); }
    StringToken(OrElse(FieldOf(b, Port), Plain("A")));
    StringToken(FieldOf(b, Caption));
  }

  lemma PathChars(t: BlockType)
    requires IsDeviceCall(t)
    ensures forall i :: 0 <= i < |DevicePath(t)| ==> IsPathChar(DevicePath(t)[i])
  {
    match t
    case DriveVelocity =>
    case Stop =>
    case MotorRun =>
    case MotorAngle =>
    case DriveStraight =>
    case DriveTurn =>
    case HubDisplay =>
    case Gimbal =>
    case HudShow =>
  }

  lemma DeviceCallEmitted(b: Block, bindings: seq<Binding>, spec: BlockSpec)
    ensures var call := DeviceCallOf(b, Target(ResolvedAlias(b, bindings)), spec);
            call.Some? ==> EmittedCall(call.value, bindings)
  {
    hide IsName, Token, DeviceArgs, DevicePath, TargetOf, ResolvedAlias, AliasIdentifier;
    TargetEmitted(b, bindings);
    if IsDeviceCall(b.typ) {
      ArgsEmitted(b, spec);
      PathChars(b.typ);
    }
  }

  lemma ItemEmitted(b: Block, bindings: seq<Binding>)
    ensures EmittedCall(ItemCall(b, bindings), bindings)
  {
    hide Token, DeviceCallOf, PythonString, PythonNumber, ResolvedAlias, TargetOf;
    if BlockSpecOf(b.typ).Some? {
      var spec := BlockSpecOf(b.typ).value;
      NumberToken(FieldOf(b, Seconds), DefaultOf(spec, Seconds));
      StringToken(FieldOf(b, Message));
      DeviceCallEmitted(b, bindings, spec);
    }
  }

  lemma {:induction false} ItemsEmitted(children: seq<Block>, depth: nat, bindings: seq<Binding>, suited: bool)
    ensures Emitted(ItemsOut(children, depth, bindings).lines, bindings, suited)
  {
    hide ItemCall, EmittedCall, ItemOut, Emitted;
    if children == [] {
      NothingEmitted(bindings, suited);
    } else {
      var later := ItemsOut(children[1..], depth, bindings).lines;
      ItemsEmitted(children[1..], depth, bindings, suited);
      if !children[0].disabled {
        var item := [Line(depth, ParallelItem(ItemCall(children[0], bindings)))];
        ItemEmitted(children[0], bindings);
        ItemOutSilent(children[0], bindings);
        OneEmitted(item[0].stmt, depth, bindings, suited);
        EmittedAppend(item, later, bindings, suited);
        assert [] + item == item;
      }
    }
  }

  lemma {:induction false} CommentLinesEmitted(texts: seq<string>, depth: nat, bindings: seq<Binding>, suited: bool)
    requires forall i :: 0 <= i < |texts| ==> '\n' !in texts[i]
    ensures Emitted(CommentLines(texts, depth).lines, bindings, suited)
  {
    if texts != [] { CommentLinesEmitted(texts[1..], depth, bindings, suited); }
  }

  lemma CommentEmitted(comment: string, depth: nat, bindings: seq<Binding>, suited: bool)
    ensures Emitted(CommentOut(comment, depth).lines, bindings, suited)
  {
    hide Emitted;
    CommentLinesEmitted(Split(comment, '\n'), depth, bindings, suited);
    CommentLinesEmitted([], depth, bindings, suited);
  }

  lemma {:induction false} ChildrenEmitted(children: seq<Block>, depth: nat, bindings: seq<Binding>, suited: bool)
    requires suited ==> SuitedChildren(children, bindings)
    ensures Emitted(ChildrenOut(children, depth, bindings).lines, bindings, suited)
    ensures Emitted(BodyOut(children, depth, bindings).lines, bindings, suited)
    decreases children, 2
  {
    hide StatementOut, EmittedStmt, Suited;
    OneEmitted(Pass, depth, bindings, suited);
    if children != [] {
      ChildrenEmitted(children[1..], depth, bindings, suited);
      if !children[0].disabled {
        StatementEmitted(children[0], depth, bindings, suited);
        EmittedAppend(StatementOut(children[0], depth, bindings).lines,
          ChildrenOut(children[1..], depth, bindings).lines, bindings, suited);
      }
    }
  }

  lemma OneEmitted(stmt: Stmt, depth: nat, bindings: seq<Binding>, suited: bool)
    requires !stmt.Blank? || depth == 0
    requires stmt.Blank? || stmt.Pass? || stmt.ParallelOpen? || stmt.ParallelClose? ||
             EmittedStmt(stmt, bindings, suited)
    ensures Emitted([Line(depth, stmt)], bindings, suited)
  {
  }

  lemma {:induction false} StatementEmitted(b: Block, depth: nat, bindings: seq<Binding>, suited: bool)
    requires suited ==> Suited(b, bindings)
    ensures Emitted(StatementOut(b, depth, bindings).lines, bindings, suited)
    decreases b, 1
  {
    hide OwnOut, Emitted, Suited;
    if BlockSpecOf(b.typ).None? {
      NothingEmitted(bindings, suited);
    } else {
      CommentEmitted(b.comment, depth, bindings, suited);
      OwnEmitted(b, depth, bindings, BlockSpecOf(b.typ).value, suited);
      StatementLines(b, depth, bindings);
      EmittedAppend(CommentOut(b.comment, depth).lines, OwnOut(b, depth, bindings, BlockSpecOf(b.typ).value).lines,
        bindings, suited);
    }
  }

  lemma NothingEmitted(bindings: seq<Binding>, suited: bool)
    ensures Emitted([], bindings, suited)
  {
  }

  lemma HeaderEmitted(header: Stmt, children: seq<Block>, depth: nat, bindings: seq<Binding>, suited: bool)
    requires EmittedStmt(header, bindings, suited) && !header.Blank?
    requires suited ==> SuitedChildren(children, bindings)
    ensures Emitted([Line(depth, header)] + BodyOut(children, depth + 1, bindings).lines, bindings, suited)
    decreases children, 3
  {
    hide EmittedStmt, Emitted, BodyOut, SuitedChildren;
    ChildrenEmitted(children, depth + 1, bindings, suited);
    OneEmitted(header, depth, bindings, suited);
    EmittedAppend([Line(depth, header)], BodyOut(children, depth + 1, bindings).lines, bindings, suited);
  }

  lemma HandlerEmitted(
    use: string, mark: Mark, name: string, children: seq<Block>, depth: nat, bindings: seq<Binding>,
      origin: Option<Origin>, suited: bool)
    requires EmittedStmt(MarkLine(mark), bindings, suited) && EmittedStmt(AsyncDef(name), bindings, suited)
    requires suited ==> SuitedChildren(children, bindings)
    ensures Emitted(HandlerOut(use, mark, name, children, depth, bindings, origin).lines, bindings, suited)
    decreases children, 4
  {
    hide EmittedStmt, Emitted, BodyOut, SuitedChildren;
    HandlerShape(use, mark, name, children, depth, bindings, origin);
    HeaderEmitted(AsyncDef(name), children, depth, bindings, suited);
    OneEmitted(MarkLine(mark), depth, bindings, suited);
    var body := BodyOut(children, depth + 1, bindings).lines;
    EmittedAppend([Line(depth, MarkLine(mark))], [Line(depth, AsyncDef(name))] + body, bindings, suited);
    assert [Line(depth, MarkLine(mark))] + ([Line(depth, AsyncDef(name))] + body) ==
           [Line(depth, MarkLine(mark))] + [Line(depth, AsyncDef(name))] + body;
  }

  lemma {:induction false} OwnEmitted(b: Block, depth: nat, bindings: seq<Binding>, spec: BlockSpec, suited: bool)
    requires BlockSpecOf(b.typ) == Some(spec)
    requires suited ==> Suited(b, bindings)
    ensures Emitted(OwnOut(b, depth, bindings, spec).lines, bindings, suited)
    decreases b, 0
  {
    hide Emitted, Token, TargetOf, PythonString, PythonNumber, ResolvedAlias, AliasIdentifier, ItemsOut, BodyOut,
         SuitedChildren;
    DeviceFieldsDeclared(b.typ);
    NothingEmitted(bindings, suited);
    if b.typ.OnStart? {
      HeaderEmitted(AsyncDef("main"), b.children, depth, bindings, suited);
    } else if b.typ.Every? || b.typ.OnGesture? {
      EventEmitted(b, depth, bindings, suited);
    } else if b.typ.Repeat? {
      NumberToken(FieldOf(b, Times), DefaultOf(spec, Times));
      HeaderEmitted(ForRange(PythonNumber(FieldOf(b, Times), DefaultOf(spec, Times))), b.children, depth, bindings,
        suited);
    } else if b.typ.If? {
      IfEmitted(b.children, depth, bindings, Some(Origin(b.id, b.typ, OwnAlias(b, spec, bindings))), suited);
    } else if b.typ.Parallel? {
      ParallelEmitted(b.children, depth, bindings, Some(Origin(b.id, b.typ, OwnAlias(b, spec, bindings))), suited);
    } else {
      ActionEmitted(b, depth, bindings, spec, suited);
    }
  }

  lemma ActionEmitted(b: Block, depth: nat, bindings: seq<Binding>, spec: BlockSpec, suited: bool)
    requires BlockSpecOf(b.typ) == Some(spec) && (IsAction(b.typ) || IsReporter(b.typ))
    ensures Emitted(OwnOut(b, depth, bindings, spec).lines, bindings, suited)
  {
    hide Emitted, OwnOut, ItemCall, EmittedCall, ResolvedAlias;
    NothingEmitted(bindings, suited);
    ItemEmitted(b, bindings);
    ActionLines(b, depth, bindings, spec);
    OneEmitted(Await(ItemCall(b, bindings)), depth, bindings, suited);
  }

  lemma {:induction false} EventEmitted(b: Block, depth: nat, bindings: seq<Binding>, suited: bool)
    requires b.typ.Every? || b.typ.OnGesture?
    requires suited ==> Suited(b, bindings)
    ensures Emitted(OwnOut(b, depth, bindings, BlockSpecOf(b.typ).value).lines, bindings, suited)
    decreases b, -1
  {
    hide HandlerOut, FieldOf, DefaultOf, Emitted, Token, TargetOf, PythonString, ResolvedAlias, AliasIdentifier,
         BodyOut, SuitedChildren, EveryName, NumText;
    DeviceFieldsDeclared(b.typ);
    var spec := BlockSpecOf(b.typ).value;
    if b.typ.Every? {
      NumTextToken(NumberOf(FieldOf(b, Seconds), DefaultOf(spec, Seconds)));
      assert TimerName(EveryName(SecondsText(b, spec)), suited);
      HandlerEmitted("every", EveryMark(SecondsText(b, spec)), EveryName(SecondsText(b, spec)), b.children, depth,
                     bindings, Some(Origin(b.id, b.typ, None)), suited);
    } else {
      TargetEmitted(b, bindings);
      StringToken(OrElse(FieldOf(b, Gesture), Plain("open_palm")));
      HandlerEmitted("when", GestureMark(b, Target(ResolvedAlias(b, bindings))), "on_gesture", b.children, depth,
                     bindings, Some(Origin(b.id, b.typ, ResolvedAlias(b, bindings))), suited);
    }
  }

  lemma {:induction false} IfEmitted(children: seq<Block>, depth: nat, bindings: seq<Binding>, origin: Option<Origin>,
      suited: bool)
    requires suited ==> children == [] || SuitedBody(children[1..], bindings)
    ensures Emitted(IfOut(children, depth, bindings, origin).lines, bindings, suited)
    decreases children, 5
  {
    hide Emitted, Token, TargetOf, ResolvedAlias, AliasIdentifier, BodyOut, SuitedChildren, IfOut;
    IfShape(children, depth, bindings, origin);
    if children == [] {
      HeaderEmitted(IfHeader(TrueLiteral), [], depth, bindings, suited) by { EmptySuited(bindings); }
    } else {
      ConditionEmitted(children[0], bindings, suited);
      HeaderEmitted(IfHeader(ExpressionOf(children[0], bindings)), children[1..], depth, bindings, suited);
    }
  }

  lemma EmptySuited(bindings: seq<Binding>)
    ensures SuitedChildren([], bindings)
  {
  }

  lemma ConditionEmitted(b: Block, bindings: seq<Binding>, suited: bool)
    ensures EmittedStmt(IfHeader(ExpressionOf(b, bindings)), bindings, suited)
  {
    hide TargetOf, ResolvedAlias, AliasIdentifier;
    TargetEmitted(b, bindings);
    if IsReporter(b.typ) { SensorToken(b.typ); }
  }

  lemma SensorToken(t: BlockType)
    requires IsReporter(t)
    ensures Token("\"" + SensorName(t) + "\"")
  {
    hide ReplaceAll;
    SensorNamePlain(t);
    var name := SensorName(t);
    PlainEscape(name);
    StringToken(Plain(name));
    ThreePassesEscapeOnce(name);
    assert PythonString(Plain(name)) == "\"" + ThreePasses(name) + "\"";
  }

  lemma ParallelEmitted(children: seq<Block>, depth: nat, bindings: seq<Binding>, origin: Option<Origin>, suited: bool)
    ensures Emitted(ParallelOut(children, depth, bindings, origin).lines, bindings, suited)
  {
    hide Emitted, EmittedStmt, ItemsOut;
    OneEmitted(Pass, depth, bindings, suited);
    OneEmitted(ParallelOpen, depth, bindings, suited);
    OneEmitted(ParallelClose, depth, bindings, suited);
    ItemsEmitted(children, depth + 1, bindings, suited);
    var open, items, close := [Line(depth, ParallelOpen)], ItemsOut(children, depth + 1, bindings).lines,
      [Line(depth, ParallelClose)];
    EmittedAppend(open, items, bindings, suited);
    EmittedAppend(open + items, close, bindings, suited);
    var lines := ParallelOut(children, depth, bindings, origin).lines;
    assert lines == if AnyEnabled(children) then open + items + close else [Line(depth, Pass)];
  }

  // ---------------------------------------------------------------- the file

  lemma {:induction false} EventsEmitted(events: seq<Block>, bindings: seq<Binding>, suited: bool)
    requires forall b :: b in events ==> !b.disabled
    requires suited ==> SuitedChildren(events, bindings)
    ensures Emitted(EventsOut(events, bindings).lines, bindings, suited)
  {
    hide Emitted, BodyOut, Suited;
    NothingEmitted(bindings, suited);
    if events != [] {
      var e, rest := events[0], events[1..];
      assert e in events;
      EventsEmitted(rest, bindings, suited);
      assert [e][1..] == [];
      EmptySuited(bindings);
      ChildrenEmitted([e], 0, bindings, suited);
      OneEmitted(Blank, 0, bindings, suited);
      EmittedAppend(BodyOut([e], 0, bindings).lines, [Line(0, Blank)], bindings, suited);
      EmittedAppend(BodyOut([e], 0, bindings).lines + [Line(0, Blank)], EventsOut(rest, bindings).lines, bindings,
        suited);
    }
  }

  lemma {:induction false} StartCommentsEmitted(starts: seq<Block>, bindings: seq<Binding>, suited: bool)
    ensures Emitted(StartComments(starts).lines, bindings, suited)
  {
    hide Emitted, CommentOut;
    NothingEmitted(bindings, suited);
    if starts != [] {
      CommentEmitted(starts[0].comment, 0, bindings, suited);
      StartCommentsEmitted(starts[1..], bindings, suited);
      EmittedAppend(CommentOut(starts[0].comment, 0).lines, StartComments(starts[1..]).lines, bindings, suited);
    }
  }

  lemma MainEmitted(blocks: seq<Block>, bindings: seq<Binding>, suited: bool)
    requires suited ==> SuitedProgram(blocks, bindings)
    ensures Emitted(MainOut(blocks, bindings).lines, bindings, suited)
  {
    hide Emitted, BodyOut, SuitedChildren, StartComments, MainSteps;
    NothingEmitted(bindings, suited);
    if HasMain(blocks) {
      var comments := StartComments(Starts(blocks)).lines;
      var main := [Line(0, AsyncDef("main"))];
      var body := BodyOut(MainSteps(blocks), 1, bindings).lines;
      StartCommentsEmitted(Starts(blocks), bindings, suited);
      OneEmitted(AsyncDef("main"), 0, bindings, suited);
      ChildrenEmitted(MainSteps(blocks), 1, bindings, suited);
      OneEmitted(Blank, 0, bindings, suited);
      EmittedAppend(comments, main, bindings, suited);
      EmittedAppend(comments + main, body, bindings, suited);
      EmittedAppend(comments + main + body, [Line(0, Blank)], bindings, suited);
    }
  }

  lemma {:induction false} AssignsEmitted(sorted: seq<Binding>, bindings: seq<Binding>, suited: bool)
    requires forall b :: b in sorted ==> b in bindings
    ensures Emitted(AssignOut(sorted).lines, bindings, suited)
  {
    hide Emitted, AliasIdentifier, PythonString, Token;
    NothingEmitted(bindings, suited);
    if sorted != [] {
      var b := sorted[0];
      StringToken(Plain(b.deviceId));
      var stmt := Assign(AliasIdentifier(b.alias), PythonString(Plain(b.deviceId)));
      assert b in bindings;
      OneEmitted(stmt, 0, bindings, suited);
      AssignsEmitted(sorted[1..], bindings, suited);
      EmittedAppend([Line(0, stmt)], AssignOut(sorted[1..]).lines, bindings, suited);
    }
  }

  lemma HeaderLinesEmitted(used: set<string>, bindings: seq<Binding>, before: Before, suited: bool)
    ensures Emitted(HeaderOut(used, bindings, before).lines, bindings, suited)
  {
    hide Emitted, Sorted, AssignOut;
    var sorted := Sorted(bindings, before);
    NothingEmitted(bindings, suited);
    SortedMembers(bindings, before);
    AssignsEmitted(sorted, bindings, suited);
    OneEmitted(Blank, 0, bindings, suited);
    EmittedAppend([Line(0, Blank)], [Line(0, Blank)], bindings, suited);
    ImportEmitted(used, bindings, suited);
    var head, blanks, assigns := [Line(0, Import(Imports(IMPORT_ORDER, used)))], BLANKS.lines, AssignOut(sorted).lines;
    EmittedAppend(head, blanks, bindings, suited);
    EmittedAppend(head + blanks, assigns, bindings, suited);
    EmittedAppend(head + blanks + assigns, if sorted == [] then [] else blanks, bindings, suited);
  }

  lemma ImportEmitted(used: set<string>, bindings: seq<Binding>, suited: bool)
    ensures Emitted([Line(0, Import(Imports(IMPORT_ORDER, used)))], bindings, suited)
  {
    assert IMPORT_ORDER[0] == "device";
    assert "device" in Imports(IMPORT_ORDER, used);
  }

  lemma FileEmitted(blocks: seq<Block>, bindings: seq<Binding>, before: Before, suited: bool)
    requires suited ==> SuitedProgram(blocks, bindings)
    ensures Emitted(FileLines(blocks, bindings, before), bindings, suited)
  {
    hide EmittedStmt, HeaderOut, MainOut, EventsOut, SuitedChildren, SuitedBody;
    var program := ProgramOut(blocks, bindings);
    HeaderLinesEmitted(program.used, bindings, before, suited);
    EventsEmitted(Events(blocks), bindings, suited);
    MainEmitted(blocks, bindings, suited);
    EmittedAppend(EventsOut(Events(blocks), bindings).lines, MainOut(blocks, bindings).lines, bindings, suited);
    EmittedAppend(HeaderOut(program.used, bindings, before).lines, program.lines, bindings, suited);
  }

  // ---------------------------------------------------------------- every line of code is guarded

  lemma IdentifierUnquoted(name: string)
    requires IsIdentifier(name)
    ensures Unquoted(name)
  {
  }

  lemma {:induction false} ArgsGuarded(args: seq<Arg>)
    requires forall i :: 0 <= i < |args| ==> IsName(args[i].name) && Token(args[i].literal)
    ensures Guarded(RenderArgs(args), false)
  {
    hide IsName, IsLiteral, IsIdentifier, Guarded;
    if args == [] {
      UnquotedGuarded("");
    } else {
      var head := args[0].name + "=" + args[0].literal;
      NameIsIdentifier(args[0].name);
      IdentifierUnquoted(args[0].name);
      Wrapped(args[0].name + "=", args[0].literal, "");
      assert head + "" == head;
      if |args| > 1 {
        ArgsGuarded(args[1..]);
        Wrapped(", ", RenderArgs(args[1..]), "");
        assert ", " + RenderArgs(args[1..]) + "" == ", " + RenderArgs(args[1..]);
        GuardedAppend(head, ", " + RenderArgs(args[1..]), false);
      } else {
        assert RenderArgs(args) == head;
      }
    }
  }

  lemma TargetUnquoted(name: string, bindings: seq<Binding>)
    requires TargetOf(name, bindings)
    ensures Unquoted(name)
  {
    hide IsIdentifier, AliasIdentifier;
    var b :| b in bindings && name == AliasIdentifier(b.alias);
    AliasIdentifierIsIdentifier(b.alias);
    IdentifierUnquoted(name);
  }

  lemma CallGuarded(call: Call, bindings: seq<Binding>)
    requires EmittedCall(call, bindings)
    ensures Guarded(RenderCall(call), false)
  {
    hide IsName, IsLiteral, RenderArgs, TargetOf, Guarded, IsIdentChar;
    match call
    case NoneCall => UnquotedGuarded("None");
    case Sleep(seconds) => Wrapped("sleep(", seconds, ")");
    case LogCall(message) => Wrapped("log(", message, ")");
    case OnDevice(target, path, args) =>
      TargetUnquoted(target, bindings);
      PathUnquoted(path);
      ArgsGuarded(args);
      Wrapped(target + "." + path + "(", RenderArgs(args), ")");
  }

  lemma PathUnquoted(path: string)
    requires forall i :: 0 <= i < |path| ==> IsPathChar(path[i])
    ensures Unquoted(path)
  {
  }

  lemma NumTextPlain(n: Num)
    ensures Unquoted(NumText(n)) && Quotable(NumText(n))
  {
    hide NumText;
    ReadNumText(n);
  }

  lemma TimerUnquoted(name: string, suited: bool)
    requires TimerName(name, suited)
    ensures Unquoted(name) && Quotable(name)
  {
    hide NumText, ReplacePoint;
    var n: Num :| name == EveryName(NumText(n)) && (suited ==> n.mantissa >= 0);
    NumTextPlain(n);
    UnquotedReplacePoint(NumText(n));
    assert name == "every_" + ReplacePoint(NumText(n)) + "s";
  }

  lemma {:induction false} UnquotedReplacePoint(s: string)
    requires Unquoted(s) && Quotable(s)
    ensures Unquoted(ReplacePoint(s)) && Quotable(ReplacePoint(s))
  {
    if s != "" && s[0] != '.' { UnquotedReplacePoint(s[1..]); }
  }

  lemma {:induction false} NamesUnquoted(names: seq<string>)
    requires forall n :: n in names ==> n in IMPORT_ORDER
    ensures Unquoted(JoinWith(names, ", "))
  {
    if names != [] {
      assert names[0] in IMPORT_ORDER;
      assert Unquoted(names[0]);
      NamesUnquoted(names[1..]);
    }
  }

  lemma MarkGuarded(mark: Mark, bindings: seq<Binding>, suited: bool)
    requires EmittedStmt(MarkLine(mark), bindings, suited)
    ensures Guarded(RenderMark(mark), false)
  {
    hide IsLiteral, TargetOf, Guarded;
    match mark
    case EveryMark(seconds) => Wrapped("@every(", seconds, ")");
    case WhenMark(source, gesture) =>
      if TargetOf(source, bindings) { TargetUnquoted(source, bindings); }
      Wrapped("@when(" + source + ".gesture(", gesture, "))");
  }

  lemma ConditionGuarded(cond: Condition, bindings: seq<Binding>, suited: bool)
    requires EmittedStmt(IfHeader(cond), bindings, suited)
    ensures Guarded(RenderCondition(cond), false)
  {
    hide IsLiteral, TargetOf, Guarded;
    match cond
    case TrueLiteral => UnquotedGuarded("True");
    case NoneLiteral => UnquotedGuarded("None");
    case Reading(target, sensor) =>
      if TargetOf(target, bindings) { TargetUnquoted(target, bindings); }
      Wrapped("(await " + target + ".sensor(", sensor, ")).value");
  }

  lemma ImportGuarded(names: seq<string>)
    requires forall n :: n in names ==> n in IMPORT_ORDER
    ensures Guarded(RenderStmt(Import(names)), false)
  {
    hide JoinWith, Guarded;
    NamesUnquoted(names);
    UnquotedGuarded(RenderStmt(Import(names)));
  }

  lemma AssignGuarded(name: string, literal: string, bindings: seq<Binding>)
    requires TargetOf(name, bindings) && Token(literal)
    ensures Guarded(RenderStmt(Assign(name, literal)), false)
  {
    hide TargetOf, IsLiteral, Guarded;
    TargetUnquoted(name, bindings);
    Wrapped(name + " = device(", literal, ")");
  }

  lemma DefGuarded(name: string, suited: bool)
    requires name == "main" || name == "on_gesture" || TimerName(name, suited)
    ensures Guarded(RenderStmt(AsyncDef(name)), false)
  {
    hide TimerName, Guarded;
    if TimerName(name, suited) { TimerUnquoted(name, suited); }
    UnquotedGuarded(RenderStmt(AsyncDef(name)));
  }

  lemma CodeGuarded(stmt: Stmt, bindings: seq<Binding>, suited: bool)
    requires EmittedStmt(stmt, bindings, suited) && IsCode(stmt)
    ensures Guarded(RenderStmt(stmt), false)
  {
    hide IsLiteral, TargetOf, EmittedCall, RenderCall, JoinWith, TimerName, RenderMark, RenderCondition, Guarded;
    match stmt
    case Import(names) => ImportGuarded(names);
    case Assign(name, literal) => AssignGuarded(name, literal, bindings);
    case MarkLine(mark) => MarkGuarded(mark, bindings, suited);
    case AsyncDef(name) => DefGuarded(name, suited);
    case ForRange(times) => Wrapped("for _ in range(", times, "):");
    case IfHeader(cond) =>
      ConditionGuarded(cond, bindings, suited);
      Wrapped("if ", RenderCondition(cond), ":");
    case ParallelItem(call) =>
      CallGuarded(call, bindings);
      Wrapped("", RenderCall(call), ",");
      assert "" + RenderCall(call) == RenderCall(call);
    case Await(call) =>
      CallGuarded(call, bindings);
      Wrapped("await ", RenderCall(call), "");
      assert "await " + RenderCall(call) + "" == "await " + RenderCall(call);
    case ParallelOpen => UnquotedGuarded("await parallel(");
    case ParallelClose => UnquotedGuarded(")");
    case Pass => UnquotedGuarded("pass");
  }

  lemma LineGuarded(line: Line, bindings: seq<Binding>, suited: bool)
    requires EmittedStmt(line.stmt, bindings, suited)
    ensures '\n' !in RenderLine(line)
    ensures IsCode(line.stmt) ==> Guarded(RenderLine(line), false)
  {
    hide EmittedStmt, RenderStmt, Guarded, Indent;
    IndentUnquoted(line.depth);
    if IsCode(line.stmt) {
      CodeGuarded(line.stmt, bindings, suited);
      Wrapped(Indent(line.depth), RenderStmt(line.stmt), "");
      assert Indent(line.depth) + RenderStmt(line.stmt) + "" == Indent(line.depth) + RenderStmt(line.stmt);
      BlankText(line);
      GuardedNoFeed(RenderLine(line), false);
    } else {
      RestNoFeed(line.stmt, bindings, suited);
    }
  }

  lemma RestNoFeed(stmt: Stmt, bindings: seq<Binding>, suited: bool)
    requires EmittedStmt(stmt, bindings, suited) && !IsCode(stmt)
    ensures '\n' !in RenderStmt(stmt)
  {
  }

  /** No emitted line holds a line feed, so splitting the file gives back exactly the emitter's lines. */
  lemma FileSplits(blocks: seq<Block>, bindings: seq<Binding>, before: Before)
    ensures Split(PythonFile(blocks, bindings, before), '\n') == RenderLines(FileLines(blocks, bindings, before)) + [""]
  {
    hide FileLines, EmittedStmt, RenderLine, Split;
    var texts := RenderLines(FileLines(blocks, bindings, before));
    FileNoFeed(blocks, bindings, before);
    FileNotEmpty(blocks, bindings, before);
    JoinAppend(texts, [""], '\n');
    assert PythonFile(blocks, bindings, before) == Join(texts + [""], '\n');
    SplitJoinClean(texts + [""], '\n');
  }

  lemma FileNoFeed(blocks: seq<Block>, bindings: seq<Binding>, before: Before)
    ensures forall i :: 0 <= i < |FileLines(blocks, bindings, before)| ==>
              '\n' !in RenderLines(FileLines(blocks, bindings, before))[i]
  {
    hide FileLines, EmittedStmt, RenderLine;
    var lines := FileLines(blocks, bindings, before);
    FileEmitted(blocks, bindings, before, false);
    forall i | 0 <= i < |lines| ensures '\n' !in RenderLines(lines)[i] {
      LineGuarded(lines[i], bindings, false);
    }
  }

  lemma FileNotEmpty(blocks: seq<Block>, bindings: seq<Binding>, before: Before)
    ensures FileLines(blocks, bindings, before) != []
  {
    hide ProgramOut, AssignOut, Sorted, Imports;
    var lines := FileOut(blocks, bindings, before).lines;
    assert lines[0].stmt.Import?;
  }

  // ---------------------------------------------------------------- from text to meaning

  /** No alias becomes a word Python reserves. */
  predicate NamesReadable(bindings: seq<Binding>) {
    forall b :: b in bindings ==>
      !IsKeyword(AliasIdentifier(b.alias)) && AliasIdentifier(b.alias) != "sleep" && AliasIdentifier(b.alias) != "log"
  }

  lemma TargetReadable(name: string, bindings: seq<Binding>)
    requires NamesReadable(bindings) && TargetOf(name, bindings)
    ensures IsName(name) && name != "sleep" && name != "log"
  {
    hide IsKeyword;
    var b :| b in bindings && name == AliasIdentifier(b.alias);
    AliasIdentifierIsIdentifier(b.alias);
  }

  lemma FixedNames()
    ensures IsName("main") && IsName("on_gesture") && IsName("leap") && IsName(UNRESOLVED_TARGET)
  {
    assert "main" !in KEYWORDS && "on_gesture" !in KEYWORDS && "leap" !in KEYWORDS && "device" !in KEYWORDS;
  }

  lemma NoKeywordHasUnderscore(s: string)
    requires '_' in s
    ensures !IsKeyword(s)
  {
  }

  lemma TimerReadable(name: string)
    requires TimerName(name, true)
    ensures IsName(name)
  {
    hide IsKeyword;
    var n: Num :| name == EveryName(NumText(n)) && n.mantissa >= 0;
    EveryNameIdentifier(n);
    assert name == "every_" + ReplacePoint(NumText(n)) + "s";
    assert name[5] == '_';
    NoKeywordHasUnderscore(name);
  }

  lemma ImportReadable(names: seq<string>)
    requires forall n :: n in names ==> n in IMPORT_ORDER
    ensures forall i :: 0 <= i < |names| ==> IsName(names[i])
  {
    SdkNamesReadable();
    forall i | 0 <= i < |names| ensures IsName(names[i]) {
      assert names[i] in IMPORT_ORDER;
    }
  }

  lemma SdkNamesReadable()
    ensures forall n :: n in IMPORT_ORDER ==> IsName(n)
  {
    hide IsName;
    FunctionNames();
    MarkNames();
  }

  lemma FunctionNames()
    ensures IsName("log") && IsName("parallel") && IsName("sleep")
  {
    assert "log" !in KEYWORDS && "parallel" !in KEYWORDS && "sleep" !in KEYWORDS;
  }

  lemma MarkNames()
    ensures IsName("device") && IsName("every") && IsName("when")
  {
    assert "device" !in KEYWORDS && "every" !in KEYWORDS && "when" !in KEYWORDS;
  }

  lemma StmtReadable(stmt: Stmt, bindings: seq<Binding>)
    requires EmittedStmt(stmt, bindings, true) && NamesReadable(bindings)
    ensures Readable(stmt)
  {
    hide IsName, IsLiteral, NamesReadable, TargetOf, TimerName;
    FixedNames();
    match stmt
    case Import(names) => ImportReadable(names);
    case Assign(name, literal) => TargetReadable(name, bindings);
    case MarkLine(mark) =>
      if mark.WhenMark? && TargetOf(mark.source, bindings) { TargetReadable(mark.source, bindings); }
    case AsyncDef(name) => if TimerName(name, true) { TimerReadable(name); }
    case IfHeader(cond) =>
      if cond.Reading? && TargetOf(cond.target, bindings) { TargetReadable(cond.target, bindings); }
    case ParallelItem(call) => if call.OnDevice? { TargetReadable(call.target, bindings); }
    case Await(call) => if call.OnDevice? { TargetReadable(call.target, bindings); }
    case _ =>
  }

  // ---------------------------------------------------------------- literals and the lines that show them

  lemma QuotableAppend(a: string, b: string)
    ensures Quotable(a + b) <==> Quotable(a) && Quotable(b)
  {
  }

  lemma QuotableWithin(head: string, inside: string, tail: string)
    requires Quotable(head) && Quotable(tail)
    ensures Quotable(head + inside + tail) <==> Quotable(inside)
  {
  }

  lemma {:induction false} ArgsShow(args: seq<Arg>)
    requires forall i :: 0 <= i < |args| ==> IsName(args[i].name)
    ensures Quotable(RenderArgs(args)) <==> AllQuotable(ArgLiterals(args))
  {
    hide IsName, IsIdentifier, Quotable;
    EmptyQuotable();
    if args != [] {
      var more := ArgLiterals(args[1..]);
      NameIsIdentifier(args[0].name);
      IdentifierUnquoted(args[0].name);
      IdentifierQuotable(args[0].name);
      ArgsShow(args[1..]);
      QuotableCons(args[0].literal, more);
      var rest := if |args| == 1 then "" else ", " + RenderArgs(args[1..]);
      assert |args| == 1 ==> args[1..] == [];
      QuotableAppend(", ", RenderArgs(args[1..]));
      QuotableAppend(args[0].name, "=");
      QuotableAppend(args[0].name + "=", args[0].literal);
      QuotableAppend(args[0].name + "=" + args[0].literal, rest);
      assert RenderArgs(args) == args[0].name + "=" + args[0].literal + rest;
    }
  }

  lemma EmptyQuotable()
    ensures Quotable("") && Quotable(", ") && Quotable("=")
  {
  }

  lemma QuotableCons(l: string, more: seq<string>)
    ensures AllQuotable([l] + more) <==> Quotable(l) && AllQuotable(more)
  {
    hide Quotable;
    if AllQuotable([l] + more) {
      assert l in [l] + more;
      assert forall k :: k in more ==> k in [l] + more;
    }
  }

  lemma OneQuotable(l: string)
    ensures AllQuotable([l]) <==> Quotable(l)
  {
    hide Quotable;
    assert l in [l];
  }

  lemma IdentifierQuotable(name: string)
    requires IsIdentifier(name)
    ensures Quotable(name)
  {
  }

  lemma TargetQuotable(name: string, bindings: seq<Binding>)
    requires TargetOf(name, bindings)
    ensures Quotable(name)
  {
    hide IsIdentifier, AliasIdentifier, Quotable;
    var b :| b in bindings && name == AliasIdentifier(b.alias);
    AliasIdentifierIsIdentifier(b.alias);
    IdentifierQuotable(name);
  }

  lemma CallShows(call: Call, bindings: seq<Binding>)
    requires EmittedCall(call, bindings)
    ensures Quotable(RenderCall(call)) <==> AllQuotable(CallLiterals(call))
  {
    hide IsName, Token, RenderArgs, ArgLiterals, TargetOf, AllQuotable, IsPathChar;
    match call
    case NoneCall => NothingQuotable();
    case Sleep(seconds) =>
      OneQuotable(seconds);
      QuotableWithin("sleep(", seconds, ")");
    case LogCall(message) =>
      OneQuotable(message);
      QuotableWithin("log(", message, ")");
    case OnDevice(target, path, args) =>
      TargetQuotable(target, bindings);
      ArgsShow(args);
      PathQuotable(path);
      QuotableWithin(target + "." + path + "(", RenderArgs(args), ")");
  }

  lemma NothingQuotable()
    ensures AllQuotable([])
  {
  }

  lemma PathQuotable(path: string)
    requires forall i :: 0 <= i < |path| ==> IsPathChar(path[i])
    ensures Quotable(path)
  {
  }

  lemma {:induction false} NamesQuotable(names: seq<string>)
    requires forall n :: n in names ==> n in IMPORT_ORDER
    ensures Quotable(JoinWith(names, ", "))
  {
    if names != [] {
      assert names[0] in IMPORT_ORDER;
      assert Quotable(names[0]);
      NamesQuotable(names[1..]);
    }
  }

  lemma MarkPartsQuotable()
    ensures Quotable("@every(") && Quotable(")") && Quotable("@when(") && Quotable(".gesture(") && Quotable("))")
    ensures Quotable("leap")
  {
  }

  lemma ConditionPartsQuotable()
    ensures Quotable("(await ") && Quotable(".sensor(") && Quotable(")).value") && Quotable("True") && Quotable("None")
    ensures Quotable(UNRESOLVED_TARGET)
  {
  }

  lemma MarkShows(mark: Mark, bindings: seq<Binding>, suited: bool)
    requires EmittedStmt(MarkLine(mark), bindings, suited)
    ensures Quotable(RenderMark(mark)) <==> AllQuotable(LiteralsOf(MarkLine(mark)))
  {
    hide Token, TargetOf, AllQuotable, Quotable;
    MarkPartsQuotable();
    match mark
    case EveryMark(seconds) =>
      OneQuotable(seconds);
      QuotableWithin("@every(", seconds, ")");
    case WhenMark(source, gesture) =>
      OneQuotable(gesture);
      if TargetOf(source, bindings) { TargetQuotable(source, bindings); }
      QuotableWithin("@when(", source, ".gesture(");
      QuotableWithin("@when(" + source + ".gesture(", gesture, "))");
  }

  lemma ConditionShows(cond: Condition, bindings: seq<Binding>, suited: bool)
    requires EmittedStmt(IfHeader(cond), bindings, suited)
    ensures Quotable(RenderCondition(cond)) <==> AllQuotable(LiteralsOf(IfHeader(cond)))
  {
    hide Token, TargetOf, AllQuotable, Quotable;
    NothingQuotable();
    ConditionPartsQuotable();
    if cond.Reading? {
      OneQuotable(cond.sensor);
      if TargetOf(cond.target, bindings) { TargetQuotable(cond.target, bindings); }
      QuotableWithin("(await ", cond.target, ".sensor(");
      QuotableWithin("(await " + cond.target + ".sensor(", cond.sensor, ")).value");
    }
  }

  /** A line of code holds no carriage return and no null character exactly when no literal of it does. */
  lemma CodeShows(stmt: Stmt, bindings: seq<Binding>, suited: bool)
    requires EmittedStmt(stmt, bindings, suited) && IsCode(stmt)
    ensures Quotable(RenderStmt(stmt)) <==> AllQuotable(LiteralsOf(stmt))
  {
    hide Token, TargetOf, EmittedCall, RenderCall, CallLiterals, JoinWith, TimerName, RenderMark, RenderCondition,
         AllQuotable, Quotable;
    NothingQuotable();
    FixedQuotable();
    match stmt
    case Import(names) =>
      NamesQuotable(names);
      QuotableAppend("from citxr import ", JoinWith(names, ", "));
    case Assign(name, literal) =>
      TargetQuotable(name, bindings);
      OneQuotable(literal);
      QuotableAppend(name, " = device(");
      QuotableWithin(name + " = device(", literal, ")");
    case MarkLine(mark) => MarkShows(mark, bindings, suited);
    case AsyncDef(name) =>
      if TimerName(name, suited) { TimerUnquoted(name, suited); }
      QuotableWithin("async def ", name, "():");
    case ForRange(times) =>
      OneQuotable(times);
      QuotableWithin("for _ in range(", times, "):");
    case IfHeader(cond) =>
      ConditionShows(cond, bindings, suited);
      QuotableWithin("if ", RenderCondition(cond), ":");
    case ParallelItem(call) =>
      CallShows(call, bindings);
      QuotableAppend(RenderCall(call), ",");
    case Await(call) =>
      CallShows(call, bindings);
      QuotableAppend("await ", RenderCall(call));
    case _ =>
  }

  /** The fixed parts of lines of code. */
  lemma FixedQuotable()
    ensures Quotable("from citxr import ") && Quotable(" = device(") && Quotable("async def ")
    ensures Quotable("for _ in range(") && Quotable("await parallel(")
    ensures Quotable("if ") && Quotable(":") && Quotable(",") && Quotable(")") && Quotable("await ")
    ensures Quotable("pass") && Quotable("main") && Quotable("on_gesture") && Quotable("():") && Quotable("):")
  {
    hide Quotable;
    FixedStarts();
    FixedOpenings();
    FixedEnds();
    FixedWords();
  }

  lemma FixedStarts()
    ensures Quotable("from citxr import ") && Quotable(" = device(")
  {
  }

  lemma FixedOpenings()
    ensures Quotable("async def ") && Quotable("for _ in range(") && Quotable("await parallel(")
  {
  }

  lemma FixedEnds()
    ensures Quotable("if ") && Quotable(":") && Quotable(",") && Quotable(")") && Quotable("await ")
  {
  }

  lemma FixedWords()
    ensures Quotable("pass") && Quotable("main") && Quotable("on_gesture") && Quotable("():") && Quotable("):")
  {
  }

  lemma LegibleLine(line: Line, bindings: seq<Binding>, suited: bool)
    requires EmittedStmt(line.stmt, bindings, suited)
    ensures LegibleStmt(line.stmt) <==> Steady(line) && '\0' !in RenderLine(line)
  {
    hide EmittedStmt, QuietText, Indent, RenderStmt, AllQuotable;
    NothingQuotable();
    IndentUnquoted(line.depth);
    BlankText(line);
    if IsCode(line.stmt) {
      CodeShows(line.stmt, bindings, suited);
    } else if line.stmt.Comment? {
      CommentReads(line.depth, line.stmt.text);
    } else {
      assert LiteralsOf(line.stmt) == [];
    }
  }

  /** What Python makes of a text are these lines, apart from blank ones and comments. */
  predicate ReadsAs(text: string, lines: seq<Line>) {
    var read := ReadFile(text);
    read.Some? && Significant(read.value) == Significant(lines)
  }

  /**
   * Reading the characters of the file gives back the emitter's code, exactly when no literal holds a carriage return
   * or a null character, and no comment holds a null character or goes on with code after a carriage return.
   */
  lemma FileReads(blocks: seq<Block>, bindings: seq<Binding>, before: Before)
    requires SuitedProgram(blocks, bindings) && NamesReadable(bindings)
    ensures ReadsAs(PythonFile(blocks, bindings, before), FileLines(blocks, bindings, before)) <==>
            Legible(FileLines(blocks, bindings, before))
    ensures Quotable(PythonFile(blocks, bindings, before)) ==>
              ReadFile(PythonFile(blocks, bindings, before)) == Some(FileLines(blocks, bindings, before))
  {
    hide FileLines, EmittedStmt, RenderLine, SuitedProgram, NamesReadable, ReadableLine, LegibleStmt, Steady, Guarded,
         Pieces, ReadLines, Significant, PhysicalLines, Readable;
    var lines := FileLines(blocks, bindings, before);
    var texts := RenderLines(lines);
    var pieces := FilePieces(texts);
    FileNoFeed(blocks, bindings, before);
    FileNotEmpty(blocks, bindings, before);
    FilePhysical(texts);
    assert (pieces + [""])[..|pieces|] == pieces;
    FileFit(blocks, bindings, before);
    AllLines(lines);
    JoinHolds(texts, '\n', '\0');
    JoinHolds(texts, '\n', '\r');
    if Quotable(PythonFile(blocks, bindings, before)) { SteadyReads(lines); }
  }

  /**
   * Every line of the file can be read by itself, and is legible exactly when it is steady and holds no null character.
   */
  lemma FileFit(blocks: seq<Block>, bindings: seq<Binding>, before: Before)
    requires SuitedProgram(blocks, bindings) && NamesReadable(bindings)
    ensures Fit(FileLines(blocks, bindings, before))
    ensures forall line :: line in FileLines(blocks, bindings, before) ==>
              (LegibleStmt(line.stmt) <==> Steady(line) && '\0' !in RenderLine(line))
  {
    hide FileLines, EmittedStmt, RenderLine, SuitedProgram, NamesReadable, LegibleStmt, Steady, Guarded, Readable;
    var lines := FileLines(blocks, bindings, before);
    FileEmitted(blocks, bindings, before, true);
    forall i | 0 <= i < |lines|
      ensures ReadableLine(lines[i]) && (IsCode(lines[i].stmt) ==> Guarded(RenderLine(lines[i]), false))
      ensures LegibleStmt(lines[i].stmt) <==> Steady(lines[i]) && '\0' !in RenderLine(lines[i])
    {
      StmtReadable(lines[i].stmt, bindings);
      LineGuarded(lines[i], bindings, true);
      LegibleLine(lines[i], bindings, true);
    }
  }

  /** The module a file's text loads as, None where reading, parsing or loading it fails. */
  function LoadFile(text: string): Option<Module> {
    var lines := ReadFile(text);
    var nodes := if lines.None? then None else ParseModule(lines.value);
    if nodes.None? then None else LoadNodes(nodes.value, EMPTY_MODULE)
  }

  /** For a compilable program, the file reads as what was emitted exactly when every comment is quiet. */
  lemma CompilableReads(blocks: seq<Block>, bindings: seq<Binding>, before: Before)
    requires CompilableProgram(blocks, bindings)
    ensures ReadsAs(PythonFile(blocks, bindings, before), FileLines(blocks, bindings, before)) <==> QuietProgram(blocks)
  {
    hide PythonFile, FileLines, IsKeyword, AliasIdentifier, SuitedProgram, CompilableChildren, CompilableEvent,
         DistinctIdentifiers, EventName, QuietProgram, Legible, ReadsAs;
    IdentifiersFree(blocks, bindings);
    assert "sleep" in RESERVED && "log" in RESERVED;
    forall b | b in bindings ensures AliasIdentifier(b.alias) !in RESERVED {
      assert AliasIdentifier(b.alias) in Identifiers(bindings);
    }
    FileReads(blocks, bindings, before);
    FileLegible(blocks, bindings, before);
  }

  /** From the characters of the generated file to the effects of the blocks, for every sensor oracle. */
  lemma GeneratedFileMeansTheBlocks(blocks: seq<Block>, bindings: seq<Binding>, before: Before)
    returns (m: Module, at: seq<nat>)
    requires CompilableProgram(blocks, bindings) && QuietProgram(blocks)
    ensures LoadFile(PythonFile(blocks, bindings, before)) == Some(m)
    ensures MeansTheBlocks(m, at, blocks, bindings)
  {
    hide PythonFile, FileLines, CompilableProgram, QuietProgram, ReadFile, MeansTheBlocks;
    CompilableReads(blocks, bindings, before);
    m, at := CompilerCorrect(blocks, bindings, before);
  }
}
