/**
 * What carriage returns and null characters do to the generated lines: a literal must not hold either, and what a
 * comment says after a carriage return is read as a line of its own.
 */
module LineEnds {
  import opened Wrappers
  import opened Text
  import opened Values
  import opened Catalog
  import opened Python
  import opened PythonText
  import opened PythonReader
  import opened PythonLines
  import opened Generate
  import opened Structure
  import opened Literals
  import opened Meaning
  import opened TopLevel
  import opened Correct
  import opened Program

  // ---------------------------------------------------------------- legible lines

  predicate AllQuotable(literals: seq<string>) { forall l :: l in literals ==> Quotable(l) }

  predicate LegibleStmt(stmt: Stmt) {
    if stmt.Comment? then '\0' !in stmt.text && QuietText(stmt.text)
    else AllQuotable(LiteralsOf(stmt))
  }

  predicate Legible(lines: seq<Line>) { forall i :: 0 <= i < |lines| ==> LegibleStmt(lines[i].stmt) }

  lemma LegibleAppend(a: seq<Line>, b: seq<Line>)
    ensures Legible(a + b) <==> Legible(a) && Legible(b)
  {
    hide LegibleStmt;
    if Legible(a + b) {
      assert forall i :: 0 <= i < |a| ==> a[i] == (a + b)[i];
      assert forall i :: 0 <= i < |b| ==> b[i] == (a + b)[|a| + i];
    }
  }

  lemma LegibleOne(stmt: Stmt, depth: nat)
    ensures Legible([Line(depth, stmt)]) <==> LegibleStmt(stmt)
  {
    hide LegibleStmt;
    var lines := [Line(depth, stmt)];
    assert Legible(lines) ==> LegibleStmt(lines[0].stmt);
  }

  // ---------------------------------------------------------------- quiet programs

  /** No line of the comment holds a null character or goes on with code after a carriage return. */
  predicate QuietComment(comment: string) {
    var parts := Split(comment, '\n');
    forall i :: 0 <= i < |parts| ==> '\0' !in parts[i] && QuietText(parts[i])
  }

  predicate QuietChildren(children: seq<Block>)
    decreases children, 0
  {
    children == [] || ((children[0].disabled || Quiet(children[0])) && QuietChildren(children[1..]))
  }

  /** Every comment the block emits is quiet. Conditions and parallel items emit none. */
  predicate Quiet(b: Block)
    decreases b, 1
  {
    BlockSpecOf(b.typ).None? ||
    (QuietComment(b.comment) &&
     match b.typ
     case OnStart => QuietChildren(b.children)
     case Every => QuietChildren(b.children)
     case OnGesture => QuietChildren(b.children)
     case Repeat => QuietChildren(b.children)
     case If => b.children == [] || QuietChildren(b.children[1..])
     case _ => true)
  }

  predicate QuietProgram(blocks: seq<Block>) { QuietChildren(blocks) }

  lemma {:induction false} QuietAppend(a: seq<Block>, b: seq<Block>)
    ensures QuietChildren(a + b) <==> QuietChildren(a) && QuietChildren(b)
  {
    hide Quiet;
    if a == [] {
      assert a + b == b;
    } else {
      assert (a + b)[1..] == a[1..] + b;
      QuietAppend(a[1..], b);
    }
  }

  /** The program is quiet exactly when what becomes its event functions and its `main()` is. */
  lemma {:induction false} QuietParts(blocks: seq<Block>)
    ensures QuietChildren(blocks) <==>
            && QuietChildren(Events(blocks)) && (forall b :: b in Starts(blocks) ==> QuietComment(b.comment))
            && QuietChildren(AllChildren(Starts(blocks))) && QuietChildren(Loose(blocks))
  {
    hide QuietComment;
    if blocks != [] {
      var b, rest := blocks[0], blocks[1..];
      QuietParts(rest);
      if !b.disabled && b.typ.OnStart? {
        assert Starts(blocks) == [b] + Starts(rest) && Starts(blocks)[1..] == Starts(rest);
        QuietAppend(b.children, AllChildren(Starts(rest)));
      } else if IsHandler(b) {
        assert Events(blocks)[1..] == Events(rest);
      } else if !b.disabled {
        assert Loose(blocks)[1..] == Loose(rest);
      }
    }
  }

  // ---------------------------------------------------------------- quotable literals

  lemma {:induction false} EscapeQuotable(s: string)
    requires Quotable(s)
    ensures Quotable(EscapeOnce(s))
  {
    if s != "" {
      assert s[0] in s;
      EscapeQuotable(s[1..]);
    }
  }

  lemma StringQuotable(v: Value)
    requires Clean(v)
    ensures Quotable(PythonString(v))
  {
    hide EscapeOnce, ReplaceAll;
    ThreePassesEscapeOnce(TextOf(v));
    EscapeQuotable(TextOf(v));
    assert PythonString(v) == "\"" + ThreePasses(TextOf(v)) + "\"";
  }

  lemma NumberQuotable(v: Value, fallback: Num)
    ensures Quotable(PythonNumber(v, fallback))
  {
    ReadNumText(NumberOf(v, fallback));
  }

  lemma ArgsQuotable(b: Block, spec: BlockSpec)
    requires IsDeviceCall(b.typ) && CleanTexts(b)
    ensures AllQuotable(ArgLiterals(DeviceArgs(b, spec)))
  {
    hide Quotable, PythonString, PythonNumber, FieldOf, DefaultOf;
    forall name { NumberQuotable(FieldOf(b, name), DefaultOf(spec, name)); }
    PlainPortQuotable();
    match b.typ
    case DriveVelocity => LiteralsOfTwo(DeviceArgs(b, spec));
    case Stop =>
    case MotorRun =>
      StringQuotable(OrElse(FieldOf(b, Port), Plain("A")));
      LiteralsOfThree(DeviceArgs(b, spec));
    case MotorAngle =>
      StringQuotable(OrElse(FieldOf(b, Port), Plain("A")));
      LiteralsOfThree(DeviceArgs(b, spec));
    case DriveStraight => LiteralsOfTwo(DeviceArgs(b, spec));
    case DriveTurn => LiteralsOfTwo(DeviceArgs(b, spec));
    case HubDisplay =>
      StringQuotable(FieldOf(b, Caption));
      LiteralsOfOne(DeviceArgs(b, spec));
    case Gimbal => LiteralsOfTwo(DeviceArgs(b, spec));
    case HudShow =>
      StringQuotable(FieldOf(b, Caption));
      LiteralsOfOne(DeviceArgs(b, spec));
  }

  lemma PlainPortQuotable()
    ensures Clean(Plain("A"))
  {
  }

  lemma LiteralsOfOne(args: seq<Arg>)
    requires |args| == 1
    ensures ArgLiterals(args) == [args[0].literal]
  {
    assert ArgLiterals(args[1..]) == [];
  }

  lemma LiteralsOfTwo(args: seq<Arg>)
    requires |args| == 2
    ensures ArgLiterals(args) == [args[0].literal, args[1].literal]
  {
    LiteralsOfOne(args[1..]);
  }

  lemma LiteralsOfThree(args: seq<Arg>)
    requires |args| == 3
    ensures ArgLiterals(args) == [args[0].literal, args[1].literal, args[2].literal]
  {
    LiteralsOfTwo(args[1..]);
  }

  lemma CallQuotable(b: Block, bindings: seq<Binding>)
    requires CompilableAction(b, bindings)
    ensures AllQuotable(CallLiterals(ItemCall(b, bindings)))
  {
    hide PythonString, PythonNumber, DeviceArgs, AliasIdentifier, DevicePath, Resolve, DeviceOf, Quotable, ArgLiterals;
    var spec := BlockSpecOf(b.typ).value;
    if b.typ.Wait? {
      NumberQuotable(FieldOf(b, Seconds), DefaultOf(spec, Seconds));
    } else if b.typ.Log? {
      StringQuotable(FieldOf(b, Message));
    } else {
      ArgsQuotable(b, spec);
    }
  }

  // ---------------------------------------------------------------- what compilable blocks emit

  lemma {:induction false} CommentLinesLegible(texts: seq<string>, depth: nat)
    ensures Legible(CommentLines(texts, depth).lines) <==>
            forall i :: 0 <= i < |texts| ==> '\0' !in texts[i] && QuietText(texts[i])
  {
    hide QuietText, Legible;
    if texts == [] {
      NothingLegible();
    } else {
      var rest := texts[1..];
      CommentLinesLegible(rest, depth);
      LegibleOne(Comment(texts[0]), depth);
      LegibleAppend([Line(depth, Comment(texts[0]))], CommentLines(rest, depth).lines);
      assert forall i :: 0 <= i < |rest| ==> rest[i] == texts[i + 1];
      assert forall i :: 0 < i < |texts| ==> texts[i] == rest[i - 1];
    }
  }

  lemma NothingLegible()
    ensures Legible([])
  {
  }

  lemma CommentLegible(comment: string, depth: nat)
    ensures Legible(CommentOut(comment, depth).lines) <==> QuietComment(comment)
  {
    hide QuietText, Legible, CommentLines, Split;
    NothingLegible();
    EmptyCommentQuiet();
    CommentLinesLegible(Split(comment, '\n'), depth);
  }

  lemma EmptyCommentQuiet()
    ensures QuietComment("")
  {
    assert Split("", '\n') == [""] && Split("", '\r') == [""];
  }

  lemma {:induction false} ItemsLegible(children: seq<Block>, depth: nat, bindings: seq<Binding>)
    requires CompilableItems(children, bindings)
    ensures Legible(ItemsOut(children, depth, bindings).lines)
  {
    hide ItemCall, Legible, CompilableAction, ItemOut;
    if children == [] {
      NothingLegible();
    } else {
      var rest := children[1..];
      assert forall i :: 0 <= i < |rest| ==> rest[i] == children[i + 1];
      ItemsLegible(rest, depth, bindings);
      if !children[0].disabled {
        CallQuotable(children[0], bindings);
        ItemLegible(ItemCall(children[0], bindings), depth);
        ItemOutSilent(children[0], bindings);
        var item := [Line(depth, ParallelItem(ItemCall(children[0], bindings)))];
        LegibleAppend(item, ItemsOut(rest, depth, bindings).lines);
        assert [] + item == item;
      }
    }
  }

  lemma ItemLegible(call: Call, depth: nat)
    requires AllQuotable(CallLiterals(call))
    ensures Legible([Line(depth, ParallelItem(call))]) && Legible([Line(depth, Await(call))])
  {
  }

  lemma FixedLegible(depth: nat)
    ensures Legible([Line(depth, Pass)]) && Legible([Line(depth, Blank)]) && Legible([Line(depth, ParallelOpen)])
    ensures Legible([Line(depth, ParallelClose)])
  {
  }

  lemma {:induction false} ChildrenLegible(children: seq<Block>, depth: nat, bindings: seq<Binding>)
    requires CompilableChildren(children, bindings)
    ensures Legible(ChildrenOut(children, depth, bindings).lines) <==> QuietChildren(children)
    ensures Legible(BodyOut(children, depth, bindings).lines) <==> QuietChildren(children)
    decreases children, 2
  {
    hide StatementOut, Legible, Compilable, Quiet;
    NothingLegible();
    FixedLegible(depth);
    if children != [] {
      ChildrenLegible(children[1..], depth, bindings);
      if !children[0].disabled {
        StatementLegible(children[0], depth, bindings);
        LegibleAppend(StatementOut(children[0], depth, bindings).lines,
          ChildrenOut(children[1..], depth, bindings).lines);
      }
    }
    BodyLegible(children, depth, bindings);
  }

  lemma BodyLegible(children: seq<Block>, depth: nat, bindings: seq<Binding>)
    ensures Legible(BodyOut(children, depth, bindings).lines) <==> Legible(ChildrenOut(children, depth, bindings).lines)
  {
    hide ChildrenOut;
    var inner := ChildrenOut(children, depth, bindings).lines;
    FixedLegible(depth);
    if inner == [] { assert inner + [Line(depth, Pass)] == [Line(depth, Pass)]; }
  }

  lemma {:induction false} StatementLegible(b: Block, depth: nat, bindings: seq<Binding>)
    requires Compilable(b, bindings)
    ensures Legible(StatementOut(b, depth, bindings).lines) <==> Quiet(b)
    decreases b, 1
  {
    hide OwnOut, Legible, Compilable, QuietComment, CommentOut;
    if BlockSpecOf(b.typ).None? {
      NothingLegible();
    } else {
      var spec := BlockSpecOf(b.typ).value;
      CommentLegible(b.comment, depth);
      OwnLegible(b, depth, bindings, spec);
      StatementLines(b, depth, bindings);
      LegibleAppend(CommentOut(b.comment, depth).lines, OwnOut(b, depth, bindings, spec).lines);
    }
  }

  lemma HeaderLegible(header: Stmt, children: seq<Block>, depth: nat, bindings: seq<Binding>)
    requires CompilableChildren(children, bindings) && LegibleStmt(header)
    ensures Legible([Line(depth, header)] + BodyOut(children, depth + 1, bindings).lines) <==> QuietChildren(children)
    decreases children, 3
  {
    hide Legible, LegibleStmt, BodyOut, CompilableChildren, QuietChildren;
    ChildrenLegible(children, depth + 1, bindings);
    LegibleOne(header, depth);
    LegibleAppend([Line(depth, header)], BodyOut(children, depth + 1, bindings).lines);
  }

  lemma {:induction false} OwnLegible(b: Block, depth: nat, bindings: seq<Binding>, spec: BlockSpec)
    requires Compilable(b, bindings) && BlockSpecOf(b.typ) == Some(spec)
    ensures QuietComment(b.comment) ==> (Legible(OwnOut(b, depth, bindings, spec).lines) <==> Quiet(b))
    decreases b, 0
  {
    hide Legible, PythonString, PythonNumber, ResolvedAlias, AliasIdentifier, ItemsOut, BodyOut, CompilableChildren,
         QuietChildren, QuietComment, CompilableItems, DeviceOf, CleanTexts, IfOut, ParallelOut, Quotable, FieldOf,
         DefaultOf, HandlerOut, DeviceCallOf, DeviceCallOut;
    DeviceFieldsDeclared(b.typ);
    var origin := Some(Origin(b.id, b.typ, OwnAlias(b, spec, bindings)));
    if b.typ.Repeat? {
      NumberQuotable(FieldOf(b, Times), DefaultOf(spec, Times));
      HeaderLegible(ForRange(PythonNumber(FieldOf(b, Times), DefaultOf(spec, Times))), b.children, depth, bindings);
    } else if b.typ.If? {
      IfLegible(b.children, depth, bindings, origin);
    } else if b.typ.Parallel? {
      ParallelLegible(b.children, depth, bindings, origin);
    } else {
      ActionLegible(b, depth, bindings, spec);
    }
  }

  lemma ActionLegible(b: Block, depth: nat, bindings: seq<Binding>, spec: BlockSpec)
    requires BlockSpecOf(b.typ) == Some(spec) && (CompilableAction(b, bindings) || IsReporter(b.typ))
    ensures Legible(OwnOut(b, depth, bindings, spec).lines)
  {
    hide Legible, OwnOut, ItemCall, ResolvedAlias, DeviceOf, CleanTexts;
    NothingLegible();
    ActionLines(b, depth, bindings, spec);
    if IsAction(b.typ) {
      CallQuotable(b, bindings);
      ItemLegible(ItemCall(b, bindings), depth);
    }
  }

  lemma SensorQuotable(b: Block, bindings: seq<Binding>)
    ensures LegibleStmt(IfHeader(ExpressionOf(b, bindings)))
  {
    hide ResolvedAlias, AliasIdentifier, SensorName, Quotable;
    if IsReporter(b.typ) { SensorTextQuotable(SensorName(b.typ)) by { SensorNamePlain(b.typ); } }
  }

  lemma SensorTextQuotable(name: string)
    requires forall i :: 0 <= i < |name| ==> PlainChar(name[i])
    ensures Quotable("\"" + name + "\"")
  {
  }

  lemma {:induction false} IfLegible(children: seq<Block>, depth: nat, bindings: seq<Binding>, origin: Option<Origin>)
    requires children == [] || CompilableChildren(children[1..], bindings)
    ensures Legible(IfOut(children, depth, bindings, origin).lines) <==>
            children == [] || QuietChildren(children[1..])
    decreases children, 5
  {
    hide Legible, LegibleStmt, BodyOut, IfOut, ExpressionOf;
    IfShape(children, depth, bindings, origin);
    if children == [] {
      PlainConditionLegible();
      HeaderLegible(IfHeader(TrueLiteral), [], depth, bindings);
    } else {
      SensorQuotable(children[0], bindings);
      HeaderLegible(IfHeader(ExpressionOf(children[0], bindings)), children[1..], depth, bindings);
    }
  }

  lemma PlainConditionLegible()
    ensures LegibleStmt(IfHeader(TrueLiteral))
  {
  }

  lemma ParallelLegible(children: seq<Block>, depth: nat, bindings: seq<Binding>, origin: Option<Origin>)
    requires CompilableItems(children, bindings)
    ensures Legible(ParallelOut(children, depth, bindings, origin).lines)
  {
    hide Legible, ItemsOut, CompilableItems;
    FixedLegible(depth);
    ItemsLegible(children, depth + 1, bindings);
    var open, close := [Line(depth, ParallelOpen)], [Line(depth, ParallelClose)];
    var items := ItemsOut(children, depth + 1, bindings).lines;
    LegibleAppend(open, items);
    LegibleAppend(open + items, close);
    assert ParallelOut(children, depth, bindings, origin).lines ==
           if AnyEnabled(children) then open + items + close else [Line(depth, Pass)];
  }

  // ---------------------------------------------------------------- the file

  lemma EventLegible(e: Block, bindings: seq<Binding>)
    requires CompilableEvent(e, bindings) && (e.typ.Every? || e.typ.OnGesture?)
    ensures Legible(StatementOut(e, 0, bindings).lines) <==> Quiet(e)
  {
    hide Legible, OwnOut, CommentOut, QuietComment, QuietChildren, CompilableChildren, TriggerOf, BodyOut, LegibleStmt;
    var spec := BlockSpecOf(e.typ).value;
    CommentLegible(e.comment, 0);
    StatementLines(e, 0, bindings);
    var own, body := OwnOut(e, 0, bindings, spec).lines, BodyOut(e.children, 1, bindings).lines;
    LegibleAppend(CommentOut(e.comment, 0).lines, own);
    var mark, name := EventShape(e, bindings);
    LegibleOne(MarkLine(mark), 0);
    LegibleOne(AsyncDef(name), 0);
    DefLegible(name);
    LegibleAppend([Line(0, MarkLine(mark))], [Line(0, AsyncDef(name))]);
    LegibleAppend([Line(0, MarkLine(mark))] + [Line(0, AsyncDef(name))], body);
    ChildrenLegible(e.children, 1, bindings);
  }

  lemma DefLegible(name: string)
    ensures LegibleStmt(AsyncDef(name))
  {
  }

  /** An event block emits its decorator, its header and its body. */
  lemma EventShape(e: Block, bindings: seq<Binding>) returns (mark: Mark, name: string)
    requires CleanTexts(e) && (e.typ.Every? || e.typ.OnGesture?)
    ensures OwnOut(e, 0, bindings, BlockSpecOf(e.typ).value).lines ==
            [Line(0, MarkLine(mark))] + [Line(0, AsyncDef(name))] + BodyOut(e.children, 1, bindings).lines
    ensures LegibleStmt(MarkLine(mark))
  {
    hide BodyOut, PythonString, PythonNumber, EveryName, AliasIdentifier, Resolve, Quotable, HandlerOut, CleanTexts;
    var spec := BlockSpecOf(e.typ).value;
    var origin := Some(Origin(e.id, e.typ, OwnAlias(e, spec, bindings)));
    if e.typ.Every? {
      mark, name := EveryMark(SecondsText(e, spec)), EveryName(SecondsText(e, spec));
      NumberQuotable(FieldOf(e, Seconds), DefaultOf(spec, Seconds));
      HandlerShape("every", mark, name, e.children, 0, bindings, origin);
    } else {
      mark, name := GestureMark(e, Target(OwnAlias(e, spec, bindings))), "on_gesture";
      GestureQuotable(e);
      HandlerShape("when", mark, name, e.children, 0, bindings, origin);
    }
  }

  lemma GestureQuotable(e: Block)
    requires CleanTexts(e) && e.typ.OnGesture?
    ensures Quotable(PythonString(OrElse(FieldOf(e, Gesture), Plain("open_palm"))))
  {
    hide PythonString, FieldOf;
    PalmQuotable();
    StringQuotable(OrElse(FieldOf(e, Gesture), Plain("open_palm")));
  }

  lemma PalmQuotable()
    ensures Clean(Plain("open_palm"))
  {
  }

  lemma {:induction false} EventsLegible(events: seq<Block>, bindings: seq<Binding>)
    requires forall e :: e in events ==>
             CompilableEvent(e, bindings) && !e.disabled && (e.typ.Every? || e.typ.OnGesture?)
    ensures Legible(EventsOut(events, bindings).lines) <==> QuietChildren(events)
  {
    hide Legible, CompilableEvent, Quiet, StatementOut;
    NothingLegible();
    if events != [] {
      var e, rest := events[0], events[1..];
      assert e in events;
      EventsLegible(rest, bindings);
      EventLegible(e, bindings);
      FixedLegible(0);
      OneBody(e, bindings);
      var body := BodyOut([e], 0, bindings).lines;
      LegibleAppend(body, [Line(0, Blank)]);
      LegibleAppend(body + [Line(0, Blank)], EventsOut(rest, bindings).lines);
    }
  }

  lemma OneBody(e: Block, bindings: seq<Binding>)
    requires !e.disabled
    ensures Legible(BodyOut([e], 0, bindings).lines) <==> Legible(StatementOut(e, 0, bindings).lines)
  {
    hide StatementOut, Legible;
    BodyLegible([e], 0, bindings);
    assert [e][1..] == [];
    var lines := StatementOut(e, 0, bindings).lines;
    assert lines + [] == lines;
  }

  lemma {:induction false} StartCommentsLegible(starts: seq<Block>)
    ensures Legible(StartComments(starts).lines) <==> forall b :: b in starts ==> QuietComment(b.comment)
  {
    hide Legible, CommentOut, QuietComment;
    NothingLegible();
    if starts != [] {
      var rest := starts[1..];
      CommentLegible(starts[0].comment, 0);
      StartCommentsLegible(rest);
      LegibleAppend(CommentOut(starts[0].comment, 0).lines, StartComments(rest).lines);
      assert starts == [starts[0]] + rest;
    }
  }

  lemma MainLegible(blocks: seq<Block>, bindings: seq<Binding>)
    requires CompilableChildren(MainSteps(blocks), bindings)
    ensures Legible(MainOut(blocks, bindings).lines) <==>
            (forall b :: b in Starts(blocks) ==> QuietComment(b.comment)) && QuietChildren(MainSteps(blocks))
  {
    hide Legible, BodyOut, CompilableChildren, QuietComment, StartComments, MainSteps, LegibleStmt;
    if HasMain(blocks) {
      var comments, main := StartComments(Starts(blocks)).lines, [Line(0, AsyncDef("main"))];
      var body := BodyOut(MainSteps(blocks), 1, bindings).lines;
      StartCommentsLegible(Starts(blocks));
      ChildrenLegible(MainSteps(blocks), 1, bindings);
      DefLegible("main");
      LegibleOne(AsyncDef("main"), 0);
      FixedLegible(0);
      LegibleAppend(comments, main);
      LegibleAppend(comments + main, body);
      LegibleAppend(comments + main + body, [Line(0, Blank)]);
    } else {
      NothingLegible();
      assert MainSteps(blocks) == [] by { NoMainSteps(blocks); }
    }
  }

  lemma NoMainSteps(blocks: seq<Block>)
    requires !HasMain(blocks)
    ensures MainSteps(blocks) == []
  {
  }

  lemma {:induction false} AssignsLegible(sorted: seq<Binding>)
    requires forall b :: b in sorted ==> Quotable(b.deviceId)
    ensures Legible(AssignOut(sorted).lines)
  {
    hide Legible, AliasIdentifier, PythonString, Quotable;
    NothingLegible();
    if sorted != [] {
      var b := sorted[0];
      assert b in sorted;
      AssignLegible(b);
      AssignsLegible(sorted[1..]);
      LegibleAppend([Line(0, Assign(AliasIdentifier(b.alias), PythonString(Plain(b.deviceId))))],
                    AssignOut(sorted[1..]).lines);
    }
  }

  lemma AssignLegible(b: Binding)
    requires Quotable(b.deviceId)
    ensures Legible([Line(0, Assign(AliasIdentifier(b.alias), PythonString(Plain(b.deviceId))))])
  {
    hide PythonString, AliasIdentifier;
    StringQuotable(Plain(b.deviceId));
  }

  lemma HeaderOutLegible(used: set<string>, bindings: seq<Binding>, before: Before)
    requires forall b :: b in bindings ==> Quotable(b.deviceId)
    ensures Legible(HeaderOut(used, bindings, before).lines)
  {
    hide Legible, Sorted, AssignOut, Quotable, Imports, LegibleStmt;
    var sorted := Sorted(bindings, before);
    NothingLegible();
    SortedMembers(bindings, before);
    AssignsLegible(sorted);
    FixedLegible(0);
    LegibleAppend([Line(0, Blank)], [Line(0, Blank)]);
    var names := Imports(IMPORT_ORDER, used);
    var head, blanks, assigns := [Line(0, Import(names))], BLANKS.lines, AssignOut(sorted).lines;
    ImportLegible(names);
    LegibleAppend(head, blanks);
    LegibleAppend(head + blanks, assigns);
    LegibleAppend(head + blanks + assigns, if sorted == [] then [] else blanks);
  }

  lemma ImportLegible(names: seq<string>)
    ensures Legible([Line(0, Import(names))])
  {
  }

  lemma TrimLegible(lines: seq<Line>)
    ensures Legible(TrimBlank(lines)) <==> Legible(lines)
  {
    var kept := TrimBlank(lines);
    if Legible(kept) {
      forall i | 0 <= i < |lines| ensures LegibleStmt(lines[i].stmt) {
        if i < |kept| { assert lines[i] == kept[i]; }
      }
    }
  }

  /** Every line of a compilable program's file is legible exactly when every comment is quiet. */
  lemma FileLegible(blocks: seq<Block>, bindings: seq<Binding>, before: Before)
    requires CompilableProgram(blocks, bindings)
    ensures Legible(FileLines(blocks, bindings, before)) <==> QuietProgram(blocks)
  {
    hide Legible, HeaderOut, MainOut, EventsOut, SuitedProgram, CompilableChildren, CompilableEvent, TrimBlank,
         EventName, AliasIdentifier, DistinctIdentifiers, QuietChildren, QuietComment, Quotable, CompilableTop;
    var program := ProgramOut(blocks, bindings);
    MainCompilable(blocks, bindings);
    QuietParts(blocks);
    QuietAppend(AllChildren(Starts(blocks)), Loose(blocks));
    assert forall b :: b in bindings ==> Quotable(b.deviceId);
    HeaderOutLegible(program.used, bindings, before);
    EventsLegible(Events(blocks), bindings);
    MainLegible(blocks, bindings);
    LegibleAppend(EventsOut(Events(blocks), bindings).lines, MainOut(blocks, bindings).lines);
    LegibleAppend(HeaderOut(program.used, bindings, before).lines, program.lines);
    TrimLegible(FileOut(blocks, bindings, before).lines);
  }
}
