/**
 * The whole generated file: it parses into the translated program, loads, and its functions mean what the blocks mean.
 */
module Program {
  import opened Wrappers
  import opened Text
  import opened Values
  import opened Catalog
  import opened Python
  import opened Generate
  import opened Structure
  import opened Literals
  import opened Meaning
  import opened TopLevel
  import opened Correct

  // ---------------------------------------------------------------- parsing the file

  function AssignNodes(bindings: seq<Binding>): seq<Node> {
    if bindings == [] then []
    else
      [AssignNode(AliasIdentifier(bindings[0].alias), PythonString(Plain(bindings[0].deviceId)))] +
        AssignNodes(bindings[1..])
  }

  function MainNodes(blocks: seq<Block>, bindings: seq<Binding>): seq<Node> {
    if HasMain(blocks) then [DefNode([], "main", TranslateBody(MainSteps(blocks), bindings))] else []
  }

  /** The statement tree of the whole file. */
  function FileNodes(blocks: seq<Block>, bindings: seq<Binding>, before: Before): seq<Node> {
    [ImportNode(Imports(IMPORT_ORDER, ProgramOut(blocks, bindings).used))]
    + (AssignNodes(Sorted(bindings, before)) +
      (TranslateChildren(Events(blocks), bindings) + MainNodes(blocks, bindings)))
  }

  lemma {:induction false} SignificantTrim(lines: seq<Line>)
    ensures Significant(TrimBlank(lines)) == Significant(lines)
  {
    var n := |lines|;
    if n > 0 && lines[n - 1].stmt.Blank? {
      SignificantTrim(lines[..n - 1]);
      assert lines == lines[..n - 1] + [lines[n - 1]];
      SignificantAppend(lines[..n - 1], [lines[n - 1]]);
      assert [lines[n - 1]][1..] == [];
    }
  }

  lemma SignificantBlank(depth: nat)
    ensures Significant([Line(depth, Blank)]) == []
  {
    assert [Line(depth, Blank)][1..] == [];
  }

  lemma SignificantBlanks()
    ensures Significant(BLANKS.lines) == []
  {
    SignificantBlank(0);
    SignificantAppend([Line(0, Blank)], [Line(0, Blank)]);
  }

  lemma {:induction false} EventsAreChildren(events: seq<Block>, bindings: seq<Binding>)
    requires forall b :: b in events ==> !b.disabled && IsEvent(b.typ)
    ensures Significant(EventsOut(events, bindings).lines) == Significant(ChildrenOut(events, 0, bindings).lines)
  {
    if events != [] {
      var e, rest := events[0], events[1..];
      assert e in events;
      EventsAreChildren(rest, bindings);
      var one, blank, later := BodyOut([e], 0, bindings).lines, [Line(0, Blank)], EventsOut(rest, bindings).lines;
      OneEventBody(e, bindings);
      SignificantBlank(0);
      SignificantAppend(one, blank);
      SignificantAppend(one + blank, later);
      SignificantAppend(StatementOut(e, 0, bindings).lines, ChildrenOut(rest, 0, bindings).lines);
      assert Significant(one) + [] == Significant(one);
    }
  }

  lemma OneEventBody(e: Block, bindings: seq<Binding>)
    requires !e.disabled && IsEvent(e.typ)
    ensures BodyOut([e], 0, bindings).lines == StatementOut(e, 0, bindings).lines
  {
    StatementLevel(e, 0, bindings);
    assert [e][1..] == [];
    assert ChildrenOut([], 0, bindings) == NOTHING;
    assert ChildrenOut([e], 0, bindings).lines == StatementOut(e, 0, bindings).lines + [];
  }

  lemma ParseModuleLine(stmt: Stmt, tail: seq<Line>)
    requires stmt.Import? || stmt.Assign?
    ensures ParseBlock([Line(0, stmt)] + tail, 0) ==
            if stmt.Import? then Prepend([ImportNode(stmt.names)], ParseBlock(tail, 0))
            else Prepend([AssignNode(stmt.name, stmt.literal)], ParseBlock(tail, 0))
  {
    assert ([Line(0, stmt)] + tail)[1..] == tail;
  }

  lemma {:induction false} ParseAssigns(bindings: seq<Binding>, rest: seq<Line>)
    ensures ParseBlock(Significant(AssignOut(bindings).lines) + rest, 0) ==
            Prepend(AssignNodes(bindings), ParseBlock(rest, 0))
  {
    hide PythonString, AliasIdentifier, ParseBlock, Significant, Prepend;
    if bindings == [] {
      NothingSignificant();
      assert [] + rest == rest;
      PrependNothing(ParseBlock(rest, 0));
    } else {
      var name, literal := AliasIdentifier(bindings[0].alias), PythonString(Plain(bindings[0].deviceId));
      var line, later := Line(0, Assign(name, literal)), Significant(AssignOut(bindings[1..]).lines);
      AssignLines(bindings);
      ParseAssigns(bindings[1..], rest);
      assert ([line] + later) + rest == [line] + (later + rest);
      ParseModuleLine(line.stmt, later + rest);
      PrependTwice([AssignNode(name, literal)], AssignNodes(bindings[1..]), ParseBlock(rest, 0));
    }
  }

  lemma AssignLines(bindings: seq<Binding>)
    requires bindings != []
    ensures Significant(AssignOut(bindings).lines) ==
            [Line(0, Assign(AliasIdentifier(bindings[0].alias), PythonString(Plain(bindings[0].deviceId))))]
            + Significant(AssignOut(bindings[1..]).lines)
  {
    var line := Line(0, Assign(AliasIdentifier(bindings[0].alias), PythonString(Plain(bindings[0].deviceId))));
    assert AssignOut(bindings).lines == [line] + AssignOut(bindings[1..]).lines;
    SignificantHead(line, AssignOut(bindings[1..]).lines);
  }

  lemma {:induction false} StartCommentsSilent(starts: seq<Block>)
    ensures Significant(StartComments(starts).lines) == []
  {
    if starts != [] {
      CommentSilent(starts[0].comment, 0);
      StartCommentsSilent(starts[1..]);
      SignificantAppend(CommentOut(starts[0].comment, 0).lines, StartComments(starts[1..]).lines);
    }
  }

  /** `main()`, and nothing after it. */
  lemma ParseMain(blocks: seq<Block>, bindings: seq<Binding>)
    ensures ParseBlock(Significant(MainOut(blocks, bindings).lines), 0) ==
            if HasMain(blocks) ==> SuitedBody(MainSteps(blocks), bindings) then Some((MainNodes(blocks, bindings), []))
            else None
    ensures Outer(Significant(MainOut(blocks, bindings).lines), 0)
  {
    hide StartComments, BodyOut, MainSteps, TranslateBody, SuitedBody, Loose, Starts;
    if HasMain(blocks) {
      var comments, body := StartComments(Starts(blocks)).lines, BodyOut(MainSteps(blocks), 1, bindings).lines;
      var def := Line(0, AsyncDef("main"));
      var own := [def] + body;
      assert MainOut(blocks, bindings).lines == comments + [def] + body + [Line(0, Blank)];
      assert comments + [def] + body + [Line(0, Blank)] == comments + (own + [Line(0, Blank)]);
      StartCommentsSilent(Starts(blocks));
      SignificantAppend(comments, own + [Line(0, Blank)]);
      SignificantAppend(own, [Line(0, Blank)]);
      SignificantBlank(0);
      SignificantHead(def, body);
      ParseHeader(AsyncDef("main"), MainSteps(blocks), 0, bindings, [], own);
      assert Significant(own) + [] == Significant(own);
      assert Significant(MainOut(blocks, bindings).lines) == Significant(own);
      assert MainNodes(blocks, bindings) + [] == MainNodes(blocks, bindings);
    }
  }

  lemma {:induction false} InsertMembers(b: Binding, sorted: seq<Binding>, before: Before)
    ensures forall x :: x in Insert(b, sorted, before) <==> x == b || x in sorted
  {
    if sorted != [] && before(sorted[0].alias, b.alias) {
      InsertMembers(b, sorted[1..], before);
      assert sorted == [sorted[0]] + sorted[1..];
    }
  }

  lemma {:induction false} SortedMembers(bindings: seq<Binding>, before: Before)
    ensures forall b :: b in Sorted(bindings, before) <==> b in bindings
  {
    if bindings != [] {
      SortedMembers(bindings[1..], before);
      InsertMembers(bindings[0], Sorted(bindings[1..], before), before);
      assert bindings == [bindings[0]] + bindings[1..];
    }
  }

  lemma SignificantParts(head: Line, blanks: seq<Line>, assigns: seq<Line>, gap: seq<Line>, program: seq<Line>)
    requires !head.stmt.Blank? && !head.stmt.Comment? && Significant(blanks) == [] && Significant(gap) == []
    ensures Significant([head] + blanks + assigns + gap + program) ==
            [head] + (Significant(assigns) + Significant(program))
  {
    var tail := gap + program;
    assert [head] + blanks + assigns + gap + program == [head] + (blanks + (assigns + tail));
    SignificantHead(head, blanks + (assigns + tail));
    SignificantAppend(blanks, assigns + tail);
    SignificantAppend(assigns, tail);
    SignificantAppend(gap, program);
    assert [] + Significant(program) == Significant(program);
    assert [] + (Significant(assigns) + Significant(program)) == Significant(assigns) + Significant(program);
  }

  lemma FileSignificant(blocks: seq<Block>, bindings: seq<Binding>, before: Before)
    ensures Significant(FileLines(blocks, bindings, before)) ==
            [Line(0, Import(Imports(IMPORT_ORDER, ProgramOut(blocks, bindings).used)))]
            + (Significant(AssignOut(Sorted(bindings, before)).lines) + Significant(ProgramOut(blocks, bindings).lines))
  {
    var program := ProgramOut(blocks, bindings);
    var head := Line(0, Import(Imports(IMPORT_ORDER, program.used)));
    var sorted := Sorted(bindings, before);
    var gap := if sorted == [] then [] else BLANKS.lines;
    SignificantTrim(FileOut(blocks, bindings, before).lines);
    SignificantBlanks();
    SignificantParts(head, BLANKS.lines, AssignOut(sorted).lines, gap, program.lines);
  }

  lemma ProgramSignificant(blocks: seq<Block>, bindings: seq<Binding>)
    ensures Significant(ProgramOut(blocks, bindings).lines) ==
            Significant(ChildrenOut(Events(blocks), 0, bindings).lines) + Significant(MainOut(blocks, bindings).lines)
  {
    SignificantAppend(EventsOut(Events(blocks), bindings).lines, MainOut(blocks, bindings).lines);
    EventsAreChildren(Events(blocks), bindings);
  }

  lemma ParseProgram(blocks: seq<Block>, bindings: seq<Binding>)
    ensures ParseBlock(Significant(ProgramOut(blocks, bindings).lines), 0) ==
            if SuitedProgram(blocks, bindings) then
              Some((TranslateChildren(Events(blocks), bindings) + MainNodes(blocks, bindings), []))
            else None
  {
    ProgramSignificant(blocks, bindings);
    ParseMain(blocks, bindings);
    ParseChildrenLines(Events(blocks), 0, bindings, Significant(MainOut(blocks, bindings).lines));
  }

  /** Parsing the emitted lines gives the translated program, or fails exactly where a suite or timer is malformed. */
  lemma FileParses(blocks: seq<Block>, bindings: seq<Binding>, before: Before)
    ensures ParseModule(FileLines(blocks, bindings, before)) ==
            if SuitedProgram(blocks, bindings) then Some(FileNodes(blocks, bindings, before)) else None
  {
    hide ProgramOut, Significant, ParseBlock, Sorted, Imports, AssignOut, SuitedProgram, AssignNodes, TranslateChildren;
    var sorted := Sorted(bindings, before);
    var names := Imports(IMPORT_ORDER, ProgramOut(blocks, bindings).used);
    var program := Significant(ProgramOut(blocks, bindings).lines);
    FileSignificant(blocks, bindings, before);
    ParseModuleLine(Import(names), Significant(AssignOut(sorted).lines) + program);
    ParseAssigns(sorted, program);
    SortedMembers(bindings, before);
    ParseProgram(blocks, bindings);
  }

  // ---------------------------------------------------------------- names the program uses

  lemma UsesAction(b: Block, bindings: seq<Binding>)
    ensures ItemOut(b, bindings).used <= SDK_NAMES
  {
  }

  lemma {:induction false} UsesItems(children: seq<Block>, depth: nat, bindings: seq<Binding>)
    ensures ItemsOut(children, depth, bindings).used <= SDK_NAMES
  {
    if children != [] {
      UsesAction(children[0], bindings);
      UsesItems(children[1..], depth, bindings);
    }
  }

  lemma {:induction false} UsesChildren(children: seq<Block>, depth: nat, bindings: seq<Binding>)
    ensures ChildrenOut(children, depth, bindings).used <= SDK_NAMES
    ensures BodyOut(children, depth, bindings).used <= SDK_NAMES
    decreases children, 2
  {
    hide StatementOut;
    if children != [] {
      UsesStatement(children[0], depth, bindings);
      UsesChildren(children[1..], depth, bindings);
    }
  }

  lemma {:induction false} CommentLinesUse(texts: seq<string>, depth: nat)
    ensures CommentLines(texts, depth).used == {}
  {
    if texts != [] { CommentLinesUse(texts[1..], depth); }
  }

  lemma CommentUses(comment: string, depth: nat)
    ensures CommentOut(comment, depth).used == {}
  {
    CommentLinesUse(Split(comment, '\n'), depth);
  }

  lemma {:induction false} UsesStatement(b: Block, depth: nat, bindings: seq<Binding>)
    ensures StatementOut(b, depth, bindings).used <= SDK_NAMES
    decreases b, 1
  {
    hide CommentOut, OwnOut, Resolve;
    if BlockSpecOf(b.typ).Some? {
      CommentUses(b.comment, depth);
      UsesOwn(b, depth, bindings);
    }
  }

  lemma {:induction false} UsesOwn(b: Block, depth: nat, bindings: seq<Binding>)
    requires BlockSpecOf(b.typ).Some?
    ensures OwnOut(b, depth, bindings, BlockSpecOf(b.typ).value).used <= SDK_NAMES
    decreases b, 0
  {
    hide PythonString, PythonNumber, DeviceArgs, AliasIdentifier, DevicePath, Resolve, ItemsOut, DefaultOf, EveryName;
    if b.typ.If? {
      if b.children != [] {
        UsesChildren(b.children[1..], depth + 1, bindings);
        var origin := Some(Origin(b.id, b.typ, OwnAlias(b, BlockSpecOf(b.typ).value, bindings)));
        assert IfOut(b.children, depth, bindings, origin).used <= SDK_NAMES;
      }
    } else if b.typ.Parallel? {
      UsesItems(b.children, depth + 1, bindings);
    } else if IsEvent(b.typ) || b.typ.Repeat? {
      UsesChildren(b.children, depth + 1, bindings);
    }
  }

  lemma {:induction false} UsesStartComments(starts: seq<Block>)
    ensures StartComments(starts).used == {}
  {
    hide CommentOut;
    if starts != [] {
      CommentUses(starts[0].comment, 0);
      UsesStartComments(starts[1..]);
    }
  }

  lemma {:induction false} UsesEvents(events: seq<Block>, bindings: seq<Binding>)
    requires forall b :: b in events ==> !b.disabled
    ensures EventsOut(events, bindings).used == ChildrenOut(events, 0, bindings).used
  {
    hide StatementOut;
    if events != [] {
      UsesEvents(events[1..], bindings);
      var e := events[0];
      assert e in events;
      assert [e][1..] == [];
      assert ChildrenOut([e], 0, bindings).used == StatementOut(e, 0, bindings).used;
    }
  }

  /** What the events and `main()` use, and that it is all SDK names. */
  lemma UsesProgram(blocks: seq<Block>, bindings: seq<Binding>)
    ensures ProgramOut(blocks, bindings).used <= SDK_NAMES
    ensures ChildrenOut(Events(blocks), 0, bindings).used <= ProgramOut(blocks, bindings).used
    ensures HasMain(blocks) ==> BodyOut(MainSteps(blocks), 1, bindings).used <= ProgramOut(blocks, bindings).used
  {
    hide ChildrenOut, BodyOut, EventsOut;
    UsesEvents(Events(blocks), bindings);
    UsesChildren(Events(blocks), 0, bindings);
    UsesChildren(MainSteps(blocks), 1, bindings);
    UsesStartComments(Starts(blocks));
  }

  // ---------------------------------------------------------------- loading

  lemma {:induction false} ImportsBind(names: seq<string>, env: Env)
    ensures forall n :: n in names ==> IsSdk(ImportNames(names, env), n)
    ensures forall n :: n !in names ==>
              (n in ImportNames(names, env) <==> n in env) && (n in env ==> ImportNames(names, env)[n] == env[n])
  {
    if names != [] {
      ImportsBind(names[1..], env[names[0] := SdkName(names[0])]);
      assert forall n :: n in names <==> n == names[0] || n in names[1..];
    }
  }

  /** Names other than the given ones keep their meaning. */
  ghost predicate KeepsOthers(env: Env, after: Env, names: set<string>) {
    forall n :: n !in names ==> (n in after <==> n in env) && (n in env ==> after[n] == env[n])
  }

  function Identifiers(bindings: seq<Binding>): set<string> {
    set b | b in bindings :: AliasIdentifier(b.alias)
  }

  ghost predicate AllBound(env: Env, bindings: seq<Binding>) {
    forall b :: b in bindings ==>
      AliasIdentifier(b.alias) in env && env[AliasIdentifier(b.alias)] == DeviceObject(b.deviceId)
  }

  lemma DistinctRest(bindings: seq<Binding>)
    requires DistinctIdentifiers(bindings) && bindings != []
    ensures DistinctIdentifiers(bindings[1..])
    ensures Identifiers(bindings) == {AliasIdentifier(bindings[0].alias)} + Identifiers(bindings[1..])
    ensures AliasIdentifier(bindings[0].alias) !in Identifiers(bindings[1..])
  {
    hide AliasIdentifier;
    var rest := bindings[1..];
    assert forall i :: 0 <= i < |rest| ==> rest[i] == bindings[i + 1];
    assert bindings == [bindings[0]] + rest;
  }

  lemma LoadAssign(b: Binding, m: Module)
    requires IsSdk(m.env, "device") && Quotable(b.deviceId)
    ensures LoadNode(AssignNode(AliasIdentifier(b.alias), PythonString(Plain(b.deviceId))), m) ==
            Some(m.(env := m.env[AliasIdentifier(b.alias) := DeviceObject(b.deviceId)]))
  {
    hide PythonString, AliasIdentifier;
    PythonStringDecodes(Plain(b.deviceId));
  }

  /** Every alias assignment binds its identifier to its device; distinct identifiers do not overwrite each other. */
  lemma NothingBound(env: Env)
    ensures AllBound(env, []) && KeepsOthers(env, env, Identifiers([]))
  {
  }

  lemma BoundMore(env: Env, b: Binding, rest: seq<Binding>, after: Env)
    requires AliasIdentifier(b.alias) !in Identifiers(rest) && AllBound(after, rest)
    requires KeepsOthers(env[AliasIdentifier(b.alias) := DeviceObject(b.deviceId)], after, Identifiers(rest))
    requires Identifiers([b] + rest) == {AliasIdentifier(b.alias)} + Identifiers(rest)
    ensures AllBound(after, [b] + rest) && KeepsOthers(env, after, Identifiers([b] + rest))
  {
    hide AliasIdentifier, Identifiers;
  }

  lemma {:induction false} LoadAssigns(bindings: seq<Binding>, m: Module) returns (after: Module)
    requires IsSdk(m.env, "device") && DistinctIdentifiers(bindings) && "device" !in Identifiers(bindings)
    requires forall b :: b in bindings ==> Quotable(b.deviceId)
    ensures LoadNodes(AssignNodes(bindings), m) == Some(after)
    ensures after.handlers == m.handlers
    ensures AllBound(after.env, bindings) && KeepsOthers(m.env, after.env, Identifiers(bindings))
  {
    hide PythonString, AliasIdentifier, DistinctIdentifiers, LoadNode, AllBound, KeepsOthers, Identifiers, Quotable;
    after := m;
    if bindings == [] {
      NothingBound(m.env);
    } else {
      var b, rest := bindings[0], bindings[1..];
      var name := AliasIdentifier(b.alias);
      assert bindings == [b] + rest;
      DistinctRest(bindings);
      LoadAssign(b, m);
      var m1 := m.(env := m.env[name := DeviceObject(b.deviceId)]);
      after := LoadAssigns(rest, m1);
      assert AssignNodes(bindings)[1..] == AssignNodes(rest);
      BoundMore(m.env, b, rest, after.env);
    }
  }

  function HandlerOf(e: Block, bindings: seq<Binding>): Handler {
    var trigger := TriggerOf(e, bindings);
    Handler(if trigger.Some? then [trigger.value] else [], TranslateBody(e.children, bindings))
  }

  function HandlersOf(events: seq<Block>, bindings: seq<Binding>): seq<Handler> {
    if events == [] then [] else [HandlerOf(events[0], bindings)] + HandlersOf(events[1..], bindings)
  }

  /** The decorated function an event block becomes. */
  function EventDef(e: Block, bindings: seq<Binding>): Node
    requires e.typ.Every? || e.typ.OnGesture?
  {
    var mark :=
      if e.typ.Every? then EveryMark(NumText(SecondsOf(e))) else GestureMark(e, Target(ResolvedAlias(e, bindings)));
    DefNode([mark], EventName(e), TranslateBody(e.children, bindings))
  }

  lemma EventDefIsTranslation(e: Block, bindings: seq<Binding>)
    requires e.typ.Every? || e.typ.OnGesture?
    ensures Translate(e, bindings) == [EventDef(e, bindings)]
  {
    hide PythonString, AliasIdentifier, Resolve, TranslateBody, NumText;
  }

  lemma EveryTrigger(e: Block, bindings: seq<Binding>, env: Env)
    requires e.typ.Every? && IsSdk(env, "every")
    ensures TriggerOf(e, bindings) == MarkTrigger(EveryMark(NumText(SecondsOf(e))), env)
  {
    hide NumText, SecondsOf;
    PythonNumberDecodes(Number(SecondsOf(e)), ZERO);
  }

  lemma GestureTrigger(e: Block, bindings: seq<Binding>, env: Env)
    requires e.typ.OnGesture? && IsSdk(env, "when") && CleanTexts(e) && TriggerOf(e, bindings).Some? &&
             AllBound(env, bindings)
    ensures TriggerOf(e, bindings) == MarkTrigger(GestureMark(e, Target(ResolvedAlias(e, bindings))), env)
  {
    hide PythonString, AliasIdentifier, ResolvedAlias, DeviceOf;
    PythonStringDecodes(OrElse(FieldOf(e, Gesture), Plain("open_palm")));
    GestureClean(e);
    TargetIsDevice(e, bindings);
  }

  lemma EventUses(e: Block, bindings: seq<Binding>)
    requires e.typ.Every? || e.typ.OnGesture?
    ensures (if e.typ.Every? then "every" else "when") in StatementOut(e, 0, bindings).used
  {
    hide PythonString, PythonNumber, AliasIdentifier, Resolve, CommentOut, EveryName;
    var spec := BlockSpecOf(e.typ).value;
    assert (if e.typ.Every? then "every" else "when") in OwnOut(e, 0, bindings, spec).used;
  }

  lemma MarkCorrect(e: Block, bindings: seq<Binding>, env: Env, used: set<string>)
    requires (e.typ.Every? || e.typ.OnGesture?) && CleanTexts(e) && TriggerOf(e, bindings).Some?
    requires Ready(env, bindings, used) && StatementOut(e, 0, bindings).used <= used
    ensures MarkTriggers(EventDef(e, bindings).marks, env) == Some([TriggerOf(e, bindings).value])
  {
    hide StatementOut, GestureMark, TriggerOf, NumText, MarkTrigger, AliasIdentifier, TranslateBody;
    EventUses(e, bindings);
    if e.typ.Every? { EveryTrigger(e, bindings, env); } else { GestureTrigger(e, bindings, env); }
    var marks := EventDef(e, bindings).marks;
    assert marks[1..] == [];
    assert MarkTriggers([], env) == Some([]);
    assert [TriggerOf(e, bindings).value] + [] == [TriggerOf(e, bindings).value];
  }

  lemma GestureClean(e: Block)
    requires e.typ.OnGesture? && CleanTexts(e)
    ensures Quotable(TextOf(OrElse(FieldOf(e, Gesture), Plain("open_palm"))))
  {
  }

  ghost predicate Loadable(e: Block, bindings: seq<Binding>, names: set<string>) {
    !e.disabled && (e.typ.Every? || e.typ.OnGesture?) && CleanTexts(e) && TriggerOf(e, bindings).Some? &&
      EventName(e) in names
  }

  /** Loading the event functions registers each with its trigger and leaves other names alone. */
  lemma {:induction false} LoadEvents(
    events: seq<Block>, bindings: seq<Binding>, used: set<string>, names: set<string>, m: Module)
    returns (after: Module)
    requires forall b :: b in events ==> Loadable(b, bindings, names)
    requires Ready(m.env, bindings, used) && ChildrenOut(events, 0, bindings).used <= used
    requires names !! Identifiers(bindings) && names !! SDK_NAMES + {"range"}
    ensures LoadNodes(TranslateChildren(events, bindings), m) == Some(after)
    ensures after.handlers == m.handlers + HandlersOf(events, bindings)
    ensures KeepsOthers(m.env, after.env, names)
    ensures Ready(after.env, bindings, used)
  {
    hide StatementOut, Translate, TriggerOf, AliasIdentifier, EventName, Ready, EventDef, LoadNode, Identifiers;
    after := m;
    if events == [] {
      assert m.handlers + [] == m.handlers;
    } else {
      var e, rest := events[0], events[1..];
      assert e in events;
      var m1 := LoadEvent(e, bindings, used, names, m);
      EventDefIsTranslation(e, bindings);
      after := LoadEvents(rest, bindings, used, names, m1);
      var def := EventDef(e, bindings);
      assert TranslateChildren(events, bindings) == [def] + TranslateChildren(rest, bindings);
      assert ([def] + TranslateChildren(rest, bindings))[1..] == TranslateChildren(rest, bindings);
      var handler := HandlerOf(e, bindings);
      assert (m.handlers + [handler]) + HandlersOf(rest, bindings) ==
             m.handlers + ([handler] + HandlersOf(rest, bindings));
    }
  }

  lemma LoadEvent(e: Block, bindings: seq<Binding>, used: set<string>, names: set<string>, m: Module)
    returns (after: Module)
    requires Loadable(e, bindings, names)
    requires Ready(m.env, bindings, used) && StatementOut(e, 0, bindings).used <= used
    requires names !! Identifiers(bindings) && names !! SDK_NAMES + {"range"}
    ensures LoadNode(EventDef(e, bindings), m) == Some(after)
    ensures after.handlers == m.handlers + [HandlerOf(e, bindings)]
    ensures KeepsOthers(m.env, after.env, names) && Ready(after.env, bindings, used)
  {
    hide StatementOut, TriggerOf, AliasIdentifier, EventName, Ready, GestureMark, NumText, MarkTriggers;
    MarkCorrect(e, bindings, m.env, used);
    var def := EventDef(e, bindings);
    ReadyAfter(m.env, bindings, used, def.name, FunctionObject(def.body));
    after := Module(m.env[def.name := FunctionObject(def.body)],
                    m.handlers + [Handler([TriggerOf(e, bindings).value], def.body)]);
  }

  lemma ReadyAfter(env: Env, bindings: seq<Binding>, used: set<string>, name: string, value: Bound)
    requires Ready(env, bindings, used)
    requires name !in Identifiers(bindings) && name !in SDK_NAMES + {"range"}
    ensures Ready(env[name := value], bindings, used)
  {
    hide AliasIdentifier;
    forall b | b in bindings ensures AliasIdentifier(b.alias) != name {
      assert AliasIdentifier(b.alias) in Identifiers(bindings);
    }
  }

  // ---------------------------------------------------------------- the compiler theorem

  lemma DistinctCons(b: Binding, rest: seq<Binding>)
    requires DistinctIdentifiers(rest) && AliasIdentifier(b.alias) !in Identifiers(rest)
    ensures DistinctIdentifiers([b] + rest)
  {
    hide AliasIdentifier;
    var all := [b] + rest;
    forall i, j | 0 <= i < j < |all| ensures AliasIdentifier(all[i].alias) != AliasIdentifier(all[j].alias) {
      assert all[j] == rest[j - 1];
      assert all[j] in rest;
      if i > 0 { assert all[i] == rest[i - 1]; }
    }
  }

  lemma {:induction false} InsertDistinct(b: Binding, sorted: seq<Binding>, before: Before)
    requires DistinctIdentifiers(sorted) && AliasIdentifier(b.alias) !in Identifiers(sorted)
    ensures DistinctIdentifiers(Insert(b, sorted, before))
    ensures Identifiers(Insert(b, sorted, before)) == {AliasIdentifier(b.alias)} + Identifiers(sorted)
  {
    hide AliasIdentifier;
    if sorted == [] || !before(sorted[0].alias, b.alias) {
      DistinctCons(b, sorted);
    } else {
      DistinctRest(sorted);
      InsertDistinct(b, sorted[1..], before);
      DistinctCons(sorted[0], Insert(b, sorted[1..], before));
    }
    InsertMembers(b, sorted, before);
  }

  lemma {:induction false} SortedDistinct(bindings: seq<Binding>, before: Before)
    requires DistinctIdentifiers(bindings)
    ensures DistinctIdentifiers(Sorted(bindings, before))
    ensures Identifiers(Sorted(bindings, before)) == Identifiers(bindings)
  {
    hide AliasIdentifier;
    if bindings != [] {
      DistinctRest(bindings);
      SortedDistinct(bindings[1..], before);
      InsertDistinct(bindings[0], Sorted(bindings[1..], before), before);
    }
  }

  lemma NoUnderscoreInSdk(name: string)
    requires '_' in name
    ensures name !in SDK_NAMES + {"range"} && name != "main"
  {
  }

  lemma EventNameUnderscore(b: Block)
    requires b.typ.Every? || b.typ.OnGesture?
    ensures '_' in EventName(b)
  {
    if b.typ.Every? {
      var digits := ReplacePoint(NumText(SecondsOf(b)));
      assert EventName(b) == "every_" + digits + "s";
      assert EventName(b)[5] == '_';
    } else {
      assert EventName(b)[2] == '_';
    }
  }

  function EventNames(events: seq<Block>): set<string>
    requires forall b :: b in events ==> b.typ.Every? || b.typ.OnGesture?
  {
    set b | b in events :: EventName(b)
  }

  lemma EventNamesFree(blocks: seq<Block>, bindings: seq<Binding>)
    requires CompilableBindings(blocks, bindings)
    ensures EventNames(Events(blocks)) !! Identifiers(bindings)
    ensures EventNames(Events(blocks)) !! SDK_NAMES + {"range"} && "main" !in EventNames(Events(blocks))
  {
    hide AliasIdentifier, EventName;
    EventsMembers(blocks);
    forall b | b in Events(blocks) ensures EventName(b) !in SDK_NAMES + {"range"} && EventName(b) != "main" {
      EventNameUnderscore(b);
      NoUnderscoreInSdk(EventName(b));
    }
  }

  lemma IdentifiersFree(blocks: seq<Block>, bindings: seq<Binding>)
    requires CompilableBindings(blocks, bindings)
    ensures Identifiers(bindings) !! RESERVED
    ensures forall b :: b in bindings ==> Quotable(b.deviceId)
    ensures SDK_NAMES + {"range", "device", "_", "main"} == RESERVED
  {
    hide AliasIdentifier, EventName, DistinctIdentifiers;
  }

  /** Imports and alias assignments make the module ready: this is where the import line must list what is used. */
  lemma HeaderLoads(blocks: seq<Block>, bindings: seq<Binding>, before: Before) returns (m: Module)
    requires CompilableBindings(blocks, bindings)
    ensures LoadNodes([ImportNode(Imports(IMPORT_ORDER, ProgramOut(blocks, bindings).used))]
                      + AssignNodes(Sorted(bindings, before)), EMPTY_MODULE) == Some(m)
    ensures m.handlers == [] && Ready(m.env, bindings, ProgramOut(blocks, bindings).used) && "main" !in m.env
  {
    hide AliasIdentifier, EventName, ProgramOut, DistinctIdentifiers, CompilableBindings, Imports, Sorted, AssignNodes;
    var used := ProgramOut(blocks, bindings).used;
    var names, sorted := Imports(IMPORT_ORDER, used), Sorted(bindings, before);
    UsesProgram(blocks, bindings);
    IdentifiersFree(blocks, bindings);
    ImportsBind(names, EMPTY_MODULE.env);
    SortedMembers(bindings, before);
    DistinctOf(blocks, bindings);
    SortedDistinct(bindings, before);
    UsedAreImported(used);
    var m0 := EMPTY_MODULE.(env := ImportNames(names, EMPTY_MODULE.env));
    assert "device" in RESERVED && "main" in RESERVED && "main" !in IMPORT_ORDER;
    m := LoadAssigns(sorted, m0);
    LoadAppend([ImportNode(names)], AssignNodes(sorted), EMPTY_MODULE);
    assert [ImportNode(names)][1..] == [];
    assert LoadNodes([ImportNode(names)], EMPTY_MODULE) == Some(m0);
    ReadyAfterHeader(bindings, used, m0.env, m.env);
  }

  lemma ReadyAfterHeader(bindings: seq<Binding>, used: set<string>, imported: Env, env: Env)
    requires used <= SDK_NAMES && Identifiers(bindings) !! SDK_NAMES + {"range", "_"}
    requires (forall n :: n in used ==> IsSdk(imported, n)) && IsSdk(imported, "range")
    requires AllBound(env, bindings) && KeepsOthers(imported, env, Identifiers(bindings))
    ensures Ready(env, bindings, used)
  {
    hide AliasIdentifier;
    assert "range" in SDK_NAMES + {"range", "_"} && "_" in SDK_NAMES + {"range", "_"};
    forall n | n in used + {"range"} ensures IsSdk(env, n) {
      assert n in SDK_NAMES + {"range", "_"};
    }
    forall b | b in bindings ensures AliasIdentifier(b.alias) != "_" {
      assert AliasIdentifier(b.alias) in Identifiers(bindings);
    }
  }

  lemma DistinctOf(blocks: seq<Block>, bindings: seq<Binding>)
    requires CompilableBindings(blocks, bindings)
    ensures DistinctIdentifiers(bindings)
  {
  }

  lemma UsedAreImported(used: set<string>)
    requires used <= SDK_NAMES
    ensures forall n :: n in used + {"device"} ==> n in Imports(IMPORT_ORDER, used)
    ensures "range" !in Imports(IMPORT_ORDER, used)
  {
    assert SDK_NAMES + {"device"} == set n | n in IMPORT_ORDER;
    assert "range" !in IMPORT_ORDER;
  }

  lemma FileLoads(blocks: seq<Block>, bindings: seq<Binding>, before: Before) returns (m: Module)
    requires CompilableProgram(blocks, bindings)
    ensures LoadNodes(FileNodes(blocks, bindings, before), EMPTY_MODULE) == Some(m)
    ensures m.handlers == HandlersOf(Events(blocks), bindings)
    ensures Ready(m.env, bindings, ProgramOut(blocks, bindings).used)
    ensures "main" in m.env <==> HasMain(blocks)
    ensures HasMain(blocks) ==> m.env["main"] == FunctionObject(TranslateBody(MainSteps(blocks), bindings))
  {
    hide AliasIdentifier, EventName, ProgramOut, DistinctIdentifiers, Imports, Sorted, AssignNodes, Ready, TriggerOf,
         Identifiers, SuitedProgram, CompilableChildren, TranslateChildren, HandlersOf, EventNames, TranslateBody,
         CompilableBindings, CompilableEvent, LoadNode, Quotable, MainNodes, Loadable, Events;
    var used, events := ProgramOut(blocks, bindings).used, Events(blocks);
    var m1 := HeaderLoads(blocks, bindings, before);
    UsesProgram(blocks, bindings);
    EventNamesFree(blocks, bindings);
    IdentifiersFree(blocks, bindings);
    var names := EventNames(events);
    EventsLoadable(blocks, bindings);
    var m2 := LoadEvents(events, bindings, used, names, m1);
    assert [] + HandlersOf(events, bindings) == HandlersOf(events, bindings);
    m := MainLoads(blocks, bindings, used, m2);
    var head, assigns := [ImportNode(Imports(IMPORT_ORDER, used))], AssignNodes(Sorted(bindings, before));
    var defs, main := TranslateChildren(events, bindings), MainNodes(blocks, bindings);
    assert FileNodes(blocks, bindings, before) == (head + assigns) + (defs + main);
    LoadAppend(head + assigns, defs + main, EMPTY_MODULE);
    LoadAppend(defs, main, m1);
  }

  lemma EventsLoadable(blocks: seq<Block>, bindings: seq<Binding>)
    requires CompilableProgram(blocks, bindings)
    ensures forall b :: b in Events(blocks) ==> Loadable(b, bindings, EventNames(Events(blocks)))
  {
    MainCompilable(blocks, bindings);
    hide EventName, TriggerOf, CleanTexts, CompilableChildren, SuitedProgram, CompilableBindings;
  }

  lemma MainLoads(blocks: seq<Block>, bindings: seq<Binding>, used: set<string>, m: Module) returns (after: Module)
    requires Ready(m.env, bindings, used) && Identifiers(bindings) !! RESERVED
    ensures LoadNodes(MainNodes(blocks, bindings), m) == Some(after)
    ensures after.handlers == m.handlers && Ready(after.env, bindings, used)
    ensures HasMain(blocks) ==>
              "main" in after.env && after.env["main"] == FunctionObject(TranslateBody(MainSteps(blocks), bindings))
    ensures !HasMain(blocks) ==> after == m
  {
    hide Ready, TranslateBody, Identifiers;
    after := m;
    if HasMain(blocks) {
      var value := FunctionObject(TranslateBody(MainSteps(blocks), bindings));
      after := m.(env := m.env["main" := value]);
      assert "main" in RESERVED;
      MainIsNoSdkName();
      ReadyAfter(m.env, bindings, used, "main", value);
      assert MainNodes(blocks, bindings)[1..] == [];
    }
  }

  lemma MainIsNoSdkName()
    ensures "main" !in SDK_NAMES + {"range"}
  {
  }

  lemma {:induction false} HandlersAt(events: seq<Block>, bindings: seq<Binding>)
    ensures |HandlersOf(events, bindings)| == |events|
    ensures forall i :: 0 <= i < |events| ==> HandlersOf(events, bindings)[i] == HandlerOf(events[i], bindings)
  {
    if events != [] { HandlersAt(events[1..], bindings); }
  }

  lemma {:induction false} EventBodyUses(events: seq<Block>, i: nat, bindings: seq<Binding>)
    requires i < |events| && !events[i].disabled && IsEvent(events[i].typ)
    ensures BodyOut(events[i].children, 1, bindings).used <= ChildrenOut(events, 0, bindings).used
  {
    hide StatementOut;
    if i > 0 {
      EventBodyUses(events[1..], i - 1, bindings);
    } else {
      EventOwnUses(events[0], bindings);
    }
  }

  lemma EventOwnUses(e: Block, bindings: seq<Binding>)
    requires IsEvent(e.typ)
    ensures BodyOut(e.children, 1, bindings).used <= StatementOut(e, 0, bindings).used
  {
    hide PythonString, PythonNumber, AliasIdentifier, Resolve, CommentOut, EveryName;
    assert BodyOut(e.children, 1, bindings).used <= OwnOut(e, 0, bindings, BlockSpecOf(e.typ).value).used;
  }

  /**
   * Compiling preserves meaning. The generated file is a Python module; loading it raises nothing; every enabled timer
   * and gesture block is registered, in order, with its trigger and a body that leaves the trace of its enabled blocks;
   * there is a `main()` exactly when the program has something else, and it leaves the trace of the program, for every
   * sensor oracle.
   */
  lemma CompilerCorrect(blocks: seq<Block>, bindings: seq<Binding>, before: Before) returns (m: Module, at: seq<nat>)
    requires CompilableProgram(blocks, bindings)
    ensures ParseModule(FileLines(blocks, bindings, before)).Some?
    ensures LoadNodes(ParseModule(FileLines(blocks, bindings, before)).value, EMPTY_MODULE) == Some(m)
    ensures MeansTheBlocks(m, at, blocks, bindings)
  {
    hide AliasIdentifier, FileLines, FileNodes, ProgramOut, Ready, TriggerOf, TranslateBody, CompilableProgram, Events,
         HandlersOf, MainSteps, RunNodes, Perform, PerformProgram, HasMain, RunsMain, IsHandler, ListsHandlers,
         HandlersMean, MainMeans, SuitedProgram;
    FileParses(blocks, bindings, before);
    assert SuitedProgram(blocks, bindings) by { ProgramSuited(blocks, bindings); }
    m := FileLoads(blocks, bindings, before);
    at := EventsListed(blocks);
    HandlersCorrect(blocks, bindings, at, m);
    MainCorrect(blocks, bindings, m);
  }

  lemma ProgramSuited(blocks: seq<Block>, bindings: seq<Binding>)
    requires CompilableProgram(blocks, bindings)
    ensures SuitedProgram(blocks, bindings)
  {
    hide SuitedProgram, CompilableBindings, CompilableTop;
  }

  /** The handlers of a module are those of the enabled timer and gesture blocks, in the order of the list. */
  ghost predicate HandlersMean(m: Module, at: seq<nat>, blocks: seq<Block>, bindings: seq<Binding>) {
    && ListsHandlers(at, blocks) && |m.handlers| == |at|
    && (forall k :: 0 <= k < |at| ==>
          && TriggerOf(blocks[at[k]], bindings).Some?
          && m.handlers[k].triggers == [TriggerOf(blocks[at[k]], bindings).value])
    && (forall k, oracle, t :: 0 <= k < |at| ==>
          RunNodes(m.handlers[k].body, m.env, oracle, t) ==
          Some(Perform(blocks[at[k]].children, bindings, oracle, t)))
  }

  /** Its `main()` is there exactly when the program needs one, and leaves the program's trace. */
  ghost predicate MainMeans(m: Module, blocks: seq<Block>, bindings: seq<Binding>) {
    && ("main" in m.env <==> RunsMain(blocks))
    && (RunsMain(blocks) ==> forall oracle :: RunMain(m, oracle) == Some(PerformProgram(blocks, bindings, oracle)))
  }

  ghost predicate MeansTheBlocks(m: Module, at: seq<nat>, blocks: seq<Block>, bindings: seq<Binding>) {
    HandlersMean(m, at, blocks, bindings) && MainMeans(m, blocks, bindings)
  }

  lemma HandlersCorrect(blocks: seq<Block>, bindings: seq<Binding>, at: seq<nat>, m: Module)
    requires CompilableProgram(blocks, bindings) && ListsHandlers(at, blocks) && Picks(Events(blocks), at, blocks)
    requires m.handlers == HandlersOf(Events(blocks), bindings)
    requires Ready(m.env, bindings, ProgramOut(blocks, bindings).used)
    ensures HandlersMean(m, at, blocks, bindings)
  {
    hide AliasIdentifier, ProgramOut, Ready, TriggerOf, TranslateBody, CleanTexts, CompilableProgram, BodyOut,
         ChildrenOut, CompilableChildren, HandlersOf, MainSteps, RunNodes, Perform, ListsHandlers;
    var events, used := Events(blocks), ProgramOut(blocks, bindings).used;
    HandlersAt(events, bindings);
    UsesProgram(blocks, bindings);
    MainCompilable(blocks, bindings);
    forall k | 0 <= k < |at|
      ensures TriggerOf(blocks[at[k]], bindings).Some?
    {
      assert events[k] in events;
    }
    forall k, oracle, t | 0 <= k < |at|
      ensures RunNodes(m.handlers[k].body, m.env, oracle, t) ==
              Some(Perform(blocks[at[k]].children, bindings, oracle, t))
    {
      assert events[k] in events;
      EventBodyUses(events, k, bindings);
      BodyCorrect(events[k].children, 1, bindings, m.env, used, oracle, t);
    }
  }

  lemma MainCorrect(blocks: seq<Block>, bindings: seq<Binding>, m: Module)
    requires CompilableProgram(blocks, bindings) && Ready(m.env, bindings, ProgramOut(blocks, bindings).used)
    requires "main" in m.env <==> HasMain(blocks)
    requires HasMain(blocks) ==> m.env["main"] == FunctionObject(TranslateBody(MainSteps(blocks), bindings))
    ensures MainMeans(m, blocks, bindings)
  {
    hide AliasIdentifier, ProgramOut, Ready, TranslateBody, CompilableProgram, BodyOut, CompilableChildren, MainSteps,
         RunNodes, Perform, HasMain, PerformProgram;
    MainExactly(blocks);
    MainCompilable(blocks, bindings);
    UsesProgram(blocks, bindings);
    if HasMain(blocks) {
      forall oracle: Oracle ensures RunMain(m, oracle) == Some(PerformProgram(blocks, bindings, oracle)) {
        BodyCorrect(MainSteps(blocks), 1, bindings, m.env, ProgramOut(blocks, bindings).used, oracle, []);
        MainPerforms(blocks, bindings, oracle);
      }
    }
  }
}
