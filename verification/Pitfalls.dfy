/** Where the compiler does less than a first reading suggests: for each place a law of what it does, or an input. */
module Pitfalls {
  import opened Wrappers
  import opened Text
  import opened Values
  import opened Catalog
  import opened Python
  import opened Generate
  import opened Structure
  import opened Literals
  import opened Meaning
  import opened TopLevel
  import opened Program
  import opened PythonText
  import opened PythonReader
  import opened PythonLines
  import opened LineEnds
  import opened FileText

  function Plainly(id: string, typ: BlockType, children: seq<Block>, comment: string): Block {
    Block(id, typ, map[], children, false, comment)
  }

  /** A commented block that only warns leaves a suite without a statement, and Python refuses the whole file. */
  lemma CommentOnlySuiteRefused(before: Before)
    ensures var hud := Plainly("h", HudShow, [], "say hello");
            ParseModule(FileLines([Plainly("r", Repeat, [hud], "")], [], before)) == None
  {
    hide FileLines, FileNodes;
    var hud := Plainly("h", HudShow, [], "say hello");
    var repeat := Plainly("r", Repeat, [hud], "");
    var blocks := [repeat];
    FileParses(blocks, [], before);
    assert blocks[1..] == [];
    assert Starts(blocks) == [] && Loose(blocks) == [repeat];
    assert MainSteps(blocks) == [repeat];
    assert AnyComment([hud]) by { assert ![hud][0].disabled && [hud][0].comment != ""; }
    assert ResolvedAlias(hud, []) == None;
    assert !AnyCode([hud], []);
    assert !Suited(repeat, []);
  }

  /** A condition is read from the first child whether or not that child is enabled. */
  lemma ConditionIgnoresDisabled(b: Block, flag: bool, depth: nat, bindings: seq<Binding>)
    requires b.typ.If? && b.children != []
    ensures StatementOut(b.(children := [b.children[0].(disabled := flag)] + b.children[1..]), depth, bindings) ==
            StatementOut(b, depth, bindings)
  {
    hide BodyOut, CommentOut;
    var c := b.(children := [b.children[0].(disabled := flag)] + b.children[1..]);
    assert c.children[1..] == b.children[1..];
    assert Resolve(c.children[0], bindings) == Resolve(b.children[0], bindings) &&
           Resolve(c, bindings) == Resolve(b, bindings);
    assert ExpressionOf(c.children[0], bindings) == ExpressionOf(b.children[0], bindings);
    assert ExpressionOut(c.children[0], bindings) == ExpressionOut(b.children[0], bindings);
    var spec := BlockSpecOf(If).value;
    var origin := Some(Origin(b.id, b.typ, OwnAlias(b, spec, bindings)));
    assert OwnAlias(c, spec, bindings) == OwnAlias(b, spec, bindings);
    assert IfOut(c.children, depth, bindings, origin) == IfOut(b.children, depth, bindings, origin);
    assert OwnOut(c, depth, bindings, spec) == IfOut(c.children, depth, bindings, origin);
    assert OwnOut(b, depth, bindings, spec) == IfOut(b.children, depth, bindings, origin);
  }

  /** An `if` that starts with a statement instead of a value swallows it and never runs any of its blocks. */
  lemma StatementAsConditionRunsNothing(b: Block, bindings: seq<Binding>, env: Env, oracle: Oracle, t: Trace)
    requires b.typ.If? && b.children != [] && !IsReporter(b.children[0].typ)
    ensures RunNodes(Translate(b, bindings), env, oracle, t) == Some(t)
    ensures Warning(b.children[0].id, b.children[0].typ, NotAValue) in ExpressionOut(b.children[0], bindings).warnings
  {
    hide TranslateBody;
    var nodes := Translate(b, bindings);
    assert nodes == [IfNode(NoneLiteral, TranslateBody(b.children[1..], bindings))];
    assert nodes[1..] == [];
    var w := Warning(b.children[0].id, b.children[0].typ, NotAValue);
    assert WarnOut(b.children[0], NotAValue).warnings == [w];
  }

  /** A wait or a message inside `parallel` needs no device, yet warns about a missing one unless there is just one. */
  lemma ParallelWarnsWithoutNeed(b: Block, bindings: seq<Binding>)
    requires (b.typ.Wait? || b.typ.Log?) && Device !in b.fields
    ensures ItemOut(b, bindings).warnings == [] <==> |bindings| == 1
    ensures |bindings| != 1 ==> ItemOut(b, bindings).warnings == [Warning(b.id, b.typ, NoDeviceNamed)]
    ensures !ItemCall(b, bindings).OnDevice?
  {
  }

  /** Of two aliases with one identifier only the later device can be reached. */
  lemma CollidingAliasesLoseDevice(first: Binding, second: Binding, m: Module)
    requires IsSdk(m.env, "device") && Quotable(first.deviceId) && Quotable(second.deviceId)
    requires AliasIdentifier(first.alias) == AliasIdentifier(second.alias) != "device"
    ensures LoadNodes(AssignNodes([first, second]), m) ==
            Some(m.(env := m.env[AliasIdentifier(first.alias) := DeviceObject(second.deviceId)]))
  {
    hide PythonString, AliasIdentifier, LoadNode;
    var name := AliasIdentifier(first.alias);
    var between := m.(env := m.env[name := DeviceObject(first.deviceId)]);
    LoadAssign(first, m);
    LoadAssign(second, between);
    var nodes := AssignNodes([first, second]);
    assert [first, second][1..] == [second] && [second][1..] == [];
    assert nodes[1..] == AssignNodes([second]) && AssignNodes([second])[1..] == AssignNodes([]);
    assert LoadNodes(nodes, m) == LoadNodes(AssignNodes([second]), between);
    var after := between.(env := between.env[name := DeviceObject(second.deviceId)]);
    var one := AssignNodes([second]);
    assert one[0] == AssignNode(name, PythonString(Plain(second.deviceId))) && one[1..] == [];
    assert LoadNodes(one, between) == LoadNodes([], after);
    assert m.env[name := DeviceObject(first.deviceId)][name := DeviceObject(second.deviceId)] ==
           m.env[name := DeviceObject(second.deviceId)];
  }

  // ---------------------------------------------------------------- a comment that runs

  function Says(message: string, comment: string): Block {
    Block("b", Log, map[Message := Plain(message)], [], false, comment)
  }

  function SaysLine(message: string): Line { Line(1, Await(LogCall(PythonString(Plain(message))))) }

  const SAYING_HEAD: seq<Line> :=
    [Line(0, Import(["device", "log"])), Line(0, Blank), Line(0, Blank), Line(0, AsyncDef("main"))]

  predicate AllSay(blocks: seq<Block>) {
    forall i :: 0 <= i < |blocks| ==> blocks[i].typ.Log? && !blocks[i].disabled
  }

  lemma {:induction false} SayingLoose(blocks: seq<Block>)
    requires AllSay(blocks)
    ensures Loose(blocks) == blocks && Starts(blocks) == [] && Events(blocks) == []
  {
    if blocks != [] {
      assert AllSay(blocks[1..]) by { assert forall i :: 0 <= i < |blocks[1..]| ==> blocks[1..][i] == blocks[i + 1]; }
      SayingLoose(blocks[1..]);
      assert blocks == [blocks[0]] + blocks[1..];
    }
  }

  lemma {:induction false} SayingUses(blocks: seq<Block>)
    requires AllSay(blocks) && blocks != []
    ensures ChildrenOut(blocks, 1, []).used == {"log"} && ChildrenOut(blocks, 1, []).lines != []
    ensures !ChildrenOut(blocks, 1, []).lines[|ChildrenOut(blocks, 1, []).lines| - 1].stmt.Blank?
  {
    hide PythonString, CommentOut;
    var rest := blocks[1..];
    SayingUse(blocks[0]);
    if rest != [] {
      assert AllSay(rest) by { assert forall i :: 0 <= i < |rest| ==> rest[i] == blocks[i + 1]; }
      SayingUses(rest);
    } else {
      assert ChildrenOut(rest, 1, []) == NOTHING;
    }
  }

  lemma SayingUse(b: Block)
    requires b.typ.Log?
    ensures StatementOut(b, 1, []).used == {"log"} && StatementOut(b, 1, []).lines != []
    ensures !StatementOut(b, 1, []).lines[|StatementOut(b, 1, []).lines| - 1].stmt.Blank?
    ensures StatementOut(b, 1, []).lines ==
            CommentOut(b.comment, 1).lines + [Line(1, Await(LogCall(PythonString(FieldOf(b, Message)))))]
  {
    hide PythonString, CommentOut, Resolve;
    CommentUses(b.comment, 1);
    assert [] + [Line(1, Await(LogCall(PythonString(FieldOf(b, Message)))))] ==
           [Line(1, Await(LogCall(PythonString(FieldOf(b, Message)))))];
  }

  lemma SayingMain(blocks: seq<Block>)
    requires AllSay(blocks) && blocks != []
    ensures MainSteps(blocks) == blocks && HasMain(blocks) && Events(blocks) == []
    ensures ProgramOut(blocks, []).used == {"log"}
    ensures ProgramOut(blocks, []).lines ==
            [Line(0, AsyncDef("main"))] + ChildrenOut(blocks, 1, []).lines + [Line(0, Blank)]
  {
    hide ChildrenOut, AllSay;
    SayingLoose(blocks);
    SayingUses(blocks);
    assert MainSteps(blocks) == blocks;
    var body := ChildrenOut(blocks, 1, []).lines;
    assert [] + [Line(0, AsyncDef("main"))] + body + [Line(0, Blank)] ==
           [Line(0, AsyncDef("main"))] + body + [Line(0, Blank)];
  }

  lemma SayingHeader(before: Before)
    ensures HeaderOut({"log"}, [], before).lines == SAYING_HEAD[..3]
  {
    hide Imports;
    SayingImports();
    assert AssignOut([]).lines == [] && Sorted([], before) == [];
    var head := [Line(0, Import(["device", "log"]))];
    assert head + BLANKS.lines + [] + [] == head + BLANKS.lines;
    assert BLANKS.lines == [Line(0, Blank), Line(0, Blank)];
  }

  /** The file of message blocks alone. */
  lemma SayingFile(blocks: seq<Block>, before: Before)
    requires AllSay(blocks) && blocks != []
    ensures FileLines(blocks, [], before) == SAYING_HEAD + ChildrenOut(blocks, 1, []).lines
  {
    hide ChildrenOut, HeaderOut, ProgramOut, AllSay, TrimBlank;
    SayingMain(blocks);
    SayingUses(blocks);
    SayingHeader(before);
    var body := ChildrenOut(blocks, 1, []).lines;
    assert SAYING_HEAD == SAYING_HEAD[..3] + [Line(0, AsyncDef("main"))];
    assert FileOut(blocks, [], before).lines == SAYING_HEAD + body + [Line(0, Blank)];
    TrimOne(SAYING_HEAD + body);
  }

  lemma ImportsStep(name: string, rest: seq<string>)
    ensures Imports([name] + rest, {"log"}) ==
            if name == "log" || name == "device" then [name] + Imports(rest, {"log"}) else Imports(rest, {"log"})
  {
    assert ([name] + rest)[1..] == rest;
  }

  lemma SayingImports()
    ensures Imports(IMPORT_ORDER, {"log"}) == ["device", "log"]
  {
    hide Imports;
    var order := IMPORT_ORDER;
    assert order == [order[0]] + order[1..] && order[1..] == [order[1]] + order[2..];
    assert order[2..] == [order[2]] + order[3..] && order[3..] == [order[3]] + order[4..];
    assert order[4..] == [order[4]] + order[5..] && order[5..] == [order[5]] + [];
    ImportsStep(order[0], order[1..]);
    ImportsStep(order[1], order[2..]);
    ImportsStep(order[2], order[3..]);
    ImportsStep(order[3], order[4..]);
    ImportsStep(order[4], order[5..]);
    ImportsStep(order[5], []);
    NoImports();
  }

  lemma NoImports()
    ensures Imports([], {"log"}) == []
  {
  }

  lemma TrimOne(kept: seq<Line>)
    requires kept != [] && !kept[|kept| - 1].stmt.Blank?
    ensures TrimBlank(kept + [Line(0, Blank)]) == kept
  {
    assert (kept + [Line(0, Blank)])[..|kept|] == kept;
  }

  lemma {:induction false} FilePiecesAppend(a: seq<string>, b: seq<string>)
    ensures FilePieces(a + b) == FilePieces(a) + FilePieces(b)
  {
    hide Pieces;
    if a == [] {
      assert a + b == b;
    } else {
      assert (a + b)[1..] == a[1..] + b;
      FilePiecesAppend(a[1..], b);
    }
  }

  predicate OneLineText(text: string) { text != "" && '\n' !in text && Quotable(text) }

  /** The comment's text, a carriage return, and a call of `log` indented like the body of `main()`. */
  function RunningComment(text: string, hidden: string): string { text + "\r" + RenderLine(SaysLine(hidden)) }

  lemma SaysText(message: string)
    ensures '\n' !in RenderLine(SaysLine(message)) && RenderLine(SaysLine(message)) != ""
    ensures Quotable(message) ==> Quotable(RenderLine(SaysLine(message)))
  {
    hide PythonString, Quotable, Indent, RenderLine;
    var literal := PythonString(Plain(message));
    PythonStringNoLineFeed(Plain(message));
    IndentUnquoted(1);
    SaysRendered(message);
    if Quotable(message) {
      StringQuotable(Plain(message));
      CallPartsQuotable(Indent(1));
      QuotableWithin("log(", literal, ")");
      QuotableAppend("await ", "log(" + literal + ")");
      QuotableAppend(Indent(1), "await " + ("log(" + literal + ")"));
    }
  }

  lemma SaysRendered(message: string)
    ensures RenderLine(SaysLine(message)) ==
            Indent(1) + ("await " + ("log(" + PythonString(Plain(message)) + ")"))
  {
    hide PythonString, Indent;
  }

  lemma CallPartsQuotable(indent: string)
    requires SpacesOnly(indent)
    ensures Quotable(indent) && Quotable("await ") && Quotable("log(") && Quotable(")")
  {
  }

  lemma CommentText(text: string)
    ensures RenderLine(Line(1, Comment(text))) == "    # " + text
  {
    assert Indent(1) == "    " + Indent(0);
    BlankText(Line(1, Comment(text)));
  }

  lemma OneCommentLine(text: string)
    requires text != "" && '\n' !in text
    ensures CommentOut(text, 1).lines == [Line(1, Comment(text))]
  {
    hide Split;
    SplitWhole(text, '\n');
    assert [text][1..] == [] && CommentLines([], 1) == NOTHING;
    assert CommentLines([text], 1).lines == [Line(1, Comment(text))] + NOTHING.lines;
    assert [Line(1, Comment(text))] + [] == [Line(1, Comment(text))];
  }

  lemma PlainProgram(text: string, hidden: string, message: string, before: Before)
    requires OneLineText(text)
    ensures FileLines([Says(hidden, text), Says(message, "")], [], before) ==
            SAYING_HEAD + [Line(1, Comment(text)), SaysLine(hidden), SaysLine(message)]
  {
    hide FileLines, StatementOut, PythonString, CommentOut;
    var first, second := Says(hidden, text), Says(message, "");
    SayingFile([first, second], before);
    SayingUse(first);
    SayingUse(second);
    OneCommentLine(text);
    NoComment();
    assert [first, second][1..] == [second] && [second][1..] == [];
    assert ChildrenOut([second], 1, []).lines == [SaysLine(message)];
  }

  lemma NoComment()
    ensures CommentOut("", 1).lines == []
  {
  }

  lemma HidingProgram(text: string, hidden: string, message: string, before: Before)
    requires OneLineText(text)
    ensures FileLines([Says(message, RunningComment(text, hidden))], [], before) ==
            SAYING_HEAD + [Line(1, Comment(RunningComment(text, hidden))), SaysLine(message)]
  {
    hide FileLines, StatementOut, PythonString, CommentOut, RenderLine;
    var only := Says(message, RunningComment(text, hidden));
    SayingFile([only], before);
    SayingUse(only);
    SaysText(hidden);
    OneCommentLine(RunningComment(text, hidden));
    assert [only][1..] == [];
  }

  /** Python cuts the comment's line into a comment and a line of code. */
  lemma HiddenPieces(text: string, hidden: string)
    requires OneLineText(text)
    ensures FilePieces(RenderLines([Line(1, Comment(RunningComment(text, hidden)))])) ==
            FilePieces(RenderLines([Line(1, Comment(text)), SaysLine(hidden)]))
  {
    hide RenderLine, Pieces;
    var head, code := "    # " + text, RenderLine(SaysLine(hidden));
    CommentText(text);
    CommentText(RunningComment(text, hidden));
    SaysText(hidden);
    assert "    # " + RunningComment(text, hidden) == head + "\r" + code;
    FirstPiece(head, code);
    WholePiece(head);
    var lines := [Line(1, Comment(text)), SaysLine(hidden)];
    assert lines[1..] == [SaysLine(hidden)];
    assert RenderLines(lines) == [head, code] && [head, code][1..] == [code] && [code][1..] == [];
    assert FilePieces([code]) == Pieces(code);
  }

  lemma WholePiece(text: string)
    requires '\r' !in text && text != ""
    ensures Pieces(text) == [text]
  {
    assert text[|text| - 1] in text;
    SplitWhole(text, '\r');
  }

  lemma SamePieces(text: string, hidden: string, message: string, before: Before)
    requires OneLineText(text)
    ensures FilePieces(RenderLines(FileLines([Says(message, RunningComment(text, hidden))], [], before))) ==
            FilePieces(RenderLines(FileLines([Says(hidden, text), Says(message, "")], [], before)))
  {
    hide FileLines, FilePieces, RenderLines, RenderLine, PythonString;
    HidingProgram(text, hidden, message, before);
    PlainProgram(text, hidden, message, before);
    HiddenPieces(text, hidden);
    var one, two := [Line(1, Comment(RunningComment(text, hidden)))], [Line(1, Comment(text)), SaysLine(hidden)];
    var last := [SaysLine(message)];
    assert SAYING_HEAD + [Line(1, Comment(RunningComment(text, hidden))), SaysLine(message)] ==
           SAYING_HEAD + (one + last);
    assert SAYING_HEAD + [Line(1, Comment(text)), SaysLine(hidden), SaysLine(message)] == SAYING_HEAD + (two + last);
    PiecesApart(one, last);
    PiecesApart(two, last);
  }

  lemma PiecesApart(middle: seq<Line>, last: seq<Line>)
    ensures FilePieces(RenderLines(SAYING_HEAD + (middle + last))) ==
            FilePieces(RenderLines(SAYING_HEAD)) + (FilePieces(RenderLines(middle)) + FilePieces(RenderLines(last)))
  {
    hide FilePieces, RenderLines;
    RenderAppend(middle, last);
    RenderAppend(SAYING_HEAD, middle + last);
    FilePiecesAppend(RenderLines(middle), RenderLines(last));
    FilePiecesAppend(RenderLines(SAYING_HEAD), RenderLines(middle + last));
  }

  lemma {:induction false} SayingCompilable(blocks: seq<Block>)
    requires AllSay(blocks) && forall b :: b in blocks ==> Clean(FieldOf(b, Message))
    ensures (forall b :: b in blocks ==> CompilableTop(b, [])) && SuitedChildren(blocks, [])
  {
    hide Clean, FieldOf;
    if blocks != [] {
      var rest := blocks[1..];
      assert blocks[0] in blocks;
      assert AllSay(rest) by { assert forall i :: 0 <= i < |rest| ==> rest[i] == blocks[i + 1]; }
      SayingCompilable(rest);
      assert Compilable(blocks[0], []);
      assert blocks == [blocks[0]] + rest;
    }
  }

  lemma NoBindings(blocks: seq<Block>)
    ensures CompilableBindings(blocks, [])
  {
  }

  lemma SayingSuited(blocks: seq<Block>)
    requires AllSay(blocks) && blocks != [] && SuitedChildren(blocks, [])
    ensures SuitedBody(blocks, []) && SuitedChildren([], [])
  {
    hide SuitedChildren;
    EmptySuited([]);
    assert !blocks[0].disabled && HasCode(blocks[0], []);
  }

  lemma PlainCompilable(text: string, hidden: string, message: string)
    requires Quotable(hidden) && Quotable(message)
    ensures CompilableProgram([Says(hidden, text), Says(message, "")], [])
  {
    hide Quotable, CompilableTop, SuitedChildren, SuitedBody, MainSteps, HasMain, CompilableBindings, Events,
         ProgramOut, ChildrenOut;
    var blocks := [Says(hidden, text), Says(message, "")];
    SayingMain(blocks);
    SayingCompilable(blocks);
    SayingSuited(blocks);
    NoBindings(blocks);
  }

  lemma PlainQuiet(text: string, hidden: string, message: string)
    requires OneLineText(text)
    ensures QuietProgram([Says(hidden, text), Says(message, "")])
  {
    hide OneLineText, QuietComment, QuietChildren;
    EmptyCommentQuiet();
    OneLineQuiet(text);
    TwoQuiet(Says(hidden, text), Says(message, ""));
  }

  lemma TwoQuiet(a: Block, b: Block)
    requires a.typ.Log? && b.typ.Log? && QuietComment(a.comment) && QuietComment(b.comment)
    ensures QuietChildren([a, b])
  {
    hide QuietComment, Quiet;
    assert [a, b][1..] == [b] && [b][1..] == [];
    LogQuiet(a);
    LogQuiet(b);
    assert QuietChildren([]);
    assert QuietChildren([b]);
  }

  lemma LogQuiet(b: Block)
    requires b.typ.Log? && QuietComment(b.comment)
    ensures Quiet(b)
  {
  }

  lemma OneLineQuiet(text: string)
    requires OneLineText(text)
    ensures QuietComment(text)
  {
    hide Split;
    SplitWhole(text, '\n');
    SplitWhole(text, '\r');
  }

  lemma SayingStep(b: Block, rest: seq<Block>, oracle: Oracle, t: Trace)
    requires b.typ.Log? && !b.disabled
    ensures Perform([b] + rest, [], oracle, t) ==
            Perform(rest, [], oracle, t + [Logged(TextOf(FieldOf(b, Message)))])
  {
    assert ([b] + rest)[1..] == rest;
  }

  /** What the blocks of the two programs do. */
  lemma SayingPerforms(hidden: string, message: string, text: string, comment: string, oracle: Oracle)
    ensures Perform([Says(hidden, text), Says(message, "")], [], oracle, []) == [Logged(hidden), Logged(message)]
    ensures Perform([Says(message, comment)], [], oracle, []) == [Logged(message)]
  {
    hide Perform;
    var first, second, only := Says(hidden, text), Says(message, ""), Says(message, comment);
    SayingStep(first, [second], oracle, []);
    SayingStep(second, [], oracle, [Logged(hidden)]);
    SayingStep(only, [], oracle, []);
    assert [first] + [second] == [first, second] && [second] + [] == [second] && [only] + [] == [only];
    assert [Logged(hidden)] + [Logged(message)] == [Logged(hidden), Logged(message)];
    assert [] + [Logged(hidden)] == [Logged(hidden)] && [] + [Logged(message)] == [Logged(message)];
    PerformNothing(oracle, [Logged(hidden), Logged(message)]);
    PerformNothing(oracle, [Logged(message)]);
  }

  lemma PerformNothing(oracle: Oracle, t: Trace)
    ensures Perform([], [], oracle, t) == t
  {
  }

  /**
   * What a comment says after a carriage return runs: the file of one block that says a message and carries such a
   * comment loads as a module whose `main()` says the hidden message first, for all texts.
   */
  lemma CommentRuns(text: string, hidden: string, message: string, before: Before, oracle: Oracle) returns (m: Module)
    requires OneLineText(text) && Quotable(hidden) && Quotable(message)
    ensures var blocks := [Says(message, RunningComment(text, hidden))];
            && LoadFile(PythonFile(blocks, [], before)) == Some(m)
            && RunMain(m, oracle) == Some([Logged(hidden), Logged(message)])
            && PerformProgram(blocks, [], oracle) == [Logged(message)]
  {
    hide PythonFile, RunMain, Perform, LoadFile, CompilableProgram, QuietProgram, RunNodes, TriggerOf, RunningComment,
         MainSteps, HasMain, Events, ProgramOut, ChildrenOut, OneLineText, Quotable, PerformProgram, HandlersMean;
    var hiding, plain := [Says(message, RunningComment(text, hidden))], [Says(hidden, text), Says(message, "")];
    PlainCompilable(text, hidden, message);
    PlainQuiet(text, hidden, message);
    SayingMain(hiding);
    SayingMain(plain);
    ghost var at;
    m, at := GeneratedFileMeansTheBlocks(plain, [], before);
    SayingPerforms(hidden, message, text, RunningComment(text, hidden), oracle);
    MainPerforms(plain, [], oracle);
    MainPerforms(hiding, [], oracle);
    MainExactly(plain);
    SameReading(text, hidden, message, before);
    LoadsAlike(PythonFile(hiding, [], before), PythonFile(plain, [], before));
  }

  lemma LoadsAlike(a: string, b: string)
    requires ReadFile(a) == ReadFile(b)
    ensures LoadFile(a) == LoadFile(b)
  {
  }

  /** Python reads the two files as the same lines. */
  lemma SameReading(text: string, hidden: string, message: string, before: Before)
    requires OneLineText(text)
    ensures ReadFile(PythonFile([Says(message, RunningComment(text, hidden))], [], before)) ==
            ReadFile(PythonFile([Says(hidden, text), Says(message, "")], [], before))
  {
    hide FileLines, FilePieces, RenderLine, ReadLines, PhysicalLines, Quotable;
    var hiding, plain := [Says(message, RunningComment(text, hidden))], [Says(hidden, text), Says(message, "")];
    SamePieces(text, hidden, message, before);
    FileParts(hiding, before);
    FileParts(plain, before);
    SameNull(text, hidden, message, before);
  }

  lemma FileParts(blocks: seq<Block>, before: Before)
    ensures PhysicalLines(PythonFile(blocks, [], before)) ==
            FilePieces(RenderLines(FileLines(blocks, [], before))) + [""]
  {
    hide FileLines, FilePieces, RenderLine, PhysicalLines;
    FileNoFeed(blocks, [], before);
    FileNotEmpty(blocks, [], before);
    FilePhysical(RenderLines(FileLines(blocks, [], before)));
  }

  lemma SameNull(text: string, hidden: string, message: string, before: Before)
    requires OneLineText(text)
    ensures '\0' in PythonFile([Says(message, RunningComment(text, hidden))], [], before) <==>
            '\0' in PythonFile([Says(hidden, text), Says(message, "")], [], before)
  {
    hide FileLines, RenderLine, Join;
    var hiding, plain := [Says(message, RunningComment(text, hidden))], [Says(hidden, text), Says(message, "")];
    HidingProgram(text, hidden, message, before);
    PlainProgram(text, hidden, message, before);
    var h, p := FileLines(hiding, [], before), FileLines(plain, [], before);
    JoinHolds(RenderLines(h), '\n', '\0');
    JoinHolds(RenderLines(p), '\n', '\0');
    CommentText(text);
    CommentText(RunningComment(text, hidden));
    assert |h| == 6 && |p| == 7 && h[4] == Line(1, Comment(RunningComment(text, hidden))) && h[5] == SaysLine(message);
    assert p[4] == Line(1, Comment(text)) && p[5] == SaysLine(hidden) && p[6] == SaysLine(message);
    assert forall i :: 0 <= i < 4 ==> h[i] == p[i];
    assert '\0' in RenderLine(h[4]) <==> '\0' in RenderLine(p[4]) || '\0' in RenderLine(p[5]);
  }
}
