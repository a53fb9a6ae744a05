/**
 * The emitted lines as Python reads them: parsing by indentation gives back the translated block tree, or fails
 * exactly where a suite holds nothing but comments or a timer has a negative period.
 */
module Structure {
  import opened Wrappers
  import opened Text
  import opened Values
  import opened Catalog
  import opened Python
  import opened Generate

  // ---------------------------------------------------------------- the translated tree

  function TranslateBody(children: seq<Block>, bindings: seq<Binding>): seq<Node>
    decreases children, 2
  {
    var nodes := TranslateChildren(children, bindings);
    if nodes == [] then [PassNode] else nodes
  }

  function TranslateChildren(children: seq<Block>, bindings: seq<Binding>): seq<Node>
    decreases children, 0
  {
    if children == [] then []
    else
      var rest := TranslateChildren(children[1..], bindings);
      if children[0].disabled then rest else Translate(children[0], bindings) + rest
  }

  function ItemCalls(children: seq<Block>, bindings: seq<Binding>): seq<Call> {
    if children == [] then []
    else
      var rest := ItemCalls(children[1..], bindings);
      if children[0].disabled then rest else [ItemCall(children[0], bindings)] + rest
  }

  /** The Python statements a block stands for: one, or none for a block that only warns. */
  function Translate(b: Block, bindings: seq<Binding>): seq<Node>
    decreases b, 1
  {
    if BlockSpecOf(b.typ).None? then []
    else
      var spec := BlockSpecOf(b.typ).value;
      match b.typ
      case OnStart => [DefNode([], "main", TranslateBody(b.children, bindings))]
      case Every =>
        [DefNode([EveryMark(SecondsText(b, spec))], EveryName(SecondsText(b, spec)),
          TranslateBody(b.children, bindings))]
      case OnGesture =>
        [DefNode([GestureMark(b, Target(ResolvedAlias(b, bindings)))], "on_gesture",
          TranslateBody(b.children, bindings))]
      case Repeat =>
        [ForNode(PythonNumber(FieldOf(b, Times), DefaultOf(spec, Times)), TranslateBody(b.children, bindings))]
      case If =>
        if b.children == [] then [IfNode(TrueLiteral, [PassNode])]
        else [IfNode(ExpressionOf(b.children[0], bindings), TranslateBody(b.children[1..], bindings))]
      case Parallel =>
        if !AnyEnabled(b.children) then [PassNode] else [TogetherNode(ItemCalls(b.children, bindings))]
      case Wait => [AwaitNode(Sleep(SecondsText(b, spec)))]
      case Log => [AwaitNode(LogCall(PythonString(FieldOf(b, Message))))]
      case _ =>
        var call := DeviceCallOf(b, Target(ResolvedAlias(b, bindings)), spec);
        if call.None? then [] else [AwaitNode(call.value)]
  }

  // ---------------------------------------------------------------- when Python accepts the lines

  /** The block has a Python form: it is known, not a reporter, and its device, if it calls one, resolves. */
  predicate HasCode(b: Block, bindings: seq<Binding>) {
    BlockSpecOf(b.typ).Some? && !IsReporter(b.typ) && (IsDeviceCall(b.typ) ==> ResolvedAlias(b, bindings).Some?)
  }

  predicate AnyCode(children: seq<Block>, bindings: seq<Binding>) {
    exists i :: 0 <= i < |children| && !children[i].disabled && HasCode(children[i], bindings)
  }

  predicate AnyComment(children: seq<Block>) {
    exists i :: 0 <= i < |children| && !children[i].disabled && BlockSpecOf(children[i].typ).Some? &&
      children[i].comment != ""
  }

  /** No suite under these children consists of comments only, and no timer has a negative period. */
  predicate SuitedBody(children: seq<Block>, bindings: seq<Binding>)
    decreases children, 2
  {
    SuitedChildren(children, bindings) && (AnyComment(children) ==> AnyCode(children, bindings))
  }

  predicate SuitedChildren(children: seq<Block>, bindings: seq<Binding>)
    decreases children, 0
  {
    children == [] ||
    ((children[0].disabled || Suited(children[0], bindings)) && SuitedChildren(children[1..], bindings))
  }

  predicate Suited(b: Block, bindings: seq<Binding>)
    decreases b, 1
  {
    match b.typ
    case OnStart => SuitedBody(b.children, bindings)
    case Every =>
      NumberOf(FieldOf(b, Seconds), DefaultOf(BlockSpecOf(Every).value, Seconds)).mantissa >= 0 &&
      SuitedBody(b.children, bindings)
    case OnGesture => SuitedBody(b.children, bindings)
    case Repeat => SuitedBody(b.children, bindings)
    case If => b.children == [] || SuitedBody(b.children[1..], bindings)
    case _ => true
  }

  // ---------------------------------------------------------------- shape of what is emitted

  /** Lines at `depth` or deeper whose first significant one is at `depth`. */
  ghost predicate Level(lines: seq<Line>, depth: nat) {
    Significant(lines) == [] || Significant(lines)[0].depth == depth
  }

  lemma {:induction false} CommentLinesSilent(texts: seq<string>, depth: nat)
    ensures Significant(CommentLines(texts, depth).lines) == []
    ensures CommentLines(texts, depth).lines == [] <==> texts == []
  {
    if texts != [] {
      CommentLinesSilent(texts[1..], depth);
      SignificantAppend([Line(depth, Comment(texts[0]))], CommentLines(texts[1..], depth).lines);
    }
  }

  lemma CommentSilent(comment: string, depth: nat)
    ensures Significant(CommentOut(comment, depth).lines) == []
    ensures CommentOut(comment, depth).lines == [] <==> comment == ""
  {
    if comment != "" { CommentLinesSilent(Split(comment, '\n'), depth); }
  }

  /** A statement's lines are its comment, then its own lines. */
  lemma StatementLines(b: Block, depth: nat, bindings: seq<Binding>)
    requires BlockSpecOf(b.typ).Some?
    ensures StatementOut(b, depth, bindings).lines ==
            CommentOut(b.comment, depth).lines + OwnOut(b, depth, bindings, BlockSpecOf(b.typ).value).lines
    ensures Significant(StatementOut(b, depth, bindings).lines) ==
            Significant(OwnOut(b, depth, bindings, BlockSpecOf(b.typ).value).lines)
  {
    hide CommentOut, OwnOut;
    var own := OwnOut(b, depth, bindings, BlockSpecOf(b.typ).value);
    SignificantAppend(CommentOut(b.comment, depth).lines, own.lines);
    CommentSilent(b.comment, depth);
  }

  /** A wait, a message or a device block on a known device emits one line, any other such block none. */
  lemma ActionLines(b: Block, depth: nat, bindings: seq<Binding>, spec: BlockSpec)
    requires BlockSpecOf(b.typ) == Some(spec)
    requires !IsEvent(b.typ) && !b.typ.Repeat? && !b.typ.If? && !b.typ.Parallel?
    ensures OwnOut(b, depth, bindings, spec).lines ==
            if b.typ.Wait? || b.typ.Log? || (IsDeviceCall(b.typ) && ResolvedAlias(b, bindings).Some?)
            then [Line(depth, Await(ItemCall(b, bindings)))] else []
  {
    hide PythonString, PythonNumber, ResolvedAlias, AliasIdentifier, FieldOf, DefaultOf, DeviceArgs, DevicePath,
         HandlerOut, IfOut, ParallelOut, BodyOut, PortArg, CaptionArg, NumText;
    DeviceFieldsDeclared(b.typ);
    assert [] + [Line(depth, Await(ItemCall(b, bindings)))] == [Line(depth, Await(ItemCall(b, bindings)))];
  }

  lemma HandlerShape(use: string, mark: Mark, name: string, children: seq<Block>, depth: nat, bindings: seq<Binding>,
      origin: Option<Origin>)
    ensures HandlerOut(use, mark, name, children, depth, bindings, origin).lines ==
            [Line(depth, MarkLine(mark))] + [Line(depth, AsyncDef(name))] + BodyOut(children, depth + 1, bindings).lines
  {
    assert [] + [Line(depth, MarkLine(mark))] == [Line(depth, MarkLine(mark))];
  }

  lemma IfShape(children: seq<Block>, depth: nat, bindings: seq<Binding>, origin: Option<Origin>)
    ensures children == [] ==>
              IfOut(children, depth, bindings, origin).lines ==
              [Line(depth, IfHeader(TrueLiteral))] + BodyOut([], depth + 1, bindings).lines
    ensures children != [] ==>
              IfOut(children, depth, bindings, origin).lines ==
              [Line(depth, IfHeader(ExpressionOf(children[0], bindings)))] +
                BodyOut(children[1..], depth + 1, bindings).lines
  {
    if children == [] { return; }
    var header := [Line(depth, IfHeader(ExpressionOf(children[0], bindings)))];
    assert ExpressionOut(children[0], bindings).lines == [];
    assert [] + header == header;
  }

  lemma ParallelStart(children: seq<Block>, depth: nat, bindings: seq<Binding>, origin: Option<Origin>)
    ensures var lines := ParallelOut(children, depth, bindings, origin).lines;
            lines != [] && lines[0].depth == depth && (lines[0].stmt.Pass? || lines[0].stmt.ParallelOpen?)
  {
    hide ItemsOut;
  }

  ghost predicate StartsAt(lines: seq<Line>, depth: nat) {
    lines != [] && lines[0].depth == depth && !lines[0].stmt.Blank? && !lines[0].stmt.Comment?
  }

  lemma EventStart(b: Block, depth: nat, bindings: seq<Binding>)
    requires IsEvent(b.typ)
    ensures StartsAt(OwnOut(b, depth, bindings, BlockSpecOf(b.typ).value).lines, depth)
  {
    hide PythonString, PythonNumber, AliasIdentifier, BodyOut, EveryName, Resolve, HandlerOut, GestureMark;
    var spec := BlockSpecOf(b.typ).value;
    var origin := Some(Origin(b.id, b.typ, OwnAlias(b, spec, bindings)));
    if b.typ.Every? {
      var seconds := SecondsText(b, spec);
      HandlerShape("every", EveryMark(seconds), EveryName(seconds), b.children, depth, bindings, origin);
    } else if b.typ.OnGesture? {
      var target := Target(OwnAlias(b, spec, bindings));
      HandlerShape("when", GestureMark(b, target), "on_gesture", b.children, depth, bindings, origin);
    }
  }

  lemma HeaderStart(b: Block, depth: nat, bindings: seq<Binding>)
    requires b.typ.Repeat? || b.typ.If? || b.typ.Parallel?
    ensures StartsAt(OwnOut(b, depth, bindings, BlockSpecOf(b.typ).value).lines, depth)
  {
    hide PythonString, PythonNumber, AliasIdentifier, BodyOut, Resolve, IfOut, ParallelOut, ExpressionOf, FieldOf,
         DefaultOf;
    var spec := BlockSpecOf(b.typ).value;
    var origin := Some(Origin(b.id, b.typ, OwnAlias(b, spec, bindings)));
    if b.typ.If? {
      IfShape(b.children, depth, bindings, origin);
    } else if b.typ.Parallel? {
      ParallelStart(b.children, depth, bindings, origin);
    }
  }

  /** A block emits code exactly when it has a Python form, and its code starts at its own depth. */
  lemma OwnStart(b: Block, depth: nat, bindings: seq<Binding>)
    requires BlockSpecOf(b.typ).Some?
    ensures var own := OwnOut(b, depth, bindings, BlockSpecOf(b.typ).value).lines;
            if HasCode(b, bindings) then
              own != [] && own[0].depth == depth && !own[0].stmt.Blank? && !own[0].stmt.Comment?
            else own == []
  {
    hide OwnOut, ResolvedAlias, ItemCall;
    DeviceFieldsDeclared(b.typ);
    if IsEvent(b.typ) {
      EventStart(b, depth, bindings);
    } else if b.typ.Repeat? || b.typ.If? || b.typ.Parallel? {
      HeaderStart(b, depth, bindings);
    } else {
      ActionLines(b, depth, bindings, BlockSpecOf(b.typ).value);
    }
  }

  lemma StatementLevel(b: Block, depth: nat, bindings: seq<Binding>)
    ensures Level(StatementOut(b, depth, bindings).lines, depth)
    ensures Significant(StatementOut(b, depth, bindings).lines) != [] <==> HasCode(b, bindings)
    ensures StatementOut(b, depth, bindings).lines == [] <==>
            !HasCode(b, bindings) && (BlockSpecOf(b.typ).None? || b.comment == "")
  {
    hide CommentOut;
    if BlockSpecOf(b.typ).Some? {
      StatementLines(b, depth, bindings);
      OwnStart(b, depth, bindings);
      CommentSilent(b.comment, depth);
    }
  }

  lemma {:induction false} ChildrenLevel(children: seq<Block>, depth: nat, bindings: seq<Binding>)
    ensures Level(ChildrenOut(children, depth, bindings).lines, depth)
    ensures Significant(ChildrenOut(children, depth, bindings).lines) != [] <==> AnyCode(children, bindings)
    ensures ChildrenOut(children, depth, bindings).lines == [] <==>
            !AnyCode(children, bindings) && !AnyComment(children)
  {
    hide StatementOut;
    if children != [] {
      ChildrenLevel(children[1..], depth, bindings);
      StatementLevel(children[0], depth, bindings);
      SignificantAppend(StatementOut(children[0], depth, bindings).lines,
        ChildrenOut(children[1..], depth, bindings).lines);
      assert forall i :: 1 <= i < |children| ==> children[i] == children[1..][i - 1];
    }
  }

  // ---------------------------------------------------------------- parsing gives the tree back

  /** What may follow the lines of a block at `depth`. */
  ghost predicate Outer(rest: seq<Line>, depth: nat) { rest == [] || rest[0].depth <= depth }

  lemma NoCodeNoNode(b: Block, bindings: seq<Binding>)
    ensures Translate(b, bindings) == [] <==> !HasCode(b, bindings)
    ensures !HasCode(b, bindings) ==> Suited(b, bindings)
  {
    DeviceFieldsDeclared(b.typ);
  }

  lemma {:induction false} NoCodeNoNodes(children: seq<Block>, bindings: seq<Binding>)
    ensures TranslateChildren(children, bindings) == [] <==> !AnyCode(children, bindings)
    ensures !AnyCode(children, bindings) ==> SuitedChildren(children, bindings)
  {
    if children != [] {
      NoCodeNoNodes(children[1..], bindings);
      NoCodeNoNode(children[0], bindings);
      assert forall i :: 1 <= i < |children| ==> children[i] == children[1..][i - 1];
    }
  }

  lemma {:induction false} ParseChildrenLines(children: seq<Block>, depth: nat, bindings: seq<Binding>, rest: seq<Line>)
    requires Outer(rest, depth)
    ensures ParseBlock(Significant(ChildrenOut(children, depth, bindings).lines) + rest, depth) ==
            if SuitedChildren(children, bindings) then
               Prepend(TranslateChildren(children, bindings), ParseBlock(rest, depth))
            else None
    decreases children, 0
  {
    hide StatementOut, Translate, Suited;
    if children == [] {
      assert [] + rest == rest;
      PrependNothing(ParseBlock(rest, depth));
    } else if children[0].disabled {
      ParseChildrenLines(children[1..], depth, bindings, rest);
    } else {
      var first, later := StatementOut(children[0], depth, bindings).lines,
        ChildrenOut(children[1..], depth, bindings).lines;
      var tail := Significant(later) + rest;
      ChildrenLevel(children[1..], depth, bindings);
      SignificantAppend(first, later);
      assert (Significant(first) + Significant(later)) + rest == Significant(first) + tail;
      ParseStatementLines(children[0], depth, bindings, tail);
      ParseChildrenLines(children[1..], depth, bindings, rest);
      PrependTwice(Translate(children[0], bindings), TranslateChildren(children[1..], bindings),
        ParseBlock(rest, depth));
    }
  }

  lemma PrependNothing(r: Parsed)
    ensures Prepend([], r) == r
  {
    if r.Some? { assert [] + r.value.0 == r.value.0; }
  }

  lemma PrependTwice(a: seq<Node>, b: seq<Node>, r: Parsed)
    ensures Prepend(a, Prepend(b, r)) == Prepend(a + b, r)
  {
    if r.Some? { assert a + (b + r.value.0) == (a + b) + r.value.0; }
  }

  /** The suite under a header at `depth`. */
  lemma {:induction false} ParseSuiteLines(children: seq<Block>, depth: nat, bindings: seq<Binding>, rest: seq<Line>)
    requires Outer(rest, depth)
    ensures ParseSuite(Significant(BodyOut(children, depth + 1, bindings).lines) + rest, depth) ==
            if SuitedBody(children, bindings) then Some((TranslateBody(children, bindings), rest)) else None
    decreases children, 2
  {
    hide StatementOut, Translate, Suited, Prepend;
    var inner := ChildrenOut(children, depth + 1, bindings).lines;
    var body := BodyOut(children, depth + 1, bindings).lines;
    ChildrenLevel(children, depth + 1, bindings);
    NoCodeNoNodes(children, bindings);
    assert body == if inner == [] then [Line(depth + 1, Pass)] else inner;
    if inner == [] {
      PassSuite(depth, rest);
    } else if AnyCode(children, bindings) {
      CodeSuite(Significant(inner), depth, rest);
      ParseChildrenLines(children, depth + 1, bindings, rest);
    } else {
      assert Significant(inner) == [];
      assert [] + rest == rest;
    }
  }

  /** A suite that starts one level in ends where the outer lines begin. */
  lemma CodeSuite(code: seq<Line>, depth: nat, rest: seq<Line>)
    requires code != [] && code[0].depth == depth + 1 && Outer(rest, depth)
    ensures ParseSuite(code + rest, depth) == ParseBlock(code + rest, depth + 1)
    ensures forall nodes :: Prepend(nodes, ParseBlock(rest, depth + 1)) == Some((nodes, rest))
  {
    assert ParseBlock(rest, depth + 1) == Some(([], rest));
    assert forall nodes: seq<Node> :: nodes + [] == nodes;
  }

  lemma PassSuite(depth: nat, rest: seq<Line>)
    requires Outer(rest, depth)
    ensures ParseSuite(Significant([Line(depth + 1, Pass)]) + rest, depth) == Some(([PassNode], rest))
  {
    var pass := [Line(depth + 1, Pass)];
    assert pass[1..] == [];
    assert Significant(pass) == pass;
    assert (pass + rest)[1..] == rest;
    assert ParseBlock(rest, depth + 1) == Some(([], rest));
    assert [PassNode] + [] == [PassNode];
    assert ParseBlock(pass + rest, depth + 1) == Some(([PassNode], rest));
  }

  /** A statement: its tree in front of what follows, or a parse error where it is not suited. */
  lemma {:induction false} ParseStatementLines(b: Block, depth: nat, bindings: seq<Binding>, rest: seq<Line>)
    requires Outer(rest, depth)
    ensures ParseBlock(Significant(StatementOut(b, depth, bindings).lines) + rest, depth) ==
            if Suited(b, bindings) then Prepend(Translate(b, bindings), ParseBlock(rest, depth)) else None
    decreases b, 1
  {
    hide OwnOut;
    if BlockSpecOf(b.typ).None? {
      assert [] + rest == rest;
      PrependNothing(ParseBlock(rest, depth));
    } else {
      StatementLines(b, depth, bindings);
      ParseOwnLines(b, depth, bindings, BlockSpecOf(b.typ).value, rest);
    }
  }

  lemma {:induction false} ParseOwnLines(b: Block, depth: nat, bindings: seq<Binding>, spec: BlockSpec, rest: seq<Line>)
    requires Outer(rest, depth) && BlockSpecOf(b.typ) == Some(spec)
    ensures ParseBlock(Significant(OwnOut(b, depth, bindings, spec).lines) + rest, depth) ==
            if Suited(b, bindings) then Prepend(Translate(b, bindings), ParseBlock(rest, depth)) else None
    decreases b, 0
  {
    if b.typ.OnStart? {
      ParseStart(b, depth, bindings, rest);
    } else if b.typ.Every? {
      ParseEvery(b, depth, bindings, rest);
    } else if b.typ.OnGesture? {
      ParseGesture(b, depth, bindings, rest);
    } else {
      ParseStepLines(b, depth, bindings, spec, rest);
    }
  }

  lemma {:induction false} ParseStart(b: Block, depth: nat, bindings: seq<Binding>, rest: seq<Line>)
    requires Outer(rest, depth) && b.typ.OnStart?
    ensures ParseBlock(Significant(OwnOut(b, depth, bindings, BlockSpecOf(OnStart).value).lines) + rest, depth) ==
            if Suited(b, bindings) then Prepend(Translate(b, bindings), ParseBlock(rest, depth)) else None
    decreases b, -1
  {
    var spec := BlockSpecOf(OnStart).value;
    ParseHeader(AsyncDef("main"), b.children, depth, bindings, rest, OwnOut(b, depth, bindings, spec).lines);
  }

  lemma {:induction false} ParseEvery(b: Block, depth: nat, bindings: seq<Binding>, rest: seq<Line>)
    requires Outer(rest, depth) && b.typ.Every?
    ensures ParseBlock(Significant(OwnOut(b, depth, bindings, BlockSpecOf(Every).value).lines) + rest, depth) ==
            if Suited(b, bindings) then Prepend(Translate(b, bindings), ParseBlock(rest, depth)) else None
    decreases b, -1
  {
    var spec := BlockSpecOf(Every).value;
    DeviceFieldsDeclared(b.typ);
    EveryNameIdentifier(NumberOf(FieldOf(b, Seconds), DefaultOf(spec, Seconds)));
    ParseHandler("every", EveryMark(SecondsText(b, spec)), EveryName(SecondsText(b, spec)), b.children, depth, bindings,
                 Some(Origin(b.id, b.typ, None)), rest);
  }

  lemma {:induction false} ParseGesture(b: Block, depth: nat, bindings: seq<Binding>, rest: seq<Line>)
    requires Outer(rest, depth) && b.typ.OnGesture?
    ensures ParseBlock(Significant(OwnOut(b, depth, bindings, BlockSpecOf(OnGesture).value).lines) + rest, depth) ==
            if Suited(b, bindings) then Prepend(Translate(b, bindings), ParseBlock(rest, depth)) else None
    decreases b, -1
  {
    hide ParseBlock, HandlerOut, SuitedBody, TranslateBody, PythonString, AliasIdentifier, Resolve, Significant,
         IsIdentifier;
    var spec := BlockSpecOf(OnGesture).value;
    DeviceFieldsDeclared(b.typ);
    OnGestureIsIdentifier();
    ParseHandler("when", GestureMark(b, Target(ResolvedAlias(b, bindings))), "on_gesture", b.children, depth, bindings,
                 Some(Origin(b.id, b.typ, ResolvedAlias(b, bindings))), rest);
  }

  lemma OnGestureIsIdentifier()
    ensures IsIdentifier("on_gesture")
  {
  }

  lemma {:induction false} ParseHandler(
    use: string, mark: Mark, name: string, children: seq<Block>, depth: nat, bindings: seq<Binding>,
    origin: Option<Origin>, rest: seq<Line>)
    requires Outer(rest, depth)
    ensures ParseBlock(Significant(HandlerOut(use, mark, name, children, depth, bindings, origin).lines) + rest,
            depth) ==
            if SuitedBody(children, bindings) && IsIdentifier(name) then
              Prepend([DefNode([mark], name, TranslateBody(children, bindings))], ParseBlock(rest, depth))
            else None
    decreases children, 5
  {
    HandlerShape(use, mark, name, children, depth, bindings, origin);
    ParseMarked(mark, name, children, depth, bindings, rest,
      HandlerOut(use, mark, name, children, depth, bindings, origin).lines);
  }

  lemma EmptyBody(bindings: seq<Binding>)
    ensures TranslateBody([], bindings) == [PassNode]
  {
  }

  lemma {:induction false} ParseStepLines(b: Block, depth: nat, bindings: seq<Binding>, spec: BlockSpec,
      rest: seq<Line>)
    requires Outer(rest, depth) && BlockSpecOf(b.typ) == Some(spec) && !IsEvent(b.typ)
    ensures ParseBlock(Significant(OwnOut(b, depth, bindings, spec).lines) + rest, depth) ==
            if Suited(b, bindings) then Prepend(Translate(b, bindings), ParseBlock(rest, depth)) else None
    decreases b, -1
  {
    hide PythonString, PythonNumber, AliasIdentifier, DevicePath, DeviceArgs, Resolve, ParseBlock, Significant, BodyOut,
         ItemsOut, TranslateChildren, FieldOf, DefaultOf, ItemCalls;
    var own := OwnOut(b, depth, bindings, spec).lines;
    if b.typ.Repeat? {
      ParseHeader(ForRange(PythonNumber(FieldOf(b, Times), DefaultOf(spec, Times))), b.children, depth, bindings, rest,
        own);
    } else if b.typ.If? {
      IfShape(b.children, depth, bindings, Some(Origin(b.id, b.typ, OwnAlias(b, spec, bindings))));
      if b.children == [] {
        EmptyBody(bindings);
        ParseHeader(IfHeader(TrueLiteral), [], depth, bindings, rest, own);
      } else {
        ParseHeader(IfHeader(ExpressionOf(b.children[0], bindings)), b.children[1..], depth, bindings, rest, own);
      }
    } else if b.typ.Parallel? && AnyEnabled(b.children) {
      ParseParallel(b.children, depth, bindings, rest, own);
    } else if b.typ.Parallel? {
      ParseSimple(Pass, depth, rest, own);
    } else if b.typ.Wait? {
      ParseSimple(Await(Sleep(SecondsText(b, spec))), depth, rest, own);
    } else if b.typ.Log? {
      ParseSimple(Await(LogCall(PythonString(FieldOf(b, Message)))), depth, rest, own);
    } else {
      DeviceFieldsDeclared(b.typ);
      var call := DeviceCallOf(b, Target(ResolvedAlias(b, bindings)), spec);
      if call.None? {
        assert own == [];
        NothingSignificant();
        assert [] + rest == rest;
        PrependNothing(ParseBlock(rest, depth));
      } else {
        ParseSimple(Await(call.value), depth, rest, own);
      }
    }
  }

  lemma ParseSimple(stmt: Stmt, depth: nat, rest: seq<Line>, own: seq<Line>)
    requires own == [Line(depth, stmt)] && (stmt.Pass? || stmt.Await?)
    ensures ParseBlock(Significant(own) + rest, depth) ==
            Prepend([if stmt.Pass? then PassNode else AwaitNode(stmt.call)], ParseBlock(rest, depth))
  {
    assert own[1..] == [];
    assert Significant(own) == own;
    assert (own + rest)[1..] == rest;
  }

  lemma SignificantHead(line: Line, tail: seq<Line>)
    requires !line.stmt.Blank? && !line.stmt.Comment?
    ensures Significant([line] + tail) == [line] + Significant(tail)
  {
    assert ([line] + tail)[1..] == tail;
  }

  function HeaderNode(header: Stmt, body: seq<Node>): Node
    requires header.AsyncDef? || header.ForRange? || header.IfHeader?
  {
    match header
    case AsyncDef(name) => DefNode([], name, body)
    case ForRange(times) => ForNode(times, body)
    case IfHeader(cond) => IfNode(cond, body)
  }

  lemma {:induction false} ParseHeader(header: Stmt, children: seq<Block>, depth: nat, bindings: seq<Binding>,
      rest: seq<Line>, own: seq<Line>)
    requires Outer(rest, depth)
    requires header.AsyncDef? || header.ForRange? || header.IfHeader?
    requires own == [Line(depth, header)] + BodyOut(children, depth + 1, bindings).lines
    ensures ParseBlock(Significant(own) + rest, depth) ==
            if SuitedBody(children, bindings) && (header.AsyncDef? ==> IsIdentifier(header.name)) then
              Prepend([HeaderNode(header, TranslateBody(children, bindings))], ParseBlock(rest, depth))
            else None
    decreases children, 3
  {
    var body := Significant(BodyOut(children, depth + 1, bindings).lines);
    SignificantHead(Line(depth, header), BodyOut(children, depth + 1, bindings).lines);
    ParseSuiteLines(children, depth, bindings, rest);
    var all := Significant(own) + rest;
    assert all == [Line(depth, header)] + (body + rest);
    assert all[1..] == body + rest;
  }

  lemma {:induction false} ParseMarked(mark: Mark, name: string, children: seq<Block>, depth: nat,
      bindings: seq<Binding>, rest: seq<Line>, own: seq<Line>)
    requires Outer(rest, depth)
    requires own == [Line(depth, MarkLine(mark))] + [Line(depth, AsyncDef(name))] +
             BodyOut(children, depth + 1, bindings).lines
    ensures ParseBlock(Significant(own) + rest, depth) ==
            if SuitedBody(children, bindings) && IsIdentifier(name) then
              Prepend([DefNode([mark], name, TranslateBody(children, bindings))], ParseBlock(rest, depth))
            else None
    decreases children, 4
  {
    hide BodyOut, TranslateBody, SuitedBody, Significant, IsIdentifier;
    var def := [Line(depth, AsyncDef(name))] + BodyOut(children, depth + 1, bindings).lines;
    assert own == [Line(depth, MarkLine(mark))] + def;
    SignificantHead(Line(depth, MarkLine(mark)), def);
    SignificantHead(Line(depth, AsyncDef(name)), BodyOut(children, depth + 1, bindings).lines);
    ParseSuiteLines(children, depth, bindings, rest);
    var body := Significant(BodyOut(children, depth + 1, bindings).lines);
    var all := Significant(own) + rest;
    var marked := [Line(depth, AsyncDef(name))] + (body + rest);
    assert all == [Line(depth, MarkLine(mark))] + marked;
    assert marked[1..] == body + rest;
    assert ParseStatement(marked) ==
      if SuitedBody(children, bindings) && IsIdentifier(name) then
        Some((DefNode([], name, TranslateBody(children, bindings)), rest))
      else None;
    assert all[1..] == marked;
    assert [mark] + [] == [mark];
  }

  lemma NothingSignificant()
    ensures Significant([]) == []
  {
  }

  /** Looking for the device of a parallel item emits no line. */
  lemma ItemOutSilent(b: Block, bindings: seq<Binding>)
    ensures ItemOut(b, bindings).lines == []
  {
    hide Resolve, AliasIdentifier;
  }

  lemma {:induction false} ItemsParse(children: seq<Block>, depth: nat, bindings: seq<Binding>, close: Line,
      rest: seq<Line>)
    requires close.stmt.ParallelClose?
    ensures Significant(ItemsOut(children, depth, bindings).lines) == ItemsOut(children, depth, bindings).lines
    ensures ParseItems(ItemsOut(children, depth, bindings).lines + ([close] + rest)) ==
            Some((TogetherNode(ItemCalls(children, bindings)), rest))
  {
    hide ItemCall, ItemOut, Significant;
    if children == [] {
      assert [] + ([close] + rest) == [close] + rest;
      assert Significant([]) == [] by { NothingSignificant(); }
    } else {
      ItemsParse(children[1..], depth, bindings, close, rest);
      if !children[0].disabled {
        var later := ItemsOut(children[1..], depth, bindings).lines;
        ItemOutSilent(children[0], bindings);
        var line := Line(depth, ParallelItem(ItemCall(children[0], bindings)));
        assert ItemsOut(children, depth, bindings).lines == [line] + later;
        SignificantHead(line, later);
        var all := ItemsOut(children, depth, bindings).lines + ([close] + rest);
        assert all[1..] == later + ([close] + rest);
      }
    }
  }

  lemma ParseParallel(children: seq<Block>, depth: nat, bindings: seq<Binding>, rest: seq<Line>, own: seq<Line>)
    requires own == [Line(depth, ParallelOpen)] + ItemsOut(children, depth + 1, bindings).lines +
             [Line(depth, ParallelClose)]
    ensures ParseBlock(Significant(own) + rest, depth) ==
            Prepend([TogetherNode(ItemCalls(children, bindings))], ParseBlock(rest, depth))
  {
    hide ItemsOut, ItemCalls, ParseItems, Significant, ParseBlock;
    var open, items, close := Line(depth, ParallelOpen), ItemsOut(children, depth + 1, bindings).lines,
      Line(depth, ParallelClose);
    ItemsParse(children, depth + 1, bindings, close, rest);
    SignificantParallel(open, items, close);
    var inside := items + ([close] + rest);
    assert own + rest == [open] + inside;
    ParseOpen(open, inside);
  }

  lemma SignificantParallel(open: Line, items: seq<Line>, close: Line)
    requires open.stmt.ParallelOpen? && close.stmt.ParallelClose? && Significant(items) == items
    ensures Significant([open] + items + [close]) == [open] + items + [close]
  {
    assert [open] + items + [close] == [open] + (items + [close]);
    SignificantHead(open, items + [close]);
    SignificantAppend(items, [close]);
    assert [close] + [] == [close];
    SignificantHead(close, []);
  }

  lemma ParseOpen(open: Line, inside: seq<Line>)
    requires open.stmt.ParallelOpen? && ParseItems(inside).Some?
    ensures var items := ParseItems(inside).value;
            ParseBlock([open] + inside, open.depth) == Prepend([items.0], ParseBlock(items.1, open.depth))
  {
    assert ([open] + inside)[1..] == inside;
  }

  // ---------------------------------------------------------------- timer names

  lemma {:induction false} ReplacePointChars(s: string)
    requires forall i :: 0 <= i < |s| ==> IsNumChar(s[i])
    ensures |ReplacePoint(s)| == |s|
    ensures |Split(s, '.')| <= 2 && '-' !in s ==> forall i :: 0 <= i < |s| ==> IsIdentChar(ReplacePoint(s)[i])
    ensures s != "" && s[0] == '-' ==> ReplacePoint(s)[0] == '-'
  {
    if s != "" {
      assert s[0] in s;
      if s[0] == '.' {
        if |Split(s, '.')| <= 2 {
          OnePiece(s[1..]);
        }
      } else {
        ReplacePointChars(s[1..]);
      }
    }
  }

  lemma {:induction false} OnePiece(s: string)
    ensures |Split(s, '.')| == 1 ==> '.' !in s
  {
    if s != "" { OnePiece(s[1..]); }
  }

  /** The function name of a timer is an identifier exactly when the period is not negative. */
  lemma EveryNameIdentifier(n: Num)
    ensures IsIdentifier(EveryName(NumText(n))) <==> n.mantissa >= 0
  {
    var t := NumText(n);
    ReadNumText(n);
    ReadUnsignedText(if n.mantissa < 0 then -n.mantissa else n.mantissa, n.scale);
    ReplacePointChars(t);
    var name := EveryName(t);
    assert name == "every_" + ReplacePoint(t) + "s";
    assert name[5] == '_' && name[0] == 'e';
    if n.mantissa < 0 {
      assert name[6] == ReplacePoint(t)[0] == '-';
    } else {
      NoMinus(n.mantissa, n.scale);
      EveryNameChars(t);
    }
  }

  lemma EveryNameChars(t: string)
    requires |ReplacePoint(t)| == |t| && forall i :: 0 <= i < |t| ==> IsIdentChar(ReplacePoint(t)[i])
    ensures IsIdentifier(EveryName(t))
  {
    var name := EveryName(t);
    assert name[0] == 'e';
    forall i | 0 <= i < |name| ensures IsIdentChar(name[i]) {
      if i < 6 {
        assert name[i] == "every_"[i];
      } else if i < 6 + |t| {
        assert name[i] == ReplacePoint(t)[i - 6];
      }
    }
  }

  lemma NoMinus(magnitude: nat, scale: nat)
    ensures '-' !in UnsignedText(magnitude, scale)
  {
  }
}
