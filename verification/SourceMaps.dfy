/** The source map, the nesting of the emitted lines, and line lookup. */
module SourceMaps {
  import opened Wrappers
  import opened Text
  import opened Values
  import opened Catalog
  import opened Python
  import opened PythonText
  import opened Generate
  import opened Emitting
  import opened Structure
  import opened Program

  // ---------------------------------------------------------------- shape of what is emitted

  predicate IsHeader(stmt: Stmt) { stmt.ForRange? || stmt.IfHeader? || stmt.AsyncDef? }

  /** A header at depth d is followed at once by a line at depth d + 1, a decorator by its function. */
  ghost predicate NestedAt(lines: seq<Line>, i: nat)
    requires i < |lines|
  {
    && (IsHeader(lines[i].stmt) ==>
          i + 1 < |lines| && lines[i + 1].depth == lines[i].depth + 1 && !lines[i + 1].stmt.Blank?)
    && (lines[i].stmt.MarkLine? ==>
          i + 1 < |lines| && lines[i + 1].depth == lines[i].depth && lines[i + 1].stmt.AsyncDef?)
  }

  ghost predicate Nested(lines: seq<Line>) { forall i :: 0 <= i < |lines| ==> NestedAt(lines, i) }

  /** Every origin belongs to a line of code. */
  ghost predicate Located(lines: seq<Line>, origins: seq<Option<Origin>>) {
    |origins| == |lines| &&
    forall i :: 0 <= i < |origins| && origins[i].Some? ==> !lines[i].stmt.Blank? && !lines[i].stmt.Comment?
  }

  ghost predicate Shaped(out: Out, depth: nat) {
    && Located(out.lines, out.origins)
    && Nested(out.lines)
    && (out.lines != [] ==> out.lines[0].depth == depth && !out.lines[0].stmt.Blank?)
  }

  lemma ShapedThen(a: Out, b: Out, depth: nat)
    requires Shaped(a, depth) && Shaped(b, depth)
    ensures Shaped(a.Then(b), depth)
  {
    NestedAppend(a.lines, b.lines);
  }

  lemma NestedAppend(a: seq<Line>, b: seq<Line>)
    requires Nested(a) && Nested(b)
    ensures Nested(a + b)
  {
    forall i | 0 <= i < |a + b| ensures NestedAt(a + b, i) {
      if i < |a| { assert NestedAt(a, i); } else { assert NestedAt(b, i - |a|); }
    }
  }

  lemma ShapedHeader(header: Stmt, depth: nat, origin: Option<Origin>, body: Out)
    requires IsHeader(header) && Shaped(body, depth + 1) && body.lines != []
    ensures Shaped(LineOut(header, depth, origin).Then(body), depth)
  {
    var lines := [Line(depth, header)] + body.lines;
    forall i | 0 <= i < |lines| ensures NestedAt(lines, i) {
      if i > 0 { assert NestedAt(body.lines, i - 1); }
    }
  }

  lemma ShapedMark(mark: Mark, depth: nat, origin: Option<Origin>, def: Out)
    requires Shaped(def, depth) && def.lines != [] && def.lines[0].stmt.AsyncDef?
    ensures Shaped(LineOut(MarkLine(mark), depth, origin).Then(def), depth)
  {
    var lines := [Line(depth, MarkLine(mark))] + def.lines;
    forall i | 0 <= i < |lines| ensures NestedAt(lines, i) {
      if i > 0 { assert NestedAt(def.lines, i - 1); }
    }
  }

  /** Lines without headers are nested whatever their depth. */
  ghost predicate Flat(out: Out) {
    Located(out.lines, out.origins) &&
    forall i :: 0 <= i < |out.lines| ==> !IsHeader(out.lines[i].stmt) && !out.lines[i].stmt.MarkLine?
  }

  lemma FlatThen(a: Out, b: Out)
    requires Flat(a) && Flat(b)
    ensures Flat(a.Then(b))
  {
  }

  lemma FlatNested(out: Out)
    requires Flat(out)
    ensures Nested(out.lines)
  {
  }

  lemma ItemSilent(b: Block, bindings: seq<Binding>)
    ensures ItemOut(b, bindings).lines == [] && ItemOut(b, bindings).origins == []
  {
    hide Resolve, IsDeviceCall;
  }

  lemma {:induction false} ItemsFlat(children: seq<Block>, depth: nat, bindings: seq<Binding>)
    ensures Flat(ItemsOut(children, depth, bindings))
  {
    hide ItemCall, ItemOut;
    if children != [] {
      var b := children[0];
      var line := LineOut(ParallelItem(ItemCall(b, bindings)), depth, Some(Origin(b.id, b.typ, None)));
      ItemSilent(b, bindings);
      ItemsFlat(children[1..], depth, bindings);
      FlatThen(ItemOut(b, bindings), line);
      FlatThen(ItemOut(b, bindings).Then(line), ItemsOut(children[1..], depth, bindings));
    }
  }

  lemma {:induction false} CommentLinesShaped(texts: seq<string>, depth: nat)
    ensures Shaped(CommentLines(texts, depth), depth)
  {
    if texts != [] {
      CommentLinesShaped(texts[1..], depth);
      ShapedThen(LineOut(Comment(texts[0]), depth, None), CommentLines(texts[1..], depth), depth);
    }
  }

  lemma CommentShaped(comment: string, depth: nat)
    ensures Shaped(CommentOut(comment, depth), depth)
  {
    CommentLinesShaped(Split(comment, '\n'), depth);
  }

  lemma {:induction false} BodyShaped(children: seq<Block>, depth: nat, bindings: seq<Binding>)
    ensures Shaped(ChildrenOut(children, depth, bindings), depth)
    ensures Shaped(BodyOut(children, depth, bindings), depth) && BodyOut(children, depth, bindings).lines != []
    decreases children, 2
  {
    hide StatementOut;
    if children != [] {
      BodyShaped(children[1..], depth, bindings);
      if !children[0].disabled {
        StatementShaped(children[0], depth, bindings);
        ShapedThen(StatementOut(children[0], depth, bindings), ChildrenOut(children[1..], depth, bindings), depth);
      }
    }
    var inner := ChildrenOut(children, depth, bindings);
    if inner.lines == [] { ShapedThen(inner, LineOut(Pass, depth, None), depth); }
  }

  lemma {:induction false} StatementShaped(b: Block, depth: nat, bindings: seq<Binding>)
    ensures Shaped(StatementOut(b, depth, bindings), depth)
    decreases b, 1
  {
    hide OwnOut, CommentOut;
    if BlockSpecOf(b.typ).Some? {
      var spec := BlockSpecOf(b.typ).value;
      CommentShaped(b.comment, depth);
      OwnShaped(b, depth, bindings, spec);
      var found := if NamesDevice(spec) then ResolveOut(b, bindings) else NOTHING;
      ShapedThen(CommentOut(b.comment, depth), found, depth);
      ShapedThen(CommentOut(b.comment, depth).Then(found), OwnOut(b, depth, bindings, spec), depth);
    }
  }

  lemma {:induction false} OwnShaped(b: Block, depth: nat, bindings: seq<Binding>, spec: BlockSpec)
    requires BlockSpecOf(b.typ) == Some(spec)
    ensures Shaped(OwnOut(b, depth, bindings, spec), depth)
    decreases b, 0
  {
    hide BodyOut, HandlerOut, IfOut, ParallelOut, PythonString, PythonNumber, AliasIdentifier, ResolvedAlias,
         DeviceArgs, Shaped;
    BodyShaped(b.children, depth + 1, bindings);
    var origin := Some(Origin(b.id, b.typ, OwnAlias(b, spec, bindings)));
    if b.typ.OnStart? {
      ShapedHeader(AsyncDef("main"), depth, origin, BodyOut(b.children, depth + 1, bindings));
    } else if b.typ.Every? {
      HandlerShaped("every", EveryMark(SecondsText(b, spec)), EveryName(SecondsText(b, spec)), b.children, depth,
        bindings, origin);
    } else if b.typ.OnGesture? {
      HandlerShaped("when", GestureMark(b, Target(OwnAlias(b, spec, bindings))), "on_gesture", b.children, depth,
        bindings, origin);
    } else if b.typ.Repeat? {
      var times := PythonNumber(FieldOf(b, Times), DefaultOf(spec, Times));
      ShapedHeader(ForRange(times), depth, origin, BodyOut(b.children, depth + 1, bindings));
    } else if b.typ.If? {
      IfShaped(b.children, depth, bindings, origin);
    } else if b.typ.Parallel? {
      ParallelShaped(b.children, depth, bindings, origin);
    } else {
      ActionShaped(b, depth, bindings, spec);
    }
  }

  lemma ActionOrigins(b: Block, depth: nat, bindings: seq<Binding>, spec: BlockSpec)
    requires BlockSpecOf(b.typ) == Some(spec)
    requires !IsEvent(b.typ) && !b.typ.Repeat? && !b.typ.If? && !b.typ.Parallel?
    ensures |OwnOut(b, depth, bindings, spec).origins| == |OwnOut(b, depth, bindings, spec).lines|
  {
    hide PythonString, PythonNumber, AliasIdentifier, Resolve, DeviceArgs, DevicePath, FieldOf, DefaultOf, HandlerOut,
         IfOut, ParallelOut, BodyOut, NumText;
  }

  lemma ActionShaped(b: Block, depth: nat, bindings: seq<Binding>, spec: BlockSpec)
    requires BlockSpecOf(b.typ) == Some(spec)
    requires !IsEvent(b.typ) && !b.typ.Repeat? && !b.typ.If? && !b.typ.Parallel?
    ensures Shaped(OwnOut(b, depth, bindings, spec), depth)
  {
    hide OwnOut, ItemCall, ResolvedAlias, IsDeviceCall;
    ActionLines(b, depth, bindings, spec);
    ActionOrigins(b, depth, bindings, spec);
  }

  lemma {:induction false} HandlerShaped(
    use: string, mark: Mark, name: string, children: seq<Block>, depth: nat, bindings: seq<Binding>,
      origin: Option<Origin>)
    ensures Shaped(HandlerOut(use, mark, name, children, depth, bindings, origin), depth)
    decreases children, 3
  {
    hide BodyOut;
    var body := BodyOut(children, depth + 1, bindings);
    BodyShaped(children, depth + 1, bindings);
    var def := LineOut(AsyncDef(name), depth, None).Then(body);
    ShapedHeader(AsyncDef(name), depth, None, body);
    ShapedMark(mark, depth, origin, def);
    var marked := LineOut(MarkLine(mark), depth, origin);
    ThenAssociative(marked, LineOut(AsyncDef(name), depth, None), body);
    ShapedThen(UseOut(use), marked.Then(def), depth);
    ThenAssociative(UseOut(use), marked, LineOut(AsyncDef(name), depth, None));
    ThenAssociative(UseOut(use), marked.Then(LineOut(AsyncDef(name), depth, None)), body);
  }

  lemma {:induction false} IfShaped(children: seq<Block>, depth: nat, bindings: seq<Binding>, origin: Option<Origin>)
    ensures Shaped(IfOut(children, depth, bindings, origin), depth)
    decreases children, 3
  {
    hide BodyOut, ExpressionOf, ResolveOut;
    if children == [] {
      BodyShaped([], depth + 1, bindings);
      ShapedHeader(IfHeader(TrueLiteral), depth, origin, BodyOut([], depth + 1, bindings));
    } else {
      var cond, body := ExpressionOf(children[0], bindings), BodyOut(children[1..], depth + 1, bindings);
      BodyShaped(children[1..], depth + 1, bindings);
      ShapedHeader(IfHeader(cond), depth, origin, body);
      SilentExpression(children[0], bindings);
      var found, header := ExpressionOut(children[0], bindings), LineOut(IfHeader(cond), depth, origin);
      ShapedThen(found, header.Then(body), depth);
      ThenAssociative(found, header, body);
    }
  }

  lemma SilentExpression(b: Block, bindings: seq<Binding>)
    ensures ExpressionOut(b, bindings).lines == [] && ExpressionOut(b, bindings).origins == []
  {
  }

  lemma ParallelShaped(children: seq<Block>, depth: nat, bindings: seq<Binding>, origin: Option<Origin>)
    ensures Shaped(ParallelOut(children, depth, bindings, origin), depth)
  {
    hide ItemsOut;
    var open, items, close :=
      LineOut(ParallelOpen, depth, origin), ItemsOut(children, depth + 1, bindings),
        LineOut(ParallelClose, depth, None);
    ItemsFlat(children, depth + 1, bindings);
    FlatThen(open, items);
    FlatThen(open.Then(items), close);
    FlatNested(open.Then(items).Then(close));
    assert Shaped(open.Then(items).Then(close), depth);
    ShapedThen(UseOut("parallel"), open.Then(items).Then(close), depth);
    ShapedThen(UseOut("parallel"), LineOut(Pass, depth, origin), depth);
  }

  // ---------------------------------------------------------------- the file

  lemma NothingShaped()
    ensures Nested([]) && Located([], [])
  {
  }

  lemma BlankShaped()
    ensures Nested([Line(0, Blank)]) && Located([Line(0, Blank)], [None])
  {
  }

  lemma LocatedAppend(a: seq<Line>, p: seq<Option<Origin>>, b: seq<Line>, q: seq<Option<Origin>>)
    requires Located(a, p) && Located(b, q)
    ensures Located(a + b, p + q)
  {
  }

  lemma {:induction false} EventsShaped(events: seq<Block>, bindings: seq<Binding>)
    ensures Located(EventsOut(events, bindings).lines, EventsOut(events, bindings).origins)
    ensures Nested(EventsOut(events, bindings).lines)
  {
    hide BodyOut, Nested, Located;
    if events == [] {
      NothingShaped();
    } else {
      var body, rest := BodyOut([events[0]], 0, bindings), EventsOut(events[1..], bindings);
      EventsShaped(events[1..], bindings);
      BodyShaped([events[0]], 0, bindings);
      BlankShaped();
      NestedAppend(body.lines, [Line(0, Blank)]);
      NestedAppend(body.lines + [Line(0, Blank)], rest.lines);
      LocatedAppend(body.lines, body.origins, [Line(0, Blank)], [None]);
      LocatedAppend(body.lines + [Line(0, Blank)], body.origins + [None], rest.lines, rest.origins);
    }
  }

  lemma {:induction false} StartCommentsShaped(starts: seq<Block>)
    ensures Shaped(StartComments(starts), 0)
  {
    hide CommentOut;
    if starts != [] {
      CommentShaped(starts[0].comment, 0);
      StartCommentsShaped(starts[1..]);
      ShapedThen(CommentOut(starts[0].comment, 0), StartComments(starts[1..]), 0);
    }
  }

  lemma MainShaped(blocks: seq<Block>, bindings: seq<Binding>)
    ensures Located(MainOut(blocks, bindings).lines, MainOut(blocks, bindings).origins)
    ensures Nested(MainOut(blocks, bindings).lines)
  {
    hide BodyOut, StartComments, MainSteps;
    if HasMain(blocks) {
      var anchor := if Starts(blocks) != [] then Starts(blocks)[0] else Loose(blocks)[0];
      var comments, body := StartComments(Starts(blocks)), BodyOut(MainSteps(blocks), 1, bindings);
      var header := LineOut(AsyncDef("main"), 0, Some(Origin(anchor.id, anchor.typ, None)));
      StartCommentsShaped(Starts(blocks));
      BodyShaped(MainSteps(blocks), 1, bindings);
      ShapedHeader(AsyncDef("main"), 0, Some(Origin(anchor.id, anchor.typ, None)), body);
      ShapedThen(comments, header.Then(body), 0);
      ThenAssociative(comments, header, body);
      NestedAppend(comments.Then(header).Then(body).lines, [Line(0, Blank)]);
    }
  }

  lemma {:induction false} AssignsFlat(bindings: seq<Binding>)
    ensures Flat(AssignOut(bindings))
  {
    hide AliasIdentifier, PythonString;
    if bindings != [] { AssignsFlat(bindings[1..]); }
  }

  lemma FileShaped(blocks: seq<Block>, bindings: seq<Binding>, before: Before)
    ensures var file := FileOut(blocks, bindings, before); Located(file.lines, file.origins) && Nested(file.lines)
  {
    hide EventsOut, MainOut, AssignOut, Sorted, Imports;
    var program := ProgramOut(blocks, bindings);
    var header := HeaderOut(program.used, bindings, before);
    EventsShaped(Events(blocks), bindings);
    MainShaped(blocks, bindings);
    NestedAppend(EventsOut(Events(blocks), bindings).lines, MainOut(blocks, bindings).lines);
    AssignsFlat(Sorted(bindings, before));
    assert Flat(header);
    NestedAppend(header.lines, program.lines);
  }

  /** The file's lines are well nested: a header is followed at once by a deeper line, a decorator by its function. */
  lemma FileNested(blocks: seq<Block>, bindings: seq<Binding>, before: Before)
    ensures Nested(FileLines(blocks, bindings, before))
  {
    hide FileOut;
    FileShaped(blocks, bindings, before);
    var all, kept := FileOut(blocks, bindings, before).lines, FileLines(blocks, bindings, before);
    forall i | 0 <= i < |kept| ensures NestedAt(kept, i) {
      assert NestedAt(all, i);
      assert kept[i] == all[i];
      if i + 1 < |all| && i + 1 >= |kept| { assert all[i + 1].stmt.Blank?; }
    }
  }

  // ---------------------------------------------------------------- entries

  ghost predicate Increasing(entries: seq<SourceMapEntry>) {
    forall i, j :: 0 <= i < j < |entries| ==> entries[i].line < entries[j].line
  }

  /** The map holds exactly the lines with an origin, in order. */
  lemma {:induction false} MapEntries(origins: seq<Option<Origin>>)
    ensures Increasing(MapOf(origins))
    ensures forall e :: e in MapOf(origins) <==> 1 <= e.line <= |origins| && origins[e.line - 1] == Some(e.origin)
  {
    var n := |origins|;
    if n > 0 {
      MapEntries(origins[..n - 1]);
      var init := MapOf(origins[..n - 1]);
      forall i | 0 <= i < |init| ensures init[i].line < n {
        assert init[i] in init;
      }
    }
  }

  /**
   * The source map is strictly increasing, stays within the file after trimming, and its entries are exactly the lines
   * of code with the block that emitted them.
   */
  lemma SourceMapExact(blocks: seq<Block>, bindings: seq<Binding>, before: Before)
    ensures var entries, lines, origins :=
              SourceMap(blocks, bindings, before), FileLines(blocks, bindings, before),
                FileOut(blocks, bindings, before).origins;
            Increasing(entries) && |lines| <= |origins| &&
            (forall e :: e in entries ==>
               1 <= e.line <= |lines| && !lines[e.line - 1].stmt.Blank? && !lines[e.line - 1].stmt.Comment?) &&
            (forall e :: e in entries <==> 1 <= e.line <= |origins| && origins[e.line - 1] == Some(e.origin))
  {
    hide FileOut;
    var file := FileOut(blocks, bindings, before);
    FileShaped(blocks, bindings, before);
    MapEntries(file.origins);
    var kept := FileLines(blocks, bindings, before);
    forall e | e in MapOf(file.origins) ensures e.line <= |kept| && kept[e.line - 1] == file.lines[e.line - 1] {
      assert file.origins[e.line - 1].Some?;
      assert !file.lines[e.line - 1].stmt.Blank?;
    }
  }

  /** In an increasing map the answer is unique, and an entry answers for its own line. */
  lemma NearestUnique(entries: seq<SourceMapEntry>, line: nat, best: Option<SourceMapEntry>,
      other: Option<SourceMapEntry>)
    requires Increasing(entries) && Nearest(entries, line, best) && Nearest(entries, line, other)
    ensures best == other
    ensures forall e :: e in entries && e.line == line ==> best == Some(e)
  {
    SameLineSameEntry(entries);
    if best.Some? && other.Some? {
      assert best.value.line <= other.value.line && other.value.line <= best.value.line;
    }
  }

  lemma SameLineSameEntry(entries: seq<SourceMapEntry>)
    requires Increasing(entries)
    ensures forall a, b :: a in entries && b in entries && a.line == b.line ==> a == b
  {
    forall a, b | a in entries && b in entries && a.line == b.line ensures a == b {
      var i :| 0 <= i < |entries| && entries[i] == a;
      var j :| 0 <= j < |entries| && entries[j] == b;
      assert i < j ==> entries[i].line < entries[j].line;
      assert j < i ==> entries[j].line < entries[i].line;
    }
  }

  /** A traceback line that a block emitted is mapped back to that block. */
  lemma TracebackFindsBlock(blocks: seq<Block>, bindings: seq<Binding>, before: Before, line: nat,
      best: Option<SourceMapEntry>)
    requires var origins := FileOut(blocks, bindings, before).origins;
             1 <= line <= |origins| && origins[line - 1].Some?
    requires Nearest(SourceMap(blocks, bindings, before), line, best)
    ensures best.Some? && best.value.line == line &&
            Some(best.value.origin) == FileOut(blocks, bindings, before).origins[line - 1]
  {
    hide FileOut, FileLines;
    SourceMapExact(blocks, bindings, before);
    var entries := SourceMap(blocks, bindings, before);
    var e := SourceMapEntry(line, FileOut(blocks, bindings, before).origins[line - 1].value);
    assert e in entries;
    NearestUnique(entries, line, best, best);
  }
}
