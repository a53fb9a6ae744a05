/** The emitter: the walk over the blocks that appends lines, source-map entries, warnings and used names. */
module Emitting {
  import opened Wrappers
  import opened Text
  import opened Values
  import opened Catalog
  import opened Python
  import opened PythonText
  import opened Generate

  lemma ThenAssociative(a: Out, b: Out, c: Out)
    ensures a.Then(b).Then(c) == a.Then(b.Then(c))
  {
    assert (a.lines + b.lines) + c.lines == a.lines + (b.lines + c.lines);
    assert (a.origins + b.origins) + c.origins == a.origins + (b.origins + c.origins);
    assert (a.warnings + b.warnings) + c.warnings == a.warnings + (b.warnings + c.warnings);
  }

  lemma ThenNothing(a: Out)
    ensures a.Then(NOTHING) == a && NOTHING.Then(a) == a
  {
    assert a.lines + [] == a.lines && [] + a.lines == a.lines;
    assert a.origins + [] == a.origins && [] + a.origins == a.origins;
    assert a.warnings + [] == a.warnings && [] + a.warnings == a.warnings;
  }

  lemma ThenChain(a: Out, b: Out, c: Out, d: Out, e: Out)
    ensures a.Then(b).Then(c).Then(d).Then(e) == a.Then(b.Then(c.Then(d).Then(e)))
  {
    ThenAssociative(a.Then(b), c, d);
    ThenAssociative(a.Then(b), c.Then(d), e);
    ThenAssociative(a, b, c.Then(d).Then(e));
  }

  class Emitter {
    var lines: seq<string>
    var sourceMap: seq<SourceMapEntry>
    var warnings: seq<Warning>
    var used: set<string>
    /** Everything emitted so far, before rendering. */
    ghost var out: Out

    ghost predicate Valid()
      reads this
    {
      && |out.origins| == |out.lines|
      && lines == RenderLines(out.lines)
      && sourceMap == MapOf(out.origins)
      && warnings == out.warnings
      && used == out.used
    }

    constructor ()
      ensures Valid() && out == NOTHING
    {
      lines, sourceMap, warnings, used, out := [], [], [], {}, NOTHING;
    }

    method Emit(stmt: Stmt, depth: nat, origin: Option<Origin>)
      requires Valid()
      modifies this
      ensures Valid() && out == old(out).Then(LineOut(stmt, depth, origin))
    {
      lines := lines + [RenderLine(Line(depth, stmt))];
      if origin.Some? {
        sourceMap := sourceMap + [SourceMapEntry(|lines|, origin.value)];
      }
      RenderAppend(out.lines, [Line(depth, stmt)]);
      assert RenderLines([Line(depth, stmt)]) == [RenderLine(Line(depth, stmt))];
      ghost var origins := out.origins + [origin];
      assert origins[..|origins| - 1] == out.origins;
      out := out.Then(LineOut(stmt, depth, origin));
    }

    method Warn(b: Block, problem: Problem)
      requires Valid()
      modifies this
      ensures Valid() && out == old(out).Then(WarnOut(b, problem))
    {
      warnings := warnings + [Warning(b.id, b.typ, problem)];
      assert out.lines + [] == out.lines && out.origins + [] == out.origins;
      out := out.Then(WarnOut(b, problem));
    }

    method Use(name: string)
      requires Valid()
      modifies this
      ensures Valid() && out == old(out).Then(UseOut(name))
    {
      used := used + {name};
      assert out.lines + [] == out.lines && out.origins + [] == out.origins;
      out := out.Then(UseOut(name));
    }

    method EmitComment(comment: string, depth: nat)
      requires Valid()
      modifies this
      ensures Valid() && out == old(out).Then(CommentOut(comment, depth))
    {
      if comment == "" {
        ThenNothing(out);
        return;
      }
      var texts := Split(comment, '\n');
      for i := 0 to |texts|
        invariant Valid()
        invariant out.Then(CommentLines(texts[i..], depth)) == old(out).Then(CommentLines(texts, depth))
      {
        ghost var before := out;
        Emit(Comment(texts[i]), depth, None);
        assert texts[i..][1..] == texts[i + 1..];
        ThenAssociative(before, LineOut(Comment(texts[i]), depth, None), CommentLines(texts[i + 1..], depth));
      }
      ThenNothing(out);
    }

    method ResolveAlias(b: Block, bindings: seq<Binding>) returns (alias: Option<string>)
      requires Valid()
      modifies this
      ensures Valid() && out == old(out).Then(ResolveOut(b, bindings))
      ensures alias == ResolvedAlias(b, bindings)
    {
      ThenNothing(out);
      var requested := FieldOf(b, Device);
      if !requested.Str? || requested.text == "" {
        if |bindings| == 1 { return Some(bindings[0].alias); }
        Warn(b, NoDeviceNamed);
        return None;
      }
      if !IsKnown(requested.text, bindings) {
        Warn(b, UnboundDevice(requested.text));
        return None;
      }
      return Some(AliasByDeviceId(requested.text, bindings));
    }

    method DeviceCall(b: Block, target: Option<string>, spec: BlockSpec) returns (call: Option<Call>)
      requires Valid()
      modifies this
      ensures Valid() && out == old(out).Then(DeviceCallOut(b, target))
      ensures call == DeviceCallOf(b, target, spec)
    {
      ThenNothing(out);
      if target.None? { return None; }
      if !IsDeviceCall(b.typ) {
        Warn(b, NoPythonForm);
        return None;
      }
      return Some(OnDevice(target.value, DevicePath(b.typ), DeviceArgs(b, spec)));
    }

    method EmitExpression(b: Block, bindings: seq<Binding>) returns (cond: Condition)
      requires Valid()
      modifies this
      ensures Valid() && out == old(out).Then(ExpressionOut(b, bindings))
      ensures cond == ExpressionOf(b, bindings)
    {
      var alias := ResolveAlias(b, bindings);
      ThenNothing(ResolveOut(b, bindings));
      if IsReporter(b.typ) {
        var target := if alias.None? then UNRESOLVED_TARGET else AliasIdentifier(alias.value);
        return Reading(target, "\"" + SensorName(b.typ) + "\"");
      }
      ThenAssociative(old(out), ResolveOut(b, bindings), WarnOut(b, NotAValue));
      Warn(b, NotAValue);
      return NoneLiteral;
    }

    method ParallelCall(b: Block, bindings: seq<Binding>) returns (call: Call)
      requires Valid()
      modifies this
      ensures Valid() && out == old(out).Then(ItemOut(b, bindings))
      ensures call == ItemCall(b, bindings)
    {
      var spec := BlockSpecOf(b.typ);
      var alias := ResolveAlias(b, bindings);
      ghost var found := ResolveOut(b, bindings);
      if spec.None? {
        ThenNothing(found);
        return NoneCall;
      }
      if b.typ.Wait? {
        ThenAssociative(old(out), found, UseOut("sleep"));
        Use("sleep");
        return Sleep(SecondsText(b, spec.value));
      }
      if b.typ.Log? {
        ThenAssociative(old(out), found, UseOut("log"));
        Use("log");
        return LogCall(PythonString(FieldOf(b, Message)));
      }
      ThenAssociative(old(out), found, DeviceCallOut(b, Target(alias)));
      var made := DeviceCall(b, Target(alias), spec.value);
      return if made.None? then NoneCall else made.value;
    }

    method EmitItems(children: seq<Block>, depth: nat, bindings: seq<Binding>)
      requires Valid()
      modifies this
      ensures Valid() && out == old(out).Then(ItemsOut(children, depth, bindings))
    {
      for i := 0 to |children|
        invariant Valid()
        invariant out.Then(ItemsOut(children[i..], depth, bindings)) ==
                  old(out).Then(ItemsOut(children, depth, bindings))
      {
        var b := children[i];
        ghost var before, rest := out, ItemsOut(children[i + 1..], depth, bindings);
        assert children[i..][1..] == children[i + 1..];
        if b.disabled { continue; }
        var call := ParallelCall(b, bindings);
        Emit(ParallelItem(call), depth, Some(Origin(b.id, b.typ, None)));
        ghost var found, line := ItemOut(b, bindings),
          LineOut(ParallelItem(call), depth, Some(Origin(b.id, b.typ, None)));
        ThenAssociative(before, found, line);
        ThenAssociative(before, found.Then(line), rest);
      }
      ThenNothing(out);
    }

    method EmitBody(children: seq<Block>, depth: nat, bindings: seq<Binding>)
      requires Valid()
      modifies this
      ensures Valid() && out == old(out).Then(BodyOut(children, depth, bindings))
      decreases children, 2
    {
      var before := |lines|;
      for i := 0 to |children|
        invariant Valid()
        invariant out.Then(ChildrenOut(children[i..], depth, bindings)) ==
                  old(out).Then(ChildrenOut(children, depth, bindings))
      {
        var b := children[i];
        ghost var sofar, rest := out, ChildrenOut(children[i + 1..], depth, bindings);
        assert children[i..][1..] == children[i + 1..];
        if b.disabled { continue; }
        EmitStatement(b, depth, bindings);
        ThenAssociative(sofar, StatementOut(b, depth, bindings), rest);
      }
      ThenNothing(out);
      ghost var inner := ChildrenOut(children, depth, bindings);
      assert |lines| == before + |inner.lines|;
      if |lines| == before {
        ThenAssociative(old(out), inner, LineOut(Pass, depth, None));
        Emit(Pass, depth, None);
      }
    }

    method EmitStatement(b: Block, depth: nat, bindings: seq<Binding>)
      requires Valid()
      modifies this
      ensures Valid() && out == old(out).Then(StatementOut(b, depth, bindings))
      decreases b, 1
    {
      if BlockSpecOf(b.typ).None? {
        Warn(b, UnknownBlock);
        return;
      }
      var spec := BlockSpecOf(b.typ).value;
      EmitComment(b.comment, depth);
      var alias := None;
      if NamesDevice(spec) {
        alias := ResolveAlias(b, bindings);
      } else {
        ThenNothing(out);
      }
      ghost var found := if NamesDevice(spec) then ResolveOut(b, bindings) else NOTHING;
      ThenAssociative(old(out), CommentOut(b.comment, depth), found);
      ThenAssociative(old(out), CommentOut(b.comment, depth).Then(found), OwnOut(b, depth, bindings, spec));
      EmitOwn(b, depth, bindings, spec, alias);
    }

    method EmitOwn(b: Block, depth: nat, bindings: seq<Binding>, spec: BlockSpec, alias: Option<string>)
      requires Valid()
      requires BlockSpecOf(b.typ) == Some(spec) && alias == OwnAlias(b, spec, bindings)
      modifies this
      ensures Valid() && out == old(out).Then(OwnOut(b, depth, bindings, spec))
      decreases b, 0
    {
      hide PythonString, PythonNumber, DeviceArgs, AliasIdentifier, DevicePath, Resolve, BodyOut, CommentOut, FieldOf,
           DefaultOf, RenderLines, MapOf, EveryName, ItemsOut;
      var target := Target(alias);
      var origin := Some(Origin(b.id, b.typ, alias));
      ghost var body := BodyOut(b.children, depth + 1, bindings);
      match b.typ {
        case OnStart =>
          Emit(AsyncDef("main"), depth, origin);
          EmitBody(b.children, depth + 1, bindings);
          ThenAssociative(old(out), LineOut(AsyncDef("main"), depth, origin), body);
        case Every =>
          var seconds := SecondsText(b, spec);
          EmitHandler("every", EveryMark(seconds), EveryName(seconds), b.children, depth, bindings, origin);
        case OnGesture =>
          EmitHandler("when", GestureMark(b, target), "on_gesture", b.children, depth, bindings, origin);
        case Repeat =>
          var times := PythonNumber(FieldOf(b, Times), DefaultOf(spec, Times));
          Emit(ForRange(times), depth, origin);
          EmitBody(b.children, depth + 1, bindings);
          ThenAssociative(old(out), LineOut(ForRange(times), depth, origin), body);
        case If => EmitIf(b.children, depth, bindings, origin);
        case Parallel => EmitParallel(b.children, depth, bindings, origin);
        case Wait =>
          var call := Sleep(SecondsText(b, spec));
          Use("sleep");
          Emit(Await(call), depth, origin);
          ThenAssociative(old(out), UseOut("sleep"), LineOut(Await(call), depth, origin));
        case Log =>
          var call := LogCall(PythonString(FieldOf(b, Message)));
          Use("log");
          Emit(Await(call), depth, origin);
          ThenAssociative(old(out), UseOut("log"), LineOut(Await(call), depth, origin));
        case _ =>
          var call := DeviceCall(b, target, spec);
          ThenNothing(DeviceCallOut(b, target));
          if call.Some? {
            Emit(Await(call.value), depth, origin);
            ThenAssociative(old(out), DeviceCallOut(b, target), LineOut(Await(call.value), depth, origin));
          }
      }
    }

    method EmitHandler(name: string, mark: Mark, def: string, children: seq<Block>, depth: nat, bindings: seq<Binding>,
                       origin: Option<Origin>)
      requires Valid()
      modifies this
      ensures Valid() && out == old(out).Then(HandlerOut(name, mark, def, children, depth, bindings, origin))
      decreases children, 3
    {
      ghost var head, next := UseOut(name), LineOut(MarkLine(mark), depth, origin);
      Use(name);
      Emit(MarkLine(mark), depth, origin);
      ThenAssociative(old(out), head, next);
      Emit(AsyncDef(def), depth, None);
      ThenAssociative(old(out), head.Then(next), LineOut(AsyncDef(def), depth, None));
      EmitBody(children, depth + 1, bindings);
      ThenAssociative(old(out), head.Then(next).Then(LineOut(AsyncDef(def), depth, None)),
                      BodyOut(children, depth + 1, bindings));
    }

    method EmitIf(children: seq<Block>, depth: nat, bindings: seq<Binding>, origin: Option<Origin>)
      requires Valid()
      modifies this
      ensures Valid() && out == old(out).Then(IfOut(children, depth, bindings, origin))
      decreases children, 3
    {
      if children == [] {
        Emit(IfHeader(TrueLiteral), depth, origin);
        EmitBody([], depth + 1, bindings);
        ThenAssociative(old(out), LineOut(IfHeader(TrueLiteral), depth, origin), BodyOut([], depth + 1, bindings));
      } else {
        var cond := EmitExpression(children[0], bindings);
        ghost var found, line := ExpressionOut(children[0], bindings), LineOut(IfHeader(cond), depth, origin);
        Emit(IfHeader(cond), depth, origin);
        ThenAssociative(old(out), found, line);
        EmitBody(children[1..], depth + 1, bindings);
        ThenAssociative(old(out), found.Then(line), BodyOut(children[1..], depth + 1, bindings));
      }
    }

    method EmitParallel(children: seq<Block>, depth: nat, bindings: seq<Binding>, origin: Option<Origin>)
      requires Valid()
      modifies this
      ensures Valid() && out == old(out).Then(ParallelOut(children, depth, bindings, origin))
    {
      ghost var start := UseOut("parallel");
      Use("parallel");
      if !AnyEnabled(children) {
        Emit(Pass, depth, origin);
        ThenAssociative(old(out), start, LineOut(Pass, depth, origin));
        return;
      }
      Emit(ParallelOpen, depth, origin);
      EmitItems(children, depth + 1, bindings);
      Emit(ParallelClose, depth, None);
      ThenChain(old(out), start, LineOut(ParallelOpen, depth, origin), ItemsOut(children, depth + 1, bindings),
                LineOut(ParallelClose, depth, None));
    }
  }

  // ---------------------------------------------------------------- the module

  function Shifted(entries: seq<SourceMapEntry>, shift: nat): seq<SourceMapEntry> {
    if entries == [] then []
    else
      var n := |entries|;
      Shifted(entries[..n - 1], shift) + [entries[n - 1].(line := entries[n - 1].line + shift)]
  }

  lemma {:induction false} ShiftedSnoc(entries: seq<SourceMapEntry>, last: SourceMapEntry, shift: nat)
    ensures Shifted(entries + [last], shift) == Shifted(entries, shift) + [last.(line := last.line + shift)]
  {
    assert (entries + [last])[..|entries|] == entries;
  }

  lemma {:induction false} MapAppend(a: seq<Option<Origin>>, b: seq<Option<Origin>>)
    ensures MapOf(a + b) == MapOf(a) + Shifted(MapOf(b), |a|)
  {
    var n := |b|;
    if n == 0 {
      assert a + b == a;
    } else {
      assert (a + b)[..|a + b| - 1] == a + b[..n - 1];
      MapAppend(a, b[..n - 1]);
      assert (a + b)[|a + b| - 1] == b[n - 1];
      if b[n - 1].None? {
        assert MapOf(b) == MapOf(b[..n - 1]) && MapOf(a + b) == MapOf(a + b[..n - 1]);
      } else {
        ShiftedSnoc(MapOf(b[..n - 1]), SourceMapEntry(n, b[n - 1].value), |a|);
      }
    }
  }

  lemma FileParts(head: Out, program: Out)
    requires |head.lines| == |head.origins|
    ensures var file := head.Then(program);
            RenderLines(file.lines) == RenderLines(head.lines) + RenderLines(program.lines) &&
            MapOf(file.origins) == MapOf(head.origins) + Shifted(MapOf(program.origins), |head.lines|)
  {
    MapAppend(head.origins, program.origins);
    RenderAppend(head.lines, program.lines);
  }

  datatype GenerateResult = GenerateResult(
    python: string, sourceMap: seq<SourceMapEntry>, warnings: seq<Warning>, usedImports: seq<string>)

  method EmitProgram(blocks: seq<Block>, bindings: seq<Binding>) returns (body: Emitter)
    ensures fresh(body) && body.Valid() && body.out == ProgramOut(blocks, bindings)
  {
    body := new Emitter();
    var events := Events(blocks);
    ThenNothing(EventsOut(events, bindings));
    for i := 0 to |events|
      invariant fresh(body) && body.Valid()
      invariant body.out.Then(EventsOut(events[i..], bindings)) == EventsOut(events, bindings)
    {
      ghost var before, rest := body.out, EventsOut(events[i + 1..], bindings);
      body.EmitBody([events[i]], 0, bindings);
      body.Emit(Blank, 0, None);
      assert events[i..][1..] == events[i + 1..];
      ghost var one := BodyOut([events[i]], 0, bindings);
      ThenAssociative(before, one, LineOut(Blank, 0, None));
      ThenAssociative(before, one.Then(LineOut(Blank, 0, None)), rest);
    }
    ThenNothing(body.out);
    if HasMain(blocks) {
      var starts, loose := Starts(blocks), Loose(blocks);
      var anchor := if starts != [] then starts[0] else loose[0];
      ghost var before := body.out;
      EmitStartComments(body, starts);
      var origin := Some(Origin(anchor.id, anchor.typ, None));
      body.Emit(AsyncDef("main"), 0, origin);
      body.EmitBody(MainSteps(blocks), 1, bindings);
      body.Emit(Blank, 0, None);
      ghost var c, d, e := StartComments(starts), LineOut(AsyncDef("main"), 0, origin),
        BodyOut(MainSteps(blocks), 1, bindings);
      ThenAssociative(before, c, d);
      ThenAssociative(before, c.Then(d), e);
      ThenAssociative(before, c.Then(d).Then(e), LineOut(Blank, 0, None));
    }
  }

  method EmitStartComments(body: Emitter, starts: seq<Block>)
    requires body.Valid()
    modifies body
    ensures body.Valid() && body.out == old(body.out).Then(StartComments(starts))
  {
    for i := 0 to |starts|
      invariant body.Valid()
      invariant body.out.Then(StartComments(starts[i..])) == old(body.out).Then(StartComments(starts))
    {
      ghost var before := body.out;
      body.EmitComment(starts[i].comment, 0);
      assert starts[i..][1..] == starts[i + 1..];
      ThenAssociative(before, CommentOut(starts[i].comment, 0), StartComments(starts[i + 1..]));
    }
    ThenNothing(body.out);
  }

  method EmitHeader(used: set<string>, bindings: seq<Binding>, before: Before) returns (emitter: Emitter)
    ensures fresh(emitter) && emitter.Valid() && emitter.out == HeaderOut(used, bindings, before)
  {
    hide AliasIdentifier, PythonString, Imports;
    emitter := new Emitter();
    var line := LineOut(Import(Imports(IMPORT_ORDER, used)), 0, None);
    emitter.Emit(Import(Imports(IMPORT_ORDER, used)), 0, None);
    ThenNothing(line);
    EmitBlanks(emitter);
    var sorted := Sorted(bindings, before);
    ghost var start := emitter.out;
    for i := 0 to |sorted|
      invariant fresh(emitter) && emitter.Valid()
      invariant emitter.out.Then(AssignOut(sorted[i..])) == start.Then(AssignOut(sorted))
    {
      var stmt := Assign(AliasIdentifier(sorted[i].alias), PythonString(Plain(sorted[i].deviceId)));
      ghost var sofar := emitter.out;
      emitter.Emit(stmt, 0, None);
      assert sorted[i..][1..] == sorted[i + 1..];
      ThenAssociative(sofar, LineOut(stmt, 0, None), AssignOut(sorted[i + 1..]));
    }
    ThenNothing(emitter.out);
    if sorted != [] {
      EmitBlanks(emitter);
    }
  }

  method EmitBlanks(emitter: Emitter)
    requires emitter.Valid()
    modifies emitter
    ensures emitter.Valid() && emitter.out == old(emitter.out).Then(BLANKS)
  {
    emitter.Emit(Blank, 0, None);
    emitter.Emit(Blank, 0, None);
    ThenAssociative(old(emitter.out), LineOut(Blank, 0, None), LineOut(Blank, 0, None));
  }

  method GeneratePython(blocks: seq<Block>, bindings: seq<Binding>, before: Before) returns (result: GenerateResult)
    ensures result.python == PythonFile(blocks, bindings, before)
    ensures result.sourceMap == SourceMap(blocks, bindings, before)
    ensures result.warnings == ProgramOut(blocks, bindings).warnings
    ensures result.usedImports == Imports(IMPORT_ORDER, ProgramOut(blocks, bindings).used)
  {
    var body := EmitProgram(blocks, bindings);
    var emitter := EmitHeader(body.used, bindings, before);
    var lines := AppendTexts(emitter.lines, body.lines);
    var sourceMap := AppendShifted(emitter.sourceMap, body.sourceMap, |emitter.lines|);
    FileParts(emitter.out, body.out);
    ghost var file := FileOut(blocks, bindings, before);
    assert file == emitter.out.Then(body.out);
    assert lines == RenderLines(file.lines);
    lines := TrimLines(lines, file.lines);
    result := GenerateResult(Join(lines, '\n') + "\n", sourceMap, body.warnings, Imports(IMPORT_ORDER, body.used));
  }

  method AppendTexts(head: seq<string>, tail: seq<string>) returns (texts: seq<string>)
    ensures texts == head + tail
  {
    texts := head;
    for i := 0 to |tail|
      invariant texts == head + tail[..i]
    {
      texts := texts + [tail[i]];
    }
  }

  method AppendShifted(head: seq<SourceMapEntry>, tail: seq<SourceMapEntry>, offset: nat)
    returns (entries: seq<SourceMapEntry>)
    ensures entries == head + Shifted(tail, offset)
  {
    entries := head;
    for i := 0 to |tail|
      invariant entries == head + Shifted(tail[..i], offset)
    {
      var entry := tail[i];
      entries := entries + [entry.(line := entry.line + offset)];
      ShiftedSnoc(tail[..i], entry, offset);
      assert tail[..i] + [entry] == tail[..i + 1];
    }
    assert tail[..|tail|] == tail;
  }

  lemma TrimStep(lines: seq<Line>)
    ensures TrimBlank(lines) ==
            if lines == [] || !lines[|lines| - 1].stmt.Blank? then lines else TrimBlank(lines[..|lines| - 1])
  {
  }

  method TrimLines(texts: seq<string>, ghost lines: seq<Line>) returns (kept: seq<string>)
    requires texts == RenderLines(lines)
    ensures kept == RenderLines(TrimBlank(lines))
  {
    hide RenderLine, RenderLines, TrimBlank;
    kept := texts;
    ghost var left := lines;
    while |kept| > 0 && kept[|kept| - 1] == ""
      invariant kept == RenderLines(left)
      invariant TrimBlank(left) == TrimBlank(lines)
    {
      ghost var n := |left|;
      BlankText(left[n - 1]);
      TrimStep(left);
      RenderAppend(left[..n - 1], left[n - 1..]);
      assert left == left[..n - 1] + left[n - 1..];
      kept := kept[..|kept| - 1];
      left := left[..n - 1];
    }
    if left != [] { BlankText(left[|left| - 1]); }
    TrimStep(left);
  }

  /** The entry a runtime traceback line belongs to. */
  method BlockForLine(sourceMap: seq<SourceMapEntry>, line: nat) returns (best: Option<SourceMapEntry>)
    ensures Nearest(sourceMap, line, best)
  {
    best := None;
    for i := 0 to |sourceMap|
      invariant Nearest(sourceMap[..i], line, best)
    {
      var entry := sourceMap[i];
      assert sourceMap[..i + 1] == sourceMap[..i] + [entry];
      if entry.line <= line && (best.None? || entry.line > best.value.line) {
        best := Some(entry);
      }
    }
    assert sourceMap[..|sourceMap|] == sourceMap;
  }

  /** What line lookup answers: an entry at that line, or else the nearest entry above it. */
  ghost predicate Nearest(entries: seq<SourceMapEntry>, line: nat, best: Option<SourceMapEntry>) {
    match best
    case None => forall e :: e in entries ==> e.line > line
    case Some(b) => b in entries && b.line <= line && forall e :: e in entries && e.line <= line ==> e.line <= b.line
  }
}
