/** What the generator reports beside the file: the warnings, block by block, and the names it imports. */
module Notices {
  import opened Wrappers
  import opened Text
  import opened Values
  import opened Catalog
  import opened Python
  import opened Generate
  import opened Structure
  import opened Meaning
  import opened SourceMaps
  import opened TopLevel
  import opened Trails

  // ---------------------------------------------------------------- the names a program uses

  /** The name of the SDK that the station's line needs. */
  function NameFor(s: Station): Option<string> {
    if s.Main? then None
    else if s.block.typ.Wait? then Some("sleep")
    else if s.block.typ.Log? then Some("log")
    else if s.Item? then None
    else if s.block.typ.Every? then Some("every")
    else if s.block.typ.OnGesture? then Some("when")
    else if s.block.typ.Parallel? then Some("parallel")
    else None
  }

  ghost function Names(trail: seq<Station>): set<string> {
    set s | s in trail && NameFor(s).Some? :: NameFor(s).value
  }

  lemma NamesAppend(a: seq<Station>, b: seq<Station>)
    ensures Names(a + b) == Names(a) + Names(b)
  {
    hide NameFor;
  }

  lemma NamesOne(s: Station)
    ensures Names([s]) == if NameFor(s).Some? then {NameFor(s).value} else {}
    ensures Names(NOWHERE) == {}
  {
    hide NameFor;
    assert s in [s];
  }

  // ---------------------------------------------------------------- the warnings of a program

  /** What is wrong with the device a block names. */
  function DeviceWarnings(b: Block, bindings: seq<Binding>): seq<Warning> {
    var requested := FieldOf(b, Device);
    if NamedAlias(b, bindings).Some? then []
    else if requested.Str? && requested.text != "" then [Warning(b.id, b.typ, UnboundDevice(requested.text))]
    else [Warning(b.id, b.typ, NoDeviceNamed)]
  }

  /** Of a block that has its device but no call to make with it. */
  function FormWarnings(b: Block, bindings: seq<Binding>): seq<Warning> {
    if NamedAlias(b, bindings).Some? then [Warning(b.id, b.typ, NoPythonForm)] else []
  }

  function ValueWarnings(b: Block, bindings: seq<Binding>): seq<Warning> {
    DeviceWarnings(b, bindings) + (if IsReporter(b.typ) then [] else [Warning(b.id, b.typ, NotAValue)])
  }

  function ItemWarnings(children: seq<Block>, bindings: seq<Binding>): seq<Warning> {
    if children == [] then []
    else
      var b, rest := children[0], ItemWarnings(children[1..], bindings);
      if b.disabled then rest
      else
        DeviceWarnings(b, bindings) +
        (if b.typ.Unknown? || b.typ.Wait? || b.typ.Log? || IsDeviceCall(b.typ) then [] else FormWarnings(b, bindings)) +
        rest
  }

  function BlockWarnings(b: Block, bindings: seq<Binding>): seq<Warning>
    decreases b, 0
  {
    match b.typ
    case Unknown(_) => [Warning(b.id, b.typ, UnknownBlock)]
    case Wait => []
    case Log => []
    case OnGesture => DeviceWarnings(b, bindings) + Warnings(b.children, bindings)
    case OnStart => Warnings(b.children, bindings)
    case Every => Warnings(b.children, bindings)
    case Repeat => Warnings(b.children, bindings)
    case If =>
      if b.children == [] then []
      else ValueWarnings(b.children[0], bindings) + Warnings(b.children[1..], bindings)
    case Parallel => ItemWarnings(b.children, bindings)
    case _ => DeviceWarnings(b, bindings) + (if IsDeviceCall(b.typ) then [] else FormWarnings(b, bindings))
  }

  function Warnings(children: seq<Block>, bindings: seq<Binding>): seq<Warning>
    decreases children, 1
  {
    if children == [] then []
    else (if children[0].disabled then [] else BlockWarnings(children[0], bindings)) + Warnings(children[1..], bindings)
  }

  // ---------------------------------------------------------------- what the generator reports

  ghost predicate Reported(out: Out, trail: seq<Station>, warnings: seq<Warning>) {
    out.used == Names(trail) && out.warnings == warnings
  }

  lemma ReportedThen(a: Out, s: seq<Station>, v: seq<Warning>, b: Out, t: seq<Station>, w: seq<Warning>)
    requires Reported(a, s, v) && Reported(b, t, w)
    ensures Reported(a.Then(b), s + t, v + w)
  {
    hide Names;
    NamesAppend(s, t);
  }

  const SILENT: seq<Warning> := []

  /** Lines alone report nothing. */
  lemma ReportedQuiet(out: Out)
    requires out.used == {} && out.warnings == []
    ensures Reported(out, [], [])
  {
  }

  lemma DeviceReported(b: Block, bindings: seq<Binding>)
    ensures Reported(ResolveOut(b, bindings), [], DeviceWarnings(b, bindings))
    ensures Resolve(b, bindings).Resolved? <==> NamedAlias(b, bindings).Some?
  {
    hide NamedAlias, IsKnown, AliasByDeviceId;
    AliasNamed(b, bindings);
  }

  lemma OneItemReported(b: Block, depth: nat, bindings: seq<Binding>)
    ensures var out := ItemOut(b, bindings).Then(LineOut(ParallelItem(ItemCall(b, bindings)), depth,
              Some(Origin(b.id, b.typ, None))));
            Reported(out, [Item(b)], DeviceWarnings(b, bindings) +
              (if b.typ.Unknown? || b.typ.Wait? || b.typ.Log? || IsDeviceCall(b.typ) then []
               else FormWarnings(b, bindings)))
  {
    hide Resolve, NamedAlias, ItemCall, DeviceWarnings, AliasIdentifier, Names;
    DeviceReported(b, bindings);
    AliasNamed(b, bindings);
    NamesOne(Item(b));
    assert DeviceWarnings(b, bindings) + SILENT == DeviceWarnings(b, bindings);
  }

  lemma {:induction false} ItemsReported(children: seq<Block>, depth: nat, bindings: seq<Binding>)
    ensures Reported(ItemsOut(children, depth, bindings), ItemTrail(children), ItemWarnings(children, bindings))
  {
    hide ItemCall, ItemOut, Reported, DeviceWarnings, FormWarnings, IsDeviceCall;
    if children == [] {
      ReportedQuiet(NOTHING);
    } else {
      var b, rest := children[0], children[1..];
      ItemsReported(rest, depth, bindings);
      if b.disabled {
        assert NOWHERE + ItemTrail(rest) == ItemTrail(rest);
      } else {
        OneItemReported(b, depth, bindings);
        var first := ItemOut(b, bindings).Then(LineOut(ParallelItem(ItemCall(b, bindings)), depth,
          Some(Origin(b.id, b.typ, None))));
        var own := DeviceWarnings(b, bindings) +
          (if b.typ.Unknown? || b.typ.Wait? || b.typ.Log? || IsDeviceCall(b.typ) then []
            else FormWarnings(b, bindings));
        ReportedThen(first, [Item(b)], own, ItemsOut(rest, depth, bindings), ItemTrail(rest),
          ItemWarnings(rest, bindings));
      }
    }
  }

  lemma {:induction false} BodyReported(children: seq<Block>, depth: nat, bindings: seq<Binding>)
    ensures Reported(ChildrenOut(children, depth, bindings), Trail(children, bindings), Warnings(children, bindings))
    ensures Reported(BodyOut(children, depth, bindings), Trail(children, bindings), Warnings(children, bindings))
    decreases children, 2
  {
    hide StatementOut, Reported, BlockTrail, BlockWarnings;
    var trail, warnings := Trail(children, bindings), Warnings(children, bindings);
    if children == [] {
      ReportedQuiet(NOTHING);
    } else {
      var rest := children[1..];
      BodyReported(rest, depth, bindings);
      if children[0].disabled {
        assert NOWHERE + Trail(rest, bindings) == Trail(rest, bindings);
        assert SILENT + Warnings(rest, bindings) == Warnings(rest, bindings);
      } else {
        StatementReported(children[0], depth, bindings);
        ReportedThen(StatementOut(children[0], depth, bindings), BlockTrail(children[0], bindings),
          BlockWarnings(children[0], bindings), ChildrenOut(rest, depth, bindings), Trail(rest, bindings),
          Warnings(rest, bindings));
      }
    }
    ReportedQuiet(LineOut(Pass, depth, None));
    ReportedThen(ChildrenOut(children, depth, bindings), trail, warnings, LineOut(Pass, depth, None), [], []);
    assert trail + NOWHERE == trail && warnings + SILENT == warnings;
  }

  lemma {:induction false} CommentReported(texts: seq<string>, depth: nat)
    ensures CommentLines(texts, depth).used == {} && CommentLines(texts, depth).warnings == []
  {
    if texts != [] { CommentReported(texts[1..], depth); }
  }

  lemma CommentOutReported(comment: string, depth: nat)
    ensures Reported(CommentOut(comment, depth), [], [])
  {
    hide Reported;
    CommentReported(Split(comment, '\n'), depth);
    ReportedQuiet(CommentOut(comment, depth));
  }

  /** What a block's own lines report, when its search for a device is set apart. */
  function OwnWarnings(b: Block, bindings: seq<Binding>): seq<Warning> {
    match b.typ
    case Unknown(_) => []
    case Wait => []
    case Log => []
    case OnGesture => Warnings(b.children, bindings)
    case OnStart => Warnings(b.children, bindings)
    case Every => Warnings(b.children, bindings)
    case Repeat => Warnings(b.children, bindings)
    case If =>
      if b.children == [] then []
      else ValueWarnings(b.children[0], bindings) + Warnings(b.children[1..], bindings)
    case Parallel => ItemWarnings(b.children, bindings)
    case _ => if IsDeviceCall(b.typ) then [] else FormWarnings(b, bindings)
  }

  lemma {:induction false} StatementReported(b: Block, depth: nat, bindings: seq<Binding>)
    ensures Reported(StatementOut(b, depth, bindings), BlockTrail(b, bindings), BlockWarnings(b, bindings))
    decreases b, 1
  {
    hide OwnOut, CommentOut, Reported, DeviceWarnings, FormWarnings, ValueWarnings, ItemWarnings, Warnings, BlockTrail,
         ResolveOut, NamesDevice;
    if BlockSpecOf(b.typ).None? {
      UnknownReported(b, bindings);
    } else {
      var spec, trail := BlockSpecOf(b.typ).value, BlockTrail(b, bindings);
      var comment, found := CommentOut(b.comment, depth), if NamesDevice(spec) then ResolveOut(b, bindings)
        else NOTHING;
      var lacking := if NamesDevice(spec) then DeviceWarnings(b, bindings) else [];
      CommentOutReported(b.comment, depth);
      DeviceReported(b, bindings);
      ReportedQuiet(NOTHING);
      ReportedThen(comment, [], [], found, [], lacking);
      assert NOWHERE + NOWHERE == NOWHERE && NOWHERE + trail == trail && SILENT + lacking == lacking;
      OwnReported(b, depth, bindings, spec);
      ReportedThen(comment.Then(found), [], lacking, OwnOut(b, depth, bindings, spec), trail, OwnWarnings(b, bindings));
      DeviceFieldsDeclared(b.typ);
      assert SILENT + OwnWarnings(b, bindings) == OwnWarnings(b, bindings);
    }
  }

  lemma UnknownReported(b: Block, bindings: seq<Binding>)
    requires BlockSpecOf(b.typ).None?
    ensures Reported(WarnOut(b, UnknownBlock), BlockTrail(b, bindings), [Warning(b.id, b.typ, UnknownBlock)])
  {
    hide NamedAlias, Names;
    NamesOne(Item(b));
  }

  lemma {:induction false} OwnReported(b: Block, depth: nat, bindings: seq<Binding>, spec: BlockSpec)
    requires BlockSpecOf(b.typ) == Some(spec)
    ensures Reported(OwnOut(b, depth, bindings, spec), BlockTrail(b, bindings), OwnWarnings(b, bindings))
    decreases b, 0
  {
    hide BodyOut, HandlerOut, IfOut, ParallelOut, PythonString, PythonNumber, AliasIdentifier, ResolvedAlias,
         DeviceArgs, Reported, Trail, NamedAlias, ItemTrail, NamesDevice, OwnAlias, EveryName, Warnings, ItemWarnings,
         ValueWarnings, FormWarnings, NameFor;
    var origin := Some(Origin(b.id, b.typ, OwnAlias(b, spec, bindings)));
    var s := Own(b, if b.typ.OnGesture? then NamedAlias(b, bindings) else None);
    if b.typ.OnStart? || b.typ.Repeat? {
      HeaderReported(if b.typ.OnStart? then AsyncDef("main")
                     else ForRange(PythonNumber(FieldOf(b, Times), DefaultOf(spec, Times))), depth, bindings, origin,
                       s);
    } else if b.typ.Every? {
      HandlerReported("every", EveryMark(SecondsText(b, spec)), EveryName(SecondsText(b, spec)), depth, bindings,
        origin, s);
    } else if b.typ.OnGesture? {
      HandlerReported("when", GestureMark(b, Target(OwnAlias(b, spec, bindings))), "on_gesture", depth, bindings,
        origin, s);
    } else if b.typ.If? {
      IfReported(depth, bindings, origin, s);
    } else if b.typ.Parallel? {
      ParallelReported(depth, bindings, origin, s);
    } else {
      ActionReported(b, depth, bindings, spec);
    }
  }

  lemma {:induction false} HeaderReported(header: Stmt, depth: nat, bindings: seq<Binding>, origin: Option<Origin>,
      s: Station)
    requires s.Own? && (s.block.typ.OnStart? || s.block.typ.Repeat?)
    ensures Reported(LineOut(header, depth, origin).Then(BodyOut(s.block.children, depth + 1, bindings)),
              [s] + Trail(s.block.children, bindings), Warnings(s.block.children, bindings))
    decreases s.block.children, 3
  {
    hide BodyOut, Trail, Warnings, Reported;
    var warnings := Warnings(s.block.children, bindings);
    BodyReported(s.block.children, depth + 1, bindings);
    LineReported(LineOut(header, depth, origin), s);
    ReportedThen(LineOut(header, depth, origin), [s], [], BodyOut(s.block.children, depth + 1, bindings),
      Trail(s.block.children, bindings), warnings);
    assert SILENT + warnings == warnings;
  }

  /** What a station's line needs, and no warning. */
  lemma LineReported(out: Out, s: Station)
    requires out.warnings == [] && out.used == if NameFor(s).Some? then {NameFor(s).value} else {}
    ensures Reported(out, [s], [])
  {
    hide NameFor, Names;
    NamesOne(s);
  }

  lemma {:induction false} HandlerReported(use: string, mark: Mark, name: string, depth: nat, bindings: seq<Binding>,
      origin: Option<Origin>, s: Station)
    requires s.Own? && ((s.block.typ.Every? && use == "every") || (s.block.typ.OnGesture? && use == "when"))
    ensures Reported(HandlerOut(use, mark, name, s.block.children, depth, bindings, origin),
              [s] + Trail(s.block.children, bindings), Warnings(s.block.children, bindings))
    decreases s.block.children, 3
  {
    hide BodyOut, Trail, Warnings, Reported;
    var warnings := Warnings(s.block.children, bindings);
    var head := UseOut(use).Then(LineOut(MarkLine(mark), depth, origin)).Then(LineOut(AsyncDef(name), depth, None));
    BodyReported(s.block.children, depth + 1, bindings);
    LineReported(head, s);
    ReportedThen(head, [s], [], BodyOut(s.block.children, depth + 1, bindings), Trail(s.block.children, bindings),
      warnings);
    assert SILENT + warnings == warnings;
  }

  lemma ValueReported(b: Block, bindings: seq<Binding>)
    ensures Reported(ExpressionOut(b, bindings), [], ValueWarnings(b, bindings))
  {
    hide DeviceWarnings, ResolveOut, IsReporter;
    DeviceReported(b, bindings);
  }

  lemma {:induction false} IfReported(depth: nat, bindings: seq<Binding>, origin: Option<Origin>, s: Station)
    requires s.Own? && s.block.typ.If?
    ensures var children := s.block.children;
            Reported(IfOut(children, depth, bindings, origin),
              [s] + (if children == [] then [] else Trail(children[1..], bindings)),
              if children == [] then [] else ValueWarnings(children[0], bindings) + Warnings(children[1..], bindings))
    decreases s.block.children, 3
  {
    hide BodyOut, Trail, Warnings, Reported, ExpressionOut, ExpressionOf, ValueWarnings;
    var children := s.block.children;
    if children == [] {
      var line := LineOut(IfHeader(TrueLiteral), depth, origin);
      LineReported(line, s);
      BodyReported([], depth + 1, bindings);
      EmptyTrail(bindings);
      NoWarnings(bindings);
      ReportedThen(line, [s], [], BodyOut([], depth + 1, bindings), [], []);
      assert SILENT + SILENT == SILENT;
    } else {
      var found := ExpressionOut(children[0], bindings);
      var line := LineOut(IfHeader(ExpressionOf(children[0], bindings)), depth, origin);
      var wrong := ValueWarnings(children[0], bindings);
      ValueReported(children[0], bindings);
      LineReported(line, s);
      ReportedThen(found, [], wrong, line, [s], []);
      assert NOWHERE + [s] == [s] && wrong + SILENT == wrong;
      BodyReported(children[1..], depth + 1, bindings);
      ReportedThen(found.Then(line), [s], wrong, BodyOut(children[1..], depth + 1, bindings),
        Trail(children[1..], bindings), Warnings(children[1..], bindings));
    }
  }

  lemma NoWarnings(bindings: seq<Binding>)
    ensures Warnings([], bindings) == []
  {
  }

  lemma ParallelReported(depth: nat, bindings: seq<Binding>, origin: Option<Origin>, s: Station)
    requires s.Own? && s.block.typ.Parallel?
    ensures Reported(ParallelOut(s.block.children, depth, bindings, origin), [s] + ItemTrail(s.block.children),
              ItemWarnings(s.block.children, bindings))
  {
    hide ItemsOut, Reported, DeviceWarnings, FormWarnings;
    var children := s.block.children;
    var trail, warnings := ItemTrail(children), ItemWarnings(children, bindings);
    if AnyEnabled(children) {
      var head, close := UseOut("parallel").Then(LineOut(ParallelOpen, depth, origin)),
        LineOut(ParallelClose, depth, None);
      LineReported(head, s);
      ItemsReported(children, depth + 1, bindings);
      ReportedThen(head, [s], [], ItemsOut(children, depth + 1, bindings), trail, warnings);
      ReportedQuiet(close);
      assert SILENT + warnings == warnings && warnings + SILENT == warnings;
      assert ([s] + trail) + NOWHERE == [s] + trail;
      ReportedThen(head.Then(ItemsOut(children, depth + 1, bindings)), [s] + trail, warnings, close, [], []);
      SameReport(ParallelOut(children, depth, bindings, origin),
        head.Then(ItemsOut(children, depth + 1, bindings)).Then(close), [s] + trail, warnings);
    } else {
      NoItems(children);
      NoItemWarnings(children, bindings);
      assert [s] + trail == [s];
      LineReported(UseOut("parallel").Then(LineOut(Pass, depth, origin)), s);
    }
  }

  lemma SameReport(a: Out, b: Out, trail: seq<Station>, warnings: seq<Warning>)
    requires Reported(b, trail, warnings) && a.used == b.used && a.warnings == b.warnings
    ensures Reported(a, trail, warnings)
  {
  }

  lemma {:induction false} NoItemWarnings(children: seq<Block>, bindings: seq<Binding>)
    requires !AnyEnabled(children)
    ensures ItemWarnings(children, bindings) == []
  {
    hide DeviceWarnings, FormWarnings, IsDeviceCall;
    if children != [] {
      assert children[0].disabled;
      assert forall i :: 0 <= i < |children[1..]| ==> children[1..][i] == children[i + 1];
      NoItemWarnings(children[1..], bindings);
    }
  }

  lemma ActionReported(b: Block, depth: nat, bindings: seq<Binding>, spec: BlockSpec)
    requires BlockSpecOf(b.typ) == Some(spec)
    requires !IsEvent(b.typ) && !b.typ.Repeat? && !b.typ.If? && !b.typ.Parallel?
    ensures Reported(OwnOut(b, depth, bindings, spec), BlockTrail(b, bindings), OwnWarnings(b, bindings))
  {
    hide PythonString, PythonNumber, AliasIdentifier, ResolvedAlias, DeviceArgs, FieldOf, DefaultOf, HandlerOut, IfOut,
         ParallelOut, BodyOut, NamedAlias, OwnAlias, NamesDevice, DevicePath, Names;
    OwnAliasNamed(b, spec, bindings);
    NamesOne(Own(b, None));
    NamesOne(Own(b, NamedAlias(b, bindings)));
  }

  // ---------------------------------------------------------------- the whole program

  function HandlersWarnings(blocks: seq<Block>, bindings: seq<Binding>): seq<Warning> {
    if blocks == [] then []
    else
      (if IsHandler(blocks[0]) then BlockWarnings(blocks[0], bindings) else []) +
        HandlersWarnings(blocks[1..], bindings)
  }

  function StartsWarnings(blocks: seq<Block>, bindings: seq<Binding>): seq<Warning> {
    if blocks == [] then []
    else
      (if blocks[0].disabled || !blocks[0].typ.OnStart? then [] else Warnings(blocks[0].children, bindings)) +
      StartsWarnings(blocks[1..], bindings)
  }

  function LooseWarnings(blocks: seq<Block>, bindings: seq<Binding>): seq<Warning> {
    if blocks == [] then []
    else
      (if blocks[0].disabled || blocks[0].typ.OnStart? || IsHandler(blocks[0]) then []
       else BlockWarnings(blocks[0], bindings)) + LooseWarnings(blocks[1..], bindings)
  }

  /** All warnings: those of the handlers, of what hangs under the start blocks, and of the loose blocks. */
  function ProgramWarnings(blocks: seq<Block>, bindings: seq<Binding>): seq<Warning> {
    HandlersWarnings(blocks, bindings) + (StartsWarnings(blocks, bindings) + LooseWarnings(blocks, bindings))
  }

  lemma {:induction false} WarningsAppend(a: seq<Block>, b: seq<Block>, bindings: seq<Binding>)
    ensures Warnings(a + b, bindings) == Warnings(a, bindings) + Warnings(b, bindings)
  {
    hide BlockWarnings;
    if a == [] {
      assert a + b == b;
    } else {
      assert (a + b)[1..] == a[1..] + b;
      WarningsAppend(a[1..], b, bindings);
    }
  }

  lemma WarningsStep(b: Block, rest: seq<Block>, bindings: seq<Binding>)
    requires !b.disabled
    ensures Warnings([b] + rest, bindings) == BlockWarnings(b, bindings) + Warnings(rest, bindings)
  {
    hide BlockWarnings;
    assert ([b] + rest)[1..] == rest;
  }

  lemma {:induction false} HandlersWarn(blocks: seq<Block>, bindings: seq<Binding>)
    ensures HandlersWarnings(blocks, bindings) == Warnings(Events(blocks), bindings)
  {
    hide BlockWarnings, Warnings;
    if blocks == [] {
      NoWarnings(bindings);
    } else {
      HandlersWarn(blocks[1..], bindings);
      if IsHandler(blocks[0]) { WarningsStep(blocks[0], Events(blocks[1..]), bindings); }
    }
  }

  lemma {:induction false} StartsWarn(blocks: seq<Block>, bindings: seq<Binding>)
    ensures StartsWarnings(blocks, bindings) == Warnings(AllChildren(Starts(blocks)), bindings)
  {
    hide Warnings;
    if blocks == [] {
      NoWarnings(bindings);
    } else {
      StartsWarn(blocks[1..], bindings);
      if !blocks[0].disabled && blocks[0].typ.OnStart? {
        assert Starts(blocks)[1..] == Starts(blocks[1..]);
        WarningsAppend(blocks[0].children, AllChildren(Starts(blocks[1..])), bindings);
      }
    }
  }

  lemma {:induction false} LooseWarn(blocks: seq<Block>, bindings: seq<Binding>)
    ensures LooseWarnings(blocks, bindings) == Warnings(Loose(blocks), bindings)
  {
    hide BlockWarnings, Warnings;
    if blocks == [] {
      NoWarnings(bindings);
    } else {
      LooseWarn(blocks[1..], bindings);
      if !blocks[0].disabled && !IsEvent(blocks[0].typ) { WarningsStep(blocks[0], Loose(blocks[1..]), bindings); }
    }
  }

  lemma {:induction false} EventsReported(events: seq<Block>, bindings: seq<Binding>)
    ensures Reported(EventsOut(events, bindings), Trail(events, bindings), Warnings(events, bindings))
  {
    hide Reported, Trail, BodyOut, Warnings;
    if events == [] {
      EmptyTrail(bindings);
      NoWarnings(bindings);
      ReportedQuiet(NOTHING);
    } else {
      var body, rest := BodyOut([events[0]], 0, bindings), events[1..];
      var first, wrong := Trail([events[0]], bindings), Warnings([events[0]], bindings);
      BodyReported([events[0]], 0, bindings);
      ReportedQuiet(LineOut(Blank, 0, None));
      ReportedThen(body, first, wrong, LineOut(Blank, 0, None), [], []);
      assert first + NOWHERE == first && wrong + SILENT == wrong;
      EventsReported(rest, bindings);
      ReportedThen(body.Then(LineOut(Blank, 0, None)), first, wrong, EventsOut(rest, bindings), Trail(rest, bindings),
        Warnings(rest, bindings));
      TrailAppend([events[0]], rest, bindings);
      WarningsAppend([events[0]], rest, bindings);
      assert [events[0]] + rest == events;
    }
  }

  lemma {:induction false} StartCommentsReported(starts: seq<Block>)
    ensures Reported(StartComments(starts), [], [])
  {
    hide Reported, CommentOut;
    if starts == [] {
      ReportedQuiet(NOTHING);
    } else {
      CommentOutReported(starts[0].comment, 0);
      StartCommentsReported(starts[1..]);
      ReportedThen(CommentOut(starts[0].comment, 0), [], [], StartComments(starts[1..]), [], []);
      assert NOWHERE + NOWHERE == NOWHERE && SILENT + SILENT == SILENT;
    }
  }

  lemma MainReported(blocks: seq<Block>, bindings: seq<Binding>, i: nat)
    requires RunsMain(blocks) ==> i < |blocks|
    ensures Reported(MainOut(blocks, bindings), MainTrail(blocks, bindings, i),
              if RunsMain(blocks) then StartsWarnings(blocks, bindings) + LooseWarnings(blocks, bindings) else [])
  {
    hide Reported, Trail, BodyOut, StartComments, StartsTrail, LooseTrail, RunsMain, Warnings, StartsWarnings,
         LooseWarnings;
    MainExactly(blocks);
    if !HasMain(blocks) {
      ReportedQuiet(NOTHING);
    } else {
      var s, steps, wrong :=
        Main(blocks[i]), Trail(MainSteps(blocks), bindings), Warnings(MainSteps(blocks), bindings);
      var anchor := if Starts(blocks) != [] then Starts(blocks)[0] else Loose(blocks)[0];
      var comments, body := StartComments(Starts(blocks)), BodyOut(MainSteps(blocks), 1, bindings);
      var line := LineOut(AsyncDef("main"), 0, Some(Origin(anchor.id, anchor.typ, None)));
      StartCommentsReported(Starts(blocks));
      LineReported(line, s);
      ReportedThen(comments, [], [], line, [s], []);
      assert NOWHERE + [s] == [s] && ([s] + steps) + NOWHERE == [s] + steps;
      assert SILENT + SILENT == SILENT && SILENT + wrong == wrong && wrong + SILENT == wrong;
      BodyReported(MainSteps(blocks), 1, bindings);
      ReportedThen(comments.Then(line), [s], [], body, steps, wrong);
      ReportedQuiet(LineOut(Blank, 0, None));
      ReportedThen(comments.Then(line).Then(body), [s] + steps, wrong, LineOut(Blank, 0, None), [], []);
      TrailAppend(AllChildren(Starts(blocks)), Loose(blocks), bindings);
      WarningsAppend(AllChildren(Starts(blocks)), Loose(blocks), bindings);
      StartsPart(blocks, bindings);
      LoosePart(blocks, bindings);
      StartsWarn(blocks, bindings);
      LooseWarn(blocks, bindings);
    }
  }

  lemma {:induction false} NothingLoose(blocks: seq<Block>, bindings: seq<Binding>)
    requires !RunsMain(blocks)
    ensures StartsWarnings(blocks, bindings) == [] && LooseWarnings(blocks, bindings) == []
  {
    hide BlockWarnings, Warnings;
    if blocks != [] {
      assert blocks[0] in blocks && forall b :: b in blocks[1..] ==> b in blocks;
      NothingLoose(blocks[1..], bindings);
    }
  }

  /**
   * The warnings are exactly those the blocks give rise to, in the order of the file, and the import line names
   * `device` and exactly the names that some block of the trail needs.
   */
  lemma ReportExactly(blocks: seq<Block>, bindings: seq<Binding>, i: nat)
    requires RunsMain(blocks) ==> i < |blocks|
    ensures ProgramOut(blocks, bindings).warnings == ProgramWarnings(blocks, bindings)
    ensures forall name ::
              name in Imports(IMPORT_ORDER, ProgramOut(blocks, bindings).used) <==>
                name == "device" || exists s :: s in ProgramTrail(blocks, bindings, i) && NameFor(s) == Some(name)
  {
    hide Reported, EventsOut, MainOut, HandlersTrail, MainTrail, RunsMain, Trail, HandlersWarnings, StartsWarnings,
         LooseWarnings, Warnings, Imports, NameFor;
    HandlersPart(blocks, bindings);
    HandlersWarn(blocks, bindings);
    EventsReported(Events(blocks), bindings);
    MainReported(blocks, bindings, i);
    if !RunsMain(blocks) { NothingLoose(blocks, bindings); }
    var main := StartsWarnings(blocks, bindings) + LooseWarnings(blocks, bindings);
    assert SILENT + SILENT == SILENT;
    ReportedThen(EventsOut(Events(blocks), bindings), HandlersTrail(blocks, bindings),
      HandlersWarnings(blocks, bindings), MainOut(blocks, bindings), MainTrail(blocks, bindings, i), main);
    ReportParts(ProgramOut(blocks, bindings), ProgramTrail(blocks, bindings, i), ProgramWarnings(blocks, bindings));
    forall s | s in ProgramTrail(blocks, bindings, i) && NameFor(s).Some?
      ensures NameFor(s).value in IMPORT_ORDER
    {
      NameImportable(s);
    }
  }

  lemma ReportParts(out: Out, trail: seq<Station>, warnings: seq<Warning>)
    requires Reported(out, trail, warnings)
    ensures out.warnings == warnings
    ensures forall name :: name in out.used <==> exists s :: s in trail && NameFor(s) == Some(name)
  {
    hide NameFor;
  }

  lemma NameImportable(s: Station)
    requires NameFor(s).Some?
    ensures NameFor(s).value in IMPORT_ORDER
  {
    assert IMPORT_ORDER[1] == "every" && IMPORT_ORDER[2] == "log" && IMPORT_ORDER[3] == "parallel";
    assert IMPORT_ORDER[4] == "sleep" && IMPORT_ORDER[5] == "when";
  }
}
