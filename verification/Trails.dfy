/**
 * Which block each line of the file belongs to: the blocks of a program in the order in which they leave a line of
 * their own, straight from the blocks, and the source map as exactly this trail.
 */
module Trails {
  import opened Wrappers
  import opened Text
  import opened Values
  import opened Catalog
  import opened Python
  import opened PythonText
  import opened Generate
  import opened Structure
  import opened Meaning
  import opened Program
  import opened Correct
  import opened SourceMaps
  import opened TopLevel

  // ---------------------------------------------------------------- the trail of the blocks

  /** A block with a line of its own, an argument of `parallel`, or the block that stands for `main()`. */
  datatype Station = Own(block: Block, alias: Option<string>) | Item(block: Block) | Main(block: Block)

  const NOWHERE: seq<Station> := []

  function AliasOfDevice(deviceId: string, bindings: seq<Binding>): Option<string> {
    if bindings == [] then None
    else if bindings[0].deviceId == deviceId then Some(bindings[0].alias)
    else AliasOfDevice(deviceId, bindings[1..])
  }

  /** The alias under which the program knows the device a block names. */
  function NamedAlias(b: Block, bindings: seq<Binding>): Option<string> {
    var requested := FieldOf(b, Device);
    if DeviceOf(b, bindings).None? || bindings == [] then None
    else if !requested.Str? || requested.text == "" then Some(bindings[0].alias)
    else if HasDeviceId(requested.text, bindings) then AliasOfDevice(requested.text, bindings)
    else Some(requested.text)
  }

  function BlockTrail(b: Block, bindings: seq<Binding>): seq<Station>
    decreases b, 0
  {
    match b.typ
    case Wait => [Own(b, None)]
    case Log => [Own(b, None)]
    case OnGesture => [Own(b, NamedAlias(b, bindings))] + Trail(b.children, bindings)
    case OnStart => [Own(b, None)] + Trail(b.children, bindings)
    case Every => [Own(b, None)] + Trail(b.children, bindings)
    case Repeat => [Own(b, None)] + Trail(b.children, bindings)
    case If => [Own(b, None)] + (if b.children == [] then [] else Trail(b.children[1..], bindings))
    case Parallel => [Own(b, None)] + ItemTrail(b.children)
    case _ =>
      if IsDeviceCall(b.typ) && NamedAlias(b, bindings).Some? then [Own(b, NamedAlias(b, bindings))] else []
  }

  /** The enabled blocks, each before what hangs under it. */
  function Trail(children: seq<Block>, bindings: seq<Binding>): seq<Station>
    decreases children, 1
  {
    if children == [] then []
    else (if children[0].disabled then [] else BlockTrail(children[0], bindings)) + Trail(children[1..], bindings)
  }

  function ItemTrail(children: seq<Block>): seq<Station> {
    if children == [] then [] else (if children[0].disabled then [] else [Item(children[0])]) + ItemTrail(children[1..])
  }

  function HandlersTrail(blocks: seq<Block>, bindings: seq<Binding>): seq<Station> {
    if blocks == [] then []
    else (if IsHandler(blocks[0]) then BlockTrail(blocks[0], bindings) else []) + HandlersTrail(blocks[1..], bindings)
  }

  function StartsTrail(blocks: seq<Block>, bindings: seq<Binding>): seq<Station> {
    if blocks == [] then []
    else
      (if blocks[0].disabled || !blocks[0].typ.OnStart? then [] else Trail(blocks[0].children, bindings)) +
      StartsTrail(blocks[1..], bindings)
  }

  function LooseTrail(blocks: seq<Block>, bindings: seq<Binding>): seq<Station> {
    if blocks == [] then []
    else
      (if blocks[0].disabled || blocks[0].typ.OnStart? || IsHandler(blocks[0]) then []
       else BlockTrail(blocks[0], bindings)) + LooseTrail(blocks[1..], bindings)
  }

  /** The place of the first enabled start block, else of the first enabled block that is no timer and no gesture. */
  ghost predicate StandsForMain(blocks: seq<Block>, i: nat) {
    && i < |blocks| && !blocks[i].disabled && !IsHandler(blocks[i])
    && (forall j :: 0 <= j < |blocks| && !blocks[j].disabled && blocks[j].typ.OnStart? ==>
          blocks[i].typ.OnStart? && i <= j)
    && (!blocks[i].typ.OnStart? ==>
          forall j :: 0 <= j < |blocks| && !blocks[j].disabled && !IsHandler(blocks[j]) ==> i <= j)
  }

  // ---------------------------------------------------------------- the lines

  function OriginFor(s: Station): Origin {
    Origin(s.block.id, s.block.typ, if s.Own? then s.alias else None)
  }

  /** The statement with which the block's own line starts. */
  predicate Heads(s: Station, stmt: Stmt) {
    match s
    case Main(_) => stmt == AsyncDef("main")
    case Item(_) => stmt.ParallelItem?
    case Own(b, _) =>
      match b.typ
      case OnStart => stmt == AsyncDef("main")
      case Every => stmt.MarkLine? && stmt.mark.EveryMark?
      case OnGesture => stmt.MarkLine? && stmt.mark.WhenMark?
      case Repeat => stmt.ForRange?
      case If => stmt.IfHeader?
      case Parallel => if exists c :: c in b.children && !c.disabled then stmt.ParallelOpen? else stmt.Pass?
      case Wait => stmt.Await? && stmt.call.Sleep?
      case Log => stmt.Await? && stmt.call.LogCall?
      case _ => IsDeviceCall(b.typ) && stmt.Await? && stmt.call.OnDevice? && stmt.call.path == Deed(b.typ)
  }

  /** The lines that carry an origin, with it. */
  function Tagged(lines: seq<Line>, origins: seq<Option<Origin>>): seq<(Origin, Stmt)>
    requires |lines| == |origins|
  {
    if lines == [] then []
    else
      var n := |lines| - 1;
      Tagged(lines[..n], origins[..n]) + (if origins[n].Some? then [(origins[n].value, lines[n].stmt)] else [])
  }

  lemma {:induction false} TaggedAppend(a: seq<Line>, p: seq<Option<Origin>>, b: seq<Line>, q: seq<Option<Origin>>)
    requires |a| == |p| && |b| == |q|
    ensures Tagged(a + b, p + q) == Tagged(a, p) + Tagged(b, q)
  {
    if b == [] {
      assert a + b == a && p + q == p;
    } else {
      var n := |b| - 1;
      TaggedAppend(a, p, b[..n], q[..n]);
      assert (a + b)[..|a + b| - 1] == a + b[..n] && (p + q)[..|p + q| - 1] == p + q[..n];
    }
  }

  /** The origins are those of the trail, each on the line its block starts with. */
  ghost predicate Matches(tagged: seq<(Origin, Stmt)>, trail: seq<Station>) {
    && |tagged| == |trail|
    && forall k :: 0 <= k < |trail| ==> tagged[k].0 == OriginFor(trail[k]) && Heads(trail[k], tagged[k].1)
  }

  ghost predicate Follows(out: Out, trail: seq<Station>) {
    |out.lines| == |out.origins| && Matches(Tagged(out.lines, out.origins), trail)
  }

  lemma FollowsThen(a: Out, s: seq<Station>, b: Out, t: seq<Station>)
    requires Follows(a, s) && Follows(b, t)
    ensures Follows(a.Then(b), s + t)
  {
    hide Heads, OriginFor, Tagged;
    TaggedAppend(a.lines, a.origins, b.lines, b.origins);
  }

  lemma FollowsSilent(out: Out)
    requires out.lines == [] && out.origins == []
    ensures Follows(out, [])
  {
  }

  lemma FollowsPlain(stmt: Stmt, depth: nat)
    ensures Follows(LineOut(stmt, depth, None), [])
  {
    var out := LineOut(stmt, depth, None);
    assert out.lines[..0] == [] && out.origins[..0] == [];
  }

  lemma FollowsOwn(stmt: Stmt, depth: nat, s: Station)
    requires Heads(s, stmt)
    ensures Follows(LineOut(stmt, depth, Some(OriginFor(s))), [s])
  {
    hide Heads, OriginFor;
    var out := LineOut(stmt, depth, Some(OriginFor(s)));
    assert out.lines[..0] == [] && out.origins[..0] == [];
    assert Tagged(out.lines, out.origins) == [(OriginFor(s), stmt)];
  }

  // ---------------------------------------------------------------- what the generator emits

  lemma {:induction false} FirstAlias(deviceId: string, bindings: seq<Binding>)
    ensures HasDeviceId(deviceId, bindings) ==>
              AliasOfDevice(deviceId, bindings) == Some(AliasByDeviceId(deviceId, bindings))
    ensures !HasDeviceId(deviceId, bindings) ==> AliasByDeviceId(deviceId, bindings) == deviceId
  {
    if bindings != [] {
      FirstAlias(deviceId, bindings[1..]);
      if i :| 0 <= i < |bindings| && bindings[i].deviceId == deviceId && i > 0 {
        assert bindings[1..][i - 1].deviceId == deviceId;
      }
      if i :| 0 <= i < |bindings[1..]| && bindings[1..][i].deviceId == deviceId {
        assert bindings[i + 1].deviceId == deviceId;
      }
    }
  }

  lemma {:induction false} AliasKnown(alias: string, bindings: seq<Binding>)
    ensures DeviceWithAlias(alias, bindings).Some? <==>
            exists i :: 0 <= i < |bindings| && bindings[i].alias == alias
  {
    if bindings != [] {
      AliasKnown(alias, bindings[1..]);
      if i :| 0 <= i < |bindings| && bindings[i].alias == alias && i > 0 { assert bindings[1..][i - 1].alias == alias; }
      if i :| 0 <= i < |bindings[1..]| && bindings[1..][i].alias == alias { assert bindings[i + 1].alias == alias; }
    }
  }

  /** The alias the generator finds is the one under which the block's device is known. */
  lemma AliasNamed(b: Block, bindings: seq<Binding>)
    ensures ResolvedAlias(b, bindings) == NamedAlias(b, bindings)
  {
    hide AliasOfDevice, AliasByDeviceId, DeviceWithAlias;
    var requested := FieldOf(b, Device);
    if requested.Str? {
      FirstAlias(requested.text, bindings);
      AliasKnown(requested.text, bindings);
    }
  }

  lemma {:induction false} CommentFollows(texts: seq<string>, depth: nat)
    ensures Follows(CommentLines(texts, depth), [])
  {
    hide Follows;
    if texts == [] {
      FollowsSilent(NOTHING);
    } else {
      CommentFollows(texts[1..], depth);
      FollowsPlain(Comment(texts[0]), depth);
      FollowsThen(LineOut(Comment(texts[0]), depth, None), [], CommentLines(texts[1..], depth), []);
      assert NOWHERE + NOWHERE == NOWHERE;
    }
  }

  lemma CommentOutFollows(comment: string, depth: nat)
    ensures Follows(CommentOut(comment, depth), [])
  {
    hide Follows;
    FollowsSilent(NOTHING);
    CommentFollows(Split(comment, '\n'), depth);
  }

  lemma {:induction false} ItemsFollow(children: seq<Block>, depth: nat, bindings: seq<Binding>)
    ensures Follows(ItemsOut(children, depth, bindings), ItemTrail(children))
  {
    hide ItemCall, ItemOut, Follows;
    if children == [] {
      FollowsSilent(NOTHING);
    } else {
      var b, rest := children[0], ItemsOut(children[1..], depth, bindings);
      ItemsFollow(children[1..], depth, bindings);
      if b.disabled {
        assert NOWHERE + ItemTrail(children[1..]) == ItemTrail(children[1..]);
      } else {
        var line := LineOut(ParallelItem(ItemCall(b, bindings)), depth, Some(OriginFor(Item(b))));
        ItemSilent(b, bindings);
        FollowsSilent(ItemOut(b, bindings));
        FollowsOwn(ParallelItem(ItemCall(b, bindings)), depth, Item(b));
        FollowsThen(ItemOut(b, bindings), [], line, [Item(b)]);
        assert NOWHERE + [Item(b)] == [Item(b)];
        FollowsThen(ItemOut(b, bindings).Then(line), [Item(b)], rest, ItemTrail(children[1..]));
      }
    }
  }

  lemma {:induction false} BodyFollows(children: seq<Block>, depth: nat, bindings: seq<Binding>)
    ensures Follows(ChildrenOut(children, depth, bindings), Trail(children, bindings))
    ensures Follows(BodyOut(children, depth, bindings), Trail(children, bindings))
    decreases children, 2
  {
    hide StatementOut, Follows, BlockTrail;
    var trail := Trail(children, bindings);
    if children == [] {
      FollowsSilent(NOTHING);
    } else {
      var rest := Trail(children[1..], bindings);
      BodyFollows(children[1..], depth, bindings);
      if children[0].disabled {
        assert NOWHERE + rest == rest;
      } else {
        StatementFollows(children[0], depth, bindings);
        FollowsThen(StatementOut(children[0], depth, bindings), BlockTrail(children[0], bindings),
          ChildrenOut(children[1..], depth, bindings), rest);
      }
    }
    FollowsPlain(Pass, depth);
    FollowsThen(ChildrenOut(children, depth, bindings), trail, LineOut(Pass, depth, None), []);
    assert trail + NOWHERE == trail;
  }

  lemma {:induction false} StatementFollows(b: Block, depth: nat, bindings: seq<Binding>)
    ensures Follows(StatementOut(b, depth, bindings), BlockTrail(b, bindings))
    decreases b, 1
  {
    hide OwnOut, CommentOut, Follows, Resolve;
    if BlockSpecOf(b.typ).None? {
      FollowsSilent(WarnOut(b, UnknownBlock));
    } else {
      var spec, trail := BlockSpecOf(b.typ).value, BlockTrail(b, bindings);
      var comment, found := CommentOut(b.comment, depth), if NamesDevice(spec) then ResolveOut(b, bindings)
        else NOTHING;
      CommentOutFollows(b.comment, depth);
      FollowsSilent(found);
      FollowsThen(comment, [], found, []);
      assert NOWHERE + NOWHERE == NOWHERE && NOWHERE + trail == trail;
      OwnFollows(b, depth, bindings, spec);
      FollowsThen(comment.Then(found), [], OwnOut(b, depth, bindings, spec), trail);
    }
  }

  /** A block's alias is looked for exactly where the trail notes one. */
  lemma OwnAliasNamed(b: Block, spec: BlockSpec, bindings: seq<Binding>)
    requires BlockSpecOf(b.typ) == Some(spec)
    ensures OwnAlias(b, spec, bindings) ==
            if IsDeviceCall(b.typ) || b.typ.OnGesture? || IsReporter(b.typ) then NamedAlias(b, bindings) else None
  {
    hide ResolvedAlias, NamedAlias, NamesDevice, BlockSpecOf;
    AliasNamed(b, bindings);
    DeviceFieldsDeclared(b.typ);
  }

  lemma {:induction false} OwnFollows(b: Block, depth: nat, bindings: seq<Binding>, spec: BlockSpec)
    requires BlockSpecOf(b.typ) == Some(spec)
    ensures Follows(OwnOut(b, depth, bindings, spec), BlockTrail(b, bindings))
    decreases b, 0
  {
    hide BodyOut, HandlerOut, IfOut, ParallelOut, PythonString, PythonNumber, AliasIdentifier, ResolvedAlias,
         DeviceArgs, Follows, Trail, NamedAlias, ItemTrail, NamesDevice, OwnAlias, EveryName;
    OwnAliasNamed(b, spec, bindings);
    var s := Own(b, OwnAlias(b, spec, bindings));
    if b.typ.OnStart? || b.typ.Repeat? {
      HeaderFollows(if b.typ.OnStart? then AsyncDef("main")
                    else ForRange(PythonNumber(FieldOf(b, Times), DefaultOf(spec, Times))), depth, bindings, s);
    } else if b.typ.Every? {
      HandlerFollows("every", EveryMark(SecondsText(b, spec)), EveryName(SecondsText(b, spec)), depth, bindings, s);
    } else if b.typ.OnGesture? {
      HandlerFollows("when", GestureMark(b, Target(OwnAlias(b, spec, bindings))), "on_gesture", depth, bindings, s);
    } else if b.typ.If? {
      IfFollows(depth, bindings, s);
    } else if b.typ.Parallel? {
      ParallelFollows(depth, bindings, s);
    } else {
      ActionFollows(b, depth, bindings, spec);
    }
  }

  lemma {:induction false} HeaderFollows(header: Stmt, depth: nat, bindings: seq<Binding>, s: Station)
    requires s.Own? && Heads(s, header)
    ensures Follows(LineOut(header, depth, Some(OriginFor(s))).Then(BodyOut(s.block.children, depth + 1, bindings)),
              [s] + Trail(s.block.children, bindings))
    decreases s.block.children, 3
  {
    hide BodyOut, Follows, Heads, Trail;
    BodyFollows(s.block.children, depth + 1, bindings);
    FollowsOwn(header, depth, s);
    FollowsThen(LineOut(header, depth, Some(OriginFor(s))), [s], BodyOut(s.block.children, depth + 1, bindings),
      Trail(s.block.children, bindings));
  }

  lemma {:induction false} HandlerFollows(use: string, mark: Mark, name: string, depth: nat, bindings: seq<Binding>,
      s: Station)
    requires s.Own? && Heads(s, MarkLine(mark))
    ensures Follows(HandlerOut(use, mark, name, s.block.children, depth, bindings, Some(OriginFor(s))),
              [s] + Trail(s.block.children, bindings))
    decreases s.block.children, 3
  {
    hide BodyOut, Follows, Heads, Trail;
    var body, line := BodyOut(s.block.children, depth + 1, bindings),
      LineOut(MarkLine(mark), depth, Some(OriginFor(s)));
    BodyFollows(s.block.children, depth + 1, bindings);
    FollowsOwn(MarkLine(mark), depth, s);
    FollowsSilent(UseOut(use));
    FollowsPlain(AsyncDef(name), depth);
    FollowsThen(UseOut(use), [], line, [s]);
    assert NOWHERE + [s] == [s] && [s] + NOWHERE == [s];
    FollowsThen(UseOut(use).Then(line), [s], LineOut(AsyncDef(name), depth, None), []);
    FollowsThen(UseOut(use).Then(line).Then(LineOut(AsyncDef(name), depth, None)), [s], body,
      Trail(s.block.children, bindings));
  }

  lemma {:induction false} IfFollows(depth: nat, bindings: seq<Binding>, s: Station)
    requires s.Own? && s.block.typ.If?
    ensures var children := s.block.children;
            Follows(IfOut(children, depth, bindings, Some(OriginFor(s))),
              [s] + (if children == [] then [] else Trail(children[1..], bindings)))
    decreases s.block.children, 3
  {
    hide BodyOut, Follows, ExpressionOf, ExpressionOut, Trail;
    var children := s.block.children;
    if children == [] {
      var line := LineOut(IfHeader(TrueLiteral), depth, Some(OriginFor(s)));
      FollowsOwn(IfHeader(TrueLiteral), depth, s);
      BodyFollows([], depth + 1, bindings);
      EmptyTrail(bindings);
      FollowsThen(line, [s], BodyOut([], depth + 1, bindings), []);
    } else {
      var found, header := ExpressionOut(children[0], bindings), IfHeader(ExpressionOf(children[0], bindings));
      var line := LineOut(header, depth, Some(OriginFor(s)));
      SilentExpression(children[0], bindings);
      FollowsSilent(found);
      FollowsOwn(header, depth, s);
      BodyFollows(children[1..], depth + 1, bindings);
      FollowsThen(found, [], line, [s]);
      assert NOWHERE + [s] == [s];
      FollowsThen(found.Then(line), [s], BodyOut(children[1..], depth + 1, bindings), Trail(children[1..], bindings));
    }
  }

  lemma EmptyTrail(bindings: seq<Binding>)
    ensures Trail([], bindings) == []
  {
  }

  lemma ParallelFollows(depth: nat, bindings: seq<Binding>, s: Station)
    requires s.Own? && s.block.typ.Parallel?
    ensures Follows(ParallelOut(s.block.children, depth, bindings, Some(OriginFor(s))),
            [s] + ItemTrail(s.block.children))
  {
    hide Follows, ItemsOut;
    var children := s.block.children;
    var items, trail := ItemsOut(children, depth + 1, bindings), ItemTrail(children);
    FollowsSilent(UseOut("parallel"));
    assert NOWHERE + [s] == [s] && NOWHERE + ([s] + trail) == [s] + trail;
    assert ([s] + trail) + NOWHERE == [s] + trail;
    if AnyEnabled(children) {
      var open, close := LineOut(ParallelOpen, depth, Some(OriginFor(s))), LineOut(ParallelClose, depth, None);
      FollowsOwn(ParallelOpen, depth, s);
      ItemsFollow(children, depth + 1, bindings);
      FollowsPlain(ParallelClose, depth);
      FollowsThen(open, [s], items, trail);
      FollowsThen(open.Then(items), [s] + trail, close, []);
      FollowsThen(UseOut("parallel"), [], open.Then(items).Then(close), [s] + trail);
    } else {
      NoItems(children);
      assert [s] + trail == [s];
      FollowsOwn(Pass, depth, s);
      FollowsThen(UseOut("parallel"), [], LineOut(Pass, depth, Some(OriginFor(s))), [s]);
    }
  }

  lemma {:induction false} NoItems(children: seq<Block>)
    requires !AnyEnabled(children)
    ensures ItemTrail(children) == []
  {
    if children != [] {
      assert children[0].disabled;
      assert forall i :: 0 <= i < |children[1..]| ==> children[1..][i] == children[i + 1];
      NoItems(children[1..]);
    }
  }

  lemma ActionFollows(b: Block, depth: nat, bindings: seq<Binding>, spec: BlockSpec)
    requires BlockSpecOf(b.typ) == Some(spec)
    requires !IsEvent(b.typ) && !b.typ.Repeat? && !b.typ.If? && !b.typ.Parallel?
    ensures Follows(OwnOut(b, depth, bindings, spec), BlockTrail(b, bindings))
  {
    hide PythonString, PythonNumber, AliasIdentifier, ResolvedAlias, DeviceArgs, FieldOf, DefaultOf, HandlerOut, IfOut,
         ParallelOut, BodyOut, Follows, NamedAlias, OwnAlias, NamesDevice, DevicePath, Deed, OriginFor;
    OwnAliasNamed(b, spec, bindings);
    var alias := OwnAlias(b, spec, bindings);
    var s := Own(b, alias);
    assert OriginFor(s) == Origin(b.id, b.typ, alias) by { OriginOwn(b, alias); }
    if b.typ.Wait? || b.typ.Log? || (IsDeviceCall(b.typ) && alias.Some?) {
      var use, stmt := if b.typ.Wait? then UseOut("sleep") else if b.typ.Log? then UseOut("log") else NOTHING,
        OwnOut(b, depth, bindings, spec).lines[0].stmt;
      if IsDeviceCall(b.typ) { DeedsMeant(b.typ); }
      FollowsOwn(stmt, depth, s);
      FollowsSilent(use);
      FollowsThen(use, [], LineOut(stmt, depth, Some(OriginFor(s))), [s]);
      assert NOWHERE + [s] == [s];
    } else {
      FollowsSilent(OwnOut(b, depth, bindings, spec));
    }
  }

  lemma OriginOwn(b: Block, alias: Option<string>)
    ensures OriginFor(Own(b, alias)) == Origin(b.id, b.typ, alias)
  {
  }

  // ---------------------------------------------------------------- the file

  lemma {:induction false} TrailAppend(a: seq<Block>, b: seq<Block>, bindings: seq<Binding>)
    ensures Trail(a + b, bindings) == Trail(a, bindings) + Trail(b, bindings)
  {
    hide BlockTrail;
    if a == [] {
      assert a + b == b;
    } else {
      assert (a + b)[1..] == a[1..] + b;
      TrailAppend(a[1..], b, bindings);
    }
  }

  lemma TrailStep(b: Block, rest: seq<Block>, bindings: seq<Binding>)
    requires !b.disabled
    ensures Trail([b] + rest, bindings) == BlockTrail(b, bindings) + Trail(rest, bindings)
  {
    hide BlockTrail;
    assert ([b] + rest)[1..] == rest;
  }

  lemma {:induction false} HandlersPart(blocks: seq<Block>, bindings: seq<Binding>)
    ensures HandlersTrail(blocks, bindings) == Trail(Events(blocks), bindings)
  {
    hide BlockTrail, Trail;
    if blocks == [] {
      EmptyTrail(bindings);
    } else {
      HandlersPart(blocks[1..], bindings);
      if IsHandler(blocks[0]) { TrailStep(blocks[0], Events(blocks[1..]), bindings); }
    }
  }

  lemma {:induction false} StartsPart(blocks: seq<Block>, bindings: seq<Binding>)
    ensures StartsTrail(blocks, bindings) == Trail(AllChildren(Starts(blocks)), bindings)
  {
    hide Trail;
    if blocks == [] {
      EmptyTrail(bindings);
    } else {
      StartsPart(blocks[1..], bindings);
      if !blocks[0].disabled && blocks[0].typ.OnStart? {
        assert Starts(blocks)[1..] == Starts(blocks[1..]);
        TrailAppend(blocks[0].children, AllChildren(Starts(blocks[1..])), bindings);
      }
    }
  }

  lemma {:induction false} LoosePart(blocks: seq<Block>, bindings: seq<Binding>)
    ensures LooseTrail(blocks, bindings) == Trail(Loose(blocks), bindings)
  {
    hide BlockTrail, Trail;
    if blocks == [] {
      EmptyTrail(bindings);
    } else {
      LoosePart(blocks[1..], bindings);
      if !blocks[0].disabled && !IsEvent(blocks[0].typ) { TrailStep(blocks[0], Loose(blocks[1..]), bindings); }
    }
  }

  lemma {:induction false} EventsFollow(events: seq<Block>, bindings: seq<Binding>)
    ensures Follows(EventsOut(events, bindings), Trail(events, bindings))
  {
    hide Follows, Trail, BodyOut;
    if events == [] {
      EmptyTrail(bindings);
      FollowsSilent(NOTHING);
    } else {
      var body, first, rest := BodyOut([events[0]], 0, bindings), Trail([events[0]], bindings), events[1..];
      BodyFollows([events[0]], 0, bindings);
      FollowsPlain(Blank, 0);
      FollowsThen(body, first, LineOut(Blank, 0, None), []);
      assert first + NOWHERE == first;
      EventsFollow(rest, bindings);
      FollowsThen(body.Then(LineOut(Blank, 0, None)), first, EventsOut(rest, bindings), Trail(rest, bindings));
      TrailAppend([events[0]], rest, bindings);
      assert [events[0]] + rest == events;
    }
  }

  lemma {:induction false} StartCommentsFollow(starts: seq<Block>)
    ensures Follows(StartComments(starts), [])
  {
    hide Follows, CommentOut;
    if starts == [] {
      FollowsSilent(NOTHING);
    } else {
      CommentOutFollows(starts[0].comment, 0);
      StartCommentsFollow(starts[1..]);
      FollowsThen(CommentOut(starts[0].comment, 0), [], StartComments(starts[1..]), []);
      assert NOWHERE + NOWHERE == NOWHERE;
    }
  }

  lemma {:induction false} FirstStart(blocks: seq<Block>) returns (i: nat)
    ensures Starts(blocks) == [] ==> forall j :: 0 <= j < |blocks| ==> blocks[j].disabled || !blocks[j].typ.OnStart?
    ensures Starts(blocks) != [] ==>
              i < |blocks| && blocks[i] == Starts(blocks)[0] &&
              forall j :: 0 <= j < i ==> blocks[j].disabled || !blocks[j].typ.OnStart?
  {
    i := 0;
    if blocks != [] && (blocks[0].disabled || !blocks[0].typ.OnStart?) {
      i := FirstStart(blocks[1..]);
      assert forall j :: 0 < j < |blocks| ==> blocks[j] == blocks[1..][j - 1];
      i := i + 1;
    }
  }

  lemma {:induction false} FirstLoose(blocks: seq<Block>) returns (i: nat)
    ensures Loose(blocks) != [] ==>
              i < |blocks| && blocks[i] == Loose(blocks)[0] &&
              forall j :: 0 <= j < i ==> blocks[j].disabled || IsEvent(blocks[j].typ)
  {
    i := 0;
    if blocks != [] && (blocks[0].disabled || IsEvent(blocks[0].typ)) {
      i := FirstLoose(blocks[1..]);
      assert forall j :: 0 < j < |blocks| ==> blocks[j] == blocks[1..][j - 1];
      i := i + 1;
    }
  }

  lemma Anchor(blocks: seq<Block>) returns (i: nat)
    requires HasMain(blocks)
    ensures StandsForMain(blocks, i) && blocks[i] == if Starts(blocks) != [] then Starts(blocks)[0]
            else Loose(blocks)[0]
  {
    i := FirstStart(blocks);
    if Starts(blocks) == [] { i := FirstLoose(blocks); }
  }

  /** `main()` and what follows in it. */
  function MainTrail(blocks: seq<Block>, bindings: seq<Binding>, i: nat): seq<Station>
    requires RunsMain(blocks) ==> i < |blocks|
  {
    if RunsMain(blocks) then [Main(blocks[i])] + (StartsTrail(blocks, bindings) + LooseTrail(blocks, bindings)) else []
  }

  lemma MainFollows(blocks: seq<Block>, bindings: seq<Binding>) returns (i: nat)
    ensures RunsMain(blocks) ==> StandsForMain(blocks, i)
    ensures Follows(MainOut(blocks, bindings), MainTrail(blocks, bindings, i))
  {
    hide Follows, Trail, BodyOut, StartComments, StartsTrail, LooseTrail, RunsMain, HasMain, StandsForMain;
    MainExactly(blocks);
    if !HasMain(blocks) {
      i := 0;
      FollowsSilent(NOTHING);
    } else {
      i := Anchor(blocks);
      var s, steps := Main(blocks[i]), Trail(MainSteps(blocks), bindings);
      var comments, body := StartComments(Starts(blocks)), BodyOut(MainSteps(blocks), 1, bindings);
      var line := LineOut(AsyncDef("main"), 0, Some(OriginFor(s)));
      StartCommentsFollow(Starts(blocks));
      FollowsOwn(AsyncDef("main"), 0, s);
      FollowsThen(comments, [], line, [s]);
      assert NOWHERE + [s] == [s] && ([s] + steps) + NOWHERE == [s] + steps;
      BodyFollows(MainSteps(blocks), 1, bindings);
      FollowsThen(comments.Then(line), [s], body, steps);
      FollowsPlain(Blank, 0);
      FollowsThen(comments.Then(line).Then(body), [s] + steps, LineOut(Blank, 0, None), []);
      TrailAppend(AllChildren(Starts(blocks)), Loose(blocks), bindings);
      StartsPart(blocks, bindings);
      LoosePart(blocks, bindings);
    }
  }

  lemma {:induction false} AssignsFollow(bindings: seq<Binding>)
    ensures Follows(AssignOut(bindings), [])
  {
    hide Follows, AliasIdentifier, PythonString;
    if bindings == [] {
      FollowsSilent(NOTHING);
    } else {
      var stmt := Assign(AliasIdentifier(bindings[0].alias), PythonString(Plain(bindings[0].deviceId)));
      FollowsPlain(stmt, 0);
      AssignsFollow(bindings[1..]);
      FollowsThen(LineOut(stmt, 0, None), [], AssignOut(bindings[1..]), []);
      assert NOWHERE + NOWHERE == NOWHERE;
    }
  }

  lemma HeaderFollowsNothing(used: set<string>, bindings: seq<Binding>, before: Before)
    ensures Follows(HeaderOut(used, bindings, before), [])
  {
    hide Follows, AssignOut, Sorted, Imports;
    var sorted, line := Sorted(bindings, before), LineOut(Import(Imports(IMPORT_ORDER, used)), 0, None);
    assert NOWHERE + NOWHERE == NOWHERE;
    FollowsPlain(Blank, 0);
    FollowsThen(LineOut(Blank, 0, None), [], LineOut(Blank, 0, None), []);
    FollowsPlain(Import(Imports(IMPORT_ORDER, used)), 0);
    FollowsThen(line, [], BLANKS, []);
    AssignsFollow(sorted);
    FollowsThen(line.Then(BLANKS), [], AssignOut(sorted), []);
    FollowsSilent(NOTHING);
    FollowsThen(line.Then(BLANKS).Then(AssignOut(sorted)), [], if sorted == [] then NOTHING else BLANKS, []);
  }

  /** The whole program's trail: its handlers, then `main()`. */
  function ProgramTrail(blocks: seq<Block>, bindings: seq<Binding>, i: nat): seq<Station>
    requires RunsMain(blocks) ==> i < |blocks|
  {
    HandlersTrail(blocks, bindings) + MainTrail(blocks, bindings, i)
  }

  lemma FileFollows(blocks: seq<Block>, bindings: seq<Binding>, before: Before) returns (i: nat)
    ensures RunsMain(blocks) ==> StandsForMain(blocks, i)
    ensures Follows(FileOut(blocks, bindings, before), ProgramTrail(blocks, bindings, i))
  {
    hide Follows, EventsOut, MainOut, HeaderOut, HandlersTrail, MainTrail, RunsMain, Trail;
    var program := ProgramOut(blocks, bindings);
    HandlersPart(blocks, bindings);
    EventsFollow(Events(blocks), bindings);
    i := MainFollows(blocks, bindings);
    FollowsThen(EventsOut(Events(blocks), bindings), HandlersTrail(blocks, bindings), MainOut(blocks, bindings),
      MainTrail(blocks, bindings, i));
    HeaderFollowsNothing(program.used, bindings, before);
    FollowsThen(HeaderOut(program.used, bindings, before), [], program, ProgramTrail(blocks, bindings, i));
    assert NOWHERE + ProgramTrail(blocks, bindings, i) == ProgramTrail(blocks, bindings, i);
  }

  lemma {:induction false} MapTagged(lines: seq<Line>, origins: seq<Option<Origin>>)
    requires |lines| == |origins|
    ensures var entries, tagged := MapOf(origins), Tagged(lines, origins);
            && |entries| == |tagged|
            && forall k :: 0 <= k < |entries| ==>
              1 <= entries[k].line <= |lines| &&
              tagged[k] == (entries[k].origin, lines[entries[k].line - 1].stmt)
  {
    if lines != [] {
      var n := |lines| - 1;
      MapTagged(lines[..n], origins[..n]);
    }
  }

  /**
   * The source map is exactly the program's trail: entry for entry the block, its type and the alias it acts under, on
   * the line the block starts with.
   */
  lemma SourceMapTrail(blocks: seq<Block>, bindings: seq<Binding>, before: Before) returns (i: nat)
    ensures RunsMain(blocks) ==> StandsForMain(blocks, i)
    ensures var entries, lines, trail :=
              SourceMap(blocks, bindings, before), FileLines(blocks, bindings, before),
              ProgramTrail(blocks, bindings, i);
            && |entries| == |trail|
            && forall k :: 0 <= k < |entries| ==>
              && 1 <= entries[k].line <= |lines| && entries[k].origin == OriginFor(trail[k])
              && Heads(trail[k], lines[entries[k].line - 1].stmt)
  {
    hide FileOut, ProgramTrail, RunsMain, StandsForMain, OriginFor, Heads, Tagged, MapOf;
    i := FileFollows(blocks, bindings, before);
    var file, kept := FileOut(blocks, bindings, before), FileLines(blocks, bindings, before);
    MapTagged(file.lines, file.origins);
    SourceMapExact(blocks, bindings, before);
    var entries := SourceMap(blocks, bindings, before);
    forall k | 0 <= k < |entries|
      ensures entries[k].line <= |kept| && kept[entries[k].line - 1] == file.lines[entries[k].line - 1]
    {
      assert entries[k] in entries;
    }
  }
}
