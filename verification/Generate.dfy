/**
 * Blocks to Python: what `generatePython` emits for a block tree, as functions, and the emitter that appends it
 * line by line.
 */
module Generate {
  import opened Wrappers
  import opened Text
  import opened Values
  import opened Catalog
  import opened Python
  import opened PythonText

  // ---------------------------------------------------------------- entities

  /** A stored block. A missing list of children is the empty one; a missing comment is the empty text. */
  datatype Block = Block(
    id: string,
    typ: BlockType,
    fields: map<FieldName, Value>,
    children: seq<Block>,
    disabled: bool,
    comment: string)

  datatype Binding = Binding(alias: string, deviceId: string)

  datatype Origin = Origin(blockId: string, blockType: BlockType, deviceAlias: Option<string>)

  datatype SourceMapEntry = SourceMapEntry(line: nat, origin: Origin)

  datatype Problem = NoDeviceNamed | UnboundDevice(requested: string) | NotAValue | UnknownBlock | NoPythonForm

  datatype Warning = Warning(blockId: string, blockType: BlockType, problem: Problem)

  function FieldOf(b: Block, name: FieldName): Value {
    if name in b.fields then b.fields[name] else Undefined
  }

  // ---------------------------------------------------------------- text

  /** `text.replace(all from, to)` */
  function ReplaceAll(s: string, from: char, to: string): string {
    if s == "" then "" else (if s[0] == from then to else [s[0]]) + ReplaceAll(s[1..], from, to)
  }

  /** A Python string literal, escaped in three passes. */
  function PythonString(v: Value): string {
    "\"" + ReplaceAll(ReplaceAll(ReplaceAll(TextOf(v), '\\', "\\\\"), '"', "\\\""), '\n', "\\n") + "\""
  }

  function PythonNumber(v: Value, fallback: Num): string { NumText(NumberOf(v, fallback)) }

  /** The regular expression works on UTF-16 units, so a character beyond the first plane becomes two underscores. */
  function CleanChars(s: string): string {
    if s == "" then ""
    else (if IsIdentChar(s[0]) then [s[0]] else if s[0] as int > 0xFFFF then "__" else "_") + CleanChars(s[1..])
  }

  /** A Python identifier derived from an alias. */
  function AliasIdentifier(alias: string): string {
    var cleaned := CleanChars(alias);
    if cleaned == "" then "device_1"
    else if IsDigit(cleaned[0]) then "_" + cleaned
    else cleaned
  }

  /** Replaces the first point only. */
  function ReplacePoint(s: string): string {
    if s == "" then "" else if s[0] == '.' then "_" + s[1..] else [s[0]] + ReplacePoint(s[1..])
  }

  function EveryName(seconds: string): string { "every_" + ReplacePoint(seconds) + "s" }

  // ---------------------------------------------------------------- what is emitted

  /** Lines with the block each one came from, warnings, and the SDK names used. */
  datatype Out = Out(lines: seq<Line>, origins: seq<Option<Origin>>, warnings: seq<Warning>, used: set<string>) {
    function Then(next: Out): Out {
      Out(lines + next.lines, origins + next.origins, warnings + next.warnings, used + next.used)
    }
  }

  const NOTHING := Out([], [], [], {})

  function LineOut(stmt: Stmt, depth: nat, origin: Option<Origin>): Out {
    Out([Line(depth, stmt)], [origin], [], {})
  }

  function WarnOut(b: Block, problem: Problem): Out {
    Out([], [], [Warning(b.id, b.typ, problem)], {})
  }

  function UseOut(name: string): Out { Out([], [], [], {name}) }

  function CommentLines(texts: seq<string>, depth: nat): Out {
    if texts == [] then NOTHING
    else LineOut(Comment(texts[0]), depth, None).Then(CommentLines(texts[1..], depth))
  }

  function CommentOut(comment: string, depth: nat): Out {
    if comment == "" then NOTHING else CommentLines(Split(comment, '\n'), depth)
  }

  // ---------------------------------------------------------------- devices

  predicate IsKnown(requested: string, bindings: seq<Binding>) {
    exists i :: 0 <= i < |bindings| && (bindings[i].alias == requested || bindings[i].deviceId == requested)
  }

  /** The alias of the first binding with the device id, or the requested name itself. */
  function AliasByDeviceId(requested: string, bindings: seq<Binding>): string {
    if bindings == [] then requested
    else if bindings[0].deviceId == requested then bindings[0].alias
    else AliasByDeviceId(requested, bindings[1..])
  }

  /** The alias a block acts on, or why there is none. */
  datatype Resolution = Resolved(alias: string) | Unresolved(problem: Problem)

  function Resolve(b: Block, bindings: seq<Binding>): Resolution {
    var requested := FieldOf(b, Device);
    if !requested.Str? || requested.text == "" then
      if |bindings| == 1 then Resolved(bindings[0].alias) else Unresolved(NoDeviceNamed)
    else if !IsKnown(requested.text, bindings) then Unresolved(UnboundDevice(requested.text))
    else Resolved(AliasByDeviceId(requested.text, bindings))
  }

  function ResolveOut(b: Block, bindings: seq<Binding>): Out {
    var r := Resolve(b, bindings);
    if r.Resolved? then NOTHING else WarnOut(b, r.problem)
  }

  function ResolvedAlias(b: Block, bindings: seq<Binding>): Option<string> {
    var r := Resolve(b, bindings);
    if r.Resolved? then Some(r.alias) else None
  }

  function Target(alias: Option<string>): Option<string> {
    if alias.None? then None else Some(AliasIdentifier(alias.value))
  }

  function NumArg(b: Block, spec: BlockSpec, key: string, name: FieldName): Arg {
    Arg(key, PythonNumber(FieldOf(b, name), DefaultOf(spec, name)))
  }

  function PortArg(b: Block): Arg { Arg("port", PythonString(OrElse(FieldOf(b, Port), Plain("A")))) }

  function CaptionArg(b: Block): Arg { Arg("text", PythonString(FieldOf(b, Caption))) }

  /** The method path and arguments of a device block. */
  function DevicePath(t: BlockType): string
    requires IsDeviceCall(t)
  {
    match t
    case DriveVelocity => "drive.velocity"
    case Stop => "stop"
    case MotorRun => "motor.run"
    case MotorAngle => "motor.run_angle"
    case DriveStraight => "drive.straight"
    case DriveTurn => "drive.turn"
    case HubDisplay => "hub.display"
    case Gimbal => "gimbal.pitch_yaw"
    case HudShow => "xr.hud"
  }

  function DeviceArgs(b: Block, spec: BlockSpec): seq<Arg>
    requires IsDeviceCall(b.typ)
  {
    match b.typ
    case DriveVelocity =>
      [NumArg(b, spec, "speed", Speed), NumArg(b, spec, "durationSeconds", DurationSeconds)]
    case Stop => []
    case MotorRun =>
      [PortArg(b), NumArg(b, spec, "speed", Speed), NumArg(b, spec, "durationSeconds", DurationSeconds)]
    case MotorAngle => [PortArg(b), NumArg(b, spec, "angle", Angle), NumArg(b, spec, "speed", Speed)]
    case DriveStraight =>
      [NumArg(b, spec, "distanceMillimetres", DistanceMillimetres), NumArg(b, spec, "speed", Speed)]
    case DriveTurn => [NumArg(b, spec, "angle", Angle), NumArg(b, spec, "speed", Speed)]
    case HubDisplay => [CaptionArg(b)]
    case Gimbal => [NumArg(b, spec, "pitch", Pitch), NumArg(b, spec, "yaw", Yaw)]
    case HudShow => [CaptionArg(b)]
  }

  /** The call a block becomes on a target, None when it has no target or no Python form. */
  function DeviceCallOf(b: Block, target: Option<string>, spec: BlockSpec): Option<Call> {
    if target.Some? && IsDeviceCall(b.typ) then
      Some(OnDevice(target.value, DevicePath(b.typ), DeviceArgs(b, spec)))
    else None
  }

  function DeviceCallOut(b: Block, target: Option<string>): Out {
    if target.Some? && !IsDeviceCall(b.typ) then WarnOut(b, NoPythonForm) else NOTHING
  }

  // ---------------------------------------------------------------- expressions and parallel items

  const UNRESOLVED_TARGET := "device"

  function SensorName(t: BlockType): string
    requires IsReporter(t)
  {
    match t
    case ReadDistance => "sensor.distance"
    case ReadColor => "sensor.color"
    case ReadForce => "sensor.force"
  }

  function ExpressionOf(b: Block, bindings: seq<Binding>): Condition {
    var target := Target(ResolvedAlias(b, bindings));
    if IsReporter(b.typ) then
      Reading(if target.Some? then target.value else UNRESOLVED_TARGET, "\"" + SensorName(b.typ) + "\"")
    else NoneLiteral
  }

  function ExpressionOut(b: Block, bindings: seq<Binding>): Out {
    ResolveOut(b, bindings).Then(if IsReporter(b.typ) then NOTHING else WarnOut(b, NotAValue))
  }

  function SecondsText(b: Block, spec: BlockSpec): string {
    PythonNumber(FieldOf(b, Seconds), DefaultOf(spec, Seconds))
  }

  function ItemCall(b: Block, bindings: seq<Binding>): Call {
    var spec := BlockSpecOf(b.typ);
    if spec.None? then NoneCall
    else if b.typ.Wait? then Sleep(SecondsText(b, spec.value))
    else if b.typ.Log? then LogCall(PythonString(FieldOf(b, Message)))
    else
      var call := DeviceCallOf(b, Target(ResolvedAlias(b, bindings)), spec.value);
      if call.None? then NoneCall else call.value
  }

  /** A parallel argument always looks for a device, also where the block has no device field. */
  function ItemOut(b: Block, bindings: seq<Binding>): Out {
    var spec := BlockSpecOf(b.typ);
    ResolveOut(b, bindings).Then(
      if spec.None? then NOTHING
      else if b.typ.Wait? then UseOut("sleep")
      else if b.typ.Log? then UseOut("log")
      else DeviceCallOut(b, Target(ResolvedAlias(b, bindings))))
  }

  function ItemsOut(children: seq<Block>, depth: nat, bindings: seq<Binding>): Out {
    if children == [] then NOTHING
    else
      var rest := ItemsOut(children[1..], depth, bindings);
      var b := children[0];
      if b.disabled then rest
      else
        ItemOut(b, bindings)
          .Then(LineOut(ParallelItem(ItemCall(b, bindings)), depth, Some(Origin(b.id, b.typ, None))))
          .Then(rest)
  }

  predicate AnyEnabled(children: seq<Block>) { exists i :: 0 <= i < |children| && !children[i].disabled }

  // ---------------------------------------------------------------- statements

  function BodyOut(children: seq<Block>, depth: nat, bindings: seq<Binding>): Out
    decreases children, 2
  {
    var inner := ChildrenOut(children, depth, bindings);
    if inner.lines == [] then inner.Then(LineOut(Pass, depth, None)) else inner
  }

  function ChildrenOut(children: seq<Block>, depth: nat, bindings: seq<Binding>): Out
    decreases children, 0
  {
    if children == [] then NOTHING
    else
      var rest := ChildrenOut(children[1..], depth, bindings);
      if children[0].disabled then rest else StatementOut(children[0], depth, bindings).Then(rest)
  }

  function StatementOut(b: Block, depth: nat, bindings: seq<Binding>): Out
    decreases b, 1
  {
    if BlockSpecOf(b.typ).None? then WarnOut(b, UnknownBlock)
    else
      var spec := BlockSpecOf(b.typ).value;
      CommentOut(b.comment, depth)
        .Then(if NamesDevice(spec) then ResolveOut(b, bindings) else NOTHING)
        .Then(OwnOut(b, depth, bindings, spec))
  }

  function OwnAlias(b: Block, spec: BlockSpec, bindings: seq<Binding>): Option<string> {
    if NamesDevice(spec) then ResolvedAlias(b, bindings) else None
  }

  /** What a block emits after its comment and the search for its device. */
  function OwnOut(b: Block, depth: nat, bindings: seq<Binding>, spec: BlockSpec): Out
    requires BlockSpecOf(b.typ) == Some(spec)
    decreases b, 0
  {
    var alias := OwnAlias(b, spec, bindings);
    var target := Target(alias);
    var origin := Some(Origin(b.id, b.typ, alias));
    match b.typ
    case OnStart => LineOut(AsyncDef("main"), depth, origin).Then(BodyOut(b.children, depth + 1, bindings))
    case Every =>
      HandlerOut("every", EveryMark(SecondsText(b, spec)), EveryName(SecondsText(b, spec)), b.children, depth, bindings,
        origin)
    case OnGesture =>
      HandlerOut("when", GestureMark(b, target), "on_gesture", b.children, depth, bindings, origin)
    case Repeat =>
      LineOut(ForRange(PythonNumber(FieldOf(b, Times), DefaultOf(spec, Times))), depth, origin)
        .Then(BodyOut(b.children, depth + 1, bindings))
    case If => IfOut(b.children, depth, bindings, origin)
    case Parallel => ParallelOut(b.children, depth, bindings, origin)
    case Wait => UseOut("sleep").Then(LineOut(Await(Sleep(SecondsText(b, spec))), depth, origin))
    case Log => UseOut("log").Then(LineOut(Await(LogCall(PythonString(FieldOf(b, Message)))), depth, origin))
    case _ =>
      var call := DeviceCallOf(b, target, spec);
      DeviceCallOut(b, target).Then(if call.None? then NOTHING else LineOut(Await(call.value), depth, origin))
  }

  /** A decorated function. */
  function HandlerOut(name: string, mark: Mark, def: string, children: seq<Block>, depth: nat, bindings: seq<Binding>,
                      origin: Option<Origin>): Out
    decreases children, 3
  {
    UseOut(name)
      .Then(LineOut(MarkLine(mark), depth, origin))
      .Then(LineOut(AsyncDef(def), depth, None))
      .Then(BodyOut(children, depth + 1, bindings))
  }

  /** The first child is the condition, whatever it is and whether or not it is enabled. */
  function IfOut(children: seq<Block>, depth: nat, bindings: seq<Binding>, origin: Option<Origin>): Out
    decreases children, 3
  {
    if children == [] then
      LineOut(IfHeader(TrueLiteral), depth, origin).Then(BodyOut([], depth + 1, bindings))
    else
      ExpressionOut(children[0], bindings)
        .Then(LineOut(IfHeader(ExpressionOf(children[0], bindings)), depth, origin))
        .Then(BodyOut(children[1..], depth + 1, bindings))
  }

  function ParallelOut(children: seq<Block>, depth: nat, bindings: seq<Binding>, origin: Option<Origin>): Out {
    UseOut("parallel").Then(
      if !AnyEnabled(children) then LineOut(Pass, depth, origin)
      else
        LineOut(ParallelOpen, depth, origin)
          .Then(ItemsOut(children, depth + 1, bindings))
          .Then(LineOut(ParallelClose, depth, None)))
  }

  function GestureMark(b: Block, target: Option<string>): Mark {
    WhenMark(if target.Some? then target.value else "leap",
             PythonString(OrElse(FieldOf(b, Gesture), Plain("open_palm"))))
  }

  // ---------------------------------------------------------------- the module

  function Events(blocks: seq<Block>): (r: seq<Block>)
    ensures forall b :: b in r ==> b in blocks && !b.disabled && (b.typ.Every? || b.typ.OnGesture?)
  {
    if blocks == [] then []
    else
      var rest := Events(blocks[1..]);
      if !blocks[0].disabled && (blocks[0].typ.Every? || blocks[0].typ.OnGesture?) then [blocks[0]] + rest else rest
  }

  function Starts(blocks: seq<Block>): (r: seq<Block>)
    ensures forall b :: b in r ==> b in blocks && !b.disabled && b.typ.OnStart?
  {
    if blocks == [] then []
    else
      var rest := Starts(blocks[1..]);
      if !blocks[0].disabled && blocks[0].typ.OnStart? then [blocks[0]] + rest else rest
  }

  function Loose(blocks: seq<Block>): (r: seq<Block>)
    ensures forall b :: b in r ==> b in blocks && !b.disabled && !IsEvent(b.typ)
  {
    if blocks == [] then []
    else
      var rest := Loose(blocks[1..]);
      if !blocks[0].disabled && !IsEvent(blocks[0].typ) then [blocks[0]] + rest else rest
  }

  function AllChildren(starts: seq<Block>): seq<Block> {
    if starts == [] then [] else starts[0].children + AllChildren(starts[1..])
  }

  /** The steps of `main()`: what hangs under the start blocks, then the loose blocks. */
  function MainSteps(blocks: seq<Block>): seq<Block> { AllChildren(Starts(blocks)) + Loose(blocks) }

  predicate HasMain(blocks: seq<Block>) { Starts(blocks) != [] || Loose(blocks) != [] }

  function EventsOut(events: seq<Block>, bindings: seq<Binding>): Out {
    if events == [] then NOTHING
    else
      BodyOut([events[0]], 0, bindings).Then(LineOut(Blank, 0, None)).Then(EventsOut(events[1..], bindings))
  }

  function StartComments(starts: seq<Block>): Out {
    if starts == [] then NOTHING else CommentOut(starts[0].comment, 0).Then(StartComments(starts[1..]))
  }

  function MainOut(blocks: seq<Block>, bindings: seq<Binding>): Out {
    if !HasMain(blocks) then NOTHING
    else
      var anchor := if Starts(blocks) != [] then Starts(blocks)[0] else Loose(blocks)[0];
      StartComments(Starts(blocks))
        .Then(LineOut(AsyncDef("main"), 0, Some(Origin(anchor.id, anchor.typ, None))))
        .Then(BodyOut(MainSteps(blocks), 1, bindings))
        .Then(LineOut(Blank, 0, None))
  }

  function ProgramOut(blocks: seq<Block>, bindings: seq<Binding>): Out {
    EventsOut(Events(blocks), bindings).Then(MainOut(blocks, bindings))
  }

  const IMPORT_ORDER: seq<string> := ["device", "every", "log", "parallel", "sleep", "when"]

  function Imports(order: seq<string>, used: set<string>): (r: seq<string>)
    ensures forall n :: n in r <==> n in order && (n in used || n == "device")
  {
    if order == [] then []
    else
      var rest := Imports(order[1..], used);
      if order[0] in used || order[0] == "device" then [order[0]] + rest else rest
  }

  /** The stable sort by alias; `before` is the locale's comparison. */
  type Before = (string, string) -> bool

  function Insert(b: Binding, sorted: seq<Binding>, before: Before): (r: seq<Binding>)
    ensures |r| == |sorted| + 1
  {
    if sorted == [] || !before(sorted[0].alias, b.alias) then [b] + sorted
    else [sorted[0]] + Insert(b, sorted[1..], before)
  }

  function Sorted(bindings: seq<Binding>, before: Before): (r: seq<Binding>)
    ensures |r| == |bindings|
  {
    if bindings == [] then [] else Insert(bindings[0], Sorted(bindings[1..], before), before)
  }

  function AssignOut(bindings: seq<Binding>): Out {
    if bindings == [] then NOTHING
    else
      LineOut(Assign(AliasIdentifier(bindings[0].alias), PythonString(Plain(bindings[0].deviceId))), 0, None)
        .Then(AssignOut(bindings[1..]))
  }

  const BLANKS := LineOut(Blank, 0, None).Then(LineOut(Blank, 0, None))

  function HeaderOut(used: set<string>, bindings: seq<Binding>, before: Before): Out {
    var sorted := Sorted(bindings, before);
    LineOut(Import(Imports(IMPORT_ORDER, used)), 0, None)
      .Then(BLANKS)
      .Then(AssignOut(sorted))
      .Then(if sorted == [] then NOTHING else BLANKS)
  }

  /** The whole file before its trailing blank lines go. */
  function FileOut(blocks: seq<Block>, bindings: seq<Binding>, before: Before): Out {
    var program := ProgramOut(blocks, bindings);
    HeaderOut(program.used, bindings, before).Then(program)
  }

  function TrimBlank(lines: seq<Line>): (r: seq<Line>)
    ensures r <= lines
    ensures r == [] || !r[|r| - 1].stmt.Blank?
    ensures forall i :: |r| <= i < |lines| ==> lines[i].stmt.Blank?
  {
    if lines == [] || !lines[|lines| - 1].stmt.Blank? then lines else TrimBlank(lines[..|lines| - 1])
  }

  function FileLines(blocks: seq<Block>, bindings: seq<Binding>, before: Before): seq<Line> {
    TrimBlank(FileOut(blocks, bindings, before).lines)
  }

  function PythonFile(blocks: seq<Block>, bindings: seq<Binding>, before: Before): string {
    Join(RenderLines(FileLines(blocks, bindings, before)), '\n') + "\n"
  }

  /** The entries of the lines that came from a block; lines count from 1. */
  function MapOf(origins: seq<Option<Origin>>): seq<SourceMapEntry> {
    if origins == [] then []
    else
      var n := |origins|;
      MapOf(origins[..n - 1])
      + (if origins[n - 1].Some? then [SourceMapEntry(n, origins[n - 1].value)] else [])
  }

  function SourceMap(blocks: seq<Block>, bindings: seq<Binding>, before: Before): seq<SourceMapEntry> {
    MapOf(FileOut(blocks, bindings, before).origins)
  }
}
