/**
 * What a block program means, straight from the blocks, and the programs for which the generated Python is held
 * to mean the same.
 */
module Meaning {
  import opened Wrappers
  import opened Text
  import opened Values
  import opened Catalog
  import opened Python
  import opened Generate
  import opened Literals
  import opened Structure

  // ---------------------------------------------------------------- devices and values

  function DeviceWithAlias(alias: string, bindings: seq<Binding>): Option<string> {
    if bindings == [] then None
    else if bindings[0].alias == alias then Some(bindings[0].deviceId)
    else DeviceWithAlias(alias, bindings[1..])
  }

  predicate HasDeviceId(deviceId: string, bindings: seq<Binding>) {
    exists i :: 0 <= i < |bindings| && bindings[i].deviceId == deviceId
  }

  /** The device a block names: by device id, else by alias, else the only device there is. */
  function DeviceOf(b: Block, bindings: seq<Binding>): Option<string> {
    var requested := FieldOf(b, Device);
    if !requested.Str? || requested.text == "" then
      if |bindings| == 1 then Some(bindings[0].deviceId) else None
    else if HasDeviceId(requested.text, bindings) then Some(requested.text)
    else DeviceWithAlias(requested.text, bindings)
  }

  /** A number the block carries, or the usual one. */
  function NumData(b: Block, key: string, name: FieldName, usual: Num): (string, Datum) {
    (key, NumDatum(NumberOf(FieldOf(b, name), usual)))
  }

  function PortData(b: Block): (string, Datum) { ("port", StrDatum(TextOf(OrElse(FieldOf(b, Port), Plain("A"))))) }

  function CaptionData(b: Block): (string, Datum) { ("text", StrDatum(TextOf(FieldOf(b, Caption)))) }

  const ONE := Num(1, 0)
  const SLOW := Num(2, 1)
  const STEADY := Num(3, 1)
  const QUARTER := Num(90, 0)

  function DeviceData(b: Block): seq<(string, Datum)>
    requires IsDeviceCall(b.typ)
  {
    match b.typ
    case DriveVelocity => [NumData(b, "speed", Speed, SLOW), NumData(b, "durationSeconds", DurationSeconds, ONE)]
    case Stop => []
    case MotorRun =>
      [PortData(b), NumData(b, "speed", Speed, STEADY), NumData(b, "durationSeconds", DurationSeconds, ONE)]
    case MotorAngle => [PortData(b), NumData(b, "angle", Angle, QUARTER), NumData(b, "speed", Speed, STEADY)]
    case DriveStraight =>
      [NumData(b, "distanceMillimetres", DistanceMillimetres, Num(200, 0)), NumData(b, "speed", Speed, STEADY)]
    case DriveTurn => [NumData(b, "angle", Angle, QUARTER), NumData(b, "speed", Speed, STEADY)]
    case HubDisplay => [CaptionData(b)]
    case Gimbal => [NumData(b, "pitch", Pitch, ZERO), NumData(b, "yaw", Yaw, ZERO)]
    case HudShow => [CaptionData(b)]
  }

  /** What the device is told to do. */
  function Deed(t: BlockType): string
    requires IsDeviceCall(t)
  {
    match t
    case DriveVelocity => "drive.velocity"
    case DriveStraight => "drive.straight"
    case DriveTurn => "drive.turn"
    case MotorRun => "motor.run"
    case MotorAngle => "motor.run_angle"
    case Gimbal => "gimbal.pitch_yaw"
    case HubDisplay => "hub.display"
    case HudShow => "xr.hud"
    case Stop => "stop"
  }

  /** What a value block reads. */
  function Sensed(t: BlockType): string
    requires IsReporter(t)
  {
    if t.ReadColor? then "sensor.color" else if t.ReadForce? then "sensor.force" else "sensor.distance"
  }

  function SecondsOf(b: Block): Num { NumberOf(FieldOf(b, Seconds), ONE) }

  function TimesOf(b: Block): Num { NumberOf(FieldOf(b, Times), Num(4, 0)) }

  function RoundsOf(b: Block): nat { if TimesOf(b).mantissa < 0 then 0 else TimesOf(b).mantissa }

  // ---------------------------------------------------------------- what the blocks do

  predicate IsAction(t: BlockType) { t.Wait? || t.Log? || IsDeviceCall(t) }

  /** The one effect of a wait, a message or a device block; None when its device is not there. */
  function ActionOf(b: Block, bindings: seq<Binding>): Option<Effect>
    requires IsAction(b.typ)
  {
    if b.typ.Wait? then Some(Waited(SecondsOf(b)))
    else if b.typ.Log? then Some(Logged(TextOf(FieldOf(b, Message))))
    else
      var device := DeviceOf(b, bindings);
      if device.None? then None else Some(Acted(device.value, Deed(b.typ), DeviceData(b)))
  }

  function ActionsOf(children: seq<Block>, bindings: seq<Binding>): seq<Effect> {
    if children == [] then []
    else
      var b, rest := children[0], ActionsOf(children[1..], bindings);
      if b.disabled || !IsAction(b.typ) || ActionOf(b, bindings).None? then rest
      else [ActionOf(b, bindings).value] + rest
  }

  /** The enabled blocks one after another. */
  function Perform(children: seq<Block>, bindings: seq<Binding>, oracle: Oracle, t: Trace): Trace
    decreases children, 0, 0
  {
    if children == [] then t
    else
      var next := if children[0].disabled then t else PerformBlock(children[0], bindings, oracle, t);
      Perform(children[1..], bindings, oracle, next)
  }

  function PerformBlock(b: Block, bindings: seq<Binding>, oracle: Oracle, t: Trace): Trace
    decreases b, 0, 0
  {
    if IsAction(b.typ) then
      var action := ActionOf(b, bindings);
      if action.None? then t else t + [action.value]
    else if b.typ.Repeat? then PerformRounds(b.children, bindings, oracle, t, RoundsOf(b))
    else if b.typ.If? then
      if b.children == [] || !SensorTrue(b.children[0], bindings, oracle, t) then t
      else Perform(b.children[1..], bindings, oracle, t)
    else if b.typ.Parallel? && AnyEnabled(b.children) then t + [Together(ActionsOf(b.children, bindings))]
    else t
  }

  function PerformRounds(children: seq<Block>, bindings: seq<Binding>, oracle: Oracle, t: Trace, rounds: nat): Trace
    decreases children, 1, rounds
  {
    if rounds == 0 then t
    else PerformRounds(children, bindings, oracle, Perform(children, bindings, oracle, t), rounds - 1)
  }

  predicate SensorTrue(b: Block, bindings: seq<Binding>, oracle: Oracle, t: Trace) {
    IsReporter(b.typ) && DeviceOf(b, bindings).Some? && oracle(t, DeviceOf(b, bindings).value, Sensed(b.typ))
  }

  // ---------------------------------------------------------------- what the program does

  /** What hangs under the enabled start blocks, one start block after another. */
  function PerformStarts(blocks: seq<Block>, bindings: seq<Binding>, oracle: Oracle, t: Trace): Trace
    decreases |blocks|
  {
    if blocks == [] then t
    else
      var next :=
        if blocks[0].disabled || !blocks[0].typ.OnStart? then t
        else Perform(blocks[0].children, bindings, oracle, t);
      PerformStarts(blocks[1..], bindings, oracle, next)
  }

  /** The enabled top-level blocks that are no start, timer or gesture block, one after another. */
  function PerformLoose(blocks: seq<Block>, bindings: seq<Binding>, oracle: Oracle, t: Trace): Trace
    decreases |blocks|
  {
    if blocks == [] then t
    else
      var next :=
        if blocks[0].disabled || blocks[0].typ.OnStart? || IsHandler(blocks[0]) then t
        else PerformBlock(blocks[0], bindings, oracle, t);
      PerformLoose(blocks[1..], bindings, oracle, next)
  }

  /** The program's trace, straight from its list of blocks: first all start blocks, then the loose ones. */
  function PerformProgram(blocks: seq<Block>, bindings: seq<Binding>, oracle: Oracle): Trace {
    PerformLoose(blocks, bindings, oracle, PerformStarts(blocks, bindings, oracle, []))
  }

  /** An enabled timer or gesture block. */
  predicate IsHandler(b: Block) { !b.disabled && (b.typ.Every? || b.typ.OnGesture?) }

  /** Something is there for `main()` to do, or at least a start block for it. */
  predicate RunsMain(blocks: seq<Block>) { exists b :: b in blocks && !b.disabled && !IsHandler(b) }

  /** The places of all enabled timer and gesture blocks, in order. */
  ghost predicate ListsHandlers(at: seq<nat>, blocks: seq<Block>) {
    && (forall k :: 0 <= k < |at| ==> at[k] < |blocks| && IsHandler(blocks[at[k]]))
    && (forall k, l :: 0 <= k < l < |at| ==> at[k] < at[l])
    && (forall i :: 0 <= i < |blocks| && IsHandler(blocks[i]) ==> i in at)
  }

  function TriggerOf(b: Block, bindings: seq<Binding>): Option<Trigger> {
    if b.typ.Every? then Some(Periodic(SecondsOf(b)))
    else if DeviceOf(b, bindings).Some? then
      Some(OnHand(DeviceOf(b, bindings).value, TextOf(OrElse(FieldOf(b, Gesture), Plain("open_palm")))))
    else None
  }

  // ---------------------------------------------------------------- programs held to be compiled correctly

  predicate Clean(v: Value) { Quotable(TextOf(v)) }

  predicate CleanTexts(b: Block) {
    && (b.typ.Log? ==> Clean(FieldOf(b, Message)))
    && (b.typ.HubDisplay? || b.typ.HudShow? ==> Clean(FieldOf(b, Caption)))
    && (b.typ.MotorRun? || b.typ.MotorAngle? ==> Clean(FieldOf(b, Port)))
    && (b.typ.OnGesture? ==> Clean(FieldOf(b, Gesture)))
  }

  predicate CompilableAction(b: Block, bindings: seq<Binding>) {
    CleanTexts(b) && IsAction(b.typ) && (IsDeviceCall(b.typ) ==> DeviceOf(b, bindings).Some?)
  }

  predicate CompilableItems(children: seq<Block>, bindings: seq<Binding>) {
    forall i :: 0 <= i < |children| && !children[i].disabled ==> CompilableAction(children[i], bindings)
  }

  predicate CompilableChildren(children: seq<Block>, bindings: seq<Binding>)
    decreases children, 0
  {
    children == [] ||
    ((children[0].disabled || Compilable(children[0], bindings)) && CompilableChildren(children[1..], bindings))
  }

  /**
   * Devices resolve, event blocks do not occur below the top level, repeat counts are whole, a condition starts with a
   * value block, and parallel children are waits, messages or device calls.
   */
  predicate Compilable(b: Block, bindings: seq<Binding>)
    decreases b, 1
  {
    if IsAction(b.typ) then CompilableAction(b, bindings)
    else
      match b.typ
      case Repeat => TimesOf(b).scale == 0 && CompilableChildren(b.children, bindings)
      case If =>
        b.children == [] ||
        (IsReporter(b.children[0].typ) && DeviceOf(b.children[0], bindings).Some? &&
         CompilableChildren(b.children[1..], bindings))
      case Parallel => CompilableItems(b.children, bindings)
      case _ => !IsEvent(b.typ)
  }

  predicate CompilableEvent(b: Block, bindings: seq<Binding>) {
    CleanTexts(b) && TriggerOf(b, bindings).Some? && CompilableChildren(b.children, bindings)
  }

  function EventName(b: Block): string
    requires BlockSpecOf(b.typ).Some?
  {
    if b.typ.Every? then EveryName(NumText(SecondsOf(b))) else "on_gesture"
  }

  const RESERVED: set<string> := {"device", "every", "log", "parallel", "sleep", "when", "range", "_", "main"}

  predicate DistinctIdentifiers(bindings: seq<Binding>) {
    forall i, j :: 0 <= i < j < |bindings| ==> AliasIdentifier(bindings[i].alias) != AliasIdentifier(bindings[j].alias)
  }

  /** Alias identifiers are distinct, are no keywords and hide no name the generated module uses. */
  predicate CompilableBindings(blocks: seq<Block>, bindings: seq<Binding>) {
    && DistinctIdentifiers(bindings)
    && (forall i :: 0 <= i < |bindings| ==>
          var name := AliasIdentifier(bindings[i].alias);
          name !in RESERVED && !IsKeyword(name) && Quotable(bindings[i].deviceId) &&
          forall b :: b in blocks && IsHandler(b) ==> EventName(b) != name)
  }

  /** No suite of the module consists of comments only, and no timer has a negative period. */
  predicate SuitedProgram(blocks: seq<Block>, bindings: seq<Binding>) {
    SuitedChildren(Events(blocks), bindings) && (HasMain(blocks) ==> SuitedBody(MainSteps(blocks), bindings))
  }

  predicate CompilableTop(b: Block, bindings: seq<Binding>) {
    if b.disabled then true
    else if IsHandler(b) then CompilableEvent(b, bindings)
    else if b.typ.OnStart? then CompilableChildren(b.children, bindings)
    else Compilable(b, bindings)
  }

  predicate CompilableProgram(blocks: seq<Block>, bindings: seq<Binding>) {
    && CompilableBindings(blocks, bindings)
    && SuitedProgram(blocks, bindings)
    && forall b :: b in blocks ==> CompilableTop(b, bindings)
  }
}
