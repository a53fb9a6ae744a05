/** The block catalog: which fields and inputs each block type has. */
module Catalog {
  import opened Wrappers
  import opened Values

  /** Block type names; `Unknown` is any name the catalog does not list. */
  datatype BlockType =
    | OnStart | Every | OnGesture
    | Repeat | If | Parallel | Wait | Log
    | DriveVelocity | Stop | MotorRun | MotorAngle | DriveStraight | DriveTurn
    | HubDisplay | Gimbal | HudShow
    | ReadDistance | ReadColor | ReadForce
    | Unknown(name: string)

  datatype FieldName =
    | Device | Seconds | Times | Message | Speed | DurationSeconds | Port | Angle
    | DistanceMillimetres | Caption | Pitch | Yaw | Gesture | Body | Condition
    | Undeclared(name: string)

  datatype FieldKind = NumberField | TextField | DeviceField | ChoiceField | StatementInput | ValueInput

  datatype FieldSpec = FieldSpec(name: FieldName, kind: FieldKind, default: Value)

  /** `statement` is false for a reporter, which yields a value instead of being a step. */
  datatype BlockSpec = BlockSpec(statement: bool, fields: seq<FieldSpec>)

  function Plain(text: string): Value { Str(text, None) }

  const BODY := FieldSpec(Body, StatementInput, Undefined)
  const DEVICE := FieldSpec(Device, DeviceField, Undefined)
  const PORT := FieldSpec(Port, ChoiceField, Plain("A"))
  const SPEED := FieldSpec(Speed, NumberField, Number(Num(3, 1)))
  const DURATION := FieldSpec(DurationSeconds, NumberField, Number(Num(1, 0)))
  const ANGLE := FieldSpec(Angle, NumberField, Number(Num(90, 0)))

  function BlockSpecOf(t: BlockType): Option<BlockSpec> {
    match t
    case OnStart => Some(BlockSpec(true, [BODY]))
    case Every => Some(BlockSpec(true, [FieldSpec(Seconds, NumberField, Number(Num(1, 0))), BODY]))
    case OnGesture => Some(BlockSpec(true, [DEVICE, FieldSpec(Gesture, ChoiceField, Plain("open_palm")), BODY]))
    case Repeat => Some(BlockSpec(true, [FieldSpec(Times, NumberField, Number(Num(4, 0))), BODY]))
    case If => Some(BlockSpec(true, [FieldSpec(Condition, ValueInput, Undefined), BODY]))
    case Parallel => Some(BlockSpec(true, [BODY]))
    case Wait => Some(BlockSpec(true, [FieldSpec(Seconds, NumberField, Number(Num(1, 0)))]))
    case Log => Some(BlockSpec(true, [FieldSpec(Message, TextField, Plain("hello"))]))
    case DriveVelocity =>
      Some(BlockSpec(true, [DEVICE, FieldSpec(Speed, NumberField, Number(Num(2, 1))), DURATION]))
    case Stop => Some(BlockSpec(true, [DEVICE]))
    case MotorRun => Some(BlockSpec(true, [DEVICE, PORT, SPEED, DURATION]))
    case MotorAngle => Some(BlockSpec(true, [DEVICE, PORT, ANGLE, SPEED]))
    case DriveStraight =>
      Some(BlockSpec(true, [DEVICE, FieldSpec(DistanceMillimetres, NumberField, Number(Num(200, 0))), SPEED]))
    case DriveTurn => Some(BlockSpec(true, [DEVICE, ANGLE, SPEED]))
    case HubDisplay => Some(BlockSpec(true, [DEVICE, FieldSpec(Caption, TextField, Plain("hi"))]))
    case Gimbal =>
      Some(BlockSpec(true, [DEVICE, FieldSpec(Pitch, NumberField, Number(ZERO)),
        FieldSpec(Yaw, NumberField, Number(ZERO))]))
    case HudShow => Some(BlockSpec(true, [DEVICE, FieldSpec(Caption, TextField, Plain("hello"))]))
    case ReadDistance => Some(BlockSpec(false, [DEVICE]))
    case ReadColor => Some(BlockSpec(false, [DEVICE]))
    case ReadForce => Some(BlockSpec(false, [DEVICE]))
    case Unknown(_) => None
  }

  predicate IsInput(kind: FieldKind) { kind.StatementInput? || kind.ValueInput? }

  /** The position of the first field of a kind, if there is one. */
  function FirstOfKind(fields: seq<FieldSpec>, kind: FieldKind): (r: Option<FieldSpec>)
    ensures r.Some? ==> r.value in fields && r.value.kind == kind
    ensures r.None? <==> forall i :: 0 <= i < |fields| ==> fields[i].kind != kind
  {
    if fields == [] then None
    else if fields[0].kind == kind then Some(fields[0])
    else FirstOfKind(fields[1..], kind)
  }

  function FindField(fields: seq<FieldSpec>, name: FieldName): (r: Option<FieldSpec>)
    ensures r.Some? ==> r.value in fields && r.value.name == name
    ensures r.None? <==> forall i :: 0 <= i < |fields| ==> fields[i].name != name
  {
    if fields == [] then None
    else if fields[0].name == name then Some(fields[0])
    else FindField(fields[1..], name)
  }

  /** The numeric default a block type declares for a field, zero when it declares none. */
  function DefaultOf(spec: BlockSpec, name: FieldName): Num {
    var found := FindField(spec.fields, name);
    if found.Some? && found.value.default.Number? then found.value.default.num else ZERO
  }

  predicate NamesDevice(spec: BlockSpec) { FirstOfKind(spec.fields, DeviceField).Some? }

  predicate IsReporter(t: BlockType) { BlockSpecOf(t).Some? && !BlockSpecOf(t).value.statement }

  predicate IsEvent(t: BlockType) { t.OnStart? || t.Every? || t.OnGesture? }

  /** Block types that become one call on a device. */
  predicate IsDeviceCall(t: BlockType) {
    t.DriveVelocity? || t.Stop? || t.MotorRun? || t.MotorAngle? || t.DriveStraight? || t.DriveTurn?
    || t.HubDisplay? || t.Gimbal? || t.HudShow?
  }

  lemma DeviceFieldsDeclared(t: BlockType)
    ensures IsDeviceCall(t) || IsReporter(t) || t.OnGesture?
            <==> BlockSpecOf(t).Some? && NamesDevice(BlockSpecOf(t).value)
  {
    if BlockSpecOf(t).Some? {
      var fields := BlockSpecOf(t).value.fields;
      if IsDeviceCall(t) || IsReporter(t) || t.OnGesture? {
        assert fields[0].kind == DeviceField;
      }
    }
  }

  /** Every block has at most one value input and at most one statement input, and a value input comes first. */
  lemma AtMostOneInputEach(t: BlockType)
    requires BlockSpecOf(t).Some?
    ensures var fields := BlockSpecOf(t).value.fields;
            (forall i, j :: 0 <= i < j < |fields| && IsInput(fields[i].kind) ==> fields[i].kind != fields[j].kind) &&
            (forall i, j :: 0 <= i < j < |fields| && fields[j].kind.ValueInput? ==> !fields[i].kind.StatementInput?)
  {
  }
}
