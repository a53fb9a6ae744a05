/** The hub's framed line protocol: one line, at most 96 characters, of bounded fields from a fixed alphabet. */
module HubFrame {
  import opened Wrappers
  import opened Text

  const MAX_FRAME_CHARS := 96
  const MAX_ARGUMENTS := 4
  const MAX_ARGUMENT_CHARS := 24
  const SEQUENCE_MODULUS := 10000

  datatype Operation =
    | Hello | Heartbeat | Ack | Error | MotorRun | MotorRunAngle | MotorRunTarget
    | MotorStop | Drive | DriveStraight | Turn
    | SensorRead | SensorSubscribe | Display | Sound | StopAll | Telemetry

  function Name(op: Operation): string {
    match op
    case Hello => "HELLO"
    case Heartbeat => "HEARTBEAT"
    case Ack => "ACK"
    case Error => "ERROR"
    case MotorRun => "MOTOR_RUN"
    case MotorRunAngle => "MOTOR_RUN_ANGLE"
    case MotorRunTarget => "MOTOR_RUN_TARGET"
    case MotorStop => "MOTOR_STOP"
    case Drive => "DRIVE"
    case DriveStraight => "DRIVE_STRAIGHT"
    case Turn => "TURN"
    case SensorRead => "SENSOR_READ"
    case SensorSubscribe => "SENSOR_SUBSCRIBE"
    case Display => "DISPLAY"
    case Sound => "SOUND"
    case StopAll => "STOP_ALL"
    case Telemetry => "TELEMETRY"
  }

  /** The least and the greatest number of arguments. */
  function Arity(op: Operation): (nat, nat) {
    match op
    case Hello => (2, 4)
    case Heartbeat => (1, 1)
    case Ack => (1, 2)
    case Error => (2, 2)
    case MotorRun => (3, 3)
    case MotorRunAngle => (3, 3)
    case MotorRunTarget => (3, 3)
    case MotorStop => (1, 1)
    case Drive => (3, 3)
    case DriveStraight => (2, 2)
    case Turn => (2, 2)
    case SensorRead => (2, 2)
    case SensorSubscribe => (3, 3)
    case Display => (1, 1)
    case Sound => (2, 2)
    case StopAll => (1, 1)
    case Telemetry => (2, 3)
  }

  /** A name's length and first letter tell the operations apart, and no name holds the separator or white space. */
  lemma NameShape(op: Operation)
    ensures 3 <= |Name(op)| <= 16 && forall i :: 0 <= i < |Name(op)| ==> 'A' <= Name(op)[i] <= '_'
    ensures op == NamedBy(|Name(op)|, Name(op)[0])
  {
  }

  function NamedBy(length: nat, first: char): Operation {
    match length
    case 3 => Ack
    case 4 => Turn
    case 5 => if first == 'H' then Hello else if first == 'E' then Error else if first == 'D' then Drive else Sound
    case 7 => Display
    case 8 => StopAll
    case 9 => if first == 'H' then Heartbeat else if first == 'M' then MotorRun else Telemetry
    case 10 => MotorStop
    case 11 => SensorRead
    case 14 => DriveStraight
    case 15 => MotorRunAngle
    case _ => if first == 'M' then MotorRunTarget else SensorSubscribe
  }

  function FindOperation(text: string): (op: Option<Operation>)
    ensures op.Some? ==> Name(op.value) == text
    ensures op.None? ==> forall o: Operation :: Name(o) != text
  {
    if exists o: Operation :: Name(o) == text then
      assert forall o: Operation, p: Operation :: Name(o) == text && Name(p) == text ==> o == p by {
        forall o: Operation, p: Operation | Name(o) == text && Name(p) == text
          ensures o == p
        {
          NameShape(o);
          NameShape(p);
        }
      }
      var o: Operation :| Name(o) == text;
      Some(o)
    else None
  }

  predicate IsAllowed(c: char) {
    'A' <= c <= 'Z' || 'a' <= c <= 'z' || '0' <= c <= '9' || c == ' ' || c == '_' || c == '.' || c == ',' || c == ':' ||
      c == '+' || c == '-'
  }

  predicate GoodArgument(a: string) { |a| <= MAX_ARGUMENT_CHARS && forall i :: 0 <= i < |a| ==> IsAllowed(a[i]) }

  predicate GoodArguments(op: Operation, args: seq<string>) {
    Arity(op).0 <= |args| <= Arity(op).1 && forall i :: 0 <= i < |args| ==> GoodArgument(args[i])
  }

  datatype Frame = Frame(sequence: nat, op: Operation, args: seq<string>)

  function Fields(sequence: nat, op: Operation, args: seq<string>): seq<string> {
    ["C1", NatText(sequence), Name(op)] + args
  }

  /** None is the encoder's FrameError. */
  function Encode(sequence: int, op: Operation, args: seq<string>): Option<string> {
    if !GoodArguments(op, args) then None
    else
      var line := Join(Fields(sequence % SEQUENCE_MODULUS, op, args), '|');
      if |line| > MAX_FRAME_CHARS then None else Some(line)
  }

  // ---------------------------------------------------------------- white space

  /** White space as Python's `str.strip` removes it. */
  predicate IsSpace(c: char) {
    || '\t' <= c <= '\r' || '\U{1C}' <= c <= ' ' || c == '\U{85}' || c == '\U{A0}' || c == '\U{1680}'
    || '\U{2000}' <= c <= '\U{200A}' || c == '\U{2028}' || c == '\U{2029}' || c == '\U{202F}' || c == '\U{205F}' ||
      c == '\U{3000}'
  }

  function RightStrip(s: string): string { if s == "" || !IsSpace(s[|s| - 1]) then s else RightStrip(s[..|s| - 1]) }

  function LeftStrip(s: string): string { if s == "" || !IsSpace(s[0]) then s else LeftStrip(s[1..]) }

  function Strip(s: string): string { RightStrip(LeftStrip(s)) }

  /** Only white space goes from the end, and all of it. */
  lemma {:induction false} RightStripShape(s: string)
    ensures var r := RightStrip(s);
            r <= s && (r == "" || !IsSpace(r[|r| - 1])) && (forall i :: |r| <= i < |s| ==> IsSpace(s[i])) &&
              RightStrip(r) == r
  {
    if s != "" && IsSpace(s[|s| - 1]) { RightStripShape(s[..|s| - 1]); }
  }

  lemma {:induction false} LeftStripShorter(s: string)
    ensures |LeftStrip(s)| <= |s|
  {
    if s != "" && IsSpace(s[0]) { LeftStripShorter(s[1..]); }
  }

  /** A text that ends in a separator and a field is stripped inside the field. */
  lemma {:induction false} RightStripTail(head: string, tail: string)
    requires head != "" && !IsSpace(head[|head| - 1])
    ensures RightStrip(head + tail) == head + RightStrip(tail)
  {
    var s := head + tail;
    if tail == "" {
      assert s == head && RightStrip(tail) == "";
    } else {
      assert s[|s| - 1] == tail[|tail| - 1];
      if IsSpace(tail[|tail| - 1]) {
        assert s[..|s| - 1] == head + tail[..|tail| - 1];
        RightStripTail(head, tail[..|tail| - 1]);
      }
    }
  }

  // ---------------------------------------------------------------- decoding

  /** None is the decoder's FrameError; a missing line is one. */
  function Decode(line: Option<string>): (frame: Option<Frame>)
    ensures frame.Some? ==> frame.value.sequence < SEQUENCE_MODULUS && GoodArguments(frame.value.op, frame.value.args)
  {
    if line.None? then None
    else
      var text := Strip(line.value);
      if text == "" || |text| > MAX_FRAME_CHARS then None
      else DecodeFields(Split(text, '|'))
  }

  function DecodeFields(parts: seq<string>): (frame: Option<Frame>)
    ensures frame.Some? ==> frame.value.sequence < SEQUENCE_MODULUS && GoodArguments(frame.value.op, frame.value.args)
  {
    if |parts| < 3 || parts[0] != "C1" || parts[1] == "" || !AllDigits(parts[1]) then None
    else
      var sequence, op, args := ReadDigits(parts[1]), FindOperation(parts[2]), parts[3..];
      if sequence >= SEQUENCE_MODULUS || op.None? || |args| > MAX_ARGUMENTS || !GoodArguments(op.value, args) then None
      else Some(Frame(sequence, op.value, args))
  }

  /** The last argument, without the blanks at its end. */
  function Trimmed(args: seq<string>): seq<string>
    requires args != []
  {
    args[|args| - 1 := RightStrip(args[|args| - 1])]
  }

  lemma FieldsClean(sequence: nat, op: Operation, args: seq<string>)
    requires GoodArguments(op, args)
    ensures forall i :: 0 <= i < |Fields(sequence, op, args)| ==> '|' !in Fields(sequence, op, args)[i]
  {
    NameShape(op);
    forall i | 0 <= i < |args| ensures '|' !in args[i] { assert GoodArgument(args[i]); }
  }

  lemma TrimmedGood(op: Operation, args: seq<string>)
    requires GoodArguments(op, args)
    ensures args != [] && GoodArguments(op, Trimmed(args))
  {
    RightStripShape(args[|args| - 1]);
    forall i | 0 <= i < |args| ensures GoodArgument(Trimmed(args)[i]) { assert GoodArgument(args[i]); }
  }

  lemma JoinLast(parts: seq<string>, last: string)
    requires |parts| > 1
    ensures Join(parts[|parts| - 1 := last], '|') == Join(parts[..|parts| - 1], '|') + "|" + last
  {
    var n := |parts| - 1;
    assert parts[n := last] == parts[..n] + [last];
    JoinAppend(parts[..n], [last], '|');
  }

  /** Stripping an encoded line strips the end of its last argument and nothing else. */
  lemma StripEncoded(sequence: nat, op: Operation, args: seq<string>)
    requires GoodArguments(op, args)
    ensures args != [] && Strip(Join(Fields(sequence, op, args), '|')) == Join(Fields(sequence, op, Trimmed(args)), '|')
  {
    var fields := Fields(sequence, op, args);
    var n := |fields| - 1;
    var line, head := Join(fields, '|'), Join(fields[..n], '|') + "|";
    JoinLast(fields, fields[n]);
    assert fields[n := fields[n]] == fields;
    JoinLast(fields, RightStrip(fields[n]));
    assert fields[n := RightStrip(fields[n])] == Fields(sequence, op, Trimmed(args));
    assert line == "C1" + ['|'] + Join(fields[1..], '|');
    assert line[0] == 'C' && LeftStrip(line) == line;
    RightStripTail(head, fields[n]);
  }

  /**
   * Decoding an encoded frame gives the sequence modulo 10000, the operation, and the arguments less trailing blanks of
   * the last.
   */
  lemma RoundTrip(sequence: int, op: Operation, args: seq<string>)
    requires Encode(sequence, op, args).Some?
    ensures args != [] && Decode(Encode(sequence, op, args)) ==
            Some(Frame(sequence % SEQUENCE_MODULUS, op, Trimmed(args)))
  {
    hide Join, Split, FindOperation, Strip, GoodArgument;
    var number := sequence % SEQUENCE_MODULUS;
    var fields := Fields(number, op, args);
    TrimmedGood(op, args);
    StripEncoded(number, op, args);
    var parts := Fields(number, op, Trimmed(args));
    FieldsClean(number, op, Trimmed(args));
    SplitJoinClean(parts, '|');
    StripShorter(Join(fields, '|'));
    JoinNonempty(parts);
    ReadNatText(number);
    OperationFound(op);
    assert parts[3..] == Trimmed(args);
  }

  lemma StripShorter(s: string)
    ensures |Strip(s)| <= |s|
  {
    LeftStripShorter(s);
    RightStripShape(LeftStrip(s));
  }

  lemma JoinNonempty(parts: seq<string>)
    requires |parts| > 1
    ensures Join(parts, '|') != ""
  {
  }

  lemma OperationFound(op: Operation)
    ensures FindOperation(Name(op)) == Some(op)
  {
    var found := FindOperation(Name(op));
    NameShape(op);
    NameShape(found.value);
  }

  /** The arguments come back unchanged exactly when the last one does not end in a blank. */
  lemma RoundTripExactly(sequence: int, op: Operation, args: seq<string>)
    requires Encode(sequence, op, args).Some?
    ensures args != []
    ensures Decode(Encode(sequence, op, args)) == Some(Frame(sequence % SEQUENCE_MODULUS, op, args)) <==>
            args[|args| - 1] == "" || args[|args| - 1][|args[|args| - 1]| - 1] != ' '
  {
    hide Encode, Decode;
    RoundTrip(sequence, op, args);
    assert GoodArguments(op, args) by { EncodeGood(sequence, op, args); }
    var last := args[|args| - 1];
    assert GoodArgument(last);
    RightStripShape(last);
    assert Trimmed(args) == args <==> RightStrip(last) == last by {
      assert Trimmed(args)[|args| - 1] == RightStrip(last);
    }
  }

  lemma EncodeGood(sequence: int, op: Operation, args: seq<string>)
    requires Encode(sequence, op, args).Some?
    ensures GoodArguments(op, args)
  {
  }

  lemma {:induction false} DigitsShorter(s: string)
    requires AllDigits(s) && s != ""
    ensures |NatText(ReadDigits(s))| <= |s|
  {
    var init := s[..|s| - 1];
    if init != "" {
      DigitsShorter(init);
      var n, d := ReadDigits(init), s[|s| - 1] as int - '0' as int;
      assert ReadDigits(s) == n * 10 + d && (n * 10 + d) / 10 == n;
    }
  }

  lemma FieldsLength(a: seq<string>, b: seq<string>)
    requires |a| == |b| > 1 && a[0] == b[0] && a[2..] == b[2..] && |a[1]| <= |b[1]|
    ensures |Join(a, '|')| <= |Join(b, '|')|
  {
    assert a[1..][1..] == b[1..][1..] by { assert a[1..][1..] == a[2..] && b[1..][1..] == b[2..]; }
    assert Join(a, '|') == a[0] + ['|'] + Join(a[1..], '|') && Join(b, '|') == b[0] + ['|'] + Join(b[1..], '|');
  }

  /** Whatever decodes can be encoded again, and that line decodes to the same frame. */
  lemma DecodedEncodes(line: string)
    requires Decode(Some(line)).Some?
    ensures var f := Decode(Some(line)).value;
            Encode(f.sequence, f.op, f.args).Some? && Decode(Encode(f.sequence, f.op, f.args)) == Some(f)
  {
    hide Join, Split, FindOperation, GoodArgument, Strip;
    var f, text := Decode(Some(line)).value, Strip(line);
    var parts := Split(text, '|');
    JoinSplit(text, '|');
    var fields := Fields(f.sequence, f.op, f.args);
    DigitsShorter(parts[1]);
    assert parts == [parts[0], parts[1], parts[2]] + parts[3..];
    assert fields[2..] == parts[2..];
    FieldsLength(fields, parts);
    RoundTrip(f.sequence, f.op, f.args);
    LastStripped(line, parts);
    assert Trimmed(f.args) == f.args;
  }

  /** The last field of a stripped line does not end in white space. */
  lemma LastStripped(line: string, parts: seq<string>)
    requires parts == Split(Strip(line), '|') && |parts| > 1
    ensures RightStrip(parts[|parts| - 1]) == parts[|parts| - 1]
  {
    hide Join, Split, RightStrip, Strip;
    var n := |parts| - 1;
    JoinSplit(Strip(line), '|');
    JoinLast(parts, parts[n]);
    assert parts[n := parts[n]] == parts;
    var head := Join(parts[..n], '|') + "|";
    assert head[|head| - 1] == '|';
    RightStripTail(head, parts[n]);
    StripStripped(line);
    Cancel(head, RightStrip(parts[n]), parts[n]);
  }

  lemma StripStripped(s: string)
    ensures RightStrip(Strip(s)) == Strip(s)
  {
    RightStripShape(LeftStrip(s));
  }

  lemma Cancel(head: string, a: string, b: string)
    requires head + a == head + b
    ensures a == b
  {
    assert (head + a)[|head|..] == a && (head + b)[|head|..] == b;
  }

  // ---------------------------------------------------------------- numbers in arguments

  predicate IsGrouped(s: string) { forall i :: 0 <= i < |s| ==> IsDigit(s[i]) || s[i] == '_' }

  /** Digits, and single underscores between digits. */
  predicate IsNumeral(s: string) {
    s != "" && IsGrouped(s) && s[0] != '_' && s[|s| - 1] != '_' && forall i :: 0 < i < |s| ==>
      s[i - 1] != '_' || s[i] != '_'
  }

  function Ungrouped(s: string): (r: string)
    requires IsGrouped(s)
    ensures AllDigits(r)
  {
    if s == "" then "" else if s[0] == '_' then Ungrouped(s[1..]) else [s[0]] + Ungrouped(s[1..])
  }

  function NumeralValue(s: string): Option<int> { if IsNumeral(s) then Some(ReadDigits(Ungrouped(s))) else None }

  /** `int(text)`; None is its ValueError. */
  function ReadInt(text: string): Option<int> {
    var t := Strip(text);
    if t != "" && (t[0] == '+' || t[0] == '-') then
      var value := NumeralValue(t[1..]);
      if value.None? then None else Some(if t[0] == '-' then -value.value else value.value)
    else
      var value := NumeralValue(t);
      if value.None? then None else Some(value.value)
  }

  lemma {:induction false} UngroupedDigits(s: string)
    requires AllDigits(s)
    ensures IsGrouped(s) && Ungrouped(s) == s
  {
    if s != "" { UngroupedDigits(s[1..]); }
  }

  lemma NumeralText(n: nat)
    ensures NumeralValue(NatText(n)) == Some(n)
  {
    UngroupedDigits(NatText(n));
    ReadNatText(n);
  }

  /** Every integer reads back from its decimal text. */
  lemma ReadIntText(n: int)
    ensures ReadInt(IntText(n)) == Some(n)
  {
    hide NumeralValue, NatText;
    var t := IntText(n);
    NumeralText(if n < 0 then -n else n);
    assert n < 0 ==> t[0] == '-' && t[1..] == NatText(-n);
    assert IsDigit(t[|t| - 1]) && !IsSpace(t[|t| - 1]) && !IsSpace(t[0]);
  }

  // ---------------------------------------------------------------- the protocol's table

  const UPPER := "ABCDEFGHIJKLMNOPQRSTUVWXYZ"
  const LOWER := "abcdefghijklmnopqrstuvwxyz"
  const OTHERS := "0123456789 _.,:+-"

  /** The operation goes by this name on the wire and takes this many arguments. */
  predicate Listed(name: string, op: Operation, count: nat) {
    match op
    case Hello => name == "HELLO" && 2 <= count <= 4
    case Heartbeat => name == "HEARTBEAT" && count == 1
    case Ack => name == "ACK" && 1 <= count <= 2
    case Error => name == "ERROR" && count == 2
    case MotorRun => name == "MOTOR_RUN" && count == 3
    case MotorRunAngle => name == "MOTOR_RUN_ANGLE" && count == 3
    case MotorRunTarget => name == "MOTOR_RUN_TARGET" && count == 3
    case MotorStop => name == "MOTOR_STOP" && count == 1
    case Drive => name == "DRIVE" && count == 3
    case DriveStraight => name == "DRIVE_STRAIGHT" && count == 2
    case Turn => name == "TURN" && count == 2
    case SensorRead => name == "SENSOR_READ" && count == 2
    case SensorSubscribe => name == "SENSOR_SUBSCRIBE" && count == 3
    case Display => name == "DISPLAY" && count == 1
    case Sound => name == "SOUND" && count == 2
    case StopAll => name == "STOP_ALL" && count == 1
    case Telemetry => name == "TELEMETRY" && 2 <= count <= 3
  }

  predicate InAlphabet(c: char) { c in UPPER || c in LOWER || c in OTHERS }

  predicate PlainArguments(args: seq<string>) {
    forall i :: 0 <= i < |args| ==> |args[i]| <= 24 && forall c :: c in args[i] ==> InAlphabet(c)
  }

  lemma UpperExactly(c: char)
    ensures c in UPPER <==> 'A' <= c <= 'Z'
  {
    var k := c as int - 'A' as int;
    if 0 <= k < 26 { assert UPPER[k] == c; }
  }

  lemma LowerExactly(c: char)
    ensures c in LOWER <==> 'a' <= c <= 'z'
  {
    var k := c as int - 'a' as int;
    if 0 <= k < 26 { assert LOWER[k] == c; }
  }

  lemma OthersExactly(c: char)
    ensures c in OTHERS <==>
            '0' <= c <= '9' || c == ' ' || c == '_' || c == '.' || c == ',' || c == ':' || c == '+' || c == '-'
  {
    var k := c as int - '0' as int;
    if 0 <= k < 10 { assert OTHERS[k] == c; }
    assert OTHERS[10] == ' ' && OTHERS[11] == '_' && OTHERS[12] == '.' && OTHERS[13] == ',';
    assert OTHERS[14] == ':' && OTHERS[15] == '+' && OTHERS[16] == '-';
  }

  lemma AllowedExactly(c: char)
    ensures IsAllowed(c) <==> InAlphabet(c)
  {
    hide UPPER, LOWER, OTHERS;
    UpperExactly(c);
    LowerExactly(c);
    OthersExactly(c);
  }

  lemma PlainExactly(args: seq<string>)
    ensures PlainArguments(args) <==> forall i :: 0 <= i < |args| ==> GoodArgument(args[i])
  {
    hide IsAllowed, InAlphabet;
    forall c ensures IsAllowed(c) <==> InAlphabet(c) { AllowedExactly(c); }
  }

  /** A line decodes to a frame exactly when its stripped text is that frame in the protocol's table. */
  lemma DecodeExactly(line: string, f: Frame)
    ensures var text := Strip(line);
            var parts := Split(text, '|');
            Decode(Some(line)) == Some(f) <==>
              && |text| <= 96 && |parts| >= 3 && parts[0] == "C1" && parts[1] != "" && AllDigits(parts[1])
              && ReadDigits(parts[1]) == f.sequence < 10000 && Listed(parts[2], f.op, |parts| - 3)
              && f.args == parts[3..] && PlainArguments(f.args)
  {
    hide Strip, Split, GoodArgument, PlainArguments, FindOperation;
    var text := Strip(line);
    var parts := Split(text, '|');
    PlainExactly(f.args);
    EmptyShort();
    if |parts| >= 3 {
      ListedExactly(parts[2], f.op, |parts| - 3);
      OperationFound(f.op);
    }
  }

  lemma EmptyShort()
    ensures |Split("", '|')| < 3
  {
  }

  lemma ListedExactly(name: string, op: Operation, count: nat)
    ensures Listed(name, op, count) <==> name == Name(op) && Arity(op).0 <= count <= Arity(op).1 && count <= 4
  {
  }

  /** A frame is encoded exactly as its line in the protocol's table, when that is not too long. */
  lemma EncodeExactly(sequence: int, op: Operation, args: seq<string>, line: string)
    ensures Encode(sequence, op, args) == Some(line) <==>
              exists name :: Listed(name, op, |args|) && PlainArguments(args) && |line| <= 96 &&
                             line == Join(["C1", NatText(sequence % 10000), name] + args, '|')
  {
    hide Join, GoodArgument, PlainArguments, NatText;
    PlainExactly(args);
    ListedExactly(Name(op), op, |args|);
    forall name | Listed(name, op, |args|) ensures name == Name(op) { ListedExactly(name, op, |args|); }
  }
}
