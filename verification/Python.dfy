/**
 * The part of Python the generated programs use: statements, the indentation rules of section 2.1.8 of the
 * Python Language Reference, string literals of section 2.4.1, and what running a module does.
 */
module Python {
  import opened Wrappers
  import opened Text
  import opened Values

  // ---------------------------------------------------------------- statements

  /** A keyword argument; the literal is kept as written. */
  datatype Arg = Arg(name: string, literal: string)

  datatype Call =
    | Sleep(seconds: string)
    | LogCall(message: string)
    | OnDevice(target: string, path: string, args: seq<Arg>)
    | NoneCall

  datatype Condition = TrueLiteral | NoneLiteral | Reading(target: string, sensor: string)

  datatype Mark = EveryMark(seconds: string) | WhenMark(source: string, gesture: string)

  /** What one line holds. */
  datatype Stmt =
    | Blank
    | Comment(text: string)
    | Import(names: seq<string>)
    | Assign(name: string, literal: string)
    | MarkLine(mark: Mark)
    | AsyncDef(name: string)
    | ForRange(times: string)
    | IfHeader(cond: Condition)
    | ParallelOpen
    | ParallelItem(call: Call)
    | ParallelClose
    | Pass
    | Await(call: Call)

  datatype Line = Line(depth: nat, stmt: Stmt)

  /** Blank lines and comments produce no token, whatever their indentation. */
  function Significant(lines: seq<Line>): seq<Line> {
    if lines == [] then []
    else if lines[0].stmt.Blank? || lines[0].stmt.Comment? then Significant(lines[1..])
    else [lines[0]] + Significant(lines[1..])
  }

  lemma {:induction false} SignificantAppend(a: seq<Line>, b: seq<Line>)
    ensures Significant(a + b) == Significant(a) + Significant(b)
  {
    if a == [] {
      assert a + b == b;
    } else {
      assert (a + b)[1..] == a[1..] + b;
      SignificantAppend(a[1..], b);
    }
  }

  // ---------------------------------------------------------------- identifiers

  predicate IsIdentChar(c: char) { 'a' <= c <= 'z' || 'A' <= c <= 'Z' || '0' <= c <= '9' || c == '_' }

  predicate IsIdentifier(s: string) {
    s != "" && !IsDigit(s[0]) && forall i :: 0 <= i < |s| ==> IsIdentChar(s[i])
  }

  /** The reserved words of section 2.3.1. */
  const KEYWORDS: set<string> := {
    "False", "None", "True", "and", "as", "assert", "async", "await", "break", "class", "continue", "def",
    "del", "elif", "else", "except", "finally", "for", "from", "global", "if", "import", "in", "is", "lambda",
    "nonlocal", "not", "or", "pass", "raise", "return", "try", "while", "with", "yield"}

  predicate IsKeyword(s: string) { s in KEYWORDS }

  // ---------------------------------------------------------------- indentation

  /** The statement tree the indentation of the lines stands for. */
  datatype Node =
    | ImportNode(names: seq<string>)
    | AssignNode(name: string, literal: string)
    | DefNode(marks: seq<Mark>, name: string, body: seq<Node>)
    | ForNode(times: string, body: seq<Node>)
    | IfNode(cond: Condition, body: seq<Node>)
    | TogetherNode(calls: seq<Call>)
    | AwaitNode(call: Call)
    | PassNode

  type Parsed = Option<(seq<Node>, seq<Line>)>

  function Prepend(nodes: seq<Node>, rest: Parsed): Parsed {
    if rest.None? then None else Some((nodes + rest.value.0, rest.value.1))
  }

  /** Statements at one indentation level, up to the first line indented less. */
  function ParseBlock(lines: seq<Line>, depth: nat): (r: Parsed)
    ensures r.Some? ==> |r.value.1| <= |lines|
    decreases |lines|, 1
  {
    if lines == [] || lines[0].depth < depth then Some(([], lines))
    else if lines[0].depth > depth then None
    else
      var first := ParseStatement(lines);
      if first.None? then None else Prepend([first.value.0], ParseBlock(first.value.1, depth))
  }

  /** The indented suite of a header at `depth`: at least one line, indented further. */
  function ParseSuite(lines: seq<Line>, depth: nat): (r: Parsed)
    ensures r.Some? ==> |r.value.1| <= |lines|
    decreases |lines|, 2
  {
    if lines == [] || lines[0].depth <= depth then None else ParseBlock(lines, lines[0].depth)
  }

  function ParseStatement(lines: seq<Line>): (r: Option<(Node, seq<Line>)>)
    requires lines != []
    ensures r.Some? ==> |r.value.1| < |lines|
    decreases |lines|, 0
  {
    var depth, rest := lines[0].depth, lines[1..];
    match lines[0].stmt
    case Import(names) => Some((ImportNode(names), rest))
    case Assign(name, literal) => Some((AssignNode(name, literal), rest))
    case Pass => Some((PassNode, rest))
    case Await(call) => Some((AwaitNode(call), rest))
    case ParallelOpen => ParseItems(rest)
    case ForRange(times) =>
      var suite := ParseSuite(rest, depth);
      if suite.None? then None else Some((ForNode(times, suite.value.0), suite.value.1))
    case IfHeader(cond) =>
      var suite := ParseSuite(rest, depth);
      if suite.None? then None else Some((IfNode(cond, suite.value.0), suite.value.1))
    case AsyncDef(name) =>
      var suite := ParseSuite(rest, depth);
      if suite.None? || !IsIdentifier(name) then None
      else Some((DefNode([], name, suite.value.0), suite.value.1))
    case MarkLine(mark) =>
      if rest == [] || rest[0].depth != depth then None
      else
        var marked := ParseStatement(rest);
        if marked.None? || !marked.value.0.DefNode? then None
        else Some((marked.value.0.(marks := [mark] + marked.value.0.marks), marked.value.1))
    case _ => None
  }

  /** The arguments of `parallel(`, up to the closing bracket. Indentation means nothing inside brackets. */
  function ParseItems(lines: seq<Line>): (r: Option<(Node, seq<Line>)>)
    ensures r.Some? ==> |r.value.1| < |lines| && r.value.0.TogetherNode?
    decreases |lines|, 0
  {
    if lines == [] then None
    else if lines[0].stmt.ParallelClose? then Some((TogetherNode([]), lines[1..]))
    else if lines[0].stmt.ParallelItem? then
      var rest := ParseItems(lines[1..]);
      if rest.None? then None
      else Some((TogetherNode([lines[0].stmt.call] + rest.value.0.calls), rest.value.1))
    else None
  }

  /** The whole module, or None where Python reports a syntax or indentation error. */
  function ParseModule(lines: seq<Line>): Option<seq<Node>> {
    var parsed := ParseBlock(Significant(lines), 0);
    if parsed.None? || parsed.value.1 != [] then None else Some(parsed.value.0)
  }

  // ---------------------------------------------------------------- literals

  /** A value a literal stands for. */
  datatype Datum = StrDatum(text: string) | NumDatum(num: Num)

  /** The text of a string literal after its opening quote; the closing quote must come last. */
  function DecodeTail(s: string): Option<string> {
    if s == "" then None
    else if s[0] == '"' then (if |s| == 1 then Some("") else None)
    else if s[0] == '\n' || s[0] == '\r' || s[0] == '\0' then None
    else if s[0] != '\\' then Cons([s[0]], DecodeTail(s[1..]))
    else if |s| == 1 then None
    else
      match s[1]
      case '\\' => Cons("\\", DecodeTail(s[2..]))
      case '"' => Cons("\"", DecodeTail(s[2..]))
      case '\'' => Cons("'", DecodeTail(s[2..]))
      case 'n' => Cons("\n", DecodeTail(s[2..]))
      case 'r' => Cons("\r", DecodeTail(s[2..]))
      case 't' => Cons("\t", DecodeTail(s[2..]))
      case _ => None
  }

  function Cons(head: string, tail: Option<string>): Option<string> {
    if tail.None? then None else Some(head + tail.value)
  }

  /** The value of a literal as written. */
  function Decode(literal: string): Option<Datum> {
    if literal != "" && literal[0] == '"' then
      var text := DecodeTail(literal[1..]);
      if text.None? then None else Some(StrDatum(text.value))
    else
      var num := ReadNum(literal);
      if num.None? then None else Some(NumDatum(num.value))
  }

  // ---------------------------------------------------------------- running

  /** What a program does to the world. Sensor readings leave no mark of their own. */
  datatype Effect =
    | Waited(seconds: Num)
    | Logged(text: string)
    | Acted(deviceId: string, path: string, args: seq<(string, Datum)>)
    | Together(effects: seq<Effect>)

  type Trace = seq<Effect>

  /** Whether a reading of a sensor counts as true, given everything the program did before. */
  type Oracle = (Trace, string, string) -> bool

  datatype Bound = SdkName(name: string) | DeviceObject(deviceId: string) | FunctionObject(body: seq<Node>) | LoopIndex

  type Env = map<string, Bound>

  function DecodeArgs(args: seq<Arg>): Option<seq<(string, Datum)>> {
    if args == [] then Some([])
    else
      var first, rest := Decode(args[0].literal), DecodeArgs(args[1..]);
      if first.None? || rest.None? then None else Some([(args[0].name, first.value)] + rest.value)
  }

  predicate IsSdk(env: Env, name: string) { name in env && env[name] == SdkName(name) }

  /** The effect of awaiting a call; None where Python raises. */
  function CallEffect(call: Call, env: Env): Option<Effect> {
    match call
    case NoneCall => None
    case Sleep(seconds) =>
      var datum := Decode(seconds);
      if IsSdk(env, "sleep") && datum.Some? && datum.value.NumDatum? then Some(Waited(datum.value.num)) else None
    case LogCall(message) =>
      var datum := Decode(message);
      if IsSdk(env, "log") && datum.Some? && datum.value.StrDatum? then Some(Logged(datum.value.text)) else None
    case OnDevice(target, path, args) =>
      var data := DecodeArgs(args);
      if target in env && env[target].DeviceObject? && data.Some? then
        Some(Acted(env[target].deviceId, path, data.value))
      else None
  }

  function CallEffects(calls: seq<Call>, env: Env): Option<seq<Effect>> {
    if calls == [] then Some([])
    else
      var first, rest := CallEffect(calls[0], env), CallEffects(calls[1..], env);
      if first.None? || rest.None? then None else Some([first.value] + rest.value)
  }

  function Holds(cond: Condition, env: Env, oracle: Oracle, t: Trace): Option<bool> {
    match cond
    case TrueLiteral => Some(true)
    case NoneLiteral => Some(false)
    case Reading(target, sensor) =>
      var datum := Decode(sensor);
      if target in env && env[target].DeviceObject? && datum.Some? && datum.value.StrDatum? then
        Some(oracle(t, env[target].deviceId, datum.value.text))
      else None
  }

  /** `range(...)` takes a whole number; a negative one gives no round. */
  function Rounds(times: string): Option<nat> {
    var num := ReadNum(times);
    if num.None? || num.value.scale != 0 then None
    else Some(if num.value.mantissa < 0 then 0 else num.value.mantissa)
  }

  /** The trace after running a function body; None where Python raises. */
  function RunNodes(nodes: seq<Node>, env: Env, oracle: Oracle, t: Trace): Option<Trace>
    decreases nodes, 0, 0
  {
    if nodes == [] then Some(t)
    else
      var first := RunNode(nodes[0], env, oracle, t);
      if first.None? then None else RunNodes(nodes[1..], env, oracle, first.value)
  }

  function RunNode(node: Node, env: Env, oracle: Oracle, t: Trace): Option<Trace>
    decreases node, 0, 0
  {
    match node
    case PassNode => Some(t)
    case AwaitNode(call) =>
      var effect := CallEffect(call, env);
      if effect.None? then None else Some(t + [effect.value])
    case TogetherNode(calls) =>
      var effects := CallEffects(calls, env);
      if effects.None? || !IsSdk(env, "parallel") then None else Some(t + [Together(effects.value)])
    case ForNode(times, body) =>
      var rounds := Rounds(times);
      if rounds.None? || !IsSdk(env, "range") then None
      else RunRounds(body, env["_" := LoopIndex], oracle, t, rounds.value)
    case IfNode(cond, body) =>
      var taken := Holds(cond, env, oracle, t);
      if taken.None? then None
      else if taken.value then RunNodes(body, env, oracle, t)
      else Some(t)
    case _ => None  // definitions, imports and assignments inside a function body are outside this semantics
  }

  function RunRounds(body: seq<Node>, env: Env, oracle: Oracle, t: Trace, rounds: nat): Option<Trace>
    decreases body, 1, rounds
  {
    if rounds == 0 then Some(t)
    else
      var once := RunNodes(body, env, oracle, t);
      if once.None? then None else RunRounds(body, env, oracle, once.value, rounds - 1)
  }

  // ---------------------------------------------------------------- modules

  datatype Trigger = Periodic(seconds: Num) | OnHand(deviceId: string, gesture: string)

  datatype Handler = Handler(triggers: seq<Trigger>, body: seq<Node>)

  /** A loaded module: its globals and the handlers its decorators registered. */
  datatype Module = Module(env: Env, handlers: seq<Handler>)

  function MarkTrigger(mark: Mark, env: Env): Option<Trigger> {
    match mark
    case EveryMark(seconds) =>
      var datum := Decode(seconds);
      if IsSdk(env, "every") && datum.Some? && datum.value.NumDatum? then Some(Periodic(datum.value.num)) else None
    case WhenMark(source, gesture) =>
      var datum := Decode(gesture);
      if IsSdk(env, "when") && source in env && env[source].DeviceObject? && datum.Some? && datum.value.StrDatum? then
        Some(OnHand(env[source].deviceId, datum.value.text))
      else None
  }

  function MarkTriggers(marks: seq<Mark>, env: Env): Option<seq<Trigger>> {
    if marks == [] then Some([])
    else
      var first, rest := MarkTrigger(marks[0], env), MarkTriggers(marks[1..], env);
      if first.None? || rest.None? then None else Some([first.value] + rest.value)
  }

  function ImportNames(names: seq<string>, env: Env): Env {
    if names == [] then env else ImportNames(names[1..], env[names[0] := SdkName(names[0])])
  }

  /** One module-level statement; None where Python raises. Other statements do not occur at module level. */
  function LoadNode(node: Node, m: Module): Option<Module> {
    match node
    case ImportNode(names) => Some(m.(env := ImportNames(names, m.env)))
    case AssignNode(name, literal) =>
      var datum := Decode(literal);
      if IsSdk(m.env, "device") && datum.Some? && datum.value.StrDatum? then
        Some(m.(env := m.env[name := DeviceObject(datum.value.text)]))
      else None
    case DefNode(marks, name, body) =>
      var triggers := MarkTriggers(marks, m.env);
      if triggers.None? then None
      else
        Some(Module(m.env[name := FunctionObject(body)],
                    if marks == [] then m.handlers else m.handlers + [Handler(triggers.value, body)]))
    case _ => None
  }

  function LoadNodes(nodes: seq<Node>, m: Module): Option<Module> {
    if nodes == [] then Some(m)
    else
      var next := LoadNode(nodes[0], m);
      if next.None? then None else LoadNodes(nodes[1..], next.value)
  }

  const EMPTY_MODULE := Module(map["range" := SdkName("range")], [])

  lemma {:induction false} LoadAppend(a: seq<Node>, b: seq<Node>, m: Module)
    ensures LoadNodes(a + b, m) == (if LoadNodes(a, m).None? then None else LoadNodes(b, LoadNodes(a, m).value))
  {
    if a == [] {
      assert a + b == b;
    } else {
      assert (a + b)[1..] == a[1..] + b;
      var next := LoadNode(a[0], m);
      if next.Some? { LoadAppend(a[1..], b, next.value); }
    }
  }

  /** Running `main()` of a loaded module. */
  function RunMain(m: Module, oracle: Oracle): Option<Trace> {
    if "main" in m.env && m.env["main"].FunctionObject? then RunNodes(m.env["main"].body, m.env, oracle, [])
    else None
  }
}
