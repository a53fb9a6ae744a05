/** The text of a line of Python, four spaces a level. */
module PythonText {
  import opened Text
  import opened Python

  function JoinWith(parts: seq<string>, separator: string): string {
    if parts == [] then ""
    else if |parts| == 1 then parts[0]
    else parts[0] + separator + JoinWith(parts[1..], separator)
  }

  function RenderArgs(args: seq<Arg>): string {
    if args == [] then ""
    else
      args[0].name + "=" + args[0].literal + (if |args| == 1 then "" else ", " + RenderArgs(args[1..]))
  }

  function RenderCall(call: Call): string {
    match call
    case Sleep(seconds) => "sleep(" + seconds + ")"
    case LogCall(message) => "log(" + message + ")"
    case OnDevice(target, path, args) => target + "." + path + "(" + RenderArgs(args) + ")"
    case NoneCall => "None"
  }

  function RenderCondition(cond: Condition): string {
    match cond
    case TrueLiteral => "True"
    case NoneLiteral => "None"
    case Reading(target, sensor) => "(await " + target + ".sensor(" + sensor + ")).value"
  }

  function RenderMark(mark: Mark): string {
    match mark
    case EveryMark(seconds) => "@every(" + seconds + ")"
    case WhenMark(source, gesture) => "@when(" + source + ".gesture(" + gesture + "))"
  }

  function RenderStmt(stmt: Stmt): string {
    match stmt
    case Blank => ""
    case Comment(text) => "# " + text
    case Import(names) => "from citxr import " + JoinWith(names, ", ")
    case Assign(name, literal) => name + " = device(" + literal + ")"
    case MarkLine(mark) => RenderMark(mark)
    case AsyncDef(name) => "async def " + name + "():"
    case ForRange(times) => "for _ in range(" + times + "):"
    case IfHeader(cond) => "if " + RenderCondition(cond) + ":"
    case ParallelOpen => "await parallel("
    case ParallelItem(call) => RenderCall(call) + ","
    case ParallelClose => ")"
    case Pass => "pass"
    case Await(call) => "await " + RenderCall(call)
  }

  function ArgLiterals(args: seq<Arg>): seq<string> {
    if args == [] then [] else [args[0].literal] + ArgLiterals(args[1..])
  }

  function CallLiterals(call: Call): seq<string> {
    match call
    case Sleep(seconds) => [seconds]
    case LogCall(message) => [message]
    case OnDevice(_, _, args) => ArgLiterals(args)
    case NoneCall => []
  }

  /** The literals a statement shows. */
  function LiteralsOf(stmt: Stmt): seq<string> {
    match stmt
    case Assign(_, literal) => [literal]
    case MarkLine(mark) => [if mark.EveryMark? then mark.seconds else mark.gesture]
    case ForRange(times) => [times]
    case IfHeader(cond) => if cond.Reading? then [cond.sensor] else []
    case ParallelItem(call) => CallLiterals(call)
    case Await(call) => CallLiterals(call)
    case _ => []
  }

  function Indent(depth: nat): string {
    if depth == 0 then "" else "    " + Indent(depth - 1)
  }

  function RenderLine(line: Line): string {
    var text := RenderStmt(line.stmt);
    if text == "" then "" else Indent(line.depth) + text
  }

  function RenderLines(lines: seq<Line>): (texts: seq<string>)
    ensures |texts| == |lines|
    ensures forall i :: 0 <= i < |lines| ==> texts[i] == RenderLine(lines[i])
  {
    if lines == [] then [] else [RenderLine(lines[0])] + RenderLines(lines[1..])
  }

  lemma RenderAppend(a: seq<Line>, b: seq<Line>)
    ensures RenderLines(a + b) == RenderLines(a) + RenderLines(b)
  {
    hide RenderLine;
  }

  /** Only a blank line has no text. */
  lemma BlankText(line: Line)
    ensures RenderLine(line) == "" <==> line.stmt.Blank?
  {
    match line.stmt {
      case MarkLine(mark) => assert RenderMark(mark)[0] == '@';
      case ParallelItem(call) => assert |RenderStmt(line.stmt)| > 0;
      case _ =>
    }
  }
}
