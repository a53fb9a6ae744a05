/** Reading Python text back, character by character: line ends, words, literals, calls, lines and files. */
module PythonReader {
  import opened Wrappers
  import opened Text
  import opened Values
  import opened Python
  import opened PythonText

  // ---------------------------------------------------------------- words

  /** The length of the run of identifier characters at the start. */
  function WordLength(s: string): (n: nat)
    ensures n <= |s|
    ensures forall i :: 0 <= i < n ==> IsIdentChar(s[i])
    ensures n == |s| || !IsIdentChar(s[n])
  {
    if s != "" && IsIdentChar(s[0]) then 1 + WordLength(s[1..]) else 0
  }

  predicate IsName(s: string) { IsIdentifier(s) && !IsKeyword(s) }

  /** What may follow a word so that the word ends there. */
  predicate EndsWord(rest: string) { rest == "" || !IsIdentChar(rest[0]) }

  lemma {:induction false} WordAt(word: string, rest: string)
    requires (forall i :: 0 <= i < |word| ==> IsIdentChar(word[i])) && EndsWord(rest)
    ensures WordLength(word + rest) == |word|
    ensures (word + rest)[..|word|] == word && (word + rest)[|word|..] == rest
  {
    if word != "" {
      assert (word + rest)[1..] == word[1..] + rest;
      WordAt(word[1..], rest);
    } else {
      assert word + rest == rest;
    }
  }

  // ---------------------------------------------------------------- literals

  /** The length of a string literal after its opening quote, closing quote included. */
  function StringEnd(s: string): (r: Option<nat>)
    ensures r.Some? ==> r.value <= |s|
  {
    if s == "" then None
    else if s[0] == '"' then Some(1)
    else
      var step := if s[0] == '\\' then 2 else 1;
      if |s| < step then None
      else
        var rest := StringEnd(s[step..]);
        if rest.None? then None else Some(step + rest.value)
  }

  function NumLength(s: string): (n: nat)
    ensures n <= |s|
  {
    if s != "" && IsNumChar(s[0]) then 1 + NumLength(s[1..]) else 0
  }

  function LiteralLength(s: string): (r: Option<nat>)
    ensures r.Some? ==> r.value <= |s|
  {
    if s == "" then None
    else if s[0] == '"' then
      var end := StringEnd(s[1..]);
      if end.None? then None else Some(1 + end.value)
    else if NumLength(s) == 0 then None
    else Some(NumLength(s))
  }

  /** Scanning the whole text as one literal succeeds. */
  predicate IsLiteral(s: string) { s != "" && LiteralLength(s) == Some(|s|) }

  lemma {:induction false} StringEndExtends(s: string, rest: string)
    requires StringEnd(s).Some?
    ensures StringEnd(s + rest) == StringEnd(s)
  {
    if s[0] != '"' {
      var step := if s[0] == '\\' then 2 else 1;
      assert (s + rest)[step..] == s[step..] + rest;
      StringEndExtends(s[step..], rest);
    }
  }

  lemma {:induction false} NumLengthExtends(s: string, rest: string)
    requires NumLength(s) == |s| && (rest == "" || !IsNumChar(rest[0]))
    ensures NumLength(s + rest) == |s|
  {
    if s != "" {
      assert (s + rest)[1..] == s[1..] + rest;
      NumLengthExtends(s[1..], rest);
    } else {
      assert s + rest == rest;
    }
  }

  lemma LiteralAt(s: string, rest: string)
    requires IsLiteral(s) && (rest == "" || !IsNumChar(rest[0]))
    ensures LiteralLength(s + rest) == Some(|s|)
    ensures (s + rest)[..|s|] == s && (s + rest)[|s|..] == rest
  {
    if s[0] == '"' {
      assert (s + rest)[1..] == s[1..] + rest;
      StringEndExtends(s[1..], rest);
    } else {
      NumLengthExtends(s, rest);
    }
  }

  // ---------------------------------------------------------------- reading

  type Read<T> = Option<(T, string)>

  /** The rest after a fixed text. */
  function Skip(s: string, text: string): Option<string> {
    if text <= s then Some(s[|text|..]) else None
  }

  lemma SkipAt(text: string, rest: string)
    ensures Skip(text + rest, text) == Some(rest)
  {
  }

  function ReadName(s: string): (r: Read<string>)
    ensures r.Some? ==> |r.value.1| < |s|
  {
    var n := WordLength(s);
    if IsName(s[..n]) then Some((s[..n], s[n..])) else None
  }

  function ReadLiteral(s: string): (r: Read<string>)
    ensures r.Some? ==> |r.value.1| <= |s|
  {
    var n := LiteralLength(s);
    if n.None? then None else Some((s[..n.value], s[n.value..]))
  }

  /** A literal followed by a fixed text, and nothing after it. */
  function ReadLiteralThen(s: string, tail: string): Option<string> {
    var literal := ReadLiteral(s);
    if literal.Some? && literal.value.1 == tail then Some(literal.value.0) else None
  }

  /** `name=literal` */
  function ReadArg(s: string): (r: Read<Arg>)
    ensures r.Some? ==> |r.value.1| < |s|
  {
    var name := ReadName(s);
    if name.None? || !("=" <= name.value.1) then None
    else
      var literal := ReadLiteral(name.value.1[1..]);
      if literal.None? then None else Some((Arg(name.value.0, literal.value.0), literal.value.1))
  }

  /** Arguments up to the closing bracket. */
  function ReadArgs(s: string): Read<seq<Arg>>
    decreases |s|
  {
    var arg := ReadArg(s);
    if arg.None? then None
    else if ")" <= arg.value.1 then Some(([arg.value.0], arg.value.1[1..]))
    else if ", " <= arg.value.1 then
      var more := ReadArgs(arg.value.1[2..]);
      if more.None? then None else Some(([arg.value.0] + more.value.0, more.value.1))
    else None
  }

  predicate IsPathChar(c: char) { IsIdentChar(c) || c == '.' }

  function PathLength(s: string): (n: nat)
    ensures n <= |s|
  {
    if s != "" && IsPathChar(s[0]) then 1 + PathLength(s[1..]) else 0
  }

  /** What follows `sleep` or `log`. */
  function ReadSdkCall(word: string, rest: string): Read<Call> {
    var literal := if "(" <= rest then ReadLiteral(rest[1..]) else None;
    if literal.None? || !(")" <= literal.value.1) then None
    else Some((if word == "sleep" then Sleep(literal.value.0) else LogCall(literal.value.0), literal.value.1[1..]))
  }

  /** What follows the name of a device. */
  function ReadMethod(word: string, rest: string): Read<Call> {
    if !("." <= rest) then None
    else
      var k := PathLength(rest[1..]);
      var path, after := rest[1..][..k], rest[1..][k..];
      if "()" <= after then Some((OnDevice(word, path, []), after[2..]))
      else if "(" <= after then
        var args := ReadArgs(after[1..]);
        if args.None? then None else Some((OnDevice(word, path, args.value.0), args.value.1))
      else None
  }

  function ReadCall(s: string): Read<Call> {
    var n := WordLength(s);
    var word, rest := s[..n], s[n..];
    if word == "None" then Some((NoneCall, rest))
    else if word == "sleep" || word == "log" then ReadSdkCall(word, rest)
    else if IsName(word) then ReadMethod(word, rest)
    else None
  }

  function ReadCondition(s: string): Option<Condition> {
    if s == "True:" then Some(TrueLiteral)
    else if s == "None:" then Some(NoneLiteral)
    else
      var inner := Skip(s, "(await ");
      if inner.None? then None
      else
        var target := ReadName(inner.value);
        if target.None? then None
        else
          var call := Skip(target.value.1, ".sensor(");
          if call.None? then None
          else
            var sensor := ReadLiteralThen(call.value, ")).value:");
            if sensor.None? then None else Some(Reading(target.value.0, sensor.value))
  }

  function ReadMark(s: string): Option<Mark> {
    var every, when := Skip(s, "@every("), Skip(s, "@when(");
    if every.Some? then
      var seconds := ReadLiteralThen(every.value, ")");
      if seconds.None? then None else Some(EveryMark(seconds.value))
    else if when.Some? then
      var source := ReadName(when.value);
      if source.None? then None
      else
        var call := Skip(source.value.1, ".gesture(");
        if call.None? then None
        else
          var gesture := ReadLiteralThen(call.value, "))");
          if gesture.None? then None else Some(WhenMark(source.value.0, gesture.value))
    else None
  }

  /** Names separated by a comma and a space. */
  function ReadNames(s: string): Option<seq<string>>
    decreases |s|
  {
    var name := ReadName(s);
    if name.None? then None
    else if name.value.1 == "" then Some([name.value.0])
    else
      var rest := Skip(name.value.1, ", ");
      if rest.None? then None
      else
        var more := ReadNames(rest.value);
        if more.None? then None else Some([name.value.0] + more.value)
  }

  function ReadImport(s: string): Option<Stmt> {
    var list := Skip(s, " citxr import ");
    var names := if list.None? then None else ReadNames(list.value);
    if names.None? then None else Some(Import(names.value))
  }

  function ReadDef(s: string): Option<Stmt> {
    var def := Skip(s, " def ");
    var name := if def.None? then None else ReadName(def.value);
    if name.Some? && name.value.1 == "():" then Some(AsyncDef(name.value.0)) else None
  }

  function ReadFor(s: string): Option<Stmt> {
    var range := Skip(s, " _ in range(");
    var times := if range.None? then None else ReadLiteralThen(range.value, "):");
    if times.None? then None else Some(ForRange(times.value))
  }

  function ReadIf(s: string): Option<Stmt> {
    var header := Skip(s, " ");
    var cond := if header.None? then None else ReadCondition(header.value);
    if cond.None? then None else Some(IfHeader(cond.value))
  }

  function ReadAwait(s: string): Option<Stmt> {
    if s == " parallel(" then Some(ParallelOpen)
    else
      var awaited := Skip(s, " ");
      var call := if awaited.None? then None else ReadCall(awaited.value);
      if call.None? || call.value.1 != "" then None else Some(Await(call.value.0))
  }

  /** A line that starts with a word. */
  function ReadWordStmt(word: string, rest: string): Option<Stmt> {
    if word == "pass" then (if rest == "" then Some(Pass) else None)
    else if word == "from" then ReadImport(rest)
    else if word == "async" then ReadDef(rest)
    else if word == "for" then ReadFor(rest)
    else if word == "if" then ReadIf(rest)
    else if word == "await" then ReadAwait(rest)
    else if " = device(" <= rest then
      var literal := ReadLiteralThen(rest[10..], ")");
      if literal.None? || !IsName(word) then None else Some(Assign(word, literal.value))
    else
      var call := ReadCall(word + rest);
      if call.None? || call.value.1 != "," then None else Some(ParallelItem(call.value.0))
  }

  /** The statement a line's text is, after its indentation. */
  function ReadStmt(s: string): Option<Stmt> {
    if s == "" then None
    else if s[0] == '@' then
      var mark := ReadMark(s);
      if mark.None? then None else Some(MarkLine(mark.value))
    else if s == ")" then Some(ParallelClose)
    else ReadWordStmt(s[..WordLength(s)], s[WordLength(s)..])
  }

  // ---------------------------------------------------------------- lines

  predicate IsWhite(c: char) { c == ' ' || c == '\t' || c == '\U{C}' }

  function WhiteLength(s: string): (n: nat)
    ensures n <= |s|
    ensures n < |s| ==> !IsWhite(s[n])
  {
    if s != "" && IsWhite(s[0]) then 1 + WhiteLength(s[1..]) else 0
  }

  /** A line without a token: white space only, or a comment (sections 2.1.3 and 2.1.7). */
  predicate NoCode(s: string) { WhiteLength(s) == |s| || s[WhiteLength(s)] == '#' }

  /** Whether every string literal is closed where the text ends, when it starts inside quotes or outside. */
  predicate Closed(s: string, quoted: bool)
    decreases |s|
  {
    if s == "" then !quoted
    else if quoted && s[0] == '\\' then |s| >= 2 && Closed(s[2..], true)
    else if s[0] == '"' then Closed(s[1..], !quoted)
    else Closed(s[1..], quoted)
  }

  predicate SpacesOnly(s: string) { forall i :: 0 <= i < |s| ==> s[i] == ' ' }

  function ReadComment(s: string): Stmt
    requires s != ""
  {
    Comment(if "# " <= s then s[2..] else s[1..])
  }

  /**
   * One line: its indentation, four spaces a level, and its statement. A string literal that is still open where the
   * line ends is an error (section 2.4.1).
   */
  function ReadLine(s: string): Option<Line> {
    var n := WhiteLength(s);
    if n == |s| then Some(Line(0, Blank))
    else if s[n] == '#' then Some(Line(n / 4, ReadComment(s[n..])))
    else
      var stmt := ReadStmt(s[n..]);
      if n % 4 != 0 || !SpacesOnly(s[..n]) || !Closed(s, false) || stmt.None? then None
      else Some(Line(n / 4, stmt.value))
  }

  function ReadLines(texts: seq<string>): Option<seq<Line>> {
    if texts == [] then Some([])
    else
      var first, rest := ReadLine(texts[0]), ReadLines(texts[1..]);
      if first.None? || rest.None? then None else Some([first.value] + rest.value)
  }

  /** A text cut where Python ends a line: at CR LF, at a carriage return and at a line feed (section 2.1.2). */
  function PhysicalLines(s: string): (r: seq<string>)
    ensures r != []
    decreases |s|
  {
    if s == "" then [""]
    else if "\r\n" <= s then [""] + PhysicalLines(s[2..])
    else if s[0] == '\r' || s[0] == '\n' then [""] + PhysicalLines(s[1..])
    else
      var rest := PhysicalLines(s[1..]);
      [[s[0]] + rest[0]] + rest[1..]
  }

  /** The lines of a file; None where one of them is no line of the language, or a null character occurs. */
  function ReadFile(text: string): Option<seq<Line>> {
    var texts := PhysicalLines(text);
    if '\0' in text then None
    else ReadLines(if texts[|texts| - 1] == "" then texts[..|texts| - 1] else texts)
  }

  // ---------------------------------------------------------------- reading what was rendered

  predicate ReadableCall(call: Call) {
    match call
    case NoneCall => true
    case Sleep(seconds) => IsLiteral(seconds)
    case LogCall(message) => IsLiteral(message)
    case OnDevice(target, path, args) =>
      IsName(target) && target != "sleep" && target != "log" &&
      (forall i :: 0 <= i < |path| ==> IsPathChar(path[i])) &&
      (forall i :: 0 <= i < |args| ==> IsName(args[i].name) && IsLiteral(args[i].literal))
  }

  predicate Readable(stmt: Stmt) {
    match stmt
    case Blank => true
    case Comment(_) => true
    case Import(names) => names != [] && forall i :: 0 <= i < |names| ==> IsName(names[i])
    case Assign(name, literal) => IsName(name) && IsLiteral(literal)
    case MarkLine(mark) =>
      if mark.EveryMark? then IsLiteral(mark.seconds) else IsName(mark.source) && IsLiteral(mark.gesture)
    case AsyncDef(name) => IsName(name)
    case ForRange(times) => IsLiteral(times)
    case IfHeader(cond) => cond.Reading? ==> IsName(cond.target) && IsLiteral(cond.sensor)
    case ParallelItem(call) => ReadableCall(call)
    case Await(call) => ReadableCall(call)
    case _ => true
  }

  lemma NameAt(name: string, rest: string)
    requires IsName(name) && EndsWord(rest)
    ensures ReadName(name + rest) == Some((name, rest))
  {
    hide IsName;
    assert IsIdentifier(name) by { NameIsIdentifier(name); }
    WordAt(name, rest);
  }

  lemma NameIsIdentifier(name: string)
    requires IsName(name)
    ensures IsIdentifier(name)
  {
  }

  lemma ReadLiteralAt(s: string, rest: string)
    requires IsLiteral(s) && (rest == "" || !IsNumChar(rest[0]))
    ensures ReadLiteral(s + rest) == Some((s, rest))
  {
    LiteralAt(s, rest);
  }

  lemma ArgAt(a: Arg, tail: string)
    requires IsName(a.name) && IsLiteral(a.literal) && (tail == "" || !IsNumChar(tail[0]))
    ensures ReadArg(a.name + "=" + a.literal + tail) == Some((a, tail))
  {
    hide IsName, IsLiteral, ReadName, ReadLiteral;
    var after := "=" + (a.literal + tail);
    assert a.name + "=" + a.literal + tail == a.name + after;
    NameAt(a.name, after);
    assert after[1..] == a.literal + tail;
    ReadLiteralAt(a.literal, tail);
  }

  lemma {:induction false} ArgsAt(args: seq<Arg>, rest: string)
    requires args != [] && forall i :: 0 <= i < |args| ==> IsName(args[i].name) && IsLiteral(args[i].literal)
    ensures ReadArgs(RenderArgs(args) + (")" + rest)) == Some((args, rest))
  {
    hide IsName, IsLiteral, ReadArg;
    var a := args[0];
    var head := a.name + "=" + a.literal;
    if |args| == 1 {
      assert RenderArgs(args) == head + "";
      assert RenderArgs(args) + (")" + rest) == head + (")" + rest);
      ArgAt(a, ")" + rest);
      assert (")" + rest)[1..] == rest;
      assert args == [a];
    } else {
      var more := RenderArgs(args[1..]) + (")" + rest);
      assert RenderArgs(args) == head + (", " + RenderArgs(args[1..]));
      assert RenderArgs(args) + (")" + rest) == head + (", " + more);
      ArgAt(a, ", " + more);
      assert (", " + more)[2..] == more;
      ArgsAt(args[1..], rest);
      assert args == [a] + args[1..];
    }
  }

  lemma {:induction false} PathAt(path: string, rest: string)
    requires (forall i :: 0 <= i < |path| ==> IsPathChar(path[i])) && rest != "" && !IsPathChar(rest[0])
    ensures PathLength(path + rest) == |path|
    ensures (path + rest)[..|path|] == path && (path + rest)[|path|..] == rest
  {
    if path != "" {
      assert (path + rest)[1..] == path[1..] + rest;
      PathAt(path[1..], rest);
    } else {
      assert path + rest == rest;
    }
  }

  lemma SdkCallAt(word: string, literal: string, rest: string)
    requires IsLiteral(literal) && (word == "sleep" || word == "log")
    ensures ReadSdkCall(word, "(" + literal + ")" + rest) ==
            Some((if word == "sleep" then Sleep(literal) else LogCall(literal), rest))
  {
    hide IsLiteral, ReadLiteral;
    var after := "(" + literal + ")" + rest;
    assert after[1..] == literal + (")" + rest);
    ReadLiteralAt(literal, ")" + rest);
    assert (")" + rest)[1..] == rest;
  }

  lemma MethodAt(target: string, path: string, args: seq<Arg>, rest: string)
    requires ReadableCall(OnDevice(target, path, args))
    ensures ReadMethod(target, "." + path + "(" + RenderArgs(args) + ")" + rest) ==
            Some((OnDevice(target, path, args), rest))
  {
    hide IsName, IsLiteral, ReadArgs, RenderArgs, ReadMethod, IsPathChar;
    var inside := RenderArgs(args) + (")" + rest);
    assert "." + path + "(" + RenderArgs(args) + ")" + rest == "." + (path + ("(" + inside));
    if args == [] {
      NoArgs();
      assert "(" + inside == "()" + rest;
      MethodAlone(target, path, rest);
    } else {
      ArgsAt(args, rest);
      ArgsStart(args);
      MethodWithArgs(target, path, inside, args, rest);
    }
  }

  lemma MethodAlone(target: string, path: string, rest: string)
    requires forall i :: 0 <= i < |path| ==> IsPathChar(path[i])
    ensures ReadMethod(target, "." + (path + ("()" + rest))) == Some((OnDevice(target, path, []), rest))
  {
    hide ReadArgs;
    PathAt(path, "()" + rest);
    assert ("." + (path + ("()" + rest)))[1..] == path + ("()" + rest);
    assert ("()" + rest)[2..] == rest;
  }

  lemma MethodWithArgs(target: string, path: string, inside: string, args: seq<Arg>, rest: string)
    requires (forall i :: 0 <= i < |path| ==> IsPathChar(path[i])) && inside != "" && inside[0] != ')'
    requires ReadArgs(inside) == Some((args, rest))
    ensures ReadMethod(target, "." + (path + ("(" + inside))) == Some((OnDevice(target, path, args), rest))
  {
    hide ReadArgs;
    PathAt(path, "(" + inside);
    assert ("." + (path + ("(" + inside)))[1..] == path + ("(" + inside);
    assert ("(" + inside)[1..] == inside && ("(" + inside)[1] == inside[0];
  }

  lemma NoArgs()
    ensures RenderArgs([]) == ""
  {
  }

  lemma ArgsStart(args: seq<Arg>)
    requires args != [] && IsName(args[0].name)
    ensures RenderArgs(args) != "" && RenderArgs(args)[0] != ')'
  {
    NameIsIdentifier(args[0].name);
    assert RenderArgs(args)[0] == args[0].name[0];
  }

  lemma NotNone(name: string)
    requires IsName(name)
    ensures name != "None"
  {
  }

  lemma ReadCallWord(word: string, after: string)
    requires IsIdentifier(word) && EndsWord(after)
    ensures ReadCall(word + after) ==
            if word == "None" then Some((NoneCall, after))
            else if word == "sleep" || word == "log" then ReadSdkCall(word, after)
            else if IsName(word) then ReadMethod(word, after)
            else None
  {
    hide IsKeyword, ReadSdkCall, ReadMethod;
    WordAt(word, after);
  }

  lemma CallWords()
    ensures IsIdentifier("None") && IsIdentifier("sleep") && IsIdentifier("log")
    ensures "sleep" != "None" && "log" != "None" && "sleep" != "log"
  {
    assert "sleep"[0] != "None"[0] && "log"[0] != "None"[0] && "sleep"[0] != "log"[0];
  }

  lemma SdkCallText(word: string, literal: string, rest: string)
    ensures word + "(" + literal + ")" + rest == word + ("(" + literal + ")" + rest)
  {
  }

  lemma MethodText(target: string, path: string, args: string, rest: string)
    ensures target + "." + path + "(" + args + ")" + rest == target + ("." + path + "(" + args + ")" + rest)
  {
  }

  lemma CallAt(call: Call, rest: string)
    requires ReadableCall(call) && EndsWord(rest)
    ensures ReadCall(RenderCall(call) + rest) == Some((call, rest))
  {
    hide IsLiteral, IsName, IsIdentifier, ReadSdkCall, ReadMethod, RenderArgs, ReadCall;
    CallWords();
    match call
    case NoneCall => ReadCallWord("None", rest);
    case Sleep(seconds) =>
      SdkCallText("sleep", seconds, rest);
      ReadCallWord("sleep", "(" + seconds + ")" + rest);
      SdkCallAt("sleep", seconds, rest);
      assert "sleep" + "(" == "sleep(";
    case LogCall(message) =>
      SdkCallText("log", message, rest);
      ReadCallWord("log", "(" + message + ")" + rest);
      SdkCallAt("log", message, rest);
      assert "log" + "(" == "log(";
    case OnDevice(target, path, args) =>
      MethodText(target, path, RenderArgs(args), rest);
      NotNone(target);
      NameIsIdentifier(target);
      ReadCallWord(target, "." + path + "(" + RenderArgs(args) + ")" + rest);
      MethodAt(target, path, args, rest);
  }

  lemma LiteralThenAt(literal: string, tail: string)
    requires IsLiteral(literal) && (tail == "" || !IsNumChar(tail[0]))
    ensures ReadLiteralThen(literal + tail, tail) == Some(literal)
  {
    hide IsLiteral, ReadLiteral;
    ReadLiteralAt(literal, tail);
  }

  lemma ReadWordAt(word: string, rest: string)
    requires IsIdentifier(word) && EndsWord(rest)
    ensures ReadStmt(word + rest) == ReadWordStmt(word, rest)
  {
    hide ReadWordStmt, ReadMark;
    WordAt(word, rest);
    assert (word + rest)[0] == word[0];
  }

  /** The words that start a statement of their own. */
  lemma StatementWords()
    ensures IsIdentifier("pass") && IsIdentifier("from") && IsIdentifier("async")
    ensures IsIdentifier("for") && IsIdentifier("if") && IsIdentifier("await")
    ensures "pass" != "from" && "pass" != "async" && "pass" != "for" && "pass" != "if" && "pass" != "await"
    ensures "from" != "async" && "from" != "for" && "from" != "if" && "from" != "await"
    ensures "async" != "for" && "async" != "if" && "async" != "await" && "for" != "if" && "for" != "await" &&
            "if" != "await"
  {
    assert "pass"[0] != "from"[0] && "pass"[0] != "async"[0] && "from"[1] != "for"[1] && "async"[1] != "await"[1];
  }

  lemma StatementWordsAreKeywords(word: string)
    requires word == "None" || word == "sleep" || word == "log" || IsName(word)
    ensures word != "pass" && word != "from" && word != "async" && word != "for" && word != "if" && word != "await"
  {
    assert {"pass", "from", "async", "for", "if", "await"} <= KEYWORDS;
    if word == "None" {
      assert word[0] == 'N';
    } else if word == "sleep" {
      assert word[0] == 's';
    } else if word == "log" {
      assert word[0] == 'l';
    }
  }

  lemma {:induction false} NamesAt(names: seq<string>)
    requires names != [] && forall i :: 0 <= i < |names| ==> IsName(names[i])
    ensures ReadNames(JoinWith(names, ", ")) == Some(names)
  {
    hide IsName, ReadName, Skip;
    if |names| == 1 {
      NameAt(names[0], "");
      assert names[0] + "" == names[0];
      assert names == [names[0]];
    } else {
      var more := JoinWith(names[1..], ", ");
      var tail := ", " + more;
      assert JoinWith(names, ", ") == names[0] + tail by {
        assert JoinWith(names, ", ") == names[0] + ", " + more;
      }
      NameAt(names[0], tail);
      SkipAt(", ", more);
      assert tail[0] == ',';
      NamesAt(names[1..]);
      assert names == [names[0]] + names[1..];
    }
  }

  lemma ConditionAt(cond: Condition)
    requires Readable(IfHeader(cond))
    ensures ReadCondition(RenderCondition(cond) + ":") == Some(cond)
  {
    hide IsName, IsLiteral, ReadName, ReadLiteralThen;
    match cond
    case TrueLiteral => assert "True" + ":" == "True:";
    case NoneLiteral =>
      assert "None" + ":" == "None:";
      assert "None:"[0] != "True:"[0];
    case Reading(target, sensor) =>
      var tail := ")).value:";
      var call := ".sensor(" + (sensor + tail);
      var text := RenderCondition(cond) + ":";
      assert text == "(await " + (target + call);
      assert text[0] == '(' && "True:"[0] == 'T' && "None:"[0] == 'N';
      SkipAt("(await ", target + call);
      NameAt(target, call);
      SkipAt(".sensor(", sensor + tail);
      LiteralThenAt(sensor, tail);
  }

  lemma MarkAt(mark: Mark)
    requires Readable(MarkLine(mark))
    ensures ReadMark(RenderMark(mark)) == Some(mark)
  {
    hide IsName, IsLiteral, ReadName, ReadLiteralThen;
    match mark
    case EveryMark(seconds) =>
      assert RenderMark(mark) == "@every(" + (seconds + ")");
      SkipAt("@every(", seconds + ")");
      LiteralThenAt(seconds, ")");
    case WhenMark(source, gesture) =>
      var call := ".gesture(" + (gesture + "))");
      assert RenderMark(mark) == "@when(" + (source + call);
      assert RenderMark(mark)[1] == 'w' && "@every("[1] == 'e';
      SkipAt("@when(", source + call);
      NameAt(source, call);
      SkipAt(".gesture(", gesture + "))");
      LiteralThenAt(gesture, "))");
  }

  lemma AwaitAt(call: Call)
    requires ReadableCall(call)
    ensures ReadAwait(" " + RenderCall(call)) == Some(Await(call))
  {
    hide ReadableCall, RenderCall, ReadCall;
    var text := RenderCall(call);
    CallAt(call, "");
    assert text + "" == text;
    SkipAt(" ", text);
    NotParallel(call);
    assert " " + text != " parallel(" by {
      assert (" " + text)[1..] == text;
      assert " parallel("[1..] == "parallel(";
    }
  }

  lemma NotParallel(call: Call)
    requires ReadableCall(call)
    ensures RenderCall(call) != "parallel("
  {
    hide ReadableCall, RenderCall, ReadCall;
    CallAt(call, "");
    ParallelCallUnreadable();
    assert RenderCall(call) + "" == RenderCall(call);
  }

  lemma ParallelCallUnreadable()
    ensures ReadCall("parallel(") == None
  {
    hide IsName, ReadSdkCall;
    assert "parallel(" == "parallel" + "(";
    WordAt("parallel", "(");
    assert "parallel"[0] == 'p' && "None"[0] == 'N' && "sleep"[0] == 's' && "log"[0] == 'l';
  }

  predicate IsCode(stmt: Stmt) { !stmt.Blank? && !stmt.Comment? }

  /** Reading the text of a statement gives the statement back. */
  lemma ReadRendered(stmt: Stmt)
    requires Readable(stmt) && IsCode(stmt)
    ensures ReadStmt(RenderStmt(stmt)) == Some(stmt)
  {
    hide IsName, IsLiteral, IsIdentifier, ReadWordStmt, ReadCall, RenderCall, ReadStmt;
    StatementWords();
    match stmt
    case Pass => PlainStatements();
    case ParallelClose => PlainStatements();
    case MarkLine(mark) => MarkLineAt(mark);
    case Import(names) => ImportAt(names);
    case AsyncDef(name) => DefAt(name);
    case ForRange(times) => ForAt(times);
    case IfHeader(cond) => IfAt(cond);
    case ParallelOpen => OpenAt();
    case Await(call) =>
      AwaitAt(call);
      ReadWordAt("await", " " + RenderCall(call));
      AwaitWord(" " + RenderCall(call));
      assert "await " + RenderCall(call) == "await" + (" " + RenderCall(call));
    case Assign(name, literal) => AssignAt(name, literal);
    case ParallelItem(call) => ItemAt(call);
  }

  lemma PlainStatements()
    ensures ReadStmt("pass") == Some(Pass) && ReadStmt(")") == Some(ParallelClose)
  {
    hide ReadAwait, ReadIf, ReadFor, ReadDef, ReadImport, ReadMark;
    StatementWords();
    ReadWordAt("pass", "");
    assert "pass" + "" == "pass";
    assert ")"[0] != '@';
  }

  lemma MarkLineAt(mark: Mark)
    requires Readable(MarkLine(mark))
    ensures ReadStmt(RenderMark(mark)) == Some(MarkLine(mark))
  {
    hide IsName, IsLiteral, ReadMark;
    MarkAt(mark);
    assert RenderMark(mark)[0] == '@';
  }

  lemma ImportAt(names: seq<string>)
    requires Readable(Import(names))
    ensures ReadStmt(RenderStmt(Import(names))) == Some(Import(names))
  {
    hide IsName, ReadNames, ReadStmt, IsIdentifier, JoinWith;
    StatementWords();
    var list := JoinWith(names, ", ");
    NamesAt(names);
    SkipAt(" citxr import ", list);
    ReadWordAt("from", " citxr import " + list);
    assert "from citxr import " + list == "from" + (" citxr import " + list);
  }

  lemma DefAt(name: string)
    requires IsName(name)
    ensures ReadStmt(RenderStmt(AsyncDef(name))) == Some(AsyncDef(name))
  {
    hide IsName, ReadName, ReadStmt, IsIdentifier;
    StatementWords();
    NameAt(name, "():");
    SkipAt(" def ", name + "():");
    ReadWordAt("async", " def " + (name + "():"));
    assert RenderStmt(AsyncDef(name)) == "async" + (" def " + (name + "():"));
  }

  lemma ForAt(times: string)
    requires IsLiteral(times)
    ensures ReadStmt(RenderStmt(ForRange(times))) == Some(ForRange(times))
  {
    hide IsLiteral, ReadLiteralThen, ReadStmt, IsIdentifier;
    StatementWords();
    LiteralThenAt(times, "):");
    SkipAt(" _ in range(", times + "):");
    ReadWordAt("for", " _ in range(" + (times + "):"));
    assert RenderStmt(ForRange(times)) == "for" + (" _ in range(" + (times + "):"));
  }

  lemma IfAt(cond: Condition)
    requires Readable(IfHeader(cond))
    ensures ReadStmt(RenderStmt(IfHeader(cond))) == Some(IfHeader(cond))
  {
    hide IsLiteral, IsName, ReadCondition, RenderCondition, ReadStmt, IsIdentifier;
    StatementWords();
    ConditionAt(cond);
    var text := RenderCondition(cond) + ":";
    SkipAt(" ", text);
    ReadWordAt("if", " " + text);
    assert RenderStmt(IfHeader(cond)) == "if" + (" " + text);
  }

  lemma OpenAt()
    ensures ReadStmt("await parallel(") == Some(ParallelOpen)
  {
    hide ReadCall, ReadStmt;
    StatementWords();
    ReadWordAt("await", " parallel(");
    assert "await parallel(" == "await" + " parallel(";
  }

  lemma AwaitWord(rest: string)
    ensures ReadWordStmt("await", rest) == ReadAwait(rest)
  {
    hide ReadAwait;
    StatementWords();
  }

  lemma AssignRendered(name: string, literal: string)
    ensures RenderStmt(Assign(name, literal)) == name + (" = device(" + (literal + ")"))
  {
  }

  lemma AssignAt(name: string, literal: string)
    requires Readable(Assign(name, literal))
    ensures ReadStmt(RenderStmt(Assign(name, literal))) == Some(Assign(name, literal))
  {
    hide IsLiteral, IsName, ReadStmt, IsIdentifier, ReadWordStmt;
    var rest := " = device(" + (literal + ")");
    StatementWordsAreKeywords(name);
    NameIsIdentifier(name);
    assert EndsWord(rest) by { assert rest[0] == ' '; }
    ReadWordAt(name, rest);
    AssignWord(name, literal);
    AssignRendered(name, literal);
  }

  lemma AssignWord(name: string, literal: string)
    requires IsName(name) && IsLiteral(literal)
    requires name != "pass" && name != "from" && name != "async" && name != "for" && name != "if" && name != "await"
    ensures ReadWordStmt(name, " = device(" + (literal + ")")) == Some(Assign(name, literal))
  {
    hide IsLiteral, IsName, ReadLiteralThen, ReadImport, ReadDef, ReadFor, ReadIf, ReadAwait, ReadCall;
    var rest := " = device(" + (literal + ")");
    LiteralThenAt(literal, ")");
    assert rest[10..] == literal + ")";
  }

  /** The first word of a call and the rest. */
  lemma CallStart(call: Call) returns (word: string, rest: string)
    requires ReadableCall(call)
    ensures RenderCall(call) == word + rest && EndsWord(rest) && IsIdentifier(word)
    ensures word == "None" || word == "sleep" || word == "log" || IsName(word)
    ensures rest == "" || rest[0] != ' '
  {
    hide IsLiteral, IsName, RenderArgs, IsIdentifier;
    CallWords();
    match call
    case NoneCall => word, rest := "None", "";
    case Sleep(seconds) =>
      word, rest := "sleep", "(" + seconds + ")";
      assert "sleep(" == "sleep" + "(";
    case LogCall(message) =>
      word, rest := "log", "(" + message + ")";
      assert "log(" == "log" + "(";
    case OnDevice(target, path, args) =>
      rest := DeviceStart(target, path, args);
      word := target;
  }

  lemma DeviceStart(target: string, path: string, args: seq<Arg>) returns (rest: string)
    requires IsName(target)
    ensures RenderCall(OnDevice(target, path, args)) == target + rest && rest != "" && rest[0] == '.' &&
            IsIdentifier(target)
  {
    hide IsName, RenderArgs, IsIdentifier;
    NameIsIdentifier(target);
    rest := "." + path + "(" + RenderArgs(args) + ")";
  }

  lemma ItemAt(call: Call)
    requires ReadableCall(call)
    ensures ReadStmt(RenderStmt(ParallelItem(call))) == Some(ParallelItem(call))
  {
    hide IsLiteral, IsName, ReadableCall, RenderCall, ReadCall, ReadStmt, IsIdentifier;
    CallAt(call, ",");
    var word, rest := CallStart(call);
    var after := rest + ",";
    StatementWordsAreKeywords(word);
    assert RenderCall(call) + "," == word + after;
    assert after[0] == if rest == "" then ',' else rest[0];
    ReadWordAt(word, after);
    assert " = device("[0] == ' ';
  }

  // ---------------------------------------------------------------- lines and files

  lemma {:induction false} IndentSpaces(depth: nat)
    ensures |Indent(depth)| == 4 * depth && SpacesOnly(Indent(depth))
  {
    if depth > 0 { IndentSpaces(depth - 1); }
  }

  lemma Associate(a: string, b: string, c: string)
    ensures (a + b) + c == a + (b + c)
  {
  }

  lemma IndentStep(depth: nat)
    ensures depth == 0 ==> Indent(depth) == ""
    ensures depth > 0 ==> Indent(depth) == "    " + Indent(depth - 1)
  {
  }

  lemma {:induction false} IndentWhite(depth: nat, text: string)
    requires WhiteLength(text) == 0
    ensures WhiteLength(Indent(depth) + text) == 4 * depth
  {
    hide WhiteLength, Indent;
    IndentStep(depth);
    if depth == 0 {
      assert "" + text == text;
    } else {
      IndentWhite(depth - 1, text);
      FourSpaces(Indent(depth - 1) + text);
      Associate("    ", Indent(depth - 1), text);
    }
  }

  lemma IndentAt(depth: nat, text: string)
    requires text != "" && !IsWhite(text[0])
    ensures WhiteLength(Indent(depth) + text) == 4 * depth && |Indent(depth)| == 4 * depth
    ensures SpacesOnly(Indent(depth))
  {
    hide Indent, SpacesOnly;
    IndentSpaces(depth);
    IndentWhite(depth, text);
  }

  lemma FourSpaces(s: string)
    ensures WhiteLength("    " + s) == 4 + WhiteLength(s)
  {
    hide WhiteLength;
    OneSpace(s);
    OneSpace(" " + s);
    OneSpace(" " + (" " + s));
    OneSpace(" " + (" " + (" " + s)));
    assert "    " + s == " " + (" " + (" " + (" " + s)));
  }

  lemma OneSpace(s: string)
    ensures WhiteLength(" " + s) == 1 + WhiteLength(s)
  {
    assert (" " + s)[1..] == s;
  }

  /** Code starts with a character that is no white space, no line end and not the sign of a comment. */
  lemma CodeStart(stmt: Stmt)
    requires Readable(stmt) && IsCode(stmt)
    ensures RenderStmt(stmt) != "" && !IsWhite(RenderStmt(stmt)[0])
    ensures RenderStmt(stmt)[0] != '#' && RenderStmt(stmt)[0] != '\r'
  {
    hide IsLiteral, IsName, ReadableCall, RenderCall, RenderCondition, JoinWith, IsIdentifier;
    match stmt
    case Assign(name, literal) =>
      NameIsIdentifier(name);
      WordStart(name);
    case ParallelItem(call) =>
      var word, rest := CallStart(call);
      WordStart(word);
    case MarkLine(mark) => assert RenderMark(mark)[0] == '@';
    case _ =>
  }

  lemma WordStart(word: string)
    requires IsIdentifier(word)
    ensures word != "" && !IsWhite(word[0]) && word[0] != '#' && word[0] != '\r'
  {
  }

  predicate ReadableLine(line: Line) { Readable(line.stmt) && (line.stmt.Blank? ==> line.depth == 0) }

  lemma LineReads(line: Line)
    requires ReadableLine(line) && (IsCode(line.stmt) ==> Closed(RenderLine(line), false))
    ensures ReadLine(RenderLine(line)) == Some(line)
  {
    hide Readable, ReadStmt, RenderStmt, Closed;
    var text := RenderStmt(line.stmt);
    if line.stmt.Blank? {
      BlankText(Line(0, line.stmt));
    } else if line.stmt.Comment? {
      CommentReads(line.depth, line.stmt.text);
      BlankText(line);
    } else {
      ReadRendered(line.stmt);
      CodeStart(line.stmt);
      IndentAt(line.depth, text);
      assert RenderLine(line) == Indent(line.depth) + text;
      assert (Indent(line.depth) + text)[4 * line.depth..] == text;
      assert (Indent(line.depth) + text)[..4 * line.depth] == Indent(line.depth);
    }
  }

  lemma CommentReads(depth: nat, text: string)
    ensures RenderLine(Line(depth, Comment(text))) == Indent(depth) + ("# " + text)
    ensures ReadLine(Indent(depth) + ("# " + text)) == Some(Line(depth, Comment(text)))
  {
    hide ReadStmt, Closed, Indent, WhiteLength, SpacesOnly, ReadComment;
    var indent, code := Indent(depth), "# " + text;
    IndentAt(depth, code);
    AfterIndent(indent, code);
    CommentBack(text);
  }

  lemma AfterIndent(indent: string, code: string)
    requires code != ""
    ensures (indent + code)[|indent|] == code[0] && (indent + code)[|indent|..] == code
  {
  }

  lemma CommentBack(text: string)
    ensures ReadComment("# " + text) == Comment(text)
  {
    assert ("# " + text)[2..] == text;
  }
}
