/**
 * Where Python ends lines: a text of lines that each end with a line feed is cut once more at its carriage returns. In
 * a comment that may add code, in a line of code it leaves a string literal open.
 */
module PythonLines {
  import opened Wrappers
  import opened Text
  import opened Python
  import opened PythonText
  import opened PythonReader

  // ---------------------------------------------------------------- guarded texts

  /**
   * No line feed, a carriage return inside quotes only, and every quote closed at the end; the text starts inside
   * quotes or outside.
   */
  predicate Guarded(s: string, quoted: bool)
    decreases |s|
  {
    if s == "" then !quoted
    else if s[0] == '\n' then false
    else if quoted && s[0] == '\\' then |s| >= 2 && s[1] != '\n' && s[1] != '\r' && Guarded(s[2..], true)
    else if s[0] == '"' then Guarded(s[1..], !quoted)
    else (s[0] == '\r' ==> quoted) && Guarded(s[1..], quoted)
  }

  predicate Unquoted(s: string) { forall i :: 0 <= i < |s| ==> s[i] != '\n' && s[i] != '\r' && s[i] != '"' }

  lemma {:induction false} UnquotedGuarded(s: string)
    requires Unquoted(s)
    ensures Guarded(s, false)
  {
    if s != "" { UnquotedGuarded(s[1..]); }
  }

  lemma {:induction false} GuardedAppend(a: string, b: string, quoted: bool)
    requires Guarded(a, quoted) && Guarded(b, false)
    ensures Guarded(a + b, quoted)
    decreases |a|
  {
    if a == "" {
      assert a + b == b;
    } else if quoted && a[0] == '\\' {
      assert (a + b)[2..] == a[2..] + b;
      GuardedAppend(a[2..], b, true);
    } else {
      assert (a + b)[1..] == a[1..] + b;
      GuardedAppend(a[1..], b, if a[0] == '"' then !quoted else quoted);
    }
  }

  lemma Wrapped(head: string, inside: string, tail: string)
    requires Unquoted(head) && Guarded(inside, false) && Unquoted(tail)
    ensures Guarded(head + inside + tail, false)
  {
    hide Guarded, Unquoted;
    UnquotedGuarded(head);
    UnquotedGuarded(tail);
    GuardedAppend(head, inside, false);
    GuardedAppend(head + inside, tail, false);
  }

  lemma {:induction false} GuardedNoFeed(s: string, quoted: bool)
    requires Guarded(s, quoted)
    ensures '\n' !in s && Closed(s, quoted)
    decreases |s|
  {
    if s == "" {
    } else if quoted && s[0] == '\\' {
      GuardedNoFeed(s[2..], true);
    } else {
      GuardedNoFeed(s[1..], if s[0] == '"' then !quoted else quoted);
    }
  }

  /** Cut at a carriage return, a guarded text leaves a string literal open. */
  lemma {:induction false} CutIsOpen(head: string, tail: string, quoted: bool)
    requires Guarded(head + "\r" + tail, quoted) && '\r' !in head
    ensures !Closed(head, quoted)
    decreases |head|
  {
    var s := head + "\r" + tail;
    if head == "" {
      assert s[0] == '\r';
    } else if quoted && head[0] == '\\' {
      assert s[1] == if |head| == 1 then '\r' else head[1];
      assert s[2..] == head[2..] + "\r" + tail;
      CutIsOpen(head[2..], tail, true);
    } else {
      assert s[1..] == head[1..] + "\r" + tail;
      CutIsOpen(head[1..], tail, if head[0] == '"' then !quoted else quoted);
    }
  }

  lemma {:induction false} IndentUnquoted(depth: nat)
    ensures Unquoted(Indent(depth)) && SpacesOnly(Indent(depth))
  {
    if depth > 0 { IndentUnquoted(depth - 1); }
  }

  // ---------------------------------------------------------------- what one line becomes at Python's line ends

  function DropReturn(s: string): string {
    if s != "" && s[|s| - 1] == '\r' then s[..|s| - 1] else s
  }

  /** What Python makes of one line that ends with a line feed. */
  function Pieces(text: string): (r: seq<string>)
    ensures r != []
  {
    Split(DropReturn(text), '\r')
  }

  function FilePieces(texts: seq<string>): seq<string> {
    if texts == [] then [] else Pieces(texts[0]) + FilePieces(texts[1..])
  }

  lemma PhysicalStep(s: string)
    requires s != "" && !("\r\n" <= s)
    ensures PhysicalLines(s) ==
            if s[0] == '\r' || s[0] == '\n' then [""] + PhysicalLines(s[1..])
            else [[s[0]] + PhysicalLines(s[1..])[0]] + PhysicalLines(s[1..])[1..]
  {
  }

  lemma PhysicalReturnFeed(tail: string)
    ensures PhysicalLines("\r\n" + tail) == [""] + PhysicalLines(tail)
  {
    assert ("\r\n" + tail)[2..] == tail;
  }

  lemma PiecesStep(head: string)
    requires head != "" && head != "\r"
    ensures Pieces(head) ==
            if head[0] == '\r' then [""] + Pieces(head[1..])
            else [[head[0]] + Pieces(head[1..])[0]] + Pieces(head[1..])[1..]
  {
    assert DropReturn(head)[1..] == DropReturn(head[1..]) && DropReturn(head)[0] == head[0];
  }

  lemma FirstExtended(c: char, more: seq<string>, rest: seq<string>)
    requires more != []
    ensures [""] + (more + rest) == [""] + more + rest
    ensures [[c] + (more + rest)[0]] + (more + rest)[1..] == [[c] + more[0]] + more[1..] + rest
  {
  }

  lemma {:induction false} PhysicalCut(head: string, tail: string)
    requires '\n' !in head
    ensures PhysicalLines(head + "\n" + tail) == Pieces(head) + PhysicalLines(tail)
  {
    hide PhysicalLines, Pieces;
    var s := head + "\n" + tail;
    PiecesOfNothing();
    if head == "" {
      assert s[1..] == tail;
      PhysicalStep(s);
    } else if head == "\r" {
      assert s == "\r\n" + tail;
      PhysicalReturnFeed(tail);
    } else {
      assert s[1..] == head[1..] + "\n" + tail;
      assert head[0] in head && s[0] == head[0];
      NoReturnFeed(head, tail);
      PhysicalStep(s);
      PiecesStep(head);
      PhysicalCut(head[1..], tail);
      FirstExtended(head[0], Pieces(head[1..]), PhysicalLines(tail));
    }
  }

  lemma PiecesOfNothing()
    ensures Pieces("") == [""] && Pieces("\r") == [""]
  {
  }

  lemma NoReturnFeed(head: string, tail: string)
    requires '\n' !in head && head != "" && head != "\r"
    ensures !("\r\n" <= head + "\n" + tail)
  {
    var s := head + "\n" + tail;
    assert s[0] == head[0];
    if |head| > 1 {
      assert s[1] == head[1] && head[1] in head;
    } else {
      assert head == [head[0]];
    }
  }

  lemma {:induction false} FilePhysical(texts: seq<string>)
    requires texts != [] && forall i :: 0 <= i < |texts| ==> '\n' !in texts[i]
    ensures PhysicalLines(Join(texts, '\n') + "\n") == FilePieces(texts) + [""]
  {
    hide Pieces, PhysicalLines;
    PhysicalEmpty();
    if |texts| == 1 {
      PhysicalCut(texts[0], "");
      assert texts[0] + "\n" + "" == texts[0] + "\n";
      assert texts[1..] == [];
      assert FilePieces(texts) == Pieces(texts[0]);
    } else {
      var rest := Join(texts[1..], '\n') + "\n";
      PhysicalCut(texts[0], rest);
      FilePhysical(texts[1..]);
      assert Join(texts, '\n') + "\n" == texts[0] + "\n" + rest;
    }
  }

  lemma PhysicalEmpty()
    ensures PhysicalLines("") == [""]
  {
  }

  lemma {:induction false} ReadLinesAppend(a: seq<string>, b: seq<string>)
    ensures ReadLines(a + b) ==
            if ReadLines(a).None? || ReadLines(b).None? then None else Some(ReadLines(a).value + ReadLines(b).value)
  {
    hide ReadLine;
    NothingReads();
    if a == [] {
      assert a + b == b;
      if ReadLines(b).Some? { assert [] + ReadLines(b).value == ReadLines(b).value; }
    } else {
      assert (a + b)[1..] == a[1..] + b;
      ReadLinesAppend(a[1..], b);
      var first, rest, more := ReadLine(a[0]), ReadLines(a[1..]), ReadLines(b);
      if first.Some? && rest.Some? && more.Some? {
        assert [first.value] + (rest.value + more.value) == [first.value] + rest.value + more.value;
      }
    }
  }

  /** After each carriage return of the text comes white space only, or a comment. */
  predicate QuietText(text: string) {
    var parts := Split(text, '\r');
    forall i :: 1 <= i < |parts| ==> NoCode(parts[i])
  }

  /**
   * A line that Python reads as one line: no carriage return in code, only blanks or comments after one in a comment.
   */
  predicate Steady(line: Line) {
    if line.stmt.Comment? then QuietText(line.stmt.text) else '\r' !in RenderLine(line)
  }

  lemma ReadOne(text: string)
    ensures ReadLines([text]) == if ReadLine(text).None? then None else Some([ReadLine(text).value])
  {
    hide ReadLine;
    NothingReads();
    assert [text][1..] == [];
    if ReadLine(text).Some? { assert [ReadLine(text).value] + [] == [ReadLine(text).value]; }
  }

  lemma WholeLine(line: Line)
    requires ReadableLine(line) && '\r' !in RenderLine(line)
    requires IsCode(line.stmt) ==> Guarded(RenderLine(line), false)
    ensures Pieces(RenderLine(line)) == [RenderLine(line)] && ReadLine(RenderLine(line)) == Some(line)
  {
    hide ReadLine, RenderLine, Readable, Guarded, Split;
    var text := RenderLine(line);
    assert text != "" ==> text[|text| - 1] in text;
    SplitWhole(text, '\r');
    if IsCode(line.stmt) { GuardedNoFeed(text, false); }
    LineReads(line);
  }

  /** A carriage return in a line of code cuts a string literal open, and Python reads no file with it. */
  lemma CutLine(line: Line)
    requires ReadableLine(line) && IsCode(line.stmt) && Guarded(RenderLine(line), false) && '\r' in RenderLine(line)
    ensures ReadLines(Pieces(RenderLine(line))) == None
  {
    hide Guarded, RenderLine, Readable, Split, Closed, ReadLines;
    var text := RenderLine(line);
    var k := FirstReturn(text);
    var head, tail := text[..k], text[k + 1..];
    assert text == head + "\r" + tail;
    CutIsOpen(head, tail, false);
    HeadStarts(line, k);
    assert ReadLine(head) == None;
    FirstPiece(head, tail);
    var pieces := Pieces(text);
    assert pieces == [head] + pieces[1..];
    ReadOne(head);
    ReadLinesAppend([head], pieces[1..]);
  }

  lemma {:induction false} FirstReturn(s: string) returns (k: nat)
    requires '\r' in s
    ensures k < |s| && s[k] == '\r' && '\r' !in s[..k]
  {
    if s[0] == '\r' {
      k := 0;
    } else {
      assert s == [s[0]] + s[1..];
      k := FirstReturn(s[1..]);
      k := k + 1;
      assert s[..k] == [s[0]] + s[1..][..k - 1];
    }
  }

  lemma FirstPiece(head: string, tail: string)
    requires '\r' !in head
    ensures Pieces(head + "\r" + tail) == [head] + if tail == "" then [] else Pieces(tail)
  {
    var text := head + "\r" + tail;
    if tail == "" {
      assert DropReturn(text) == head;
      SplitWhole(head, '\r');
    } else {
      assert DropReturn(text) == head + "\r" + DropReturn(tail);
      SplitPrefix(head, DropReturn(tail), '\r');
    }
  }

  /** What stands before the carriage return is code too. */
  lemma HeadStarts(line: Line, k: nat)
    requires ReadableLine(line) && IsCode(line.stmt) && Guarded(RenderLine(line), false)
    requires k < |RenderLine(line)| && RenderLine(line)[k] == '\r'
    ensures !NoCode(RenderLine(line)[..k])
  {
    hide Readable, RenderStmt, Guarded;
    var text, indent := RenderStmt(line.stmt), Indent(line.depth);
    CodeStart(line.stmt);
    IndentUnquoted(line.depth);
    assert RenderLine(line) == indent + text;
    assert forall i :: 0 <= i < |indent| ==> (indent + text)[i] == ' ';
    assert (indent + text)[|indent|] == text[0];
    IndentAt(line.depth, text[..k - |indent|]);
    assert RenderLine(line)[..k] == indent + text[..k - |indent|];
  }

  // ---------------------------------------------------------------- comments

  lemma ReadStmtIsCode(s: string)
    requires ReadStmt(s).Some?
    ensures IsCode(ReadStmt(s).value)
  {
    hide ReadMark, ReadCall, ReadName, ReadNames, ReadLiteralThen, ReadCondition, Skip, IsName;
  }

  lemma NoCodeReads(s: string)
    ensures NoCode(s) ==> ReadLine(s).Some?
    ensures ReadLine(s).Some? ==> (IsCode(ReadLine(s).value.stmt) <==> !NoCode(s))
  {
    hide ReadStmt, Closed;
    if !NoCode(s) && ReadLine(s).Some? { ReadStmtIsCode(s[WhiteLength(s)..]); }
  }

  predicate AllNoCode(pieces: seq<string>) { forall i :: 0 <= i < |pieces| ==> NoCode(pieces[i]) }

  lemma AllNoCodeLast(pieces: seq<string>)
    ensures AllNoCode(pieces + [""]) <==> AllNoCode(pieces)
  {
    hide NoCode;
    EmptyNoCode();
    assert forall i :: 0 <= i < |pieces| ==> (pieces + [""])[i] == pieces[i];
  }

  lemma {:induction false} PiecesQuiet(pieces: seq<string>)
    ensures AllNoCode(pieces) ==> ReadLines(pieces).Some?
    ensures ReadLines(pieces).Some? ==> (Significant(ReadLines(pieces).value) == [] <==> AllNoCode(pieces))
  {
    hide ReadLine, NoCode;
    if pieces != [] {
      var rest := pieces[1..];
      NoCodeReads(pieces[0]);
      PiecesQuiet(rest);
      assert AllNoCode(pieces) <==> NoCode(pieces[0]) && AllNoCode(rest) by {
        assert forall i :: 0 <= i < |rest| ==> rest[i] == pieces[i + 1];
        assert forall i :: 0 < i < |pieces| ==> pieces[i] == rest[i - 1];
      }
    }
  }

  lemma {:induction false} SplitLead(lead: string, text: string, c: char)
    requires c !in lead
    ensures Split(lead + text, c) == [lead + Split(text, c)[0]] + Split(text, c)[1..]
  {
    if lead == "" {
      assert lead + text == text && "" + Split(text, c)[0] == Split(text, c)[0];
    } else {
      assert (lead + text)[1..] == lead[1..] + text;
      assert (lead + text)[0] == lead[0] && lead[0] in lead;
      SplitLead(lead[1..], text, c);
      assert [lead[0]] + (lead[1..] + Split(text, c)[0]) == lead + Split(text, c)[0];
    }
  }

  lemma {:induction false} SplitLast(s: string, c: char)
    ensures Split(s + [c], c) == Split(s, c) + [""]
  {
    if s == "" {
      assert (s + [c])[1..] == "";
    } else {
      assert (s + [c])[1..] == s[1..] + [c];
      SplitLast(s[1..], c);
    }
  }

  /** Apart from an empty one at the end, the pieces of a line are its text cut at the carriage returns. */
  lemma PiecesSplit(text: string)
    ensures Split(text, '\r') == Pieces(text) || Split(text, '\r') == Pieces(text) + [""]
  {
    if DropReturn(text) != text {
      SplitLast(DropReturn(text), '\r');
      assert text == DropReturn(text) + ['\r'];
    }
  }

  /** A comment adds no code exactly when each piece after a carriage return is blank or a comment. */
  lemma CommentLine(depth: nat, text: string)
    ensures var r := ReadLines(Pieces(RenderLine(Line(depth, Comment(text)))));
            && (QuietText(text) ==> r.Some?)
            && (r.Some? ==> (Significant(r.value) == [] <==> QuietText(text)))
  {
    hide ReadLines, ReadLine, Significant, NoCode, Indent, Split;
    var lead, parts := Indent(depth) + "# ", Split(text, '\r');
    var line := lead + text;
    CommentReads(depth, text);
    assert RenderLine(Line(depth, Comment(text))) == line;
    IndentUnquoted(depth);
    SplitLead(lead, text, '\r');
    var whole := Split(line, '\r');
    assert NoCode(whole[0]) by {
      CommentReads(depth, parts[0]);
      assert Indent(depth) + ("# " + parts[0]) == whole[0];
      NoCodeReads(whole[0]);
    }
    PiecesSplit(line);
    PiecesQuiet(Pieces(line));
    EmptyNoCode();
    AllNoCodeLast(Pieces(line));
    assert AllNoCode(whole) <==> QuietText(text) by {
      assert forall i :: 1 <= i < |whole| ==> whole[i] == parts[i];
      assert |whole| == |parts|;
    }
  }

  lemma EmptyNoCode()
    ensures NoCode("")
  {
  }

  // ---------------------------------------------------------------- the lines of the file

  ghost predicate Fit(lines: seq<Line>) {
    forall i :: 0 <= i < |lines| ==>
      ReadableLine(lines[i]) && (IsCode(lines[i].stmt) ==> Guarded(RenderLine(lines[i]), false))
  }

  ghost predicate AllSteady(lines: seq<Line>) { forall i :: 0 <= i < |lines| ==> Steady(lines[i]) }

  /** What is read of one line: itself, or more code, or nothing at all. */
  lemma OneLine(line: Line)
    requires ReadableLine(line) && (IsCode(line.stmt) ==> Guarded(RenderLine(line), false))
    ensures var r, own := ReadLines(Pieces(RenderLine(line))), Significant([line]);
            if Steady(line) then r.Some? && Significant(r.value) == own
            else r.Some? ==> |Significant(r.value)| > |own|
  {
    hide ReadLine, RenderLine, Readable, Guarded, QuietText, Pieces;
    assert [line][1..] == [];
    if line.stmt.Comment? {
      CommentLine(line.depth, line.stmt.text);
    } else if '\r' !in RenderLine(line) {
      WholeLine(line);
      ReadOne(RenderLine(line));
    } else {
      BlankText(line);
      CutLine(line);
    }
  }

  lemma {:induction false} AllLines(lines: seq<Line>)
    requires Fit(lines)
    ensures var r := ReadLines(FilePieces(RenderLines(lines)));
            if AllSteady(lines) then r.Some? && Significant(r.value) == Significant(lines)
            else r.Some? ==> |Significant(r.value)| > |Significant(lines)|
  {
    hide ReadLines, ReadLine, RenderLine, ReadableLine, Guarded, Steady, Pieces, Significant;
    if lines == [] {
      NothingReads();
    } else {
      var line, rest := lines[0], lines[1..];
      var first, more := Pieces(RenderLine(line)), FilePieces(RenderLines(rest));
      assert lines == [line] + rest;
      OneLine(line);
      AllLines(rest);
      assert RenderLines(lines)[1..] == RenderLines(rest);
      ReadLinesAppend(first, more);
      SignificantAppend([line], rest);
      assert AllSteady(lines) <==> Steady(line) && AllSteady(rest);
      if ReadLines(first).Some? && ReadLines(more).Some? {
        SignificantAppend(ReadLines(first).value, ReadLines(more).value);
      }
    }
  }

  lemma NothingReads()
    ensures ReadLines([]) == Some([])
  {
  }

  lemma {:induction false} SteadyReads(lines: seq<Line>)
    requires Fit(lines) && forall i :: 0 <= i < |lines| ==> '\r' !in RenderLine(lines[i])
    ensures ReadLines(FilePieces(RenderLines(lines))) == Some(lines)
  {
    hide ReadLine, ReadLines, RenderLine, ReadableLine, Guarded, Pieces;
    if lines == [] {
      NothingReads();
    } else {
      var line, rest := lines[0], lines[1..];
      WholeLine(line);
      assert forall i :: 0 <= i < |rest| ==> rest[i] == lines[i + 1];
      SteadyReads(rest);
      assert RenderLines(lines)[1..] == RenderLines(rest);
      ReadOne(RenderLine(line));
      ReadLinesAppend([RenderLine(line)], FilePieces(RenderLines(rest)));
      assert lines == [line] + rest;
    }
  }

}
