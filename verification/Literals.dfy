/** String literals: the three escaping passes, what Python reads back, and identifiers made from aliases. */
module Literals {
  import opened Wrappers
  import opened Text
  import opened Values
  import opened Catalog
  import opened Python
  import opened Generate

  /**
   * A text that can stand between quotes with only the backslash, the quote and the line feed escaped. A carriage
   * return ends the line inside the quotes (section 2.4.1 of the Python Language Reference), and Python refuses source
   * text that holds a null character.
   */
  predicate Quotable(s: string) { '\r' !in s && '\0' !in s }

  function EscapeChar(c: char): string {
    match c
    case '\\' => "\\\\"
    case '"' => "\\\""
    case '\n' => "\\n"
    case _ => [c]
  }

  /** Escaping every character once, independently of the others. */
  function EscapeOnce(s: string): string {
    if s == "" then "" else EscapeChar(s[0]) + EscapeOnce(s[1..])
  }

  lemma {:induction false} ReplaceAppend(a: string, b: string, from: char, to: string)
    ensures ReplaceAll(a + b, from, to) == ReplaceAll(a, from, to) + ReplaceAll(b, from, to)
  {
    if a == "" {
      assert a + b == b;
    } else {
      assert (a + b)[1..] == a[1..] + b;
      ReplaceAppend(a[1..], b, from, to);
    }
  }

  function ThreePasses(s: string): string {
    ReplaceAll(ReplaceAll(ReplaceAll(s, '\\', "\\\\"), '"', "\\\""), '\n', "\\n")
  }

  lemma ThreePassesAppend(a: string, b: string)
    ensures ThreePasses(a + b) == ThreePasses(a) + ThreePasses(b)
  {
    ReplaceAppend(a, b, '\\', "\\\\");
    var a1, b1 := ReplaceAll(a, '\\', "\\\\"), ReplaceAll(b, '\\', "\\\\");
    ReplaceAppend(a1, b1, '"', "\\\"");
    ReplaceAppend(ReplaceAll(a1, '"', "\\\""), ReplaceAll(b1, '"', "\\\""), '\n', "\\n");
  }

  lemma ReplaceSingle(c: char, from: char, to: string)
    ensures ReplaceAll([c], from, to) == if c == from then to else [c]
  {
    assert [c][1..] == "";
  }

  lemma ReplaceDouble(c: char, d: char, from: char, to: string)
    requires c != from && d != from
    ensures ReplaceAll([c, d], from, to) == [c, d]
  {
    assert [c, d] == [c] + [d];
    ReplaceAppend([c], [d], from, to);
    ReplaceSingle(c, from, to);
    ReplaceSingle(d, from, to);
  }

  lemma ThreePassesChar(c: char)
    ensures ThreePasses([c]) == EscapeChar(c)
  {
    ReplaceSingle(c, '\\', "\\\\");
    ReplaceSingle(c, '"', "\\\"");
    ReplaceSingle(c, '\n', "\\n");
    ReplaceDouble('\\', '\\', '"', "\\\"");
    ReplaceDouble('\\', '\\', '\n', "\\n");
    ReplaceDouble('\\', '"', '\n', "\\n");
  }

  /** The three passes do not undo each other: together they escape each character once. */
  lemma {:induction false} ThreePassesEscapeOnce(s: string)
    ensures ThreePasses(s) == EscapeOnce(s)
  {
    if s != "" {
      assert s == [s[0]] + s[1..];
      ThreePassesAppend([s[0]], s[1..]);
      ThreePassesChar(s[0]);
      ThreePassesEscapeOnce(s[1..]);
    }
  }

  /** Reading an escaped text up to its closing quote gives the text back, exactly when it is quotable. */
  lemma {:induction false} DecodeEscaped(s: string)
    ensures DecodeTail(EscapeOnce(s) + "\"") == if Quotable(s) then Some(s) else None
  {
    if s == "" {
      assert EscapeOnce(s) + "\"" == "\"";
    } else {
      var c, rest := s[0], EscapeOnce(s[1..]) + "\"";
      assert s == [c] + s[1..];
      DecodeEscaped(s[1..]);
      assert EscapeOnce(s) + "\"" == EscapeChar(c) + rest;
      if c == '\\' || c == '"' || c == '\n' {
        assert (EscapeChar(c) + rest)[2..] == rest;
      } else if c != '\r' && c != '\0' {
        assert ([c] + rest)[1..] == rest;
      }
    }
  }

  /**
   * The literal is a Python string literal of the text, with the closing quote last, exactly when the text holds no
   * carriage return and no null character, which are not escaped.
   */
  lemma PythonStringDecodes(v: Value)
    ensures Decode(PythonString(v)) ==
            if Quotable(TextOf(v)) then Some(StrDatum(TextOf(v))) else None
  {
    ThreePassesEscapeOnce(TextOf(v));
    DecodeEscaped(TextOf(v));
    assert PythonString(v) == "\"" + ThreePasses(TextOf(v)) + "\"";
    assert PythonString(v)[1..] == ThreePasses(TextOf(v)) + "\"";
  }

  lemma PythonNumberDecodes(v: Value, fallback: Num)
    ensures ReadNum(PythonNumber(v, fallback)) == Some(NumberOf(v, fallback))
    ensures Decode(PythonNumber(v, fallback)) == Some(NumDatum(NumberOf(v, fallback)))
  {
    ReadNumText(NumberOf(v, fallback));
    assert IsNumChar(PythonNumber(v, fallback)[0]);
  }

  // ---------------------------------------------------------------- no line feed

  lemma {:induction false} EscapeNoLineFeed(s: string)
    ensures '\n' !in EscapeOnce(s)
  {
    if s != "" { EscapeNoLineFeed(s[1..]); }
  }

  lemma PythonStringNoLineFeed(v: Value)
    ensures '\n' !in PythonString(v)
  {
    ThreePassesEscapeOnce(TextOf(v));
    EscapeNoLineFeed(TextOf(v));
    assert PythonString(v) == "\"" + ThreePasses(TextOf(v)) + "\"";
  }

  // ---------------------------------------------------------------- alias identifiers

  lemma {:induction false} CleanCharsAreIdentChars(s: string)
    ensures forall i :: 0 <= i < |CleanChars(s)| ==> IsIdentChar(CleanChars(s)[i])
    ensures CleanChars(s) == "" <==> s == ""
  {
    if s != "" { CleanCharsAreIdentChars(s[1..]); }
  }

  /** Every alias becomes an identifier. */
  lemma AliasIdentifierIsIdentifier(alias: string)
    ensures IsIdentifier(AliasIdentifier(alias))
  {
    CleanCharsAreIdentChars(alias);
  }

  lemma {:induction false} CleanIdentity(s: string)
    requires forall i :: 0 <= i < |s| ==> IsIdentChar(s[i])
    ensures CleanChars(s) == s
  {
    if s != "" {
      CleanIdentity(s[1..]);
      assert s == [s[0]] + s[1..];
    }
  }

  /** An alias is kept as it is exactly when it already is an identifier. */
  lemma AliasIdentifierKeeps(alias: string)
    ensures AliasIdentifier(alias) == alias <==> IsIdentifier(alias)
  {
    AliasIdentifierIsIdentifier(alias);
    if IsIdentifier(alias) { CleanIdentity(alias); }
  }

  /** Two different aliases can become the same identifier. */
  lemma AliasIdentifierCollides()
    ensures "a b" != "a-b" && AliasIdentifier("a b") == AliasIdentifier("a-b")
  {
    assert "a b"[1] != "a-b"[1];
    assert "a b"[1..] == " b" && " b"[1..] == "b" && "b"[1..] == "";
    assert "a-b"[1..] == "-b" && "-b"[1..] == "b";
  }
}
