/** Splitting, joining, stripping and decimal rendering of text, as JavaScript and Python do them. */
module Text {
  import opened Wrappers

  // ---------------------------------------------------------------- splitting and joining

  /** `text.split(c)` for a one-character separator: always at least one piece. */
  function Split(s: string, c: char): (parts: seq<string>)
    ensures |parts| > 0
    ensures forall i :: 0 <= i < |parts| ==> c !in parts[i]
  {
    if s == "" then [""]
    else
      var rest := Split(s[1..], c);
      if s[0] == c then [""] + rest else [[s[0]] + rest[0]] + rest[1..]
  }

  /** `parts.join(c)`. */
  function Join(parts: seq<string>, c: char): string {
    if parts == [] then ""
    else if |parts| == 1 then parts[0]
    else parts[0] + [c] + Join(parts[1..], c)
  }

  lemma {:induction false} SplitPrefix(head: string, tail: string, c: char)
    requires c !in head
    ensures Split(head + [c] + tail, c) == [head] + Split(tail, c)
  {
    var s := head + [c] + tail;
    if head == "" {
      assert s[1..] == tail;
    } else {
      assert s[1..] == head[1..] + [c] + tail;
      assert s[0] == head[0] && head[0] in head;
      SplitPrefix(head[1..], tail, c);
      assert [head[0]] + head[1..] == head;
    }
  }

  lemma {:induction false} SplitWhole(s: string, c: char)
    requires c !in s
    ensures Split(s, c) == [s]
  {
    if s != "" {
      assert s[0] in s;
      SplitWhole(s[1..], c);
      assert [s[0]] + s[1..] == s;
    }
  }

  /** Splitting undoes joining when no piece holds the separator. */
  lemma {:induction false} SplitJoinClean(parts: seq<string>, c: char)
    requires parts != []
    requires forall i :: 0 <= i < |parts| ==> c !in parts[i]
    ensures Split(Join(parts, c), c) == parts
  {
    if |parts| == 1 {
      SplitWhole(parts[0], c);
    } else {
      SplitPrefix(parts[0], Join(parts[1..], c), c);
      SplitJoinClean(parts[1..], c);
    }
  }

  lemma {:induction false} JoinSplit(s: string, c: char)
    ensures Join(Split(s, c), c) == s
  {
    if s != "" {
      JoinSplit(s[1..], c);
      var rest := Split(s[1..], c);
      if s[0] == c {
        assert ([""] + rest)[1..] == rest;
      } else if |rest| > 1 {
        assert ([[s[0]] + rest[0]] + rest[1..])[1..] == rest[1..];
      }
    }
  }

  /** Joining is concatenation of blocks of pieces. */
  lemma {:induction false} JoinAppend(a: seq<string>, b: seq<string>, c: char)
    requires a != [] && b != []
    ensures Join(a + b, c) == Join(a, c) + [c] + Join(b, c)
  {
    if |a| == 1 {
      assert (a + b)[1..] == b;
    } else {
      assert (a + b)[1..] == a[1..] + b;
      JoinAppend(a[1..], b, c);
    }
  }

  lemma {:induction false} JoinHolds(texts: seq<string>, c: char, mark: char)
    requires mark != c
    ensures mark in Join(texts, c) <==> exists i :: 0 <= i < |texts| && mark in texts[i]
  {
    if |texts| > 1 {
      JoinHolds(texts[1..], c, mark);
      if mark in texts[0] {
      } else if mark in Join(texts[1..], c) {
        var i :| 0 <= i < |texts[1..]| && mark in texts[1..][i];
        assert texts[i + 1] == texts[1..][i];
      } else {
        assert forall i :: 1 <= i < |texts| ==> texts[i] == texts[1..][i - 1];
      }
    }
  }

  // ---------------------------------------------------------------- decimal digits

  predicate IsDigit(c: char) { '0' <= c <= '9' }

  predicate AllDigits(s: string) { forall i :: 0 <= i < |s| ==> IsDigit(s[i]) }

  function DigitChar(d: nat): (c: char)
    requires d < 10
    ensures IsDigit(c)
  {
    ('0' as int + d) as char
  }

  /** The decimal text of a natural number, without leading zeros. */
  function NatText(n: nat): (s: string)
    ensures s != "" && AllDigits(s)
  {
    if n < 10 then [DigitChar(n)] else NatText(n / 10) + [DigitChar(n % 10)]
  }

  function IntText(n: int): (s: string)
    ensures s != ""
  {
    if n < 0 then "-" + NatText(-n) else NatText(n)
  }

  /** The value of a run of digits; leading zeros are allowed. */
  function ReadDigits(s: string): nat
    requires AllDigits(s)
  {
    if s == "" then 0
    else ReadDigits(s[..|s| - 1]) * 10 + (s[|s| - 1] as int - '0' as int)
  }

  lemma {:induction false} ReadNatText(n: nat)
    ensures ReadDigits(NatText(n)) == n
  {
    if n >= 10 {
      ReadNatText(n / 10);
      assert NatText(n)[..|NatText(n)| - 1] == NatText(n / 10);
    }
  }

  lemma {:induction false} ReadLeadingZero(s: string)
    requires AllDigits(s)
    ensures AllDigits("0" + s) && ReadDigits("0" + s) == ReadDigits(s)
  {
    var z := "0" + s;
    if s != "" {
      assert z[..|z| - 1] == "0" + s[..|s| - 1];
      ReadLeadingZero(s[..|s| - 1]);
    } else {
      assert z[..0] == "";
    }
  }

  /** The digits of a number below a power of ten fit that many characters. */
  lemma {:induction false} NatTextLength(n: nat)
    ensures n < 10 ==> |NatText(n)| == 1
    ensures n < 100 ==> |NatText(n)| <= 2
    ensures n < 1000 ==> |NatText(n)| <= 3
    ensures n < 10000 ==> |NatText(n)| <= 4
  {
    if n >= 10 { NatTextLength(n / 10); }
  }
}
