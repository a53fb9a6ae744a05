/** Field values as JavaScript sees them, and the two conversions the generator applies to them. */
module Values {
  import opened Wrappers
  import opened Text

  /** A finite number in decimal form: `mantissa / 10^scale`. A whole number has scale 0. */
  datatype Num = Num(mantissa: int, scale: nat)

  /** A stored field value. `number` is what `Number(...)` makes of a string or an object, None for NaN. */
  datatype Value =
    | Undefined
    | Null
    | Boolean(truth: bool)
    | Number(num: Num)
    | Str(text: string, number: Option<Num>)
    | Other(text: string, number: Option<Num>)

  const ZERO := Num(0, 0)

  /** `Number(value)`, or the fallback when that is not finite. */
  function NumberOf(v: Value, fallback: Num): Num {
    match v
    case Undefined => fallback
    case Null => ZERO
    case Boolean(b) => if b then Num(1, 0) else ZERO
    case Number(n) => n
    case Str(_, n) => if n.Some? then n.value else fallback
    case Other(_, n) => if n.Some? then n.value else fallback
  }

  /** `String(value)`, with nothing for a missing value. */
  function TextOf(v: Value): string {
    match v
    case Undefined => ""
    case Null => ""
    case Boolean(b) => if b then "true" else "false"
    case Number(n) => NumText(n)
    case Str(t, _) => t
    case Other(t, _) => t
  }

  /** `value ?? fallback`. */
  function OrElse(v: Value, fallback: Value): Value {
    if v.Undefined? || v.Null? then fallback else v
  }

  // ---------------------------------------------------------------- decimal text

  function PadLeft(s: string, width: nat): (r: string)
    requires AllDigits(s)
    ensures AllDigits(r) && |r| >= width && |r| >= |s|
    ensures ReadDigits(r) == ReadDigits(s)
    decreases width - |s|
  {
    if |s| >= width then s
    else
      ReadLeadingZero(s);
      PadLeft("0" + s, width)
  }

  function UnsignedText(magnitude: nat, scale: nat): string {
    if scale == 0 then NatText(magnitude)
    else
      var digits := PadLeft(NatText(magnitude), scale + 1);
      digits[..|digits| - scale] + "." + digits[|digits| - scale..]
  }

  /** `String(number)`. */
  function NumText(n: Num): string {
    if n.mantissa < 0 then "-" + UnsignedText(-n.mantissa, n.scale)
    else UnsignedText(n.mantissa, n.scale)
  }

  /** A decimal literal of Python: digits, or digits around one point. A whole literal has no leading zero. */
  function ReadUnsigned(t: string): Option<Num> {
    var parts := Split(t, '.');
    if |parts| == 1 && parts[0] != "" && AllDigits(parts[0]) && (|parts[0]| == 1 || parts[0][0] != '0') then
      Some(Num(ReadDigits(parts[0]), 0))
    else if |parts| == 2 && parts[0] != "" && parts[1] != "" && AllDigits(parts[0] + parts[1]) then
      Some(Num(ReadDigits(parts[0] + parts[1]), |parts[1]|))
    else None
  }

  function ReadNum(t: string): Option<Num> {
    if t != "" && t[0] == '-' then
      match ReadUnsigned(t[1..])
      case None => None
      case Some(n) => Some(Num(-n.mantissa, n.scale))
    else ReadUnsigned(t)
  }

  predicate IsNumChar(c: char) { IsDigit(c) || c == '.' || c == '-' }

  lemma {:induction false} NatTextFirst(n: nat)
    ensures n > 0 ==> NatText(n)[0] != '0'
  {
    if n >= 10 { NatTextFirst(n / 10); }
  }

  lemma ReadPoint(digits: string, scale: nat)
    requires AllDigits(digits) && 0 < scale < |digits|
    ensures var t := digits[..|digits| - scale] + "." + digits[|digits| - scale..];
            IsDigit(t[0]) && (forall i :: 0 <= i < |t| ==> IsNumChar(t[i])) &&
            ReadUnsigned(t) == Some(Num(ReadDigits(digits), scale))
  {
    var whole, part := digits[..|digits| - scale], digits[|digits| - scale..];
    assert '.' !in whole && '.' !in part;
    var t := whole + "." + part;
    assert Split(t, '.') == [whole, part] by {
      SplitPrefix(whole, part, '.');
      SplitWhole(part, '.');
    }
    assert whole + part == digits;
    forall i | 0 <= i < |t| ensures IsNumChar(t[i]) {
      assert t[i] == if i < |whole| then whole[i] else if i == |whole| then '.' else part[i - |whole| - 1];
    }
  }

  lemma ReadWhole(n: nat)
    ensures ReadUnsigned(NatText(n)) == Some(Num(n, 0))
  {
    hide ReadDigits;
    var t := NatText(n);
    ReadNatText(n);
    NatTextFirst(n);
    NatTextLength(n);
    assert '.' !in t;
    SplitWhole(t, '.');
  }

  lemma ReadUnsignedText(magnitude: nat, scale: nat)
    ensures var t := UnsignedText(magnitude, scale);
            t != "" && IsDigit(t[0]) && (forall i :: 0 <= i < |t| ==> IsNumChar(t[i])) &&
            ReadUnsigned(t) == Some(Num(magnitude, scale))
  {
    hide ReadUnsigned, ReadDigits;
    ReadNatText(magnitude);
    if scale == 0 {
      ReadWhole(magnitude);
    } else {
      ReadPoint(PadLeft(NatText(magnitude), scale + 1), scale);
    }
  }

  /** Reading a rendered number as a Python literal gives the number back. */
  lemma ReadNumText(n: Num)
    ensures NumText(n) != "" && (forall i :: 0 <= i < |NumText(n)| ==> IsNumChar(NumText(n)[i]))
    ensures ReadNum(NumText(n)) == Some(n)
  {
    ReadUnsignedText(if n.mantissa < 0 then -n.mantissa else n.mantissa, n.scale);
    if n.mantissa < 0 {
      assert NumText(n)[1..] == UnsignedText(-n.mantissa, n.scale);
    }
  }
}
