/**
 * JavaScript numbers as this program uses them: the result of `parseFloat` on a
 * piece of report text, and the relational operators `<` and `>` on it.
 * Values are exact decimals; IEEE-754 rounding is not modelled.
 */
module Numbers {
  import opened Text

  /** A JavaScript number: NaN, an infinity, or a finite value. */
  datatype Number = NaN | PosInf | NegInf | Finite(r: real)

  /** JavaScript `a < b` on numbers: false whenever either side is NaN. */
  predicate Less(a: Number, b: Number) {
    if a.NaN? || b.NaN? then false
    else if a.Finite? && b.Finite? then a.r < b.r
    else (a.NegInf? && !b.NegInf?) || (b.PosInf? && !a.PosInf?)
  }

  function Pow10(e: nat): (p: nat)
    ensures p >= 1
  {
    if e == 0 then 1 else 10 * Pow10(e - 1)
  }

  /** 10 raised to a possibly negative exponent. */
  function Scale(e: int): (s: real)
    ensures s > 0.0
  {
    if e >= 0 then Pow10(e) as real else 1.0 / Pow10(-e) as real
  }

  /** The exponent part `[eE][+-]?\d+` that starts at i, or 0 when there is none
      (an `e` without digits is not part of the number). */
  function ExponentAt(u: string, i: nat): int
    requires i <= |u|
  {
    if i < |u| && (u[i] == 'e' || u[i] == 'E') then
      var signed := i + 1 < |u| && (u[i + 1] == '+' || u[i + 1] == '-');
      var start := if signed then i + 2 else i + 1;
      var end := RunEnd(u, start, Digit);
      if end == start then 0
      else if signed && u[i + 1] == '-' then -(DecimalValue(u[start..end]) as int)
      else DecimalValue(u[start..end])
    else 0
  }

  /** `parseFloat(s)`: skip leading white space, take an optional sign, then read an
      unsigned number. */
  function ParseFloat(s: string): Number
  {
    var t := s[RunEnd(s, 0, Space)..];
    if |t| > 0 && t[0] == '-' then Negate(ParseUnsigned(t[1..]))
    else if |t| > 0 && t[0] == '+' then ParseUnsigned(t[1..])
    else ParseUnsigned(t)
  }

  function Negate(n: Number): Number {
    match n
    case NaN => NaN
    case PosInf => NegInf
    case NegInf => PosInf
    case Finite(r) => Finite(-r)
  }

  /** `Infinity`, or the longest prefix of the form `\d*(\.\d*)?` holding at least one digit,
      followed by an optional exponent; NaN when there is no such prefix. */
  function ParseUnsigned(u: string): Number
  {
    if |u| >= 8 && u[..8] == "Infinity" then PosInf
    else
      var intEnd := RunEnd(u, 0, Digit);
      var hasDot := intEnd < |u| && u[intEnd] == '.';
      var fracStart := if hasDot then intEnd + 1 else intEnd;
      var fracEnd := RunEnd(u, fracStart, Digit);
      if intEnd == 0 && fracEnd == fracStart then NaN
      else Finite(Mantissa(u, intEnd, fracStart, fracEnd) * Scale(ExponentAt(u, fracEnd)))
  }

  /** The value of the digits before the dot (up to intEnd) and after it (fracStart to fracEnd). */
  function Mantissa(u: string, intEnd: nat, fracStart: nat, fracEnd: nat): real
    requires intEnd <= fracStart <= fracEnd <= |u|
    requires AllDigits(u[..intEnd]) && AllDigits(u[fracStart..fracEnd])
  {
    Decimal(DecimalValue(u[..intEnd]), u[fracStart..fracEnd])
  }

  /** The value of `whole.f` for a string of fraction digits f. */
  function Decimal(whole: nat, f: string): real
    requires AllDigits(f)
  {
    whole as real + DecimalValue(f) as real / Pow10(|f|) as real
  }

  /** Text that starts with a digit is read from its first character, without sign or blanks. */
  lemma ParseFloatFromDigit(s: string)
    requires |s| > 0 && IsDigit(s[0])
    ensures ParseFloat(s) == ParseUnsigned(s)
  {
    assert RunEnd(s, 0, Space) == 0;
    assert s[0..] == s;
  }

  /** Text that starts with a digit does not spell `Infinity`. */
  lemma NotInfinity(u: string)
    requires |u| > 0 && IsDigit(u[0])
    ensures !(|u| >= 8 && u[..8] == "Infinity")
  {
  }

  /** A printed count followed by a dot and fraction digits parses to that decimal value,
      whatever non-numeric text follows. */
  lemma ParseFloatDecimal(a: nat, f: string, rest: string)
    requires AllDigits(f)
    requires rest == [] || !(IsDigit(rest[0]) || rest[0] == 'e' || rest[0] == 'E')
    ensures ParseFloat(NatToString(a) + "." + f + rest) == Finite(Decimal(a, f))
  {
    var d := NatToString(a);
    var s := d + "." + f + rest;
    DecimalTextRuns(s, d, f, rest);
    ParseFloatFromDigit(s);
    NotInfinity(s);
    ParseUnsignedWithDot(s, |d|, |d| + 1 + |f|);
    DecimalValueOfNatToString(a);
  }

  /** Where the digit runs of `d.f` followed by non-numeric text end, and that no exponent follows. */
  lemma DecimalTextRuns(s: string, d: string, f: string, rest: string)
    requires AllDigits(d) && AllDigits(f)
    requires rest == [] || !(IsDigit(rest[0]) || rest[0] == 'e' || rest[0] == 'E')
    requires s == d + "." + f + rest
    ensures |d| < |s| && s[|d|] == '.'
    ensures |d| > 0 ==> s[0] == d[0]
    ensures s[..|d|] == d && s[|d| + 1..|d| + 1 + |f|] == f
    ensures RunEnd(s, 0, Digit) == |d|
    ensures RunEnd(s, |d| + 1, Digit) == |d| + 1 + |f|
    ensures ExponentAt(s, |d| + 1 + |f|) == 0
  {
    var fracEnd := |d| + 1 + |f|;
    assert fracEnd < |s| ==> s[fracEnd] == rest[0];
    assert s[0..|d|] == d;
    DigitRunEnd(s, 0, d);
    assert s[|d| + 1..fracEnd] == f;
    DigitRunEnd(s, |d| + 1, f);
  }

  /** Unfolding ParseUnsigned for a number with a dot and no exponent. */
  lemma ParseUnsignedWithDot(u: string, intEnd: nat, fracEnd: nat)
    requires !(|u| >= 8 && u[..8] == "Infinity")
    requires intEnd == RunEnd(u, 0, Digit) && intEnd < |u| && u[intEnd] == '.'
    requires fracEnd == RunEnd(u, intEnd + 1, Digit)
    requires intEnd > 0 || fracEnd > intEnd + 1
    requires ExponentAt(u, fracEnd) == 0
    ensures ParseUnsigned(u) == Finite(Mantissa(u, intEnd, intEnd + 1, fracEnd))
  {
    assert Scale(0) == 1.0;
  }

  /** A printed count parses back to itself, whatever non-numeric text follows. */
  lemma ParseFloatInteger(a: nat, rest: string)
    requires rest == [] || !(IsDigit(rest[0]) || rest[0] == '.' || rest[0] == 'e' || rest[0] == 'E')
    ensures ParseFloat(NatToString(a) + rest) == Finite(a as real)
  {
    var d := NatToString(a);
    var s := d + rest;
    IntegerTextRuns(s, d, rest);
    ParseFloatFromDigit(s);
    NotInfinity(s);
    ParseUnsignedWithoutDot(s, |d|);
    DecimalValueOfNatToString(a);
  }

  /** Where the digit run of d followed by non-numeric text ends, and that neither a dot nor an
      exponent follows. */
  lemma IntegerTextRuns(s: string, d: string, rest: string)
    requires AllDigits(d) && |d| > 0
    requires rest == [] || !(IsDigit(rest[0]) || rest[0] == '.' || rest[0] == 'e' || rest[0] == 'E')
    requires s == d + rest
    ensures s[0] == d[0] && s[..|d|] == d
    ensures RunEnd(s, 0, Digit) == |d|
    ensures !(|d| < |s| && s[|d|] == '.')
    ensures RunEnd(s, |d|, Digit) == |d|
    ensures ExponentAt(s, |d|) == 0
  {
    assert |d| < |s| ==> s[|d|] == rest[0];
    assert s[0..|d|] == d;
    DigitRunEnd(s, 0, d);
    RunEndAt(s, |d|, Digit, |d|);
  }

  /** Unfolding ParseUnsigned for a number with neither a dot nor an exponent. */
  lemma ParseUnsignedWithoutDot(u: string, intEnd: nat)
    requires !(|u| >= 8 && u[..8] == "Infinity")
    requires intEnd == RunEnd(u, 0, Digit) && intEnd > 0
    requires !(intEnd < |u| && u[intEnd] == '.')
    requires RunEnd(u, intEnd, Digit) == intEnd
    requires ExponentAt(u, intEnd) == 0
    ensures ParseUnsigned(u) == Finite(DecimalValue(u[..intEnd]) as real)
  {
    assert Scale(0) == 1.0;
    assert u[intEnd..intEnd] == [];
    assert Mantissa(u, intEnd, intEnd, intEnd) == DecimalValue(u[..intEnd]) as real;
  }

  /** Text without any digit is not a finite number: NaN, or an infinity when it spells `Infinity`. */
  lemma ParseFloatWithoutDigits(s: string)
    requires forall i :: 0 <= i < |s| ==> !IsDigit(s[i])
    ensures !ParseFloat(s).Finite?
  {
    var t := s[RunEnd(s, 0, Space)..];
    assert forall i :: 0 <= i < |t| ==> !IsDigit(t[i]);
  }

  /** Text with no digit and no `I` (so no `Infinity`) parses to NaN. */
  lemma ParseFloatNaN(s: string)
    requires forall i :: 0 <= i < |s| ==> !IsDigit(s[i]) && s[i] != 'I'
    ensures ParseFloat(s) == NaN
  {
    var a := RunEnd(s, 0, Space);
    var t := s[a..];
    forall i | 0 <= i < |t|
      ensures !IsDigit(t[i]) && t[i] != 'I'
    {
      assert t[i] == s[a + i];
    }
    if |t| > 0 && (t[0] == '-' || t[0] == '+') {
      ParseUnsignedNaN(t[1..]);
    } else {
      ParseUnsignedNaN(t);
    }
  }

  lemma ParseUnsignedNaN(u: string)
    requires forall i :: 0 <= i < |u| ==> !IsDigit(u[i]) && u[i] != 'I'
    ensures ParseUnsigned(u) == NaN
  {
    if |u| >= 8 {
      assert u[..8][0] == u[0];
    }
    RunEndAt(u, 0, Digit, 0);
    var fracStart := if 0 < |u| && u[0] == '.' then 1 else 0;
    RunEndAt(u, fracStart, Digit, fracStart);
  }

  /** A digit string x sitting at i in s, followed by a non-digit or the end, is the digit run at i. */
  lemma DigitRunEnd(s: string, i: nat, x: string)
    requires AllDigits(x) && i + |x| <= |s| && s[i..i + |x|] == x
    requires i + |x| == |s| || !IsDigit(s[i + |x|])
    ensures RunEnd(s, i, Digit) == i + |x|
  {
    forall m | i <= m < i + |x|
      ensures InClass(s[m], Digit)
    {
      assert s[m] == s[i..i + |x|][m - i];
    }
    RunEndAt(s, i, Digit, i + |x|);
  }
}
