/** Python floats as the core uses them. Finite floats are modelled exactly as
    reals; `float(text)` and `round(x, 4)` are written out. */
module PyNum {
  import opened Wrappers
  import opened PyText

  /** A Python float: a finite value, one of the infinities, or NaN. */
  datatype Float = Finite(r: real) | PosInf | NegInf | NaN

  /** `x < f` for a finite `x`; every comparison with NaN is false. */
  predicate Below(x: real, f: Float) {
    match f
    case Finite(t) => x < t
    case PosInf => true
    case NegInf => false
    case NaN => false
  }

  function Pow10(e: nat): (r: nat)
    ensures r >= 1
  {
    if e == 0 then 1 else 10 * Pow10(e - 1)
  }

  // ---------------------------------------------------------------- float(text)

  /** Python's `digitpart`: digits, with single underscores allowed between two digits. */
  predicate IsDigitPart(s: string)
    decreases |s|
  {
    && |s| >= 1 && IsDigit(s[0])
    && (|s| == 1 || IsDigitPart(s[1..]) || (s[1] == '_' && IsDigitPart(s[2..])))
  }

  /** Number of digits in `s` (underscores do not count). */
  function DigitCount(s: string): nat
    decreases |s|
  {
    if s == [] then 0 else DigitCount(s[..|s| - 1]) + (if IsDigit(s[|s| - 1]) then 1 else 0)
  }

  /** The value of the digits of `s` read in base 10, underscores skipped. */
  function DigitsValue(s: string): nat
    decreases |s|
  {
    if s == [] then 0
    else if IsDigit(s[|s| - 1]) then 10 * DigitsValue(s[..|s| - 1]) + (s[|s| - 1] as int - '0' as int)
    else DigitsValue(s[..|s| - 1])
  }

  /** `10 ** e` as a real for any integer exponent. */
  function Scale(e: int): (r: real)
    ensures r > 0.0
  {
    if e >= 0 then Pow10(e) as real else 1.0 / (Pow10(-e) as real)
  }

  /** Position of the first exponent marker `e` or `E`, or -1. */
  function FindExponent(s: string): (r: int)
    ensures -1 <= r < |s|
  {
    var a := FindChar(s, 'e');
    var b := FindChar(s, 'E');
    if a < 0 then b else if b < 0 then a else if a < b then a else b
  }

  /** An optional sign followed by `rest`. */
  function SplitSign(s: string): (bool, string) {
    if s != [] && (s[0] == '+' || s[0] == '-') then (s[0] == '-', s[1..]) else (false, s)
  }

  /** The mantissa of a decimal literal: `digitpart [ "." [digitpart] ] | "." digitpart`. */
  function ParseMantissa(m: string): Option<real> {
    var dot := FindChar(m, '.');
    if dot < 0 then
      (if IsDigitPart(m) then Some(DigitsValue(m) as real) else None)
    else
      var ip, fp := m[..dot], m[dot + 1..];
      if (ip == [] || IsDigitPart(ip)) && (fp == [] || IsDigitPart(fp)) && !(ip == [] && fp == []) then
        Some(DigitsValue(ip) as real + DigitsValue(fp) as real / (Pow10(DigitCount(fp)) as real))
      else None
  }

  /** An unsigned decimal literal with an optional exponent. */
  function ParseDecimal(s: string): Option<real> {
    var e := FindExponent(s);
    if e < 0 then ParseMantissa(s)
    else
      match ParseMantissa(s[..e])
      case None => None
      case Some(v) =>
        var (neg, digits) := SplitSign(s[e + 1..]);
        if IsDigitPart(digits) then
          var x: int := DigitsValue(digits);
          Some(v * Scale(if neg then -x else x))
        else None
  }

  /** `float(s)` for an already stripped `s`: `None` where Python raises `ValueError`. */
  function ParseFloat(s: string): (r: Option<Float>)
    ensures s == [] ==> r == None
  {
    var (neg, body) := SplitSign(s);
    var low := Lower(body);
    if low == "inf" || low == "infinity" then Some(if neg then NegInf else PosInf)
    else if low == "nan" then Some(NaN)
    else match ParseDecimal(body)
      case None => None
      case Some(v) => Some(Finite(if neg then -v else v))
  }

  /** Extending a digit run by one digit at its end keeps it a digit run. */
  lemma {:induction false} DigitPartAppend(s: string, d: char)
    requires IsDigitPart(s) && IsDigit(d)
    ensures IsDigitPart(s + [d])
    decreases |s|
  {
    var t := s + [d];
    if |s| == 1 {
      assert t[1..] == [d];
    } else if IsDigitPart(s[1..]) {
      DigitPartAppend(s[1..], d);
      assert t[1..] == s[1..] + [d];
    } else {
      DigitPartAppend(s[2..], d);
      assert t[2..] == s[2..] + [d];
    }
  }

  /** The decimal digits of a natural number form a digit run whose value is that number. */
  lemma {:induction false} NatDigits(n: nat)
    ensures IsDigitPart(NatToString(n))
    ensures DigitsValue(NatToString(n)) == n
    decreases n
  {
    var s := NatToString(n);
    if n < 10 {
      assert s[..|s| - 1] == [];
    } else {
      NatDigits(n / 10);
      var d := DigitChar(n % 10);
      DigitPartAppend(NatToString(n / 10), d);
      assert s[..|s| - 1] == NatToString(n / 10);
    }
  }

  /** `float(str(n)) == n`: the parser reads back every natural number. */
  lemma ParseNat(n: nat)
    ensures ParseFloat(NatToString(n)) == Some(Finite(n as real))
  {
    var s := NatToString(n);
    NatDigits(n);
    assert SplitSign(s) == (false, s);
    var low := Lower(s);
    assert low[0] == s[0] && IsDigit(low[0]);
    assert low != "inf" && low != "infinity" && low != "nan";
    assert FindChar(s, 'e') == -1 && FindChar(s, 'E') == -1 && FindChar(s, '.') == -1 by {
      assert forall k :: 0 <= k < |s| ==> IsDigit(s[k]);
    }
  }

  // ---------------------------------------------------------------- round(x, 4)

  /** The integer nearest to `y`, halves to the even neighbour (Python's `round`). */
  function RoundHalfEven(y: real): (n: int)
    ensures y - 0.5 <= n as real <= y + 0.5
  {
    var f := y.Floor;
    var d := y - f as real;
    if d > 0.5 then f + 1 else if d < 0.5 then f else if f % 2 == 0 then f else f + 1
  }

  /** `round(x, 4)` on the exact value `x`. */
  function Round4(x: real): (r: real)
    ensures x - 0.00005 <= r <= x + 0.00005
  {
    RoundHalfEven(x * 10000.0) as real / 10000.0
  }

  lemma RoundHalfEvenMonotone(x: real, y: real)
    requires x <= y
    ensures RoundHalfEven(x) <= RoundHalfEven(y)
  {
    var fx, fy := x.Floor, y.Floor;
    if fx == fy {
      assert x - fx as real <= y - fy as real;
    } else {
      assert fx < fy;
    }
  }

  /** Rounding never reorders: `x <= y` implies `round(x, 4) <= round(y, 4)`. */
  lemma Round4Monotone(x: real, y: real)
    requires x <= y
    ensures Round4(x) <= Round4(y)
  {
    RoundHalfEvenMonotone(x * 10000.0, y * 10000.0);
  }

  /** A value that already has four decimals is unchanged by rounding. */
  lemma Round4Exact(k: int)
    ensures Round4(k as real / 10000.0) == k as real / 10000.0
  {
    var y := k as real / 10000.0 * 10000.0;
    assert y == k as real;
    assert y.Floor == k;
  }

  /** Rounding keeps values in `[0, 1]` inside `[0, 1]`. */
  lemma Round4UnitInterval(x: real)
    requires 0.0 <= x <= 1.0
    ensures 0.0 <= Round4(x) <= 1.0
  {
    Round4Monotone(0.0, x);
    Round4Monotone(x, 1.0);
    Round4Exact(0);
    Round4Exact(10000);
  }

  /** A positive value below `0.00005` rounds to `0.0`. */
  lemma Round4Tiny(x: real)
    requires 0.0 < x < 0.00005
    ensures Round4(x) == 0.0
  {
    var y := x * 10000.0;
    assert 0.0 < y < 0.5;
    assert y.Floor == 0;
  }
}
