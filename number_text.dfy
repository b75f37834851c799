/**
 * How the program shows a number inside a message: Python's `str()` of an
 * `int` or of a `float`. The UTN scale reaches the stress calculator either
 * as an `int` (called directly) or as a `float` (called from the web view,
 * which converts every field with `float(...)`), and its text ends up in the
 * division label and in the invalid-scale message.
 */
module NumberText {

  /** A Python number: an `int`, or a `float` modelled by its real value. */
  datatype Number = Int(i: int) | Float(x: real)

  function Value(n: Number): real
  {
    match n
    case Int(i) => i as real
    case Float(x) => x
  }

  function DigitChar(d: int): (c: char)
    requires 0 <= d <= 9
    ensures '0' <= c <= '9' && (c as int) - ('0' as int) == d
  {
    "0123456789"[d]
  }

  predicate IsDigits(s: string)
  {
    forall k :: 0 <= k < |s| ==> '0' <= s[k] <= '9'
  }

  /** Decimal digits of a natural number, without leading zeros. */
  function NatText(n: nat): (s: string)
    ensures |s| >= 1 && IsDigits(s)
    ensures s[0] == '0' ==> n == 0
  {
    if n < 10 then [DigitChar(n)] else NatText(n / 10) + [DigitChar(n % 10)]
  }

  /** The number a string of decimal digits denotes (the reading direction). */
  function DigitsValue(s: string): nat
    requires IsDigits(s)
  {
    if s == [] then 0
    else 10 * DigitsValue(s[..|s| - 1]) + ((s[|s| - 1] as int) - ('0' as int))
  }

  /** Reading back the digits `NatText` writes gives the number again. */
  lemma {:induction false} NatTextRoundTrip(n: nat)
    ensures DigitsValue(NatText(n)) == n
  {
    if n >= 10 {
      var s := NatText(n);
      NatTextRoundTrip(n / 10);
      assert s[..|s| - 1] == NatText(n / 10);
    }
  }

  /** `str(i)` for a Python `int`. */
  function IntText(i: int): string
  {
    if i < 0 then "-" + NatText(-i) else NatText(i)
  }

  /**
   * Fraction digits of `f` (0 <= f < 1), stopping when nothing is left or
   * after `budget` digits.
   */
  function FractionText(f: real, budget: nat): (s: string)
    requires 0.0 <= f < 1.0
    ensures |s| <= budget && IsDigits(s)
    decreases budget
  {
    if budget == 0 || f == 0.0 then ""
    else
      var d := (f * 10.0).Floor;
      [DigitChar(d)] + FractionText(f * 10.0 - d as real, budget - 1)
  }

  /** `str(x)` for a non-negative Python `float`. */
  function UnsignedFloatText(x: real): string
    requires x >= 0.0
  {
    var whole := x.Floor;
    var fraction := x - whole as real;
    NatText(whole) + "." + (if fraction == 0.0 then "0" else FractionText(fraction, 17))
  }

  /** `str(x)` for a Python `float`: a whole value keeps a trailing ".0". */
  function FloatText(x: real): string
  {
    if x < 0.0 then "-" + UnsignedFloatText(-x) else UnsignedFloatText(x)
  }

  /** `str(n)` as an f-string shows it. */
  function Str(n: Number): string
  {
    match n
    case Int(i) => IntText(i)
    case Float(x) => FloatText(x)
  }

  /**
   * The same whole value prints differently as an `int` and as a `float`:
   * the float's text is the int's text followed by ".0".
   */
  lemma WholeFloatText(n: nat)
    ensures Str(Float(n as real)) == Str(Int(n)) + ".0"
    ensures Value(Float(n as real)) == Value(Int(n))
  {
    assert (n as real).Floor == n;
  }
}
