/**
 * The summary statistics both inspection reports show (Python's `min`,
 * `max` and `sum(values)/len(values)`), and the value a `.Nf`-formatted
 * number reads back as.
 */
module Statistics {

  function Sum(s: seq<real>): real
  {
    if s == [] then 0.0 else Sum(s[..|s| - 1]) + s[|s| - 1]
  }

  /** `min(values)`: an element of the list no larger than any other. */
  function Min(s: seq<real>): (m: real)
    requires |s| > 0
    ensures m in s
    ensures forall k :: 0 <= k < |s| ==> m <= s[k]
  {
    if |s| == 1 then s[0]
    else
      var rest := Min(s[..|s| - 1]);
      if s[|s| - 1] < rest then s[|s| - 1] else rest
  }

  /** `max(values)`: an element of the list no smaller than any other. */
  function Max(s: seq<real>): (m: real)
    requires |s| > 0
    ensures m in s
    ensures forall k :: 0 <= k < |s| ==> s[k] <= m
  {
    if |s| == 1 then s[0]
    else
      var rest := Max(s[..|s| - 1]);
      if s[|s| - 1] > rest then s[|s| - 1] else rest
  }

  /** `sum(values) / len(values)`. */
  function Mean(s: seq<real>): real
    requires |s| > 0
  {
    Sum(s) / |s| as real
  }

  /** A sum of values between `lo` and `hi` lies between `n*lo` and `n*hi`. */
  lemma {:induction false} SumBetween(s: seq<real>, lo: real, hi: real)
    requires forall k :: 0 <= k < |s| ==> lo <= s[k] <= hi
    ensures |s| as real * lo <= Sum(s) <= |s| as real * hi
  {
    if s != [] {
      SumBetween(s[..|s| - 1], lo, hi);
    }
  }

  /** Dividing by a positive count keeps the order of a scaled bound. */
  lemma QuotientBounds(lo: real, total: real, hi: real, n: real)
    requires n > 0.0 && n * lo <= total <= n * hi
    ensures lo <= total / n <= hi
  {
    var q := total / n;
    assert q * n == total;
    assert n * (q - lo) >= 0.0;
    assert n * (hi - q) >= 0.0;
  }

  /** The average of values between `lo` and `hi` is between them too. */
  lemma MeanBetween(s: seq<real>, lo: real, hi: real)
    requires |s| > 0
    requires forall k :: 0 <= k < |s| ==> lo <= s[k] <= hi
    ensures lo <= Mean(s) <= hi
  {
    SumBetween(s, lo, hi);
    QuotientBounds(lo, Sum(s), hi, |s| as real);
  }

  /** The average lies between the minimum and the maximum. */
  lemma MinMeanMax(s: seq<real>)
    requires |s| > 0
    ensures Min(s) <= Mean(s) <= Max(s)
  {
    MeanBetween(s, Min(s), Max(s));
  }

  function Pow10(p: nat): (r: nat)
    ensures r >= 1
  {
    if p == 0 then 1 else 10 * Pow10(p - 1)
  }

  /** The integer nearest to `y`, ties going to the even neighbour. */
  function RoundHalfEven(y: real): (n: int)
    ensures -0.5 <= n as real - y <= 0.5
    ensures n as real - y == 0.5 || n as real - y == -0.5 ==> n % 2 == 0
  {
    var below := y.Floor;
    var gap := y - below as real;
    if gap < 0.5 then below
    else if gap > 0.5 then below + 1
    else if below % 2 == 0 then below
    else below + 1
  }

  /**
   * The value `float(f"{x:.{places}f}")` reads back: `x` rounded to
   * `places` decimals, half to even.
   */
  function Rounded(x: real, places: nat): (r: real)
  {
    (RoundHalfEven(x * (Pow10(places) as real)) as real) / (Pow10(places) as real)
  }

  /** Rounding moves a value by at most half a unit in the last place. */
  lemma RoundedIsClose(x: real, places: nat)
    ensures -0.5 <= (Rounded(x, places) - x) * (Pow10(places) as real) <= 0.5
  {
    var n := RoundHalfEven(x * (Pow10(places) as real));
    assert Rounded(x, places) == (n as real) / (Pow10(places) as real);
    assert Rounded(x, places) * (Pow10(places) as real) == n as real;
  }
}
