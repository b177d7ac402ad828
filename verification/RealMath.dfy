/** Real arithmetic the features rest on. The floating-point library is a parameter: of the
    logarithm only its functional equation and the tangent bound ln x <= x - 1 are used, of the
    square root only that it inverts squaring on non-negative numbers. */
module RealMath {

  datatype MathLib = MathLib(ln: real -> real, sqrt: real -> real)

  ghost predicate LogOfProduct(ln: real -> real, x: real, y: real) {
    ln(x * y) == ln(x) + ln(y)
  }

  ghost predicate IsLog(ln: real -> real) {
    && (forall x, y | x > 0.0 && y > 0.0 :: LogOfProduct(ln, x, y))
    && (forall x | x > 0.0 :: ln(x) <= x - 1.0)
  }

  ghost predicate IsSqrt(sqrt: real -> real) {
    forall x | x >= 0.0 :: sqrt(x) >= 0.0 && sqrt(x) * sqrt(x) == x
  }

  ghost predicate Sound(m: MathLib) {
    IsLog(m.ln) && IsSqrt(m.sqrt)
  }

  lemma LogOfInverse(ln: real -> real, x: real, y: real)
    requires IsLog(ln) && x > 0.0 && y > 0.0 && x * y == 1.0
    ensures ln(x) + ln(y) == 0.0
  {
    assert LogOfProduct(ln, 1.0, 1.0);
    assert LogOfProduct(ln, x, y);
    assert 1.0 * 1.0 == 1.0;
  }

  /** The tangent bound from below follows from the one from above. */
  lemma LogAtLeast(ln: real -> real, x: real)
    requires IsLog(ln) && x > 0.0
    ensures ln(x) >= 1.0 - 1.0 / x
  {
    var y := 1.0 / x;
    assert y > 0.0 && x * y == 1.0;
    LogOfInverse(ln, x, y);
  }

  lemma LogOfFraction(ln: real -> real, x: real)
    requires IsLog(ln) && 0.0 < x <= 1.0
    ensures ln(x) <= 0.0
  {
  }

  // ---------------------------------------------------------------- order helpers

  function Max(x: real, y: real): real {
    if x < y then y else x
  }

  function Sq(x: real): real {
    x * x
  }

  lemma SqNonNegative(x: real)
    ensures Sq(x) >= 0.0
  {
  }

  /** A quotient of non-negative by positive is non-negative; below one when the numerator is smaller. */
  lemma QuotientBounds(a: real, b: real)
    requires 0.0 <= a && 0.0 < b
    ensures a / b >= 0.0
    ensures a <= b ==> a / b <= 1.0
    ensures 0.0 < a ==> 0.0 < a / b
  {
  }

  lemma QuotientBelowOne(a: real, b: real)
    requires 0.0 < b
    ensures a / b < 1.0 <==> a < b
  {
    var q := a / b;
    assert q * b == a;
    if q < 1.0 {
      assert (1.0 - q) * b > 0.0;
    } else {
      assert (q - 1.0) * b >= 0.0;
    }
  }

  // ---------------------------------------------------------------- sums, means, deviations

  function Sum(xs: seq<real>): real {
    if xs == [] then 0.0 else xs[0] + Sum(xs[1..])
  }

  lemma {:induction false} SumConcat(a: seq<real>, b: seq<real>)
    ensures Sum(a + b) == Sum(a) + Sum(b)
  {
    if a == [] {
      assert a + b == b;
    } else {
      assert (a + b)[0] == a[0] && (a + b)[1..] == a[1..] + b;
      SumConcat(a[1..], b);
    }
  }

  lemma {:induction false} SumBounds(xs: seq<real>, lo: real, hi: real)
    requires forall i :: 0 <= i < |xs| ==> lo <= xs[i] <= hi
    ensures lo * |xs| as real <= Sum(xs) <= hi * |xs| as real
  {
    if xs != [] {
      SumBounds(xs[1..], lo, hi);
      var n := |xs[1..]| as real;
      assert |xs| as real == n + 1.0;
      assert lo * (n + 1.0) == lo * n + lo && hi * (n + 1.0) == hi * n + hi;
    }
  }

  function Mean(xs: seq<real>): real
    requires xs != []
  {
    Sum(xs) / |xs| as real
  }

  lemma MeanBounds(xs: seq<real>, lo: real, hi: real)
    requires xs != []
    requires forall i :: 0 <= i < |xs| ==> lo <= xs[i] <= hi
    ensures lo <= Mean(xs) <= hi
  {
    SumBounds(xs, lo, hi);
    var n := |xs| as real;
    assert Mean(xs) * n == Sum(xs);
  }

  lemma {:induction false} SumPositive(xs: seq<real>)
    requires xs != [] && forall i :: 0 <= i < |xs| ==> xs[i] > 0.0
    ensures Sum(xs) > 0.0
  {
    if |xs| > 1 {
      SumPositive(xs[1..]);
    }
  }

  lemma MeanPositive(xs: seq<real>)
    requires xs != [] && forall i :: 0 <= i < |xs| ==> xs[i] > 0.0
    ensures Mean(xs) > 0.0
  {
    SumPositive(xs);
    QuotientBounds(Sum(xs), |xs| as real);
  }

  function SquaredDeviations(xs: seq<real>, centre: real): real {
    if xs == [] then 0.0 else Sq(xs[0] - centre) + SquaredDeviations(xs[1..], centre)
  }

  lemma {:induction false} SquaredDeviationsNonNegative(xs: seq<real>, centre: real)
    ensures SquaredDeviations(xs, centre) >= 0.0
  {
    if xs != [] {
      SquaredDeviationsNonNegative(xs[1..], centre);
      SqNonNegative(xs[0] - centre);
    }
  }

  /** Population standard deviation. */
  function Deviation(m: MathLib, xs: seq<real>): real
    requires xs != []
  {
    m.sqrt(SquaredDeviations(xs, Mean(xs)) / |xs| as real)
  }

  lemma DeviationNonNegative(m: MathLib, xs: seq<real>)
    requires Sound(m) && xs != []
    ensures Deviation(m, xs) >= 0.0
  {
    SquaredDeviationsNonNegative(xs, Mean(xs));
    QuotientBounds(SquaredDeviations(xs, Mean(xs)), |xs| as real);
  }
}
