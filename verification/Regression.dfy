/** The hourly volume slope is an ordinary least-squares slope over the bucket index. */
module Regression {
  import opened RealMath

  function Prod(x: real, y: real): real {
    x * y
  }

  /** Sum of (i - centre)^2 for i < n. */
  function IndexSpread(n: nat, centre: real): real {
    if n == 0 then 0.0 else IndexSpread(n - 1, centre) + Sq((n - 1) as real - centre)
  }

  /** Sum of (i - xMean) * (y[i] - yMean). */
  function CrossSpread(y: seq<real>, xMean: real, yMean: real): real {
    if y == [] then 0.0
    else
      var k := |y| - 1;
      CrossSpread(y[..k], xMean, yMean) + Prod(k as real - xMean, y[k] - yMean)
  }

  function MeanIndex(n: nat): real {
    (n as real - 1.0) / 2.0
  }

  function Slope(y: seq<real>): real
    requires y != []
  {
    var spread := IndexSpread(|y|, MeanIndex(|y|));
    if spread == 0.0 then 0.0 else CrossSpread(y, MeanIndex(|y|), Mean(y)) / spread
  }

  /** Squared error of the line a + b * i. */
  function SquaredError(y: seq<real>, a: real, b: real): real {
    if y == [] then 0.0
    else
      var k := |y| - 1;
      SquaredError(y[..k], a, b) + Sq(y[k] - (a + b * k as real))
  }

  lemma IndexSpreadStep(n: real, centre: real, q: real)
    requires q == n * (n - 1.0) * (2.0 * n - 1.0) / 6.0 - centre * n * (n - 1.0) + n * Sq(centre)
    ensures q + Sq(n - centre)
         == (n + 1.0) * n * (2.0 * n + 1.0) / 6.0 - centre * (n + 1.0) * n + (n + 1.0) * Sq(centre)
  {
    assert n * (n - 1.0) * (2.0 * n - 1.0) == 2.0 * n * n * n - 3.0 * n * n + n;
    assert (n + 1.0) * n * (2.0 * n + 1.0) == 2.0 * n * n * n + 3.0 * n * n + n;
    assert Sq(n - centre) == n * n - 2.0 * n * centre + Sq(centre);
    assert centre * n * (n - 1.0) == centre * n * n - centre * n;
    assert centre * (n + 1.0) * n == centre * n * n + centre * n;
    assert 2.0 * n * centre == 2.0 * (centre * n);
  }

  lemma {:induction false} IndexSpreadClosed(n: nat, centre: real)
    ensures var x := n as real;
      IndexSpread(n, centre) == x * (x - 1.0) * (2.0 * x - 1.0) / 6.0 - centre * x * (x - 1.0) + x * Sq(centre)
  {
    if n > 0 {
      IndexSpreadClosed(n - 1, centre);
      IndexSpreadStep((n - 1) as real, centre, IndexSpread(n - 1, centre));
      assert (n - 1) as real + 1.0 == n as real;
    }
  }

  /** The denominator the code sums up is w(w^2 - 1)/12. */
  lemma DenominatorClosed(n: nat)
    ensures var x := n as real; IndexSpread(n, MeanIndex(n)) == x * (x * x - 1.0) / 12.0
    ensures IndexSpread(n, MeanIndex(n)) == 0.0 <==> n <= 1
  {
    var x, c := n as real, MeanIndex(n);
    IndexSpreadClosed(n, c);
    assert c == (x - 1.0) / 2.0;
    assert Sq(c) == (x * x - 2.0 * x + 1.0) / 4.0;
    assert x * (x - 1.0) * (2.0 * x - 1.0) == 2.0 * x * x * x - 3.0 * x * x + x;
    assert c * x * (x - 1.0) == (x * x * x - 2.0 * x * x + x) / 2.0;
    assert x * Sq(c) == (x * x * x - 2.0 * x * x + x) / 4.0;
    assert x * (x * x - 1.0) == x * x * x - x;
    if n >= 2 {
      assert x * x >= 4.0;
      assert x * (x * x - 1.0) > 0.0;
    }
  }

  /** Squared error of n points around centred coordinates: spread of the values, cross spread,
      spread of the indices, the two residual sums, and the line's miss `d` at the mean point. */
  function Form(n: real, values: real, cross: real, spread: real, residual: real, indexResidual: real,
                b: real, d: real): real
  {
    values - 2.0 * b * cross + b * b * spread + 2.0 * d * (residual - b * indexResidual) + n * Sq(d)
  }

  function Decomposed(y: seq<real>, xMean: real, yMean: real, b: real, d: real): real {
    Form(|y| as real, SquaredDeviationsBack(y, yMean), CrossSpread(y, xMean, yMean), IndexSpread(|y|, xMean),
         ResidualSum(y, yMean), IndexResidual(|y|, xMean), b, d)
  }

  function SquaredDeviationsBack(y: seq<real>, centre: real): real {
    if y == [] then 0.0 else SquaredDeviationsBack(y[..|y| - 1], centre) + Sq(y[|y| - 1] - centre)
  }

  function ResidualSum(y: seq<real>, centre: real): real {
    if y == [] then 0.0 else ResidualSum(y[..|y| - 1], centre) + (y[|y| - 1] - centre)
  }

  function IndexResidual(n: nat, centre: real): real {
    if n == 0 then 0.0 else IndexResidual(n - 1, centre) + ((n - 1) as real - centre)
  }

  /** What one point with centred coordinates (q, p) contributes. */
  function PointForm(p: real, q: real, b: real, d: real): real {
    Sq(p) - 2.0 * b * (q * p) + b * b * Sq(q) + 2.0 * d * (p - b * q) + Sq(d)
  }

  lemma PointDecomposed(v: real, x: real, xMean: real, yMean: real, a: real, b: real, d: real)
    requires d == yMean - a - b * xMean
    ensures Sq(v - (a + b * x)) == PointForm(v - yMean, x - xMean, b, d)
  {
    var p, q := v - yMean, x - xMean;
    assert b * x == b * q + b * xMean;
    assert v - (a + b * x) == (p - b * q) + d;
    SquareOfSum(p, q, b, d);
    hide *;
  }

  lemma SquareOfSum(p: real, q: real, b: real, d: real)
    ensures Sq((p - b * q) + d) == PointForm(p, q, b, d)
  {
    var r := p - b * q;
    assert Sq(r + d) == Sq(r) + 2.0 * d * r + Sq(d);
    assert Sq(p - b * q) == Sq(p) - 2.0 * b * (q * p) + b * b * Sq(q);
  }

  lemma FormStep(n: real, values: real, cross: real, spread: real, residual: real, indexResidual: real,
                 b: real, d: real, p: real, q: real)
    ensures Form(n + 1.0, values + Sq(p), cross + Prod(q, p), spread + Sq(q), residual + p, indexResidual + q, b, d)
         == Form(n, values, cross, spread, residual, indexResidual, b, d) + PointForm(p, q, b, d)
  {
    assert 2.0 * b * (cross + q * p) == 2.0 * b * cross + 2.0 * b * (q * p);
    assert b * b * (spread + Sq(q)) == b * b * spread + b * b * Sq(q);
    assert b * (indexResidual + q) == b * indexResidual + b * q;
    assert 2.0 * d * ((residual - b * indexResidual) + (p - b * q))
        == 2.0 * d * (residual - b * indexResidual) + 2.0 * d * (p - b * q);
    assert (n + 1.0) * Sq(d) == n * Sq(d) + Sq(d);
  }

  lemma CentredStep(t: seq<real>, v: real, xMean: real, yMean: real)
    ensures var p, q := v - yMean, |t| as real - xMean;
      && SquaredDeviationsBack(t + [v], yMean) == SquaredDeviationsBack(t, yMean) + Sq(p)
      && CrossSpread(t + [v], xMean, yMean) == CrossSpread(t, xMean, yMean) + Prod(q, p)
      && IndexSpread(|t| + 1, xMean) == IndexSpread(|t|, xMean) + Sq(q)
      && ResidualSum(t + [v], yMean) == ResidualSum(t, yMean) + p
      && IndexResidual(|t| + 1, xMean) == IndexResidual(|t|, xMean) + q
  {
    assert (t + [v])[..|t|] == t;
  }

  lemma DecomposedStep(t: seq<real>, v: real, xMean: real, yMean: real, b: real, d: real)
    ensures Decomposed(t + [v], xMean, yMean, b, d)
         == Decomposed(t, xMean, yMean, b, d) + PointForm(v - yMean, |t| as real - xMean, b, d)
  {
    hide Form, PointForm, Sq, Prod;
    assert |t + [v]| == |t| + 1 && |t + [v]| as real == |t| as real + 1.0;
    CentredStep(t, v, xMean, yMean);
    FormStep(|t| as real, SquaredDeviationsBack(t, yMean), CrossSpread(t, xMean, yMean), IndexSpread(|t|, xMean),
             ResidualSum(t, yMean), IndexResidual(|t|, xMean), b, d, v - yMean, |t| as real - xMean);
  }

  lemma SquaredErrorStep(t: seq<real>, v: real, a: real, b: real)
    ensures SquaredError(t + [v], a, b) == SquaredError(t, a, b) + Sq(v - (a + b * |t| as real))
  {
    assert (t + [v])[..|t|] == t;
  }

  lemma DecomposedEmpty(xMean: real, yMean: real, a: real, b: real, d: real)
    ensures SquaredError([], a, b) == Decomposed([], xMean, yMean, b, d)
  {
  }

  lemma {:induction false} ErrorDecomposed(y: seq<real>, xMean: real, yMean: real, a: real, b: real, d: real)
    requires d == yMean - a - b * xMean
    ensures SquaredError(y, a, b) == Decomposed(y, xMean, yMean, b, d)
    decreases |y|
  {
    hide *;
    if y == [] {
      DecomposedEmpty(xMean, yMean, a, b, d);
    } else {
      var t, v := y[..|y| - 1], y[|y| - 1];
      assert y == t + [v];
      ErrorDecomposed(t, xMean, yMean, a, b, d);
      SquaredErrorStep(t, v, a, b);
      PointDecomposed(v, |t| as real, xMean, yMean, a, b, d);
      DecomposedStep(t, v, xMean, yMean, b, d);
    }
  }

  lemma {:induction false} ResidualSumClosed(y: seq<real>, centre: real)
    ensures ResidualSum(y, centre) == Sum(y) - |y| as real * centre
  {
    if y != [] {
      var k := |y| - 1;
      ResidualSumClosed(y[..k], centre);
      assert y == y[..k] + [y[k]];
      SumConcat(y[..k], [y[k]]);
      assert Sum([y[k]]) == y[k];
      assert |y| as real == k as real + 1.0;
      assert (k as real + 1.0) * centre == k as real * centre + centre;
    }
  }

  lemma {:induction false} IndexResidualClosed(n: nat, centre: real)
    ensures IndexResidual(n, centre) == n as real * (n as real - 1.0) / 2.0 - n as real * centre
  {
    if n > 0 {
      IndexResidualClosed(n - 1, centre);
      var x := (n - 1) as real;
      assert n as real == x + 1.0;
      assert (x + 1.0) * x == x * (x - 1.0) + 2.0 * x;
      assert (x + 1.0) * centre == x * centre + centre;
    }
  }

  /** Residuals around the means vanish. */
  lemma MeansBalance(y: seq<real>)
    requires y != []
    ensures ResidualSum(y, Mean(y)) == 0.0 && IndexResidual(|y|, MeanIndex(|y|)) == 0.0
  {
    ResidualSumClosed(y, Mean(y));
    IndexResidualClosed(|y|, MeanIndex(|y|));
    assert |y| as real * Mean(y) == Sum(y);
  }

  lemma CompleteSquare(i: real, c: real, s: real, b: real)
    requires s * i == c
    ensures b * b * i - 2.0 * b * c == i * Sq(b - s) + s * s * i - 2.0 * s * c
  {
    assert i * Sq(b - s) == b * b * i - 2.0 * b * (s * i) + s * s * i;
    assert 2.0 * b * (s * i) == 2.0 * b * c;
    assert s * s * i == s * (s * i) == s * c;
  }

  lemma ProductNonNegative(x: real, y: real)
    requires x >= 0.0 && y >= 0.0
    ensures x * y >= 0.0
  {
  }

  function AtMeans(n: real, values: real, cross: real, spread: real, b: real, d: real): real {
    values - 2.0 * b * cross + b * b * spread + n * Sq(d)
  }

  lemma FormAtMeans(n: real, values: real, cross: real, spread: real, b: real, d: real)
    ensures Form(n, values, cross, spread, 0.0, 0.0, b, d) == AtMeans(n, values, cross, spread, b, d)
  {
  }

  lemma ErrorAtMeans(y: seq<real>, a: real, b: real, d: real)
    requires y != [] && d == Mean(y) - a - b * MeanIndex(|y|)
    ensures var xMean, yMean := MeanIndex(|y|), Mean(y);
      SquaredError(y, a, b) == AtMeans(|y| as real, SquaredDeviationsBack(y, yMean), CrossSpread(y, xMean, yMean),
                                       IndexSpread(|y|, xMean), b, d)
  {
    var xMean, yMean := MeanIndex(|y|), Mean(y);
    ErrorDecomposed(y, xMean, yMean, a, b, d);
    MeansBalance(y);
    FormAtMeans(|y| as real, SquaredDeviationsBack(y, yMean), CrossSpread(y, xMean, yMean), IndexSpread(|y|, xMean), b,
        d);
    hide Form, AtMeans, Mean, MeanIndex, SquaredError, SquaredDeviationsBack, CrossSpread, IndexSpread;
  }

  /** The line through the means with slope s. */
  function LineError(y: seq<real>, s: real): real
    requires y != []
  {
    SquaredError(y, Mean(y) - s * MeanIndex(|y|), s)
  }

  lemma LineErrorAtMeans(y: seq<real>, s: real)
    requires y != []
    ensures var xMean, yMean := MeanIndex(|y|), Mean(y);
      LineError(y, s) == AtMeans(|y| as real, SquaredDeviationsBack(y, yMean), CrossSpread(y, xMean, yMean),
                                 IndexSpread(|y|, xMean), s, 0.0)
  {
    ErrorAtMeans(y, Mean(y) - s * MeanIndex(|y|), s, 0.0);
    hide AtMeans, SquaredError, Mean, MeanIndex, CrossSpread, IndexSpread, SquaredDeviationsBack;
  }

  lemma SlopeMeaning(y: seq<real>)
    requires |y| >= 2
    ensures var spread := IndexSpread(|y|, MeanIndex(|y|));
      spread > 0.0 && Slope(y) == CrossSpread(y, MeanIndex(|y|), Mean(y)) / spread
  {
    IndexSpreadPositive(|y|);
  }

  lemma OneByOne(x: real)
    ensures x / 1.0 == x
  {
  }

  /** A single bucket leaves no spread; the flat line through it has no error at all. */
  lemma OneBucket(y: seq<real>)
    requires |y| == 1
    ensures LineError(y, Slope(y)) == 0.0
  {
    assert y[..0] == [];
    assert MeanIndex(1) == 0.0;
    assert Sum(y) == y[0] by { assert y[1..] == []; }
    OneByOne(y[0]);
    assert Mean(y) == y[0];
    var k := Mean(y) - Slope(y) * MeanIndex(1);
    assert k == y[0];
    assert SquaredError(y, k, Slope(y)) == SquaredError(y[..0], k, Slope(y)) + Sq(y[0] - (k + Slope(y) * 0.0));
  }

  lemma {:induction false} SquaredErrorNonNegative(y: seq<real>, a: real, b: real)
    ensures SquaredError(y, a, b) >= 0.0
  {
    if y != [] {
      var k := |y| - 1;
      SquaredErrorNonNegative(y[..k], a, b);
      SqNonNegative(y[k] - (a + b * k as real));
    }
  }

  /** No line fits the hourly counts better than the one with the returned slope through the means. */
  lemma SlopeOptimal(y: seq<real>, a: real, b: real)
    requires y != []
    ensures LineError(y, Slope(y)) <= SquaredError(y, a, b)
  {
    hide *;
    if |y| == 1 {
      OneBucket(y);
      SquaredErrorNonNegative(y, a, b);
    } else {
      var xMean, yMean, s := MeanIndex(|y|), Mean(y), Slope(y);
      var values, cross, spread :=
        SquaredDeviationsBack(y, yMean), CrossSpread(y, xMean, yMean), IndexSpread(|y|, xMean);
      SlopeMeaning(y);
      LineErrorAtMeans(y, s);
      var d := yMean - a - b * xMean;
      ErrorAtMeans(y, a, b, d);
      BestForm(|y| as real, values, cross, spread, s, b, d);
    }
  }

  /** The least-squares comparison on the centred sums alone. */
  lemma BestForm(n: real, values: real, cross: real, spread: real, s: real, b: real, d: real)
    requires n >= 0.0 && spread > 0.0 && s == cross / spread
    ensures AtMeans(n, values, cross, spread, s, 0.0) <= AtMeans(n, values, cross, spread, b, d)
  {
    assert s * spread == cross;
    CompleteSquare(spread, cross, s, b);
    SqNonNegative(b - s);
    SqNonNegative(d);
    ProductNonNegative(spread, Sq(b - s));
    ProductNonNegative(n, Sq(d));
    ZeroSquare(n);
  }

  lemma ZeroSquare(n: real)
    ensures n * Sq(0.0) == 0.0
  {
  }

  lemma IndexSpreadPositive(n: nat)
    requires n >= 2
    ensures IndexSpread(n, MeanIndex(n)) > 0.0
  {
    DenominatorClosed(n);
    var x := n as real;
    assert x * x >= 4.0;
    assert x * (x * x - 1.0) > 0.0;
  }
}
