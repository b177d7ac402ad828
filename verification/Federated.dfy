/** Clipped weighted averaging of merchant updates, and the sensitivity the noise is calibrated to.
    Signatures are a parameter; the Gaussian noise added afterwards is not part of the model. */
module Federated {
  import opened RealMath
  import opened Sequences
  import opened Wrappers

  datatype Update = Update(merchantId: string, roundId: string, sampleCount: nat, delta: seq<real>)
  datatype Config = Config(clipNorm: real, minClients: nat, maxSamples: nat)
  datatype Refusal = TooFewClients | DuplicateMerchant | MixedRounds | MixedDimensions | BadSignature
  datatype Aggregation = Aggregation(roundId: string, average: seq<real>, weights: seq<real>, sensitivity: real)

  /** The declared bounds of an update and of the configuration. */
  predicate ValidUpdate(u: Update) { u.sampleCount >= 1 && u.delta != [] }
  predicate ValidConfig(c: Config) { c.clipNorm > 0.0 && c.minClients >= 3 && c.maxSamples >= 1 }

  // ---------------------------------------------------------------- vectors

  type Vector = seq<real>

  function Add(a: Vector, b: Vector): (r: Vector)
    requires |a| == |b|
  {
    seq(|a|, i requires 0 <= i < |a| => a[i] + b[i])
  }

  function Sub(a: Vector, b: Vector): (r: Vector)
    requires |a| == |b|
    ensures |r| == |a|
  {
    seq(|a|, i requires 0 <= i < |a| => a[i] - b[i])
  }

  function Times(x: real, y: real): real {
    x * y
  }

  function Scale(k: real, a: Vector): (r: Vector) {
    seq(|a|, i requires 0 <= i < |a| => Times(k, a[i]))
  }

  function NormSq(v: Vector): real {
    if v == [] then 0.0 else Sq(v[0]) + NormSq(v[1..])
  }

  function Dot(a: Vector, b: Vector): real
    requires |a| == |b|
  {
    if a == [] then 0.0 else Times(a[0], b[0]) + Dot(a[1..], b[1..])
  }

  function Norm(m: MathLib, v: Vector): real {
    m.sqrt(NormSq(v))
  }

  // ---------------------------------------------------------------- the aggregation

  function Clip(m: MathLib, c: real, v: Vector): (r: Vector)
    requires c > 0.0
    ensures |r| == |v|
  {
    if Norm(m, v) > c then Scale(c / Norm(m, v), v) else v
  }

  function Capped(count: nat, cap: nat): real {
    (if count < cap then count else cap) as real
  }

  function Counts(updates: seq<Update>, cap: nat): (r: seq<real>)
    ensures |r| == |updates|
    ensures forall i :: 0 <= i < |updates| ==> r[i] == Capped(updates[i].sampleCount, cap)
  {
    seq(|updates|, i requires 0 <= i < |updates| => Capped(updates[i].sampleCount, cap))
  }

  /** Sum of the rows, each scaled by its weight. */
  function Combine(ws: seq<real>, rows: seq<Vector>, d: nat): (r: Vector)
    requires |ws| == |rows| && forall row <- rows :: |row| == d
    ensures |r| == d
  {
    if ws == [] then Repeat(0.0, d)
    else
      var n := |ws| - 1;
      Add(Combine(ws[..n], rows[..n], d), Scale(ws[n], rows[n]))
  }

  /** The weighted average as the array library computes it, dividing by the sum of the weights. */
  function Average(ws: seq<real>, rows: seq<Vector>, d: nat): (r: Vector)
    requires |ws| == |rows| && (forall row <- rows :: |row| == d) && Sum(ws) != 0.0
    ensures |r| == d
  {
    Scale(1.0 / Sum(ws), Combine(ws, rows, d))
  }

  function Largest(ws: seq<real>): real
    requires ws != []
  {
    var n := |ws| - 1;
    if n == 0 then ws[0] else Max(Largest(ws[..n]), ws[n])
  }

  function Weights(counts: seq<real>): seq<real>
    requires Sum(counts) != 0.0
  {
    Scale(1.0 / Sum(counts), counts)
  }

  predicate Distinct(updates: seq<Update>) {
    forall i, j :: 0 <= i < j < |updates| ==> updates[i].merchantId != updates[j].merchantId
  }

  function Refused(c: Config, updates: seq<Update>, verified: seq<bool>): Option<Refusal>
    requires |verified| == |updates| && c.minClients >= 1
  {
    if |updates| < c.minClients then Some(TooFewClients)
    else if !Distinct(updates) then Some(DuplicateMerchant)
    else if exists i :: 0 <= i < |updates| && updates[i].roundId != updates[0].roundId then Some(MixedRounds)
    else if exists i :: 0 <= i < |updates| && |updates[i].delta| != |updates[0].delta| then Some(MixedDimensions)
    else if false in verified then Some(BadSignature)
    else None
  }

  function Clipped(m: MathLib, c: real, updates: seq<Update>): (rows: seq<Vector>)
    requires c > 0.0
    ensures |rows| == |updates|
    ensures forall i :: 0 <= i < |updates| ==>
              rows[i] == Clip(m, c, updates[i].delta) && |rows[i]| == |updates[i].delta|
  {
    seq(|updates|, i requires 0 <= i < |updates| => Clip(m, c, updates[i].delta))
  }

  /** How far one client of weight `w` can move the average. */
  function Reach(c: real, w: real): real {
    2.0 * c * w
  }

  function Aggregate(m: MathLib, c: Config, updates: seq<Update>, verified: seq<bool>): Result<Aggregation, Refusal>
    requires ValidConfig(c) && |verified| == |updates| && forall u <- updates :: ValidUpdate(u)
  {
    var refusal := Refused(c, updates, verified);
    if refusal.Some? then Failure(refusal.value)
    else
      CountsPositive(updates, c.maxSamples);
      WeightsSound(Counts(updates, c.maxSamples));
      var ws := Weights(Counts(updates, c.maxSamples));
      var average := Average(ws, Clipped(m, c.clipNorm, updates), |updates[0].delta|);
      Success(Aggregation(updates[0].roundId, average, ws, Reach(c.clipNorm, Largest(ws))))
  }

  lemma CountsPositive(updates: seq<Update>, cap: nat)
    requires updates != [] && cap >= 1 && forall u <- updates :: ValidUpdate(u)
    ensures forall i :: 0 <= i < |updates| ==> Counts(updates, cap)[i] >= 1.0
    ensures Sum(Counts(updates, cap)) > 0.0
  {
    forall i | 0 <= i < |updates| ensures Counts(updates, cap)[i] >= 1.0 {
      assert updates[i] in updates;
    }
    SumPositive(Counts(updates, cap));
  }

  // ---------------------------------------------------------------- norms

  lemma {:induction false} NormSqNonNegative(v: Vector)
    ensures NormSq(v) >= 0.0
  {
    if v != [] {
      NormSqNonNegative(v[1..]);
      SqNonNegative(v[0]);
    }
  }

  lemma SqScale(k: real, x: real)
    ensures Sq(Times(k, x)) == Times(Sq(k), Sq(x))
  {
  }

  lemma Distribute(k: real, x: real, y: real)
    ensures Times(k, x + y) == Times(k, x) + Times(k, y)
    ensures Times(k, x - y) == Times(k, x) - Times(k, y)
    ensures Times(x + y, k) == Times(x, k) + Times(y, k)
  {
  }

  lemma ScaleTail(k: real, v: Vector)
    requires v != []
    ensures Scale(k, v)[1..] == Scale(k, v[1..]) && Scale(k, v)[0] == Times(k, v[0])
  {
    hide Times;
  }

  lemma {:induction false} NormSqScale(k: real, v: Vector)
    ensures NormSq(Scale(k, v)) == Times(Sq(k), NormSq(v))
  {
    hide Sq, Times;
    if v == [] {
      TimesZero(Sq(k));
    } else {
      ScaleTail(k, v);
      NormSqScale(k, v[1..]);
      SqScale(k, v[0]);
      Distribute(Sq(k), Sq(v[0]), NormSq(v[1..]));
    }
  }

  lemma TimesZero(k: real)
    ensures Times(k, 0.0) == 0.0 && Times(0.0, k) == 0.0
  {
  }

  lemma SqOfStep(u: real, w: real, v: real)
    ensures Sq(u + Times(w, v)) == Sq(u) + 2.0 * Times(w, Times(u, v)) + Times(Sq(w), Sq(v))
  {
  }

  lemma {:induction false} NormSqAdd(u: Vector, w: real, v: Vector)
    requires |u| == |v|
    ensures NormSq(Add(u, Scale(w, v))) == NormSq(u) + 2.0 * Times(w, Dot(u, v)) + Times(Sq(w), NormSq(v))
  {
    hide Sq, Times;
    if u == [] {
      TimesZero(w);
      TimesZero(Sq(w));
    } else {
      var sum := Add(u, Scale(w, v));
      ScaleTail(w, v);
      assert sum[1..] == Add(u[1..], Scale(w, v[1..]));
      NormSqAdd(u[1..], w, v[1..]);
      SqOfStep(u[0], w, v[0]);
      Distribute(w, Times(u[0], v[0]), Dot(u[1..], v[1..]));
      Distribute(Sq(w), Sq(v[0]), NormSq(v[1..]));
    }
  }

  lemma TwiceProduct(u: real, w: real, v: real)
    ensures 2.0 * Times(w, Times(u, v)) <= Sq(u) + Times(Sq(w), Sq(v))
  {
    SqNonNegative(u - w * v);
    assert Sq(u - w * v) == Sq(u) - 2.0 * w * (u * v) + Sq(w) * Sq(v);
  }

  lemma {:induction false} DotBound(u: Vector, w: real, v: Vector)
    requires |u| == |v|
    ensures 2.0 * Times(w, Dot(u, v)) <= NormSq(u) + Times(Sq(w), NormSq(v))
  {
    hide Sq, Times;
    if u == [] {
      TimesZero(w);
      TimesZero(Sq(w));
    } else {
      DotBound(u[1..], w, v[1..]);
      TwiceProduct(u[0], w, v[0]);
      Distribute(w, Times(u[0], v[0]), Dot(u[1..], v[1..]));
      Distribute(Sq(w), Sq(v[0]), NormSq(v[1..]));
    }
  }

  lemma DifferenceOfSquares(x: real, y: real)
    ensures Sq(x) - Sq(y) == Times(x - y, x + y)
  {
  }

  lemma SquareOrder(x: real, y: real)
    requires 0.0 <= y && Sq(x) <= Sq(y)
    ensures x <= y
  {
    hide Sq, Times;
    if x > y {
      DifferenceOfSquares(x, y);
      Positive(x - y, x + y);
    }
  }

  lemma Positive(a: real, b: real)
    requires a > 0.0 && b > 0.0
    ensures Times(a, b) > 0.0
  {
  }

  lemma NormFromSquare(m: MathLib, v: Vector, bound: real)
    requires IsSqrt(m.sqrt) && bound >= 0.0 && NormSq(v) <= Sq(bound)
    ensures Norm(m, v) <= bound
  {
    NormSqNonNegative(v);
    assert Sq(Norm(m, v)) == NormSq(v);
    SquareOrder(Norm(m, v), bound);
  }

  lemma SquareGrows(x: real, y: real)
    requires 0.0 <= x <= y
    ensures Sq(x) <= Sq(y)
  {
    assert Sq(y) - Sq(x) == (y - x) * (y + x);
  }

  lemma RescaledNorm(c: real, n: real)
    requires n > 0.0
    ensures Times(Sq(c / n), Sq(n)) == Sq(c)
  {
    SqScale(c / n, n);
    assert Times(c / n, n) == c;
  }

  /** A clipped update has norm at most the clip norm. */
  lemma ClipBounded(m: MathLib, c: real, v: Vector)
    requires IsSqrt(m.sqrt) && c > 0.0
    ensures NormSq(Clip(m, c, v)) <= Sq(c) && Norm(m, Clip(m, c, v)) <= c
  {
    NormSqNonNegative(v);
    var n := Norm(m, v);
    assert Sq(n) == NormSq(v) && n >= 0.0;
    if n > c {
      NormSqScale(c / n, v);
      RescaledNorm(c, n);
    } else {
      SquareGrows(n, c);
    }
    NormFromSquare(m, Clip(m, c, v), c);
  }

  // ---------------------------------------------------------------- the average stays within the clip norm

  function Abs(x: real): real {
    if x < 0.0 then -x else x
  }

  /** How much weight is moved around, whatever its sign. */
  function AbsSum(ws: seq<real>): real {
    if ws == [] then 0.0 else AbsSum(ws[..|ws| - 1]) + Abs(ws[|ws| - 1])
  }

  lemma {:induction false} AbsSumNonNegative(ws: seq<real>)
    ensures AbsSum(ws) >= 0.0
  {
    if ws != [] {
      AbsSumNonNegative(ws[..|ws| - 1]);
    }
  }

  lemma {:induction false} AbsSumPositive(ws: seq<real>)
    requires forall i :: 0 <= i < |ws| ==> ws[i] > 0.0
    ensures AbsSum(ws) == Sum(ws)
  {
    if ws != [] {
      AbsSumPositive(ws[..|ws| - 1]);
      SumSplit(ws);
    }
  }

  lemma {:induction false} DotOfZero(u: Vector, v: Vector)
    requires |u| == |v| && (NormSq(u) <= 0.0 || NormSq(v) <= 0.0)
    ensures Dot(u, v) == 0.0
  {
    if u != [] {
      NormSqNonNegative(u[1..]);
      NormSqNonNegative(v[1..]);
      SqNonNegative(u[0]);
      SqNonNegative(v[0]);
      ZeroSquareRoot(u[0]);
      ZeroSquareRoot(v[0]);
      DotOfZero(u[1..], v[1..]);
      TimesZero(u[0]);
      TimesZero(v[0]);
    }
  }

  lemma ZeroSquareRoot(x: real)
    ensures Sq(x) == 0.0 ==> x == 0.0
  {
    if x > 0.0 {
      Positive(x, x);
    } else if x < 0.0 {
      Positive(-x, -x);
      SquareOfNegative(x);
      assert Sq(-x) == Times(-x, -x);
    }
  }

  /** The Cauchy-Schwarz inequality, for bounds on the norms. */
  lemma DotWithin(u: Vector, v: Vector, p: real, q: real)
    requires |u| == |v| && p >= 0.0 && q >= 0.0 && NormSq(u) <= Sq(p) && NormSq(v) <= Sq(q)
    ensures Abs(Dot(u, v)) <= Times(p, q)
  {
    hide NormSq, Dot, Sq, Times;
    NormSqNonNegative(u);
    NormSqNonNegative(v);
    if p == 0.0 || q == 0.0 {
      SquareOfZero();
      DotOfZero(u, v);
      TimesZero(p);
      TimesZero(q);
    } else {
      var w := p / q;
      DotBound(u, w, v);
      DotBound(u, -w, v);
      SquareOfNegative(w);
      SqNonNegative(w);
      Monotone(Sq(w), NormSq(v), Sq(q));
      HalfOfSquares(p, q, w, Dot(u, v));
    }
  }

  lemma SquareOfZero()
    ensures Sq(0.0) == 0.0
  {
  }

  lemma HalfOfSquares(p: real, q: real, w: real, dot: real)
    requires p > 0.0 && q > 0.0 && w == p / q
    requires 2.0 * Times(w, dot) <= Sq(p) + Times(Sq(w), Sq(q))
    requires 2.0 * Times(-w, dot) <= Sq(p) + Times(Sq(w), Sq(q))
    ensures Abs(dot) <= Times(p, q)
  {
    hide Sq, Times;
    RescaledNorm(p, q);
    QuotientBounds(p, q);
    SquareAsProduct(p, q, w);
    NegativeTimes(w, dot);
    Cancel(w, dot, Times(p, q));
    Cancel(w, -dot, Times(p, q));
  }

  lemma SquareOfNegative(x: real)
    ensures Sq(-x) == Sq(x)
  {
  }

  lemma NegativeTimes(w: real, x: real)
    ensures Times(-w, x) == Times(w, -x)
  {
  }

  lemma SquareAsProduct(p: real, q: real, w: real)
    requires q > 0.0 && w == p / q
    ensures Times(w, Times(p, q)) == Sq(p)
  {
    assert w * q == p;
    assert w * (p * q) == (w * q) * p;
  }

  /** Adding a scaled vector moves the norm by at most the scaled norm. */
  lemma AddBounded(u: Vector, w: real, v: Vector, p: real, q: real)
    requires |u| == |v| && p >= 0.0 && q >= 0.0 && NormSq(u) <= Sq(p) && NormSq(v) <= Sq(q)
    ensures NormSq(Add(u, Scale(w, v))) <= Sq(p + Times(Abs(w), q))
  {
    hide NormSq, Dot, Sq, Times, Add, Scale, Abs;
    NormSqAdd(u, w, v);
    DotWithin(u, v, p, q);
    SqNonNegative(w);
    Monotone(Sq(w), NormSq(v), Sq(q));
    CrossTerm(w, Dot(u, v), Times(p, q));
    SquareOfStep(p, w, q);
  }

  lemma CrossTerm(w: real, dot: real, bound: real)
    requires Abs(dot) <= bound
    ensures Times(w, dot) <= Times(Abs(w), bound)
  {
    hide Times;
    if w < 0.0 {
      NegativeTimes(-w, dot);
      Monotone(-w, -dot, bound);
    } else {
      Monotone(w, dot, bound);
    }
  }

  lemma SquareOfStep(p: real, w: real, q: real)
    ensures Sq(p + Times(Abs(w), q)) == Sq(p) + 2.0 * Times(Abs(w), Times(p, q)) + Times(Sq(w), Sq(q))
  {
    assert Sq(Abs(w)) == Sq(w);
  }

  lemma Monotone(k: real, x: real, y: real)
    requires k >= 0.0 && x <= y
    ensures Times(k, x) <= Times(k, y)
  {
  }

  lemma Cancel(k: real, x: real, y: real)
    requires k > 0.0 && Times(k, x) <= Times(k, y)
    ensures x <= y
  {
    hide Times;
    if x > y {
      Positive(k, x - y);
      Distribute(k, x, y);
    }
  }

  lemma {:induction false} ZeroNorm(d: nat)
    ensures NormSq(Repeat(0.0, d)) == 0.0
  {
    if d > 0 {
      assert Repeat(0.0, d)[1..] == Repeat(0.0, d - 1);
      ZeroNorm(d - 1);
    }
  }

  lemma SumSplit(ws: seq<real>)
    requires ws != []
    ensures Sum(ws) == Sum(ws[..|ws| - 1]) + ws[|ws| - 1]
  {
    var n := |ws| - 1;
    assert ws == ws[..n] + [ws[n]];
    SumConcat(ws[..n], [ws[n]]);
  }

  lemma {:induction false} CombineBounded(ws: seq<real>, rows: seq<Vector>, d: nat, c: real)
    requires |ws| == |rows| && (forall row <- rows :: |row| == d && NormSq(row) <= Sq(c)) && c > 0.0
    ensures NormSq(Combine(ws, rows, d)) <= Sq(Times(AbsSum(ws), c))
  {
    hide Sq, Times, NormSq, Scale, Add, Repeat, Abs;
    if ws == [] {
      ZeroNorm(d);
      SqNonNegative(Times(AbsSum(ws), c));
    } else {
      var n := |ws| - 1;
      assert rows[n] in rows;
      CombineBounded(ws[..n], rows[..n], d, c);
      AbsSumNonNegative(ws[..n]);
      TimesNonNegative(AbsSum(ws[..n]), c);
      AddBounded(Combine(ws[..n], rows[..n], d), ws[n], rows[n], Times(AbsSum(ws[..n]), c), c);
      Distribute(c, AbsSum(ws[..n]), Abs(ws[n]));
    }
  }

  lemma TimesNonNegative(x: real, y: real)
    requires x >= 0.0 && y >= 0.0
    ensures Times(x, y) >= 0.0
  {
  }

  lemma {:induction false} SumScale(k: real, xs: seq<real>)
    ensures Sum(Scale(k, xs)) == Times(k, Sum(xs))
  {
    hide Times;
    if xs == [] {
      TimesZero(k);
    } else {
      ScaleTail(k, xs);
      SumScale(k, xs[1..]);
      Distribute(k, xs[0], Sum(xs[1..]));
    }
  }

  /** The weights are positive and add up to one. */
  lemma WeightsSound(counts: seq<real>)
    requires counts != [] && forall i :: 0 <= i < |counts| ==> counts[i] > 0.0
    ensures Sum(counts) > 0.0 && |Weights(counts)| == |counts| && Sum(Weights(counts)) == 1.0
    ensures forall i :: 0 <= i < |counts| ==> Weights(counts)[i] > 0.0
  {
    SumPositive(counts);
    var k := 1.0 / Sum(counts);
    SumScale(k, counts);
    assert k > 0.0 && Times(k, Sum(counts)) == 1.0;
    forall i | 0 <= i < |counts| ensures Weights(counts)[i] > 0.0 { Positive(k, counts[i]); }
  }

  /** Weights that add up to one leave nothing to divide by. */
  lemma AverageIsCombined(ws: seq<real>, rows: seq<Vector>, d: nat)
    requires |ws| == |rows| && (forall row <- rows :: |row| == d) && Sum(ws) == 1.0
    ensures Average(ws, rows, d) == Combine(ws, rows, d)
  {
    hide Combine, Sum;
  }

  lemma AcceptedShape(m: MathLib, c: Config, updates: seq<Update>, verified: seq<bool>)
    requires ValidConfig(c) && |verified| == |updates| && forall u <- updates :: ValidUpdate(u)
    requires Refused(c, updates, verified).None?
    ensures updates != [] && forall row <- Clipped(m, c.clipNorm, updates) :: |row| == |updates[0].delta|
    ensures forall u <- updates :: |u.delta| == |updates[0].delta|
    ensures Sum(Counts(updates, c.maxSamples)) > 0.0
    ensures forall i :: 0 <= i < |updates| ==> Counts(updates, c.maxSamples)[i] > 0.0
  {
    CountsPositive(updates, c.maxSamples);
  }

  /** The released average (before noise) has norm at most the clip norm, whatever the clients sent. */
  lemma AverageBounded(m: MathLib, c: Config, updates: seq<Update>, verified: seq<bool>)
    requires IsSqrt(m.sqrt) && ValidConfig(c) && |verified| == |updates| && forall u <- updates :: ValidUpdate(u)
    requires Aggregate(m, c, updates, verified).Success?
    ensures Norm(m, Aggregate(m, c, updates, verified).value.average) <= c.clipNorm
  {
    AcceptedShape(m, c, updates, verified);
    hide Refused;
    var counts := Counts(updates, c.maxSamples);
    var rows := Clipped(m, c.clipNorm, updates);
    WeightsSound(counts);
    forall row <- rows ensures NormSq(row) <= Sq(c.clipNorm) {
      var i :| 0 <= i < |rows| && rows[i] == row;
      ClipBounded(m, c.clipNorm, updates[i].delta);
    }
    AverageIsCombined(Weights(counts), rows, |updates[0].delta|);
    AbsSumPositive(Weights(counts));
    CombineBounded(Weights(counts), rows, |updates[0].delta|, c.clipNorm);
    NormFromSquare(m, Combine(Weights(counts), rows, |updates[0].delta|), c.clipNorm);
  }

  // ---------------------------------------------------------------- sensitivity

  lemma SubPrefix(a: seq<real>, b: seq<real>, n: nat)
    requires |a| == |b| && n < |a|
    ensures Sub(a, b)[..n] == Sub(a[..n], b[..n]) && Sub(a, b)[n] == a[n] - b[n]
  {
  }

  lemma {:induction false} CombineOfDifference(a: seq<real>, b: seq<real>, rows: seq<Vector>, d: nat)
    requires |a| == |b| == |rows| && forall r <- rows :: |r| == d
    ensures Sub(Combine(a, rows, d), Combine(b, rows, d)) == Combine(Sub(a, b), rows, d)
  {
    hide Add, Scale, Sub, Times, Repeat;
    if a == [] {
      NothingMoved(d);
    } else {
      var n := |a| - 1;
      assert rows[n] in rows;
      CombineOfDifference(a[..n], b[..n], rows[..n], d);
      SubPrefix(a, b, n);
      SubScaled(Combine(a[..n], rows[..n], d), Combine(b[..n], rows[..n], d), a[n], b[n], rows[n]);
    }
  }

  lemma NothingMoved(d: nat)
    ensures Sub(Repeat(0.0, d), Repeat(0.0, d)) == Repeat(0.0, d) && Sub([], []) == []
  {
  }

  lemma SubScaled(x: Vector, y: Vector, a: real, b: real, r: Vector)
    requires |x| == |y| == |r|
    ensures Sub(Add(x, Scale(a, r)), Add(y, Scale(b, r))) == Add(Sub(x, y), Scale(a - b, r))
  {
    hide Times;
    forall i | 0 <= i < |x|
      ensures Sub(Add(x, Scale(a, r)), Add(y, Scale(b, r)))[i] == Add(Sub(x, y), Scale(a - b, r))[i]
    {
      DistributeRight(a, b, r[i]);
    }
  }

  /** The weights by which an average moves when row k is replaced and the weights change from a to b. */
  function Moved(a: seq<real>, b: seq<real>, k: nat): (r: seq<real>)
    requires |a| == |b| && k < |a|
    ensures |r| == |a|
  {
    Sub(a, b)[k := a[k]]
  }

  lemma MovedPrefix(a: seq<real>, b: seq<real>, k: nat, n: nat)
    requires |a| == |b| == n + 1 && k <= n
    ensures k == n ==> Moved(a, b, k)[..n] == Sub(a[..n], b[..n]) && Moved(a, b, k)[n] == a[n]
    ensures k < n ==> Moved(a, b, k)[..n] == Moved(a[..n], b[..n], k) && Moved(a, b, k)[n] == a[n] - b[n]
  {
    if k == n {
      assert Moved(a, b, k)[..n] == Sub(a[..n], b[..n]);
    } else {
      assert Moved(a, b, k)[..n] == Moved(a[..n], b[..n], k);
    }
  }

  lemma CombineStep(ws: seq<real>, rows: seq<Vector>, d: nat)
    requires |ws| == |rows| && (forall r <- rows :: |r| == d) && ws != []
    ensures var n := |ws| - 1;
            && (forall r <- rows[..n] :: |r| == d) && |rows[n]| == d
            && Combine(ws, rows, d) == Add(Combine(ws[..n], rows[..n], d), Scale(ws[n], rows[n]))
  {
    assert rows[|ws| - 1] in rows;
    hide Add, Scale, Repeat;
  }

  lemma {:induction false} CombineReplaced(a: seq<real>, b: seq<real>, rows: seq<Vector>, d: nat, k: nat, row: Vector)
    requires |a| == |b| == |rows| && (forall r <- rows :: |r| == d) && k < |rows| && |row| == d
    requires forall r <- rows[k := row] :: |r| == d
    ensures Sub(Combine(a, rows, d), Combine(b, rows[k := row], d))
         == Add(Combine(Moved(a, b, k), rows, d), Scale(-b[k], row))
  {
    hide Add, Scale, Sub, Times, Moved, Combine;
    var n := |a| - 1;
    CombineStep(a, rows, d);
    CombineStep(b, rows[k := row], d);
    CombineStep(Moved(a, b, k), rows, d);
    MovedPrefix(a, b, k, n);
    if k == n {
      assert rows[k := row][..n] == rows[..n];
      CombineOfDifference(a[..n], b[..n], rows[..n], d);
      ReplacedLast(Combine(a[..n], rows[..n], d), Combine(b[..n], rows[..n], d), a[n], rows[n], b[n], row);
    } else {
      assert rows[k := row][..n] == rows[..n][k := row];
      CombineReplaced(a[..n], b[..n], rows[..n], d, k, row);
      ReplacedEarlier(Combine(a[..n], rows[..n], d), Combine(b[..n], rows[..n][k := row], d),
                      Combine(Moved(a[..n], b[..n], k), rows[..n], d), b[k], row, a[n], b[n], rows[n]);
    }
  }

  lemma ReplacedLast(x: Vector, y: Vector, a: real, r: Vector, b: real, row: Vector)
    requires |x| == |y| == |r| == |row|
    ensures Sub(Add(x, Scale(a, r)), Add(y, Scale(b, row))) == Add(Add(Sub(x, y), Scale(a, r)), Scale(-b, row))
  {
  }

  lemma ReplacedEarlier(x: Vector, y: Vector, z: Vector, bk: real, row: Vector, a: real, b: real, r: Vector)
    requires |x| == |y| == |z| == |r| == |row| && Sub(x, y) == Add(z, Scale(-bk, row))
    ensures Sub(Add(x, Scale(a, r)), Add(y, Scale(b, r))) == Add(Add(z, Scale(a - b, r)), Scale(-bk, row))
  {
    hide Times;
    forall i | 0 <= i < |x|
      ensures Sub(Add(x, Scale(a, r)), Add(y, Scale(b, r)))[i] == Add(Add(z, Scale(a - b, r)), Scale(-bk, row))[i]
    {
      assert Sub(x, y)[i] == Add(z, Scale(-bk, row))[i];
      DistributeRight(a, b, r[i]);
    }
  }

  lemma DistributeRight(a: real, b: real, x: real)
    ensures Times(a - b, x) == Times(a, x) - Times(b, x)
  {
  }

  /** Every other weight moves the same way: up when `up`, down otherwise. */
  ghost predicate OthersMove(a: seq<real>, b: seq<real>, k: nat, up: bool)
    requires |a| == |b|
  {
    forall i :: 0 <= i < |a| && i != k ==> if up then a[i] <= b[i] else b[i] <= a[i]
  }

  lemma {:induction false} AbsSumOfDifference(a: seq<real>, b: seq<real>, k: nat, up: bool)
    requires |a| == |b| <= k && OthersMove(a, b, k, up)
    ensures AbsSum(Sub(a, b)) == if up then Sum(b) - Sum(a) else Sum(a) - Sum(b)
  {
    if a != [] {
      var n := |a| - 1;
      SubPrefix(a, b, n);
      AbsSumOfDifference(a[..n], b[..n], k, up);
      SumSplit(a);
      SumSplit(b);
    }
  }

  lemma AbsSumStep(ws: seq<real>)
    requires ws != []
    ensures AbsSum(ws) == AbsSum(ws[..|ws| - 1]) + Abs(ws[|ws| - 1])
  {
  }

  lemma {:induction false} AbsSumMoved(a: seq<real>, b: seq<real>, k: nat, up: bool)
    requires |a| == |b| && k < |a| && OthersMove(a, b, k, up)
    ensures var rise := (Sum(b) - b[k]) - (Sum(a) - a[k]);
      AbsSum(Moved(a, b, k)) == (if up then rise else -rise) + Abs(a[k])
    decreases |a|
  {
    hide Sum, AbsSum, Moved, Sub;
    var n := |a| - 1;
    SumSplit(a);
    SumSplit(b);
    AbsSumStep(Moved(a, b, k));
    MovedPrefix(a, b, k, n);
    if k == n {
      AbsSumOfDifference(a[..n], b[..n], k, up);
    } else {
      AbsSumMoved(a[..n], b[..n], k, up);
    }
  }

  /** A heavier count leaves every other client a smaller weight. */
  lemma WeightsMove(counts: seq<real>, k: nat, x: real)
    requires k < |counts| && x > 0.0 && forall i :: 0 <= i < |counts| ==> counts[i] > 0.0
    ensures Sum(counts) > 0.0 && Sum(counts[k := x]) > 0.0
    ensures x <= counts[k] ==> OthersMove(Weights(counts), Weights(counts[k := x]), k, true)
    ensures x >= counts[k] ==> OthersMove(Weights(counts), Weights(counts[k := x]), k, false)
  {
    SumPositive(counts);
    SumPositive(counts[k := x]);
    SumReplaced(counts, k, x);
    var s, s' := 1.0 / Sum(counts), 1.0 / Sum(counts[k := x]);
    if x <= counts[k] { Inverses(Sum(counts[k := x]), Sum(counts)); }
    if x >= counts[k] { Inverses(Sum(counts), Sum(counts[k := x])); }
    forall i | 0 <= i < |counts| && i != k
      ensures x <= counts[k] ==> Times(s, counts[i]) <= Times(s', counts[i])
      ensures x >= counts[k] ==> Times(s', counts[i]) <= Times(s, counts[i])
    {
      hide Times, Sum;
      TimesCommutes(s, counts[i]);
      TimesCommutes(s', counts[i]);
      if x <= counts[k] { Monotone(counts[i], s, s'); }
      if x >= counts[k] { Monotone(counts[i], s', s); }
    }
  }

  lemma TimesCommutes(x: real, y: real)
    ensures Times(x, y) == Times(y, x)
  {
  }

  lemma Inverses(x: real, y: real)
    requires 0.0 < x <= y
    ensures 1.0 / y <= 1.0 / x
  {
    var u, v := 1.0 / x, 1.0 / y;
    assert x * u == 1.0 && y * v == 1.0;
    assert (y - x) * v >= 0.0;
    Cancel(x, v, u);
  }

  lemma {:induction false} SumReplaced(xs: seq<real>, k: nat, x: real)
    requires k < |xs|
    ensures Sum(xs[k := x]) == Sum(xs) - xs[k] + x
  {
    if k > 0 {
      assert xs[k := x][1..] == xs[1..][k - 1 := x];
      SumReplaced(xs[1..], k - 1, x);
    }
  }

  lemma {:induction false} LargestIsLargest(ws: seq<real>, k: nat)
    requires k < |ws|
    ensures ws[k] <= Largest(ws)
  {
    var n := |ws| - 1;
    if k < n {
      LargestIsLargest(ws[..n], k);
    }
  }

  /** An average of clipped rows, one of them replaced and its weight changed, moves by at most twice the
      clip norm times the larger of the two weights. */
  lemma MovedBy(m: MathLib, c: real, a: seq<real>, b: seq<real>, rows: seq<Vector>, d: nat, k: nat, row: Vector,
                up: bool)
    requires IsSqrt(m.sqrt) && c > 0.0 && |a| == |b| == |rows| && k < |rows| && |row| == d
    requires (forall r <- rows :: |r| == d && NormSq(r) <= Sq(c)) && NormSq(row) <= Sq(c)
    requires forall r <- rows[k := row] :: |r| == d
    requires Sum(a) == Sum(b) == 1.0 && OthersMove(a, b, k, up) && a[k] > 0.0 && b[k] > 0.0
    ensures Norm(m, Sub(Combine(a, rows, d), Combine(b, rows[k := row], d)))
         <= 2.0 * c * (if up then a[k] else b[k])
  {
    hide Sq, Times, NormSq, Combine, Norm, Scale, Sub, Add, Sum, Moved, AbsSum, OthersMove;
    var ws := Moved(a, b, k);
    CombineReplaced(a, b, rows, d, k, row);
    CombineBounded(ws, rows, d, c);
    AbsSumMoved(a, b, k, up);
    AbsSumNonNegative(ws);
    TimesNonNegative(AbsSum(ws), c);
    AddBounded(Combine(ws, rows, d), -b[k], row, Times(AbsSum(ws), c), c);
    Distribute(c, AbsSum(ws), b[k]);
    var moved := if up then a[k] else b[k];
    assert AbsSum(ws) + b[k] == 2.0 * moved;
    TwiceTimes(moved, c);
    NormFromSquare(m, Sub(Combine(a, rows, d), Combine(b, rows[k := row], d)), 2.0 * c * moved);
  }

  lemma TwiceTimes(x: real, c: real)
    requires x > 0.0 && c > 0.0
    ensures Times(2.0 * x, c) == 2.0 * c * x >= 0.0
  {
  }

  /** Replacing one client's whole update, sample count and delta, moves the average by at most the
      sensitivity of the round in which that client weighs more; with the count fixed, both rounds have
      the same weights and sensitivity, the one the noise is calibrated to. */
  lemma SensitivityBound(m: MathLib, c: Config, updates: seq<Update>, verified: seq<bool>, k: nat, count: nat,
                         delta: seq<real>)
    requires IsSqrt(m.sqrt) && ValidConfig(c) && |verified| == |updates| && forall u <- updates :: ValidUpdate(u)
    requires k < |updates| && count >= 1 && |delta| == |updates[k].delta|
    requires Aggregate(m, c, updates, verified).Success?
    ensures var updates' := updates[k := updates[k].(sampleCount := count, delta := delta)];
            var was, now := Capped(updates[k].sampleCount, c.maxSamples), Capped(count, c.maxSamples);
            && (forall u <- updates' :: ValidUpdate(u))
            && Aggregate(m, c, updates', verified).Success?
            && var a, b := Aggregate(m, c, updates, verified).value, Aggregate(m, c, updates', verified).value;
            && |a.average| == |b.average|
            && (now <= was ==> Norm(m, Sub(a.average, b.average)) <= a.sensitivity)
            && (now >= was ==> Norm(m, Sub(a.average, b.average)) <= b.sensitivity)
            && (now == was ==> a.weights == b.weights && a.sensitivity == b.sensitivity)
  {
    hide Refused, Aggregate, Counts, Clipped, Weights, Combine, Largest, Norm, Sub, Sum, Clip, Capped, Sq, NormSq;
    var updates' := updates[k := updates[k].(sampleCount := count, delta := delta)];
    var now := Capped(count, c.maxSamples);
    AggregateParts(m, c, updates, verified);
    ReplacedAccepted(c, updates, verified, k, count, delta);
    AggregateParts(m, c, updates', verified);
    ReplacedParts(m, c, updates, k, count, delta);
    RowsClipped(m, c.clipNorm, updates);
    ClipBounded(m, c.clipNorm, delta);
    var counts := Counts(updates, c.maxSamples);
    assert Counts(updates', c.maxSamples)[k] == now && (now == counts[k] ==> counts[k := now] == counts);
    MovedEitherWay(m, c.clipNorm, counts, Clipped(m, c.clipNorm, updates), |updates[0].delta|, k, now,
                   Clip(m, c.clipNorm, delta));
  }

  /** What an accepted round releases, without the division by one. */
  lemma AggregateParts(m: MathLib, c: Config, updates: seq<Update>, verified: seq<bool>)
    requires ValidConfig(c) && |verified| == |updates| && forall u <- updates :: ValidUpdate(u)
    ensures Aggregate(m, c, updates, verified).Success? <==> Refused(c, updates, verified).None?
    ensures Aggregate(m, c, updates, verified).Success? ==>
              var a := Aggregate(m, c, updates, verified).value;
              var counts, rows := Counts(updates, c.maxSamples), Clipped(m, c.clipNorm, updates);
              && updates != [] && (forall row <- rows :: |row| == |updates[0].delta|)
              && (forall i :: 0 <= i < |counts| ==> counts[i] > 0.0) && Sum(counts) > 0.0
              && |Weights(counts)| == |rows| && a.weights == Weights(counts)
              && a.average == Combine(Weights(counts), rows, |updates[0].delta|)
              && a.sensitivity == Reach(c.clipNorm, Largest(Weights(counts)))
  {
    hide Refused, Counts, Clipped, Weights, Combine, Average, Largest, Sum;
    if Refused(c, updates, verified).None? {
      AcceptedShape(m, c, updates, verified);
      WeightsSound(Counts(updates, c.maxSamples));
      AverageIsCombined(Weights(Counts(updates, c.maxSamples)), Clipped(m, c.clipNorm, updates), |updates[0].delta|);
    }
  }

  lemma MovedEitherWay(m: MathLib, c: real, counts: seq<real>, rows: seq<Vector>, d: nat, k: nat, now: real,
                       row: Vector)
    requires IsSqrt(m.sqrt) && c > 0.0 && |counts| == |rows| && k < |rows| && |row| == d && now > 0.0
    requires (forall r <- rows :: |r| == d && NormSq(r) <= Sq(c)) && NormSq(row) <= Sq(c)
    requires forall r <- rows[k := row] :: |r| == d
    requires forall i :: 0 <= i < |counts| ==> counts[i] > 0.0
    ensures Sum(counts) > 0.0 && Sum(counts[k := now]) > 0.0
    ensures var a, b := Weights(counts), Weights(counts[k := now]);
      && |a| == |b| == |rows|
      && var moved := Norm(m, Sub(Combine(a, rows, d), Combine(b, rows[k := row], d)));
      && (now <= counts[k] ==> moved <= 2.0 * c * Largest(a))
      && (now >= counts[k] ==> moved <= 2.0 * c * Largest(b))
  {
    hide Weights, Combine, Largest, Norm, Sub, Sum, Sq, NormSq, OthersMove;
    WeightsSound(counts);
    WeightsSound(counts[k := now]);
    WeightsMove(counts, k, now);
    var a, b := Weights(counts), Weights(counts[k := now]);
    if now <= counts[k] {
      MovedBy(m, c, a, b, rows, d, k, row, true);
      BelowLargest(c, a, k);
    }
    if now >= counts[k] {
      MovedBy(m, c, a, b, rows, d, k, row, false);
      BelowLargest(c, b, k);
    }
  }

  lemma BelowLargest(c: real, ws: seq<real>, k: nat)
    requires c > 0.0 && k < |ws|
    ensures 2.0 * c * ws[k] <= 2.0 * c * Largest(ws)
  {
    LargestIsLargest(ws, k);
    hide Largest;
    Monotone(2.0 * c, ws[k], Largest(ws));
  }

  lemma RowsClipped(m: MathLib, c: real, updates: seq<Update>)
    requires IsSqrt(m.sqrt) && c > 0.0
    ensures forall row <- Clipped(m, c, updates) :: NormSq(row) <= Sq(c)
  {
    hide Clip, NormSq, Sq;
    var rows := Clipped(m, c, updates);
    forall row <- rows ensures NormSq(row) <= Sq(c) {
      var i :| 0 <= i < |rows| && rows[i] == row;
      ClipBounded(m, c, updates[i].delta);
    }
  }

  lemma ReplacedParts(m: MathLib, c: Config, updates: seq<Update>, k: nat, count: nat, delta: seq<real>)
    requires ValidConfig(c) && k < |updates| && |delta| == |updates[k].delta|
    ensures var updates' := updates[k := updates[k].(sampleCount := count, delta := delta)];
            && Counts(updates', c.maxSamples) == Counts(updates, c.maxSamples)[k := Capped(count, c.maxSamples)]
            && Counts(updates, c.maxSamples)[k] == Capped(updates[k].sampleCount, c.maxSamples)
            && Clipped(m, c.clipNorm, updates') == Clipped(m, c.clipNorm, updates)[k := Clip(m, c.clipNorm, delta)]
            && Clipped(m, c.clipNorm, updates)[k] == Clip(m, c.clipNorm, updates[k].delta)
  {
    hide Clip;
  }

  lemma ReplacedAccepted(c: Config, updates: seq<Update>, verified: seq<bool>, k: nat, count: nat, delta: seq<real>)
    requires ValidConfig(c) && |verified| == |updates| && k < |updates| && |delta| == |updates[k].delta|
    requires count >= 1 && forall u <- updates :: ValidUpdate(u)
    requires Refused(c, updates, verified).None?
    ensures var updates' := updates[k := updates[k].(sampleCount := count, delta := delta)];
            && Refused(c, updates', verified).None? && (forall u <- updates' :: ValidUpdate(u))
            && |updates'[0].delta| == |updates[0].delta|
  {
    var updates' := updates[k := updates[k].(sampleCount := count, delta := delta)];
    forall u <- updates' ensures ValidUpdate(u) {
      var i :| 0 <= i < |updates'| && updates'[i] == u;
      assert ValidUpdate(updates[i]);
    }
  }

  // ---------------------------------------------------------------- a client that changes its count

  /** Three clients of one sample each, the last pulling against the others; then it reports ten. */
  function Trio(count: nat): seq<Update> {
    [Update("a", "r", 1, [-1.0]), Update("b", "r", 1, [-1.0]), Update("c", "r", count, [1.0])]
  }

  const TRIO_CONFIG := Config(1.0, 3, 10)
  const TRIO_ROWS: seq<Vector> := [[-1.0], [-1.0], [1.0]]

  lemma RootOfOne(m: MathLib)
    requires IsSqrt(m.sqrt)
    ensures m.sqrt(1.0) == 1.0
  {
    SquareOrder(m.sqrt(1.0), 1.0);
    SquareOrder(1.0, m.sqrt(1.0));
  }

  lemma UnitNorm(m: MathLib, v: Vector)
    requires IsSqrt(m.sqrt) && (v == [1.0] || v == [-1.0])
    ensures Norm(m, v) == 1.0 && Clip(m, 1.0, v) == v
  {
    RootOfOne(m);
    assert v[1..] == [];
    assert NormSq(v) == Sq(v[0]) + NormSq(v[1..]);
  }

  lemma TrioAccepted(m: MathLib, count: nat)
    requires IsSqrt(m.sqrt) && count >= 1
    ensures (forall u <- Trio(count) :: ValidUpdate(u)) && Refused(TRIO_CONFIG, Trio(count), [true, true, true]).None?
    ensures Clipped(m, 1.0, Trio(count)) == TRIO_ROWS
    ensures count <= 10 ==> Counts(Trio(count), 10) == [1.0, 1.0, count as real]
  {
    UnitNorm(m, [1.0]);
    UnitNorm(m, [-1.0]);
    hide Clip;
  }

  lemma TrioCombined(x: real, y: real, z: real)
    ensures Combine([x, y, z], TRIO_ROWS, 1) == [z - x - y]
  {
    var ws, rows := [x, y, z], TRIO_ROWS;
    assert ws[..2] == [x, y] && rows[..2] == [[-1.0], [-1.0]];
    assert ws[..2][..1] == [x] && rows[..2][..1] == [[-1.0]];
    assert [x][..0] == [] && [[-1.0]][..0] == [];
    assert Combine([x], [[-1.0]], 1) == [-x];
    assert Combine(ws[..2], rows[..2], 1) == [-x - y];
  }

  lemma TrioSum(z: real)
    ensures Sum([1.0, 1.0, z]) == 2.0 + z
  {
    var xs := [1.0, 1.0, z];
    assert xs[1..] == [1.0, z] && xs[1..][1..] == [z] && xs[1..][1..][1..] == [];
    assert Sum(xs[1..][1..]) == z;
    assert Sum(xs[1..]) == 1.0 + z;
  }

  lemma LargestOfThree(x: real)
    ensures Largest([x, x, x]) == x
  {
    var xs := [x, x, x];
    assert xs[..2][..1] == [x];
    assert Largest(xs[..2][..1]) == x;
    assert Largest(xs[..2]) == x;
  }

  lemma TrioReleased(m: MathLib, count: nat, w: real, z: real)
    requires IsSqrt(m.sqrt) && 1 <= count <= 10
    requires w * (2.0 + count as real) == 1.0 && z == w * count as real
    ensures forall u <- Trio(count) :: ValidUpdate(u)
    ensures var r := Aggregate(m, TRIO_CONFIG, Trio(count), [true, true, true]);
            && r.Success? && r.value.average == [z - w - w] && r.value.weights == [w, w, z]
            && r.value.sensitivity == 2.0 * Largest([w, w, z])
  {
    TrioAccepted(m, count);
    hide Refused, Aggregate, Counts, Clipped, Combine, Largest, Sum, Trio;
    AggregateParts(m, TRIO_CONFIG, Trio(count), [true, true, true]);
    TrioSum(count as real);
    TrioWeights(count as real, w, z);
    TrioCombined(w, w, z);
  }

  lemma TrioWeights(x: real, w: real, z: real)
    requires x > 0.0 && Sum([1.0, 1.0, x]) == 2.0 + x && w * (2.0 + x) == 1.0 && z == w * x
    ensures Weights([1.0, 1.0, x]) == [w, w, z]
  {
    hide Sum;
    var counts := [1.0, 1.0, x];
    assert 1.0 / Sum(counts) == w;
    assert Times(w, 1.0) == w && Times(w, x) == z;
    assert Weights(counts) == Scale(w, counts) == [Times(w, 1.0), Times(w, 1.0), Times(w, x)];
  }

  /** With its count changed too, a client moves the average further than the sensitivity of the round it
      left, which is what the noise of that round is calibrated to. */
  lemma CountsMatter(m: MathLib)
    requires IsSqrt(m.sqrt)
    ensures (forall u <- Trio(1) :: ValidUpdate(u)) && (forall u <- Trio(10) :: ValidUpdate(u))
    ensures var a := Aggregate(m, TRIO_CONFIG, Trio(1), [true, true, true]);
            var b := Aggregate(m, TRIO_CONFIG, Trio(10), [true, true, true]);
            && a.Success? && b.Success? && |a.value.average| == |b.value.average|
            && Norm(m, Sub(a.value.average, b.value.average)) == 1.0 > a.value.sensitivity
  {
    hide Aggregate, Largest, Norm, Trio;
    TrioReleased(m, 1, 1.0 / 3.0, 1.0 / 3.0);
    TrioReleased(m, 10, 1.0 / 12.0, 10.0 / 12.0);
    LargestOfThree(1.0 / 3.0);
    UnitNorm(m, [-1.0]);
    var x, y := 1.0 / 3.0 - 1.0 / 3.0 - 1.0 / 3.0, 10.0 / 12.0 - 1.0 / 12.0 - 1.0 / 12.0;
    assert Sub([x], [y]) == [-1.0];
  }

  // ---------------------------------------------------------------- what a round releases

  /** A vector within the clip norm is kept; a longer one is shortened to it, direction unchanged. */
  lemma ClipExactly(m: MathLib, c: real, v: Vector)
    requires IsSqrt(m.sqrt) && c > 0.0
    ensures Norm(m, v) <= c ==> Clip(m, c, v) == v
    ensures Norm(m, v) > c ==> forall i :: 0 <= i < |v| ==> Clip(m, c, v)[i] * Norm(m, v) == c * v[i]
  {
    var n := Norm(m, v);
    if n > c {
      forall i | 0 <= i < |v| ensures Clip(m, c, v)[i] * n == c * v[i] {
        Shortened(c, n, v[i]);
      }
    }
  }

  lemma Shortened(c: real, n: real, x: real)
    requires n > 0.0
    ensures Times(c / n, x) * n == c * x
  {
    var k := c / n;
    assert k * n == c;
    assert (k * x) * n == (k * n) * x;
  }

  /** One coordinate of the weighted rows, added up client by client. */
  ghost function WeightedAt(ws: seq<real>, rows: seq<Vector>, i: nat): real
    requires |ws| == |rows| && forall row <- rows :: i < |row|
  {
    if ws == [] then 0.0
    else
      var n := |ws| - 1;
      assert rows[n] in rows;
      WeightedAt(ws[..n], rows[..n], i) + ws[n] * rows[n][i]
  }

  lemma {:induction false} CombineAt(ws: seq<real>, rows: seq<Vector>, d: nat, i: nat)
    requires |ws| == |rows| && (forall row <- rows :: |row| == d) && i < d
    ensures Combine(ws, rows, d)[i] == WeightedAt(ws, rows, i)
  {
    if ws != [] {
      var n := |ws| - 1;
      assert rows[n] in rows;
      CombineAt(ws[..n], rows[..n], d, i);
    }
  }

  lemma WeightOf(counts: seq<real>, k: nat)
    requires k < |counts| && Sum(counts) > 0.0
    ensures Weights(counts)[k] * Sum(counts) == counts[k]
  {
    var s, c := Sum(counts), counts[k];
    var inverse := 1.0 / s;
    assert inverse * s == 1.0;
    assert (inverse * c) * s == (inverse * s) * c;
  }

  lemma {:induction false} LargestIsOne(ws: seq<real>)
    requires ws != []
    ensures Largest(ws) in ws
  {
    if |ws| > 1 {
      LargestIsOne(ws[..|ws| - 1]);
    }
  }

  /** A round is accepted exactly with enough clients, one update each, of one round and one dimension, all
      properly signed. */
  lemma AcceptedExactly(m: MathLib, c: Config, updates: seq<Update>, verified: seq<bool>)
    requires ValidConfig(c) && |verified| == |updates| && forall u <- updates :: ValidUpdate(u)
    ensures Aggregate(m, c, updates, verified).Success? <==>
            && |updates| >= c.minClients
            && (forall i, j :: 0 <= i < j < |updates| ==> updates[i].merchantId != updates[j].merchantId)
            && (forall i :: 0 <= i < |updates| ==>
                  && updates[i].roundId == updates[0].roundId && |updates[i].delta| == |updates[0].delta|
                  && verified[i])
  {
    AggregateParts(m, c, updates, verified);
    hide Aggregate;
  }

  /** Weights in proportion to the sample counts, none counted above the cap. */
  ghost predicate Proportional(updates: seq<Update>, cap: nat, ws: seq<real>, total: real) {
    && |ws| == |updates| && total > 0.0
    && forall k :: 0 <= k < |updates| ==>
         ws[k] * total == if updates[k].sampleCount <= cap then updates[k].sampleCount as real else cap as real
  }

  lemma ProportionalWeights(updates: seq<Update>, cap: nat)
    requires Sum(Counts(updates, cap)) > 0.0 && |Weights(Counts(updates, cap))| == |updates|
    ensures Proportional(updates, cap, Weights(Counts(updates, cap)), Sum(Counts(updates, cap)))
  {
    hide Sum, Weights;
    var counts := Counts(updates, cap);
    forall k | 0 <= k < |updates|
      ensures Weights(counts)[k] * Sum(counts)
              == if updates[k].sampleCount <= cap then updates[k].sampleCount as real else cap as real
    {
      WeightOf(counts, k);
    }
  }

  /** It releases the clipped updates averaged by weights that add up to one, in proportion to the sample
      counts, none counted above the cap. */
  lemma ReleasedExactly(m: MathLib, c: Config, updates: seq<Update>, verified: seq<bool>)
    requires ValidConfig(c) && |verified| == |updates| && forall u <- updates :: ValidUpdate(u)
    requires Aggregate(m, c, updates, verified).Success?
    ensures var a := Aggregate(m, c, updates, verified).value;
            var rows := Clipped(m, c.clipNorm, updates);
            && updates != [] && (forall row <- rows :: |row| == |updates[0].delta|)
            && a.roundId == updates[0].roundId
            && |a.weights| == |rows| && Sum(a.weights) == 1.0
            && (exists total: real :: Proportional(updates, c.maxSamples, a.weights, total))
            && |a.average| == |updates[0].delta|
            && forall i :: 0 <= i < |a.average| ==> a.average[i] == WeightedAt(a.weights, rows, i)
  {
    RoundKept(m, c, updates, verified);
    AggregateParts(m, c, updates, verified);
    hide Aggregate, Clipped, Combine, Weights, Sum, Largest, WeightedAt, Proportional, Counts, Times;
    var a := Aggregate(m, c, updates, verified).value;
    var rows, counts := Clipped(m, c.clipNorm, updates), Counts(updates, c.maxSamples);
    WeightsSound(counts);
    ProportionalWeights(updates, c.maxSamples);
    assert Proportional(updates, c.maxSamples, a.weights, Sum(counts));
    forall i: nat | i < |a.average| ensures a.average[i] == WeightedAt(a.weights, rows, i) {
      CombineAt(a.weights, rows, |updates[0].delta|, i);
    }
  }

  lemma RoundKept(m: MathLib, c: Config, updates: seq<Update>, verified: seq<bool>)
    requires ValidConfig(c) && |verified| == |updates| && forall u <- updates :: ValidUpdate(u)
    requires Aggregate(m, c, updates, verified).Success?
    ensures updates != [] && Aggregate(m, c, updates, verified).value.roundId == updates[0].roundId
  {
    hide Average, Weights, Largest, Clipped, Counts, Sum, Times, ValidUpdate;
  }

  /** The declared sensitivity covers every weight, and some weight needs all of it. */
  ghost predicate Covers(c: real, ws: seq<real>, sensitivity: real) {
    && (forall k :: 0 <= k < |ws| ==> 2.0 * c * ws[k] <= sensitivity)
    && exists k :: 0 <= k < |ws| && 2.0 * c * ws[k] == sensitivity
  }

  lemma ReachGrows(c: real, w: real, v: real)
    requires c > 0.0 && w <= v
    ensures 2.0 * c * w <= Reach(c, v) && 2.0 * c * v == Reach(c, v)
  {
    assert Reach(c, v) - Reach(c, w) == 2.0 * c * (v - w);
  }

  lemma LargestCovers(c: real, ws: seq<real>)
    requires c > 0.0 && ws != []
    ensures Covers(c, ws, Reach(c, Largest(ws)))
  {
    hide Largest, Reach;
    LargestIsOne(ws);
    forall k | 0 <= k < |ws| ensures 2.0 * c * ws[k] <= Reach(c, Largest(ws)) {
      LargestIsLargest(ws, k);
      ReachGrows(c, ws[k], Largest(ws));
    }
    var k :| 0 <= k < |ws| && ws[k] == Largest(ws);
    ReachGrows(c, ws[k], ws[k]);
  }

  /** The sensitivity it declares is twice the clip norm times the largest weight. */
  lemma DeclaredExactly(m: MathLib, c: Config, updates: seq<Update>, verified: seq<bool>)
    requires ValidConfig(c) && |verified| == |updates| && forall u <- updates :: ValidUpdate(u)
    requires Aggregate(m, c, updates, verified).Success?
    ensures var a := Aggregate(m, c, updates, verified).value; Covers(c.clipNorm, a.weights, a.sensitivity)
  {
    hide Aggregate, Clipped, Combine, Weights, Sum, Largest, Counts, Times, Covers, Reach, ValidUpdate;
    AggregateParts(m, c, updates, verified);
    LargestCovers(c.clipNorm, Aggregate(m, c, updates, verified).value.weights);
  }

  /** Which refusal a round meets: too few clients, then a client twice, then different rounds, then different
      dimensions, then a bad signature. */
  lemma RefusedExactly(m: MathLib, c: Config, updates: seq<Update>, verified: seq<bool>)
    requires ValidConfig(c) && |verified| == |updates| && forall u <- updates :: ValidUpdate(u)
    ensures var r := Aggregate(m, c, updates, verified);
            var twice := exists i, j :: 0 <= i < j < |updates| && updates[i].merchantId == updates[j].merchantId;
            && (r == Failure(TooFewClients) <==> |updates| < c.minClients)
            && (r == Failure(DuplicateMerchant) <==> |updates| >= c.minClients && twice)
            && (r == Failure(MixedRounds) <==>
                  && |updates| >= c.minClients && !twice
                  && exists i :: 0 <= i < |updates| && updates[i].roundId != updates[0].roundId)
            && (r == Failure(MixedDimensions) ==>
                  exists i :: 0 <= i < |updates| && |updates[i].delta| != |updates[0].delta|)
            && (r == Failure(BadSignature) ==> exists i :: 0 <= i < |verified| && !verified[i])
  {
    AggregateParts(m, c, updates, verified);
    RefusalOf(m, c, updates, verified);
    hide Aggregate;
  }

  lemma RefusalOf(m: MathLib, c: Config, updates: seq<Update>, verified: seq<bool>)
    requires ValidConfig(c) && |verified| == |updates| && forall u <- updates :: ValidUpdate(u)
    ensures Refused(c, updates, verified).Some? ==>
              Aggregate(m, c, updates, verified) == Failure(Refused(c, updates, verified).value)
  {
    hide Refused, Average, Weights, Largest, Clipped, Counts, Sum, Times;
  }
}
