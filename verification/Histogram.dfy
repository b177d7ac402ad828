/** Amount histograms and their divergence. */
module Histogram {
  import opened RealMath
  import opened Sequences
  import opened Wrappers

  const SMOOTHING := 0.000001
  const FLOOR := 0.000000000001

  ghost predicate Increasing(edges: seq<real>) {
    forall i, j :: 0 <= i < j < |edges| ==> edges[i] < edges[j]
  }

  // ---------------------------------------------------------------- binning

  /** First bin from `i` on that holds the amount; the last one also holds its right edge. */
  function FindBin(amount: real, edges: seq<real>, i: nat): Option<nat>
    requires |edges| >= 2
    decreases |edges| - i
  {
    if i + 1 >= |edges| then None
    else if edges[i] <= amount < edges[i + 1] || (i == |edges| - 2 && amount == edges[i + 1]) then Some(i)
    else FindBin(amount, edges, i + 1)
  }

  function BinOf(amount: real, edges: seq<real>): (bin: Option<nat>)
    requires |edges| >= 2
    ensures bin.Some? ==> bin.value < |edges| - 1
  {
    if amount < edges[0] then Some(0)
    else if amount > edges[|edges| - 1] then Some(|edges| - 2)
    else FindBinRange(amount, edges, 0); FindBin(amount, edges, 0)
  }

  lemma {:induction false} FindBinRange(amount: real, edges: seq<real>, i: nat)
    requires |edges| >= 2
    ensures FindBin(amount, edges, i).Some? ==> i <= FindBin(amount, edges, i).value < |edges| - 1
    decreases |edges| - i
  {
    if i + 1 < |edges| {
      FindBinRange(amount, edges, i + 1);
    }
  }

  /** Every amount falls in exactly one bin: the outer bins are unbounded, the inner ones half-open. */
  ghost predicate InBin(amount: real, edges: seq<real>, bin: nat) {
    && bin < |edges| - 1
    && (bin == 0 || edges[bin] <= amount)
    && (bin == |edges| - 2 || amount < edges[bin + 1])
  }

  lemma {:induction false} FindBinMeaning(amount: real, edges: seq<real>, i: nat)
    requires |edges| >= 2 && Increasing(edges) && i <= |edges| - 2
    requires edges[i] <= amount <= edges[|edges| - 1]
    ensures FindBin(amount, edges, i).Some? && InBin(amount, edges, FindBin(amount, edges, i).value)
    decreases |edges| - i
  {
    if edges[i] <= amount < edges[i + 1] || (i == |edges| - 2 && amount == edges[i + 1]) {
    } else {
      FindBinMeaning(amount, edges, i + 1);
    }
  }

  lemma BinMeaning(amount: real, edges: seq<real>, bin: nat)
    requires |edges| >= 2 && Increasing(edges)
    ensures BinOf(amount, edges) == Some(bin) <==> InBin(amount, edges, bin)
  {
    if edges[0] <= amount <= edges[|edges| - 1] {
      FindBinMeaning(amount, edges, 0);
    }
    var found := BinOf(amount, edges);
    assert found.Some? && InBin(amount, edges, found.value);
    OneBin(amount, edges, bin, found.value);
  }

  lemma OneBin(amount: real, edges: seq<real>, a: nat, b: nat)
    requires Increasing(edges) && InBin(amount, edges, b)
    ensures InBin(amount, edges, a) <==> a == b
  {
  }

  // ---------------------------------------------------------------- counting

  function Total(counts: seq<nat>): nat {
    if counts == [] then 0 else Total(counts[..|counts| - 1]) + counts[|counts| - 1]
  }

  function Bump(counts: seq<nat>, bin: Option<nat>): (r: seq<nat>)
    ensures |r| == |counts|
  {
    if bin.Some? && bin.value < |counts| then counts[bin.value := counts[bin.value] + 1] else counts
  }

  lemma {:induction false} BumpTotal(counts: seq<nat>, bin: nat)
    requires bin < |counts|
    ensures Total(counts[bin := counts[bin] + 1]) == Total(counts) + 1
  {
    var n := |counts| - 1;
    var bumped := counts[bin := counts[bin] + 1];
    if bin == n {
      assert bumped[..n] == counts[..n];
    } else {
      BumpTotal(counts[..n], bin);
      assert bumped[..n] == counts[..n][bin := counts[..n][bin] + 1];
    }
  }

  lemma {:induction false} TotalOfZeros(counts: seq<nat>)
    requires forall i :: 0 <= i < |counts| ==> counts[i] == 0
    ensures Total(counts) == 0
  {
    if counts != [] {
      TotalOfZeros(counts[..|counts| - 1]);
    }
  }

  function Tally(amounts: seq<real>, edges: seq<real>): (r: seq<nat>)
    requires |edges| >= 2
    ensures |r| == |edges| - 1
  {
    if amounts == [] then Repeat(0, |edges| - 1)
    else Bump(Tally(amounts[..|amounts| - 1], edges), BinOf(amounts[|amounts| - 1], edges))
  }

  /** Each amount is counted exactly once. */
  lemma {:induction false} TallyTotal(amounts: seq<real>, edges: seq<real>)
    requires |edges| >= 2 && Increasing(edges)
    ensures Total(Tally(amounts, edges)) == |amounts|
  {
    if amounts == [] {
      TotalOfZeros(Repeat(0, |edges| - 1));
    } else {
      var t, x := amounts[..|amounts| - 1], amounts[|amounts| - 1];
      TallyTotal(t, edges);
      BinMeaning(x, edges, 0);
      if edges[0] <= x <= edges[|edges| - 1] {
        FindBinMeaning(x, edges, 0);
      }
      BumpTotal(Tally(t, edges), BinOf(x, edges).value);
    }
  }

  /** Counts the amounts bin by bin, walking the edge pairs until one fits. */
  method CountAmounts(amounts: seq<real>, edges: seq<real>) returns (counts: seq<nat>)
    requires |edges| >= 2
    ensures counts == Tally(amounts, edges)
  {
    counts := Repeat(0, |edges| - 1);
    for k := 0 to |amounts|
      invariant counts == Tally(amounts[..k], edges)
    {
      var amount := amounts[k];
      assert amounts[..k + 1][..k] == amounts[..k];
      if amount < edges[0] {
        counts := counts[0 := counts[0] + 1];
        continue;
      }
      if amount > edges[|edges| - 1] {
        counts := counts[|counts| - 1 := counts[|counts| - 1] + 1];
        continue;
      }
      var i := 0;
      while i < |counts|
        invariant 0 <= i <= |counts| == |edges| - 1
        invariant counts == Tally(amounts[..k], edges)
        invariant FindBin(amount, edges, 0) == FindBin(amount, edges, i)
      {
        if edges[i] <= amount < edges[i + 1] || (i == |counts| - 1 && amount == edges[i + 1]) {
          break;
        }
        i := i + 1;
      }
      FindBinRange(amount, edges, 0);
      if i < |counts| {
        counts := counts[i := counts[i] + 1];
      }
    }
    assert amounts[..|amounts|] == amounts;
  }

  // ---------------------------------------------------------------- smoothed probabilities

  /** The mass the shares are taken of. */
  function Mass(counts: seq<nat>): (r: real)
    requires counts != []
    ensures r > 0.0
  {
    Total(counts) as real + SMOOTHING * |counts| as real
  }

  function Share(count: nat, mass: real): real
    requires mass > 0.0
  {
    (count as real + SMOOTHING) / mass
  }

  function Probabilities(counts: seq<nat>): (r: seq<real>)
    requires counts != []
    ensures |r| == |counts|
  {
    seq(|counts|, i requires 0 <= i < |counts| => Share(counts[i], Mass(counts)))
  }

  lemma ShareSound(count: nat, mass: real)
    requires mass > 0.0
    ensures Share(count, mass) * mass == count as real + SMOOTHING
    ensures Share(count, mass) >= SMOOTHING / mass > 0.0
  {
    QuotientBounds(SMOOTHING, mass);
    QuotientBounds(count as real, mass);
    assert Share(count, mass) == count as real / mass + SMOOTHING / mass;
  }

  lemma AddScaled(s: real, p: real, mass: real, a: real, b: real)
    requires s * mass == a && p * mass == b
    ensures (s + p) * mass == a + b
  {
  }

  /** The shares add up to the counts they were taken of. */
  ghost predicate Accounted(counts: seq<nat>, mass: real, ps: seq<real>) {
    Sum(ps) * mass == Total(counts) as real + SMOOTHING * |counts| as real
  }

  lemma NothingAccounted(mass: real)
    ensures Accounted([], mass, [])
  {
  }

  lemma SmoothedSumStep(t: seq<nat>, count: nat, ps: seq<real>, mass: real)
    requires mass > 0.0 && Accounted(t, mass, ps)
    ensures Accounted(t + [count], mass, ps + [Share(count, mass)])
  {
    assert (t + [count])[..|t|] == t;
    assert Total(t + [count]) == Total(t) + count;
    assert |t + [count]| as real == |t| as real + 1.0;
    var p := Share(count, mass);
    assert Sum(ps + [p]) == Sum(ps) + p by { SumConcat(ps, [p]); }
    ShareSound(count, mass);
    hide Sum, Total, Share;
    AddScaled(Sum(ps), p, mass, Total(t) as real + SMOOTHING * |t| as real, count as real + SMOOTHING);
  }

  lemma {:induction false} SmoothedSum(counts: seq<nat>, mass: real, ps: seq<real>)
    requires mass > 0.0 && |ps| == |counts|
    requires forall i :: 0 <= i < |counts| ==> ps[i] == Share(counts[i], mass)
    ensures Accounted(counts, mass, ps)
    decreases |counts|
  {
    hide *;
    if counts == [] {
      NothingAccounted(mass);
      assert ps == [];
    } else {
      var n := |counts| - 1;
      SmoothedSum(counts[..n], mass, ps[..n]);
      SmoothedSumStep(counts[..n], counts[n], ps[..n], mass);
      assert counts == counts[..n] + [counts[n]] && ps == ps[..n] + [ps[n]];
    }
  }

  lemma ProbabilityOf(counts: seq<nat>)
    requires counts != []
    ensures forall i :: 0 <= i < |counts| ==> Probabilities(counts)[i] == Share(counts[i], Mass(counts))
  {
  }

  lemma AccountedMass(counts: seq<nat>, ps: seq<real>)
    requires counts != [] && Accounted(counts, Mass(counts), ps)
    ensures Sum(ps) == 1.0
  {
    OneByDivision(Sum(ps), Mass(counts));
  }

  /** Smoothing makes every bin strictly positive, bounded below by the smoothing share, and the
      whole a probability distribution. */
  lemma ProbabilitiesSound(counts: seq<nat>)
    requires counts != []
    ensures forall i :: 0 <= i < |counts| ==> Probabilities(counts)[i] >= SMOOTHING / Mass(counts) > 0.0
    ensures Sum(Probabilities(counts)) == 1.0
  {
    hide Probabilities, Share, Mass, Sum, Accounted, Total;
    SharesAboveFloor(counts);
    ProbabilityOf(counts);
    SmoothedSum(counts, Mass(counts), Probabilities(counts));
    AccountedMass(counts, Probabilities(counts));
  }

  lemma SharesAboveFloor(counts: seq<nat>)
    requires counts != []
    ensures forall i :: 0 <= i < |counts| ==> Probabilities(counts)[i] >= SMOOTHING / Mass(counts) > 0.0
  {
    hide Probabilities, Share, Mass;
    ProbabilityOf(counts);
    forall i | 0 <= i < |counts| ensures Probabilities(counts)[i] >= SMOOTHING / Mass(counts) > 0.0 {
      ShareSound(counts[i], Mass(counts));
    }
  }

  lemma OneByDivision(s: real, mass: real)
    requires mass > 0.0 && s * mass == mass
    ensures s == 1.0
  {
  }

  // ---------------------------------------------------------------- Kullback-Leibler divergence

  function Floored(reference: real): real {
    Max(reference, FLOOR)
  }

  function FlooredSum(reference: seq<real>): real {
    if reference == [] then 0.0 else Floored(reference[0]) + FlooredSum(reference[1..])
  }

  function Divergence(m: MathLib, current: seq<real>, reference: seq<real>): real
    requires |current| <= |reference|
  {
    if current == [] then 0.0
    else current[0] * m.ln(current[0] / Floored(reference[0])) + Divergence(m, current[1..], reference[1..])
  }

  lemma DivergenceTerm(m: MathLib, v: real, r: real)
    requires Sound(m) && v > 0.0 && r > 0.0
    ensures v * m.ln(v / r) >= v - r
  {
    var x := v / r;
    assert x > 0.0 by { QuotientBounds(v, r); }
    assert x * r == v;
    assert (1.0 / x) * v == r by { InverseOfQuotient(v, r, x); }
    LogAtLeast(m.ln, x);
    hide *;
    ScaledBound(v, m.ln(x), 1.0 / x, r);
  }

  lemma InverseOfQuotient(v: real, r: real, x: real)
    requires x > 0.0 && x * r == v
    ensures (1.0 / x) * v == r
  {
    var y := 1.0 / x;
    assert y * x == 1.0;
    assert y * (x * r) == (y * x) * r;
  }

  lemma ScaledBound(v: real, l: real, w: real, r: real)
    requires v > 0.0 && l >= 1.0 - w && w * v == r
    ensures v * l >= v - r
  {
    var slack := l - (1.0 - w);
    assert v * slack >= 0.0;
    assert v * l == v * slack + v - w * v;
  }

  /** Gibbs' inequality from the tangent bound and the product law: the divergence is at least the mass of the
      current histogram minus the mass of the floored reference. */
  lemma {:induction false} DivergenceAtLeast(m: MathLib, current: seq<real>, reference: seq<real>)
    requires Sound(m) && |current| == |reference|
    requires forall i :: 0 <= i < |current| ==> current[i] > 0.0
    ensures Divergence(m, current, reference) >= Sum(current) - FlooredSum(reference)
  {
    if current != [] {
      DivergenceAtLeast(m, current[1..], reference[1..]);
      DivergenceTerm(m, current[0], Floored(reference[0]));
    }
  }

  lemma LogAtLeastOne(ln: real -> real, x: real)
    requires IsLog(ln) && x >= 4.0
    ensures ln(x) >= 1.0
  {
    assert LogOfProduct(ln, 2.0, 2.0) && 2.0 * 2.0 == 4.0;
    LogAtLeast(ln, 2.0);
    var y := x / 4.0;
    assert LogOfProduct(ln, 4.0, y) && 4.0 * y == x;
    LogAtLeast(ln, y);
  }

  /** A share well above the floor outweighs even an empty reference bin. */
  lemma DivergenceTermAboveFloor(m: MathLib, v: real, r: real)
    requires Sound(m) && v >= 4.0 * FLOOR && r >= 0.0
    ensures v * m.ln(v / Floored(r)) >= v - r
  {
    if r >= FLOOR {
      DivergenceTerm(m, v, r);
    } else {
      var l := m.ln(v / FLOOR);
      assert v / FLOOR >= 4.0;
      LogAtLeastOne(m.ln, v / FLOOR);
      assert v * (l - 1.0) >= 0.0;
    }
  }

  /** When every share is well above the floor, the bound needs no flooring. */
  lemma {:induction false} DivergenceAtLeastUnfloored(m: MathLib, current: seq<real>, reference: seq<real>)
    requires Sound(m) && |current| == |reference|
    requires forall i :: 0 <= i < |current| ==> current[i] >= 4.0 * FLOOR && reference[i] >= 0.0
    ensures Divergence(m, current, reference) >= Sum(current) - Sum(reference)
  {
    if current != [] {
      DivergenceAtLeastUnfloored(m, current[1..], reference[1..]);
      DivergenceTermAboveFloor(m, current[0], reference[0]);
    }
  }

  lemma NegativeTerm(m: MathLib, v: real, r: real)
    requires Sound(m) && 0.0 < v < r
    ensures v * m.ln(v / r) < 0.0
  {
    QuotientBounds(v, r);
    QuotientBelowOne(v, r);
    var l := m.ln(v / r);
    assert l < 0.0;
    assert v * -l > 0.0;
  }

  lemma NoDivergence(m: MathLib, current: seq<real>, reference: seq<real>)
    requires |current| == 0
    ensures |current| <= |reference| && Divergence(m, current, reference) == 0.0
  {
  }

  /** Where every share is below its floored reference, the divergence is negative. */
  lemma {:induction false} DivergenceNegative(m: MathLib, current: seq<real>, reference: seq<real>)
    requires Sound(m) && current != [] && |current| == |reference|
    requires forall i :: 0 <= i < |current| ==> 0.0 < current[i] < Floored(reference[i])
    ensures Divergence(m, current, reference) < 0.0
  {
    NegativeTerm(m, current[0], Floored(reference[0]));
    var rest := Divergence(m, current[1..], reference[1..]);
    assert Divergence(m, current, reference) == current[0] * m.ln(current[0] / Floored(reference[0])) + rest;
    hide Divergence, Floored, Sound;
    if |current| == 1 {
      NoDivergence(m, current[1..], reference[1..]);
    } else {
      DivergenceNegative(m, current[1..], reference[1..]);
    }
  }

  lemma {:induction false} FlooredSumConcat(a: seq<real>, b: seq<real>)
    ensures FlooredSum(a + b) == FlooredSum(a) + FlooredSum(b)
  {
    if a == [] {
      assert a + b == b;
    } else {
      assert (a + b)[0] == a[0] && (a + b)[1..] == a[1..] + b;
      FlooredSumConcat(a[1..], b);
    }
  }

  /** Where no reference bin is below the floor, flooring changes nothing. */
  lemma {:induction false} FlooredSumExact(reference: seq<real>)
    requires forall i :: 0 <= i < |reference| ==> reference[i] >= FLOOR
    ensures FlooredSum(reference) == Sum(reference)
  {
    if reference != [] {
      FlooredSumExact(reference[1..]);
    }
  }

  /** A four-bin reference counted from at most 999 999 amounts stays above the floor, so its
      divergence from any distribution is never negative. */
  lemma ReferenceAboveFloor(counts: seq<nat>)
    requires |counts| == 4 && Total(counts) < 1_000_000
    ensures FlooredSum(Probabilities(counts)) == 1.0
  {
    ProbabilitiesSound(counts);
    var mass := Mass(counts);
    assert 0.0 < mass <= 1_000_000.0;
    SmallShare(mass);
    FlooredSumExact(Probabilities(counts));
  }

  lemma SmallShare(mass: real)
    requires 0.0 < mass <= 1_000_000.0
    ensures SMOOTHING / mass >= FLOOR
  {
    assert (SMOOTHING / mass) * mass == SMOOTHING;
  }
}
