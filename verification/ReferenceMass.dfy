/** For which baselines every non-empty window has a feature vector: exactly those whose floored reference
    histogram has mass at most one. A heavier reference passes validation, which allows a mass of 1.001
    and empty bins, and then some window's divergence is negative. */
module ReferenceMass {
  import opened Features
  import opened Histogram
  import opened Instants
  import opened LiveFeatures
  import opened RealMath
  import opened Sequences
  import opened Wrappers

  /** Transactions the service accepts, at least one of them in the hold's window, always build. */
  ghost predicate EveryWindowBuilds(m: MathLib, merchant: string, triggeredAt: int, b: Baseline, windowHours: nat)
    requires ValidBaseline(b) && |b.edges| >= 2 && windowHours >= 1
  {
    forall transactions: seq<Event> ::
      (forall e | e in transactions :: ValidEvent(e))
      && SomeInWindow(merchant, triggeredAt - windowHours * HOUR, triggeredAt, transactions) ==>
        BuildFeatures(m, merchant, triggeredAt, b, transactions, windowHours).Success?
  }

  // ---------------------------------------------------------------- amounts with given counts

  /** Every bin holds a positive amount: only the first could fail to. */
  predicate BinsReachable(edges: seq<real>) {
    |edges| == 2 || (|edges| > 2 && edges[1] > 0.0)
  }

  function Representative(edges: seq<real>, bin: nat): real
    requires |edges| >= 2 && bin < |edges| - 1
  {
    if bin > 0 then edges[bin] else if |edges| == 2 then 1.0 else edges[1] / 2.0
  }

  lemma RepresentativeInBin(edges: seq<real>, bin: nat)
    requires BinsReachable(edges) && Increasing(edges) && bin < |edges| - 1
    ensures Representative(edges, bin) > 0.0 && BinOf(Representative(edges, bin), edges) == Some(bin)
  {
    BinMeaning(Representative(edges, bin), edges, bin);
    hide BinOf;
    if bin > 1 {
      assert edges[1] < edges[bin];
    }
  }

  /** Positive amounts exist with any given counts. */
  lemma {:induction false} AmountsWithCounts(edges: seq<real>, counts: seq<nat>) returns (amounts: seq<real>)
    requires BinsReachable(edges) && Increasing(edges) && |counts| == |edges| - 1
    ensures Tally(amounts, edges) == counts
    ensures forall x | x in amounts :: x > 0.0
    decreases Total(counts)
  {
    if bin: nat :| bin < |counts| && counts[bin] > 0 {
      var fewer := counts[bin := counts[bin] - 1];
      BumpTotal(fewer, bin);
      assert fewer[bin := fewer[bin] + 1] == counts;
      var rest := AmountsWithCounts(edges, fewer);
      RepresentativeInBin(edges, bin);
      var x := Representative(edges, bin);
      amounts := rest + [x];
      assert amounts[..|amounts| - 1] == rest;
    } else {
      amounts := [];
      assert Repeat(0, |edges| - 1) == counts;
    }
  }

  // ---------------------------------------------------------------- a window the reference outweighs

  /** Counts proportional to the floored reference, rounded down. */
  function ScaledCounts(reference: seq<real>, scale: nat): (counts: seq<nat>)
    ensures |counts| == |reference|
  {
    seq(|reference|, i requires 0 <= i < |reference| => ScaledCount(reference[i], scale))
  }

  function ScaledCount(r: real, scale: nat): (c: nat)
    ensures scale as real * Floored(r) - 1.0 < c as real <= scale as real * Floored(r)
  {
    var x := scale as real * Floored(r);
    assert x >= 0.0 by { ScaledNonNegative(scale as real, Floored(r)); }
    x.Floor
  }

  lemma ScaledNonNegative(x: real, y: real)
    requires x >= 0.0 && y >= 0.0
    ensures x * y >= 0.0
  {
  }

  lemma FlooredSumLast(front: seq<real>, last: real)
    ensures FlooredSum(front + [last]) == FlooredSum(front) + Floored(last)
  {
    FlooredSumConcat(front, [last]);
    assert FlooredSum([last]) == Floored(last);
  }

  lemma Distributes(x: real, y: real, z: real)
    ensures x * (y + z) == x * y + x * z
  {
  }

  lemma ScaledPrefix(reference: seq<real>, scale: nat, n: nat)
    requires n < |reference|
    ensures ScaledCounts(reference, scale)[..n] == ScaledCounts(reference[..n], scale)
    ensures ScaledCounts(reference, scale)[n] == ScaledCount(reference[n], scale)
  {
    hide ScaledCount;
  }

  lemma ScaledNone(scale: nat)
    ensures FlooredSum([]) == 0.0 && Total(ScaledCounts([], scale)) == 0
  {
  }

  /** Rounding loses at most one in each bin. */
  lemma {:induction false} ScaledTotal(reference: seq<real>, scale: nat)
    ensures Total(ScaledCounts(reference, scale)) as real
            >= scale as real * FlooredSum(reference) - |reference| as real
    decreases |reference|
  {
    hide FlooredSum, ScaledCounts, ScaledCount, Floored;
    if reference == [] {
      ScaledNone(scale);
    } else {
      var n := |reference| - 1;
      var front, last := reference[..n], reference[n];
      ScaledTotal(front, scale);
      ScaledPrefix(reference, scale, n);
      assert reference == front + [last];
      FlooredSumLast(front, last);
      Distributes(scale as real, FlooredSum(front), Floored(last));
    }
  }

  /** A scale large enough that the excess mass outweighs rounding and smoothing. */
  function ScaleFor(excess: real, bins: nat): (scale: nat)
    requires excess > 0.0
    ensures scale as real * excess >= 1_000_000.0 + bins as real
  {
    var x := (1_000_000.0 + bins as real) / excess;
    assert x * excess == 1_000_000.0 + bins as real;
    assert x >= 0.0;
    var scale := x.Floor + 1;
    assert (scale as real - x) * excess >= 0.0 by { ScaledNonNegative(scale as real - x, excess); }
    scale
  }

  /** So the counts outweigh their scale by the smoothing any bin could need. */
  lemma ScaledMass(reference: seq<real>, scale: nat)
    requires reference != []
    requires scale as real * (FlooredSum(reference) - 1.0) >= 1_000_000.0 + |reference| as real
    ensures Total(ScaledCounts(reference, scale)) > 0
    ensures Mass(ScaledCounts(reference, scale)) > scale as real + 1_000_000.0
  {
    var total, factor, mass := FlooredSum(reference), scale as real, Mass(ScaledCounts(reference, scale));
    ScaledTotal(reference, scale);
    assert factor * (total - 1.0) == factor * total - factor;
    hide FlooredSum, Total, ScaledCounts;
    assert mass > Total(ScaledCounts(reference, scale)) as real;
  }

  /** Shares of such counts are all below the floored reference. */
  lemma ScaledSharesBelow(reference: seq<real>, scale: nat)
    requires reference != []
    requires scale as real * (FlooredSum(reference) - 1.0) >= 1_000_000.0 + |reference| as real
    ensures var counts := ScaledCounts(reference, scale);
      forall i :: 0 <= i < |counts| ==> 0.0 < Probabilities(counts)[i] < Floored(reference[i])
  {
    hide FlooredSum, Total, Mass, Probabilities, Floored, Share;
    var counts := ScaledCounts(reference, scale);
    ScaledMass(reference, scale);
    ProbabilityOf(counts);
    forall i | 0 <= i < |counts| ensures 0.0 < Probabilities(counts)[i] < Floored(reference[i]) {
      FlooredPositive(reference[i]);
      ShareBelow(counts[i], Mass(counts), scale as real, Floored(reference[i]));
    }
  }

  lemma FlooredPositive(r: real)
    ensures Floored(r) >= FLOOR
  {
  }

  lemma ShareBelow(count: nat, mass: real, factor: real, r: real)
    requires r >= FLOOR && factor >= 0.0 && count as real <= factor * r && mass > factor + 1_000_000.0
    ensures 0.0 < Share(count, mass) < r
  {
    ShareSound(count, mass);
    assert (mass - (factor + 1_000_000.0)) * r > 0.0;
    LessByProduct(Share(count, mass), r, mass);
  }

  lemma LessByProduct(s: real, r: real, mass: real)
    requires mass > 0.0 && s * mass < r * mass
    ensures s < r
  {
  }

  // ---------------------------------------------------------------- the theorem

  /** Transactions of the merchant at the hold's own instant, one for each amount. */
  function Sales(merchant: string, at: int, amounts: seq<real>): seq<Event> {
    Map(amounts, (x: real) => Event("t", merchant, at, x, "d", "g", APPROVED, None, None))
  }

  lemma SalesWindow(merchant: string, at: int, amounts: seq<real>, windowHours: nat)
    requires amounts != [] && 1 <= |merchant| <= 128 && forall x | x in amounts :: x > 0.0
    ensures var start := at - windowHours * HOUR; var sales := Sales(merchant, at, amounts);
      && WindowAmounts(merchant, start, at, sales) == amounts
      && SomeInWindow(merchant, start, at, sales)
      && (forall e | e in sales :: ValidEvent(e))
  {
    var start, sales := at - windowHours * HOUR, Sales(merchant, at, amounts);
    assert forall e | e in sales :: e.merchant == merchant && e.at == at && e.amount in amounts;
    FilterAll(sales, InHoldWindow(merchant, start, at));
    SortOfSorted(sales, ByTime);
    assert sales[0] in sales;
    hide Filter, StableSort;
  }

  /** An overweight reference has a window it fails. */
  lemma OverweightFails(m: MathLib, merchant: string, triggeredAt: int, b: Baseline, windowHours: nat)
    requires Sound(m) && ValidBaseline(b) && BinsReachable(b.edges) && windowHours >= 1
    requires 1 <= |merchant| <= 128 && FlooredSum(b.probabilities) > 1.0
    ensures !EveryWindowBuilds(m, merchant, triggeredAt, b, windowHours)
  {
    var reference := b.probabilities;
    var scale := ScaleFor(FlooredSum(reference) - 1.0, |reference|);
    var counts := ScaledCounts(reference, scale);
    ScaledMass(reference, scale);
    ScaledSharesBelow(reference, scale);
    IncreasingFromNeighbours(b.edges);
    var amounts := AmountsWithCounts(b.edges, counts);
    TallyTotal(amounts, b.edges);
    DivergenceNegative(m, Probabilities(counts), reference);
    assert AmountDivergence(m, b, amounts) < 0.0;
    hide *;
    SalesWindow(merchant, triggeredAt, amounts, windowHours);
    BuildTotal(m, merchant, triggeredAt, b, Sales(merchant, triggeredAt, amounts), windowHours);
    NotEvery(m, merchant, triggeredAt, b, windowHours, Sales(merchant, triggeredAt, amounts));
  }

  lemma NotEvery(m: MathLib, merchant: string, triggeredAt: int, b: Baseline, windowHours: nat, sales: seq<Event>)
    requires ValidBaseline(b) && |b.edges| >= 2 && windowHours >= 1
    requires forall e | e in sales :: ValidEvent(e)
    requires SomeInWindow(merchant, triggeredAt - windowHours * HOUR, triggeredAt, sales)
    requires BuildFeatures(m, merchant, triggeredAt, b, sales, windowHours).Failure?
    ensures !EveryWindowBuilds(m, merchant, triggeredAt, b, windowHours)
  {
    hide BuildFeatures, SomeInWindow, ValidEvent, ValidBaseline;
  }

  /** Every non-empty window builds exactly when the floored reference has mass at most one. */
  lemma EveryWindowBuildsExactly(m: MathLib, merchant: string, triggeredAt: int, b: Baseline, windowHours: nat)
    requires Sound(m) && ValidBaseline(b) && BinsReachable(b.edges) && windowHours >= 1
    requires 1 <= |merchant| <= 128
    ensures EveryWindowBuilds(m, merchant, triggeredAt, b, windowHours) <==> FlooredSum(b.probabilities) <= 1.0
  {
    if FlooredSum(b.probabilities) > 1.0 {
      OverweightFails(m, merchant, triggeredAt, b, windowHours);
    } else {
      LightBuilds(m, merchant, triggeredAt, b, windowHours);
    }
  }

  /** The half that needs nothing of the edges. */
  lemma LightBuilds(m: MathLib, merchant: string, triggeredAt: int, b: Baseline, windowHours: nat)
    requires Sound(m) && ValidBaseline(b) && |b.edges| >= 2 && windowHours >= 1
    requires FlooredSum(b.probabilities) <= 1.0
    ensures EveryWindowBuilds(m, merchant, triggeredAt, b, windowHours)
  {
    hide BuildFeatures, SomeInWindow, ValidEvent, ValidBaseline, FlooredSum, AmountDivergence, WindowAmounts;
    var start := triggeredAt - windowHours * HOUR;
    forall transactions: seq<Event> | SomeInWindow(merchant, start, triggeredAt, transactions)
      ensures BuildFeatures(m, merchant, triggeredAt, b, transactions, windowHours).Success?
    {
      BuildTotal(m, merchant, triggeredAt, b, transactions, windowHours);
      DivergenceNonNegative(m, b, WindowAmounts(merchant, start, triggeredAt, transactions));
    }
  }

  /** Whatever bins are empty, a reference of mass at most one before flooring builds every window that is
      not empty and not larger than about 250 000 transactions. */
  lemma SmallWindowBuilds(m: MathLib, merchant: string, triggeredAt: int, b: Baseline, transactions: seq<Event>,
                          windowHours: nat)
    requires Sound(m) && ValidBaseline(b) && |b.edges| >= 2 && windowHours >= 1 && Sum(b.probabilities) <= 1.0
    requires var amounts := WindowAmounts(merchant, triggeredAt - windowHours * HOUR, triggeredAt, transactions);
      |amounts| as real + SMOOTHING * |b.probabilities| as real <= 250_000.0
    ensures BuildFeatures(m, merchant, triggeredAt, b, transactions, windowHours).Success? <==>
            SomeInWindow(merchant, triggeredAt - windowHours * HOUR, triggeredAt, transactions)
  {
    hide BuildFeatures, SomeInWindow, ValidBaseline, Sum, AmountDivergence, WindowAmounts;
    BuildTotal(m, merchant, triggeredAt, b, transactions, windowHours);
    DivergenceNonNegativeSmall(m, b,
        WindowAmounts(merchant, triggeredAt - windowHours * HOUR, triggeredAt, transactions));
  }

  // ---------------------------------------------------------------- two baselines the validation accepts

  function WithReference(edges: seq<real>, probabilities: seq<real>): Baseline {
    Baseline(1.0, 1.0, 1.0, 1.0, 1.0, 1.0, 0.0, 1.0, 0.0, 1.0, {}, {}, edges, probabilities)
  }

  /** One bin of mass 1.001: valid, and no window whatever builds. */
  lemma OverweightBinNeverBuilds(m: MathLib, merchant: string, triggeredAt: int, transactions: seq<Event>,
                                 windowHours: nat)
    requires Sound(m) && windowHours >= 1
    ensures var b := WithReference([0.0, 1000.0], [1.001]);
      && ValidBaseline(b)
      && BuildFeatures(m, merchant, triggeredAt, b, transactions, windowHours).Failure?
  {
    var b := WithReference([0.0, 1000.0], [1.001]);
    OneShare([1.001]);
    assert ValidBaseline(b);
    var amounts := WindowAmounts(merchant, triggeredAt - windowHours * HOUR, triggeredAt, transactions);
    var counts := Tally(amounts, b.edges);
    ProbabilitiesSound(counts);
    OneShare(Probabilities(counts));
    DivergenceNegative(m, Probabilities(counts), b.probabilities);
    assert AmountDivergence(m, b, amounts) < 0.0;
    hide *;
    BuildTotal(m, merchant, triggeredAt, b, transactions, windowHours);
  }

  lemma OneShare(ps: seq<real>)
    requires |ps| == 1
    ensures Sum(ps) == ps[0]
  {
    assert ps[1..] == [];
  }

  /** Mass exactly one with an empty bin: every window below 250 000 transactions builds, and some larger
      one does not. */
  lemma EmptyBinSometimesFails(m: MathLib, merchant: string, triggeredAt: int, windowHours: nat)
    requires Sound(m) && windowHours >= 1 && 1 <= |merchant| <= 128
    ensures var b := WithReference([0.0, 100.0, 1000.0], [1.0, 0.0]); var start := triggeredAt - windowHours * HOUR;
      && ValidBaseline(b)
      && (forall transactions: seq<Event> | |WindowAmounts(merchant, start, triggeredAt, transactions)| < 250_000 ::
            BuildFeatures(m, merchant, triggeredAt, b, transactions, windowHours).Success?
            <==> SomeInWindow(merchant, start, triggeredAt, transactions))
      && !EveryWindowBuilds(m, merchant, triggeredAt, b, windowHours)
  {
    var b, start := WithReference([0.0, 100.0, 1000.0], [1.0, 0.0]), triggeredAt - windowHours * HOUR;
    EmptyBinBaseline();
    hide BuildFeatures, SomeInWindow, ValidBaseline, Sum, FlooredSum, WindowAmounts, EveryWindowBuilds;
    OverweightFails(m, merchant, triggeredAt, b, windowHours);
    forall transactions: seq<Event> | |WindowAmounts(merchant, start, triggeredAt, transactions)| < 250_000
      ensures BuildFeatures(m, merchant, triggeredAt, b, transactions, windowHours).Success?
              <==> SomeInWindow(merchant, start, triggeredAt, transactions)
    {
      assert |WindowAmounts(merchant, start, triggeredAt, transactions)| as real <= 249_999.0;
      SmallWindowBuilds(m, merchant, triggeredAt, b, transactions, windowHours);
    }
  }

  lemma EmptyBinBaseline()
    ensures var b := WithReference([0.0, 100.0, 1000.0], [1.0, 0.0]);
      ValidBaseline(b) && Sum(b.probabilities) == 1.0 && FlooredSum(b.probabilities) > 1.0
  {
    var ps := [1.0, 0.0];
    assert ps[1..] == [0.0] && ps[1..][1..] == [];
    assert Sum(ps) == 1.0 + Sum([0.0]) && Sum([0.0]) == 0.0;
    assert FlooredSum(ps) == 1.0 + FlooredSum([0.0]) && FlooredSum([0.0]) == FLOOR;
  }
}
