/** What each of the thirteen features says of the transactions in the hold's window. */
module FeatureMeaning {
  import opened Features
  import opened Histogram
  import opened Instants
  import opened RealMath
  import opened Regression
  import opened Sequences
  import opened Wrappers

  // ---------------------------------------------------------------- the window

  /** The window holds the merchant's transactions from its first to its last instant, each as often as it
      was given, in time order. */
  lemma WindowExactly(merchant: string, start: int, end: int, transactions: seq<Event>)
    ensures var events := WindowEvents(merchant, start, end, transactions);
      && (forall i, j :: 0 <= i < j < |events| ==> events[i].at <= events[j].at)
      && (forall e :: multiset(events)[e]
            == if e.merchant == merchant && start <= e.at <= end then multiset(transactions)[e] else 0)
  {
    var kept := Filter(transactions, InHoldWindow(merchant, start, end));
    SortSorted(kept, ByTime);
    SortMultiset(kept, ByTime);
    FilterMultiset(transactions, InHoldWindow(merchant, start, end));
    hide Filter, StableSort;
    var events := WindowEvents(merchant, start, end, transactions);
    forall i, j | 0 <= i < j < |events| ensures events[i].at <= events[j].at {
      assert ByTime(events[i], events[j]);
    }
  }

  // ---------------------------------------------------------------- scores and shares

  /** The amounts of the events, added up one after another. */
  ghost function Turnover(events: seq<Event>): real {
    if events == [] then 0.0 else Turnover(events[..|events| - 1]) + events[|events| - 1].amount
  }

  lemma {:induction false} TurnoverIsSum(events: seq<Event>)
    ensures Sum(Map(events, AmountOf)) == Turnover(events)
  {
    if events != [] {
      var t, e := events[..|events| - 1], events[|events| - 1];
      TurnoverIsSum(t);
      assert events == t + [e];
      MapAppend(t, e, AmountOf);
      SumConcat(Map(t, AmountOf), [e.amount]);
      OneTerm(e.amount);
    }
  }

  lemma OneTerm(x: real)
    ensures Sum([x]) == x
  {
    assert [x][1..] == [];
  }

  /** The score, undone: times the deviation plus the mean it is the value. */
  ghost predicate Scores(score: real, mean: real, std: real, value: real) {
    score * std + mean == value
  }

  /** The same for a value that is a total shared among `n`. */
  ghost predicate ScoresEach(score: real, mean: real, std: real, n: nat, total: real) {
    (score * std + mean) * n as real == total
  }

  /** The ratio, undone. */
  ghost predicate IsPart(ratio: real, n: nat, part: nat) {
    ratio * n as real == part as real
  }

  lemma ScoreUndone(value: real, mean: real, std: real)
    requires std > 0.0
    ensures Scores(ZScore(value, mean, std), mean, std, value)
  {
  }

  lemma RatioUndone(part: nat, whole: nat)
    requires whole > 0
    ensures IsPart(Ratio(part, whole), whole, part)
  {
  }

  lemma MeanUndone(xs: seq<real>)
    requires xs != []
    ensures Mean(xs) * |xs| as real == Sum(xs)
  {
  }

  /** The window's own figures behind the five scores. */
  ghost predicate ScoresMeant(b: Baseline, events: seq<Event>, triggeredAt: int, v: FeatureVector) {
    && Scores(v.volumeDeltaZ, b.volumeMean, b.volumeStd, |events| as real)
    && Scores(v.gmvDeltaZ, b.gmvMean, b.gmvStd, Turnover(events))
    && ScoresEach(v.ticketSizeDeltaZ, b.ticketMean, b.ticketStd, |events|, Turnover(events))
    && ScoresEach(v.refundRateDeltaZ, b.refundMean, b.refundStd, |events|, |RefundedSet(events, triggeredAt)| as real)
    && ScoresEach(v.chargebackRateDeltaZ, b.chargebackMean, b.chargebackStd, |events|,
                  |ChargedBackSet(events, triggeredAt)| as real)
  }

  /** The events counted by the three ratios. */
  ghost predicate SharesMeant(b: Baseline, events: seq<Event>, v: FeatureVector) {
    && IsPart(v.newDeviceRatio, |events|, |set i: nat | i < |events| && events[i].device !in b.knownDevices|)
    && IsPart(v.newGeoRatio, |events|, |set i: nat | i < |events| && events[i].geo !in b.knownGeos|)
    && IsPart(v.failedAuthRatio, |events|, |set i: nat | i < |events| && events[i].auth == FAILED|)
  }

  ghost function RefundedSet(events: seq<Event>, asOf: int): set<nat> {
    set i: nat | i < |events| && events[i].refundAt.Some? && events[i].refundAt.value <= asOf
  }

  ghost function ChargedBackSet(events: seq<Event>, asOf: int): set<nat> {
    set i: nat | i < |events| && events[i].chargebackAt.Some? && events[i].chargebackAt.value <= asOf
  }

  lemma RefundCount(events: seq<Event>, asOf: int)
    ensures |Filter(events, RefundKnownBy(asOf))| == |RefundedSet(events, asOf)|
  {
    FilterCount(events, RefundKnownBy(asOf), RefundedSet(events, asOf));
  }

  lemma ChargebackCount(events: seq<Event>, asOf: int)
    ensures |Filter(events, ChargebackKnownBy(asOf))| == |ChargedBackSet(events, asOf)|
  {
    FilterCount(events, ChargebackKnownBy(asOf), ChargedBackSet(events, asOf));
  }

  lemma UnknownDevices(events: seq<Event>, known: set<string>)
    ensures |Filter(Map(events, DeviceOf), OutsideSet(known))|
            == |set i: nat | i < |events| && events[i].device !in known|
  {
    FilterCount(Map(events, DeviceOf), OutsideSet(known), set i: nat | i < |events| && events[i].device !in known);
  }

  lemma UnknownGeos(events: seq<Event>, known: set<string>)
    ensures |Filter(Map(events, GeoOf), OutsideSet(known))|
            == |set i: nat | i < |events| && events[i].geo !in known|
  {
    FilterCount(Map(events, GeoOf), OutsideSet(known), set i: nat | i < |events| && events[i].geo !in known);
  }

  lemma FailedCount(events: seq<Event>)
    ensures |Filter(events, FailedAuth)| == |set i: nat | i < |events| && events[i].auth == FAILED|
  {
    FilterCount(events, FailedAuth, set i: nat | i < |events| && events[i].auth == FAILED);
  }

  lemma ShareScore(part: nat, whole: nat, mean: real, std: real)
    requires whole > 0 && std > 0.0
    ensures ScoresEach(ZScore(Ratio(part, whole), mean, std), mean, std, whole, part as real)
  {
    hide ZScore, Ratio;
    ScoreUndone(Ratio(part, whole), mean, std);
    RatioUndone(part, whole);
  }

  lemma TicketScore(amounts: seq<real>, mean: real, std: real)
    requires amounts != [] && std > 0.0
    ensures ScoresEach(ZScore(Mean(amounts), mean, std), mean, std, |amounts|, Sum(amounts))
  {
    hide ZScore, Mean;
    ScoreUndone(Mean(amounts), mean, std);
    MeanUndone(amounts);
  }

  lemma VectorScores(m: MathLib, b: Baseline, events: seq<Event>, windowHours: nat, triggeredAt: int)
    requires ValidBaseline(b) && |b.edges| >= 2 && events != [] && windowHours >= 1
    ensures ScoresMeant(b, events, triggeredAt, Vector(m, b, events, windowHours, triggeredAt))
  {
    hide ZScore, Mean, Sum, Ratio, Filter, Turnover, VolumeSlope, Variation, Entropy, AmountDivergence, Gaps,
        RefundKnownBy, ChargebackKnownBy, OutsideSet, Scores, ScoresEach, RefundedSet, ChargedBackSet;
    var amounts, volume := Map(events, AmountOf), |events|;
    RefundCount(events, triggeredAt);
    ChargebackCount(events, triggeredAt);
    TurnoverIsSum(events);
    ScoreUndone(volume as real, b.volumeMean, b.volumeStd);
    ScoreUndone(Sum(amounts), b.gmvMean, b.gmvStd);
    TicketScore(amounts, b.ticketMean, b.ticketStd);
    ShareScore(|Filter(events, RefundKnownBy(triggeredAt))|, volume, b.refundMean, b.refundStd);
    ShareScore(|Filter(events, ChargebackKnownBy(triggeredAt))|, volume, b.chargebackMean, b.chargebackStd);
  }

  lemma VectorShares(m: MathLib, b: Baseline, events: seq<Event>, windowHours: nat, triggeredAt: int)
    requires ValidBaseline(b) && |b.edges| >= 2 && events != [] && windowHours >= 1
    ensures SharesMeant(b, events, Vector(m, b, events, windowHours, triggeredAt))
  {
    hide ZScore, Mean, Sum, Ratio, Filter, VolumeSlope, Variation, Entropy, AmountDivergence, Gaps, OutsideSet,
        RefundKnownBy, ChargebackKnownBy, IsPart;
    UnknownDevices(events, b.knownDevices);
    UnknownGeos(events, b.knownGeos);
    FailedCount(events);
    RatioUndone(|Filter(Map(events, DeviceOf), OutsideSet(b.knownDevices))|, |events|);
    RatioUndone(|Filter(Map(events, GeoOf), OutsideSet(b.knownGeos))|, |events|);
    RatioUndone(|Filter(events, FailedAuth)|, |events|);
  }

  // ---------------------------------------------------------------- the hourly slope

  /** The events of one hour of the window; the last hour also holds its end. */
  ghost function HourSet(events: seq<Event>, windowHours: nat, end: int, hour: nat): set<nat> {
    set i: nat | i < |events|
              && var passed := (events[i].at - (end - windowHours * HOUR)) / HOUR;
                 passed == hour || (hour == windowHours - 1 && passed > hour)
  }

  function InHour(windowHours: nat, end: int, hour: nat): int -> bool {
    (t: int) => BucketOf(t, windowHours, end) == hour
  }

  lemma {:induction false} HourCount(times: seq<int>, windowHours: nat, end: int, hour: nat)
    requires hour < windowHours
    ensures HourCounts(times, windowHours, end)[hour] == |Filter(times, InHour(windowHours, end, hour))|
  {
    if times != [] {
      var t, x := times[..|times| - 1], times[|times| - 1];
      assert times == t + [x];
      HourCount(t, windowHours, end, hour);
      FilterAppend(t, x, InHour(windowHours, end, hour));
      hide Filter;
    }
  }

  lemma HourCountExactly(events: seq<Event>, windowHours: nat, end: int, hour: nat)
    requires hour < windowHours
    ensures HourCounts(Map(events, TimeOf), windowHours, end)[hour] == |HourSet(events, windowHours, end, hour)|
  {
    HourCount(Map(events, TimeOf), windowHours, end, hour);
    FilterCount(Map(events, TimeOf), InHour(windowHours, end, hour), HourSet(events, windowHours, end, hour));
  }

  ghost function PerHour(events: seq<Event>, windowHours: nat, end: int): (r: seq<real>)
    ensures |r| == windowHours
  {
    seq(windowHours, h requires 0 <= h < windowHours => |HourSet(events, windowHours, end, h)| as real)
  }

  /** No line fits the numbers of events per hour better than one with this slope; a single hour has none. */
  ghost predicate SlopeMeant(events: seq<Event>, windowHours: nat, end: int, slope: real) {
    var counts := PerHour(events, windowHours, end);
    (windowHours == 1 ==> slope == 0.0) && BestSlope(counts, slope)
  }

  lemma PerHourCounts(events: seq<Event>, windowHours: nat, end: int)
    ensures Map(HourCounts(Map(events, TimeOf), windowHours, end), AsReal) == PerHour(events, windowHours, end)
  {
    hide HourCounts, HourSet;
    forall h: nat | h < windowHours
      ensures HourCounts(Map(events, TimeOf), windowHours, end)[h] == |HourSet(events, windowHours, end, h)|
    {
      HourCountExactly(events, windowHours, end, h);
    }
  }

  /** Some line with this slope is the best there is. */
  ghost predicate BestSlope(counts: seq<real>, slope: real) {
    exists a0: real :: forall a, b: real :: SquaredError(counts, a0, slope) <= SquaredError(counts, a, b)
  }

  lemma SlopeIsBest(counts: seq<real>)
    requires counts != []
    ensures BestSlope(counts, Slope(counts))
  {
    hide Slope, SquaredError, Mean, MeanIndex;
    var s := Slope(counts);
    var a0 := Mean(counts) - s * MeanIndex(|counts|);
    assert LineError(counts, s) == SquaredError(counts, a0, s);
    forall a, b: real ensures SquaredError(counts, a0, s) <= SquaredError(counts, a, b) {
      SlopeOptimal(counts, a, b);
    }
  }

  lemma SlopeExactly(events: seq<Event>, windowHours: nat, end: int)
    requires windowHours >= 1
    ensures SlopeMeant(events, windowHours, end, VolumeSlope(Map(events, TimeOf), windowHours, end))
  {
    hide Slope, HourCounts, PerHour, BestSlope, VolumeSlope;
    var counts := PerHour(events, windowHours, end);
    PerHourCounts(events, windowHours, end);
    SlopeUnfolds(Map(events, TimeOf), windowHours, end);
    SlopeIsBest(counts);
    if windowHours == 1 {
      SlopeOfOne(counts);
    }
  }

  lemma SlopeOfOne(y: seq<real>)
    requires |y| == 1
    ensures Slope(y) == 0.0
  {
    DenominatorClosed(1);
  }

  // ---------------------------------------------------------------- the gaps

  /** Seconds between neighbouring events. */
  ghost function Waits(events: seq<Event>): (r: seq<real>)
    ensures |r| == if events == [] then 0 else |events| - 1
  {
    if |events| < 2 then []
    else seq(|events| - 1, i requires 0 <= i < |events| - 1 =>
               (events[i + 1].at - events[i].at) as real / SECOND as real)
  }

  /** The squares added up one after another. */
  ghost function PowerSum(xs: seq<real>): real {
    if xs == [] then 0.0 else PowerSum(xs[..|xs| - 1]) + xs[|xs| - 1] * xs[|xs| - 1]
  }

  /** `scaled` is what the deviation of n numbers with these sums becomes when multiplied by n. */
  ghost predicate Spreads(n: real, power: real, sum: real, scaled: real) {
    Sq(scaled) == n * power - Sq(sum)
  }

  /** With n waits spanning S seconds in all, the squared coefficient times S squared is n times their power
      sum less S squared: the variance over the squared mean. Fewer than two waits, or no time at all
      between the first and the last event, have coefficient zero. */
  ghost predicate VariationMeant(events: seq<Event>, cv: real)
    requires events != []
  {
    var n := (|events| - 1) as real;
    var span := (events[|events| - 1].at - events[0].at) as real / SECOND as real;
    if |events| < 3 || span == 0.0 then cv == 0.0
    else cv >= 0.0 && Spreads(n, PowerSum(Waits(events)), span, Prod(cv, span))
  }

  lemma {:induction false} GapsAre(events: seq<Event>)
    ensures Gaps(Map(events, TimeOf)) == Waits(events)
  {
    if |events| >= 2 {
      GapsAre(events[1..]);
      assert Map(events, TimeOf)[1..] == Map(events[1..], TimeOf);
      var rest := Waits(events[1..]);
      forall i | 0 <= i < |events| - 1 ensures Gaps(Map(events, TimeOf))[i] == Waits(events)[i] {
        if i > 0 {
          assert rest[i - 1] == Waits(events)[i];
        }
      }
    }
  }

  lemma SecondsAdd(a: int, b: int, c: int)
    ensures (b - a) as real / SECOND as real + (c - b) as real / SECOND as real == (c - a) as real / SECOND as real
  {
  }

  /** The waits add up to the time between the first and the last event. */
  lemma {:induction false} WaitsTelescope(events: seq<Event>)
    requires events != []
    ensures Sum(Waits(events)) == (events[|events| - 1].at - events[0].at) as real / SECOND as real
  {
    var n := |events| - 1;
    if n > 0 {
      var front := events[..n];
      WaitsTelescope(front);
      WaitsGrow(events);
      var last := Waits(events)[n - 1];
      SumConcat(Waits(front), [last]);
      OneTerm(last);
      SecondsAdd(events[0].at, events[n - 1].at, events[n].at);
      hide Sum;
    }
  }

  lemma WaitsGrow(events: seq<Event>)
    requires |events| >= 2
    ensures var n := |events| - 1;
            && Waits(events) == Waits(events[..n]) + [Waits(events)[n - 1]]
            && Waits(events)[n - 1] == (events[n].at - events[n - 1].at) as real / SECOND as real
  {
  }

  lemma SquareExpanded(x: real, c: real)
    ensures Sq(x - c) == x * x - 2.0 * (c * x) + c * c
  {
  }

  lemma ExpandStep(p: real, s: real, n: real, c: real, x: real, d: real)
    requires d == p - 2.0 * (c * s) + n * (c * c)
    ensures d + Sq(x - c) == (p + x * x) - 2.0 * (c * (s + x)) + (n + 1.0) * (c * c)
  {
    SquareExpanded(x, c);
    hide Sq;
    Distributed(c, s, x);
    Distributed(c * c, n, 1.0);
    Commuted(n + 1.0, c * c);
    Commuted(n, c * c);
  }

  lemma NothingExpanded(c: real)
    ensures SquaredDeviations([], c) == 0.0 && PowerSum([]) == 0.0 && Sum([]) == 0.0
  {
  }

  lemma {:induction false} DeviationsExpanded(xs: seq<real>, c: real)
    ensures SquaredDeviations(xs, c) == PowerSum(xs) - 2.0 * (c * Sum(xs)) + |xs| as real * (c * c)
  {
    hide Sum, PowerSum, SquaredDeviations, Sq;
    if xs == [] {
      NothingExpanded(c);
    } else {
      var n := |xs| - 1;
      var t, x := xs[..n], xs[n];
      assert xs == t + [x] && |xs| as real == n as real + 1.0;
      DeviationsExpanded(t, c);
      DeviationsLast(t, x, c);
      SumConcat(t, [x]);
      OneTerm(x);
      PowerLast(t, x);
      ExpandStep(PowerSum(t), Sum(t), n as real, c, x, SquaredDeviations(t, c));
    }
  }

  lemma Distributed(k: real, x: real, y: real)
    ensures k * (x + y) == k * x + k * y
  {
  }

  lemma Commuted(x: real, y: real)
    ensures x * y == y * x
  {
  }

  lemma PowerLast(t: seq<real>, x: real)
    ensures PowerSum(t + [x]) == PowerSum(t) + x * x
  {
    assert (t + [x])[..|t|] == t;
  }

  lemma {:induction false} DeviationsLast(t: seq<real>, x: real, c: real)
    ensures SquaredDeviations(t + [x], c) == SquaredDeviations(t, c) + Sq(x - c)
  {
    if t == [] {
      assert [] + [x] == [x] && [x][1..] == [];
      assert SquaredDeviations([x], c) == Sq(x - c) + SquaredDeviations([], c);
    } else {
      assert (t + [x])[1..] == t[1..] + [x] && (t + [x])[0] == t[0];
      DeviationsLast(t[1..], x, c);
    }
  }

  lemma DeviationSquared(m: MathLib, xs: seq<real>)
    requires Sound(m) && xs != []
    ensures Deviation(m, xs) >= 0.0
    ensures (Deviation(m, xs) * Deviation(m, xs)) * |xs| as real == SquaredDeviations(xs, Mean(xs))
  {
    hide SquaredDeviations, Mean;
    var n, total := |xs| as real, SquaredDeviations(xs, Mean(xs));
    DeviationNonNegative(m, xs);
    SquaredDeviationsNonNegative(xs, Mean(xs));
    QuotientBounds(total, n);
    Quotient(total, n);
    var q := total / n;
    assert m.sqrt(q) * m.sqrt(q) == q;
  }

  /** The deviation, squared: n squared times it is n times the power sum less the squared sum. */
  lemma DeviationExactly(m: MathLib, xs: seq<real>)
    requires Sound(m) && xs != []
    ensures Deviation(m, xs) >= 0.0
    ensures Spreads(|xs| as real, PowerSum(xs), Sum(xs), Prod(|xs| as real, Deviation(m, xs)))
  {
    hide Sum, Mean, Deviation, PowerSum, SquaredDeviations, Sound;
    var n, d, c := |xs| as real, Deviation(m, xs), Mean(xs);
    DeviationSquared(m, xs);
    DeviationsExpanded(xs, c);
    MeanUndone(xs);
    DeviationAlgebra(n, d, c, PowerSum(xs), Sum(xs), d * d);
  }

  lemma Quotient(x: real, n: real)
    requires n > 0.0
    ensures (x / n) * n == x
  {
  }

  lemma DeviationAlgebra(n: real, d: real, c: real, p: real, s: real, q: real)
    requires d * d == q && q * n == p - 2.0 * (c * s) + n * (c * c) && c * n == s
    ensures Sq(n * d) == n * p - Sq(s)
  {
    assert Sq(n * d) == n * n * (d * d) == n * (q * n);
    assert c * s == c * (c * n) == n * (c * c);
    assert q * n == p - c * s;
    assert n * (c * s) == (c * n) * s == s * s;
  }

  lemma Scaled(cv: real, c: real, n: real, d: real, span: real)
    requires c != 0.0 && cv == d / c && c * n == span
    ensures Prod(cv, span) == Prod(n, d)
  {
    assert cv * c == d;
    assert cv * (c * n) == (cv * c) * n;
  }

  lemma MeanOfSpan(c: real, n: real, span: real)
    requires n > 0.0 && c * n == span
    ensures c == 0.0 <==> span == 0.0
  {
  }

  lemma VariationIs(m: MathLib, xs: seq<real>)
    ensures |xs| < 2 ==> Variation(m, xs) == 0.0
    ensures |xs| >= 2 && Mean(xs) == 0.0 ==> Variation(m, xs) == 0.0
    ensures |xs| >= 2 && Mean(xs) != 0.0 ==> Variation(m, xs) == Deviation(m, xs) / Mean(xs)
  {
    hide Mean, Deviation;
  }

  /** The coefficient of any waits, over their sum and power sum. */
  lemma CoefficientExactly(m: MathLib, waits: seq<real>)
    requires Sound(m) && |waits| >= 2
    ensures if Sum(waits) == 0.0 then Variation(m, waits) == 0.0
            else Spreads(|waits| as real, PowerSum(waits), Sum(waits), Prod(Variation(m, waits), Sum(waits)))
  {
    hide Sum, Mean, Deviation, PowerSum, Sound, Variation, Spreads, Prod;
    VariationIs(m, waits);
    MeanUndone(waits);
    DeviationExactly(m, waits);
    var n, c := |waits| as real, Mean(waits);
    MeanOfSpan(c, n, Sum(waits));
    if c != 0.0 {
      Scaled(Variation(m, waits), c, n, Deviation(m, waits), Sum(waits));
    }
  }

  lemma VariationSign(m: MathLib, events: seq<Event>)
    requires Sound(m) && forall i, j :: 0 <= i < j < |events| ==> events[i].at <= events[j].at
    ensures Variation(m, Waits(events)) >= 0.0
  {
    hide Variation, Sound;
    GapsAre(events);
    GapsNonNegative(Map(events, TimeOf));
    VariationNonNegative(m, Waits(events));
  }

  lemma VariationExactly(m: MathLib, events: seq<Event>)
    requires Sound(m) && events != []
    requires forall i, j :: 0 <= i < j < |events| ==> events[i].at <= events[j].at
    ensures VariationMeant(events, Variation(m, Gaps(Map(events, TimeOf))))
  {
    hide Sum, PowerSum, Waits, Gaps, Sound, Variation, Map, Spreads, Prod;
    VariationSign(m, events);
    GapsAre(events);
    WaitsTelescope(events);
    VariationIs(m, Waits(events));
    if |events| >= 3 {
      CoefficientExactly(m, Waits(events));
    }
  }

  // ---------------------------------------------------------------- the entropies

  ghost function Occurrences(all: seq<string>, v: string): nat {
    |set i: nat | i < |all| && all[i] == v|
  }

  /** The surprise of each value in turn: how rare it is among all of them, on a logarithmic scale. */
  ghost function Surprise(m: MathLib, all: seq<string>, values: seq<string>): real
    requires all != []
  {
    if values == [] then 0.0
    else
      var n := |values| - 1;
      Surprise(m, all, values[..n]) - m.ln(Occurrences(all, values[n]) as real / |all| as real)
  }

  /** Entropy is the average surprise. */
  ghost predicate EntropyMeant(m: MathLib, values: seq<string>, entropy: real)
    requires values != []
  {
    entropy * |values| as real == Surprise(m, values, values)
  }

  function Is(v: string): string -> bool {
    (x: string) => x == v
  }

  lemma {:induction false} MultisetIsCount(values: seq<string>, v: string)
    ensures multiset(values)[v] == |Filter(values, Is(v))|
  {
    if values != [] {
      MultisetIsCount(values[1..], v);
      assert values == [values[0]] + values[1..];
    }
  }

  lemma OccurrencesAre(values: seq<string>, v: string)
    ensures Occurrences(values, v) == multiset(values)[v]
  {
    MultisetIsCount(values, v);
    FilterCount(values, Is(v), set i: nat | i < |values| && values[i] == v);
  }

  lemma {:induction false} DistinctOnce(values: seq<string>)
    ensures forall i, j :: 0 <= i < j < |Distinct(values)| ==> Distinct(values)[i] != Distinct(values)[j]
  {
    if values != [] {
      DistinctOnce(values[..|values| - 1]);
    }
  }

  ghost function LogShare(m: MathLib, all: seq<string>, v: string): real
    requires all != []
  {
    m.ln(multiset(all)[v] as real / |all| as real)
  }

  /** Occurrences among `part`, each weighed by its share of all. */
  ghost function Weighed(m: MathLib, all: seq<string>, part: seq<string>, keys: seq<string>): real
    requires all != []
  {
    if keys == [] then 0.0
    else Prod(multiset(part)[keys[0]] as real, LogShare(m, all, keys[0])) + Weighed(m, all, part, keys[1..])
  }

  lemma ShareTimes(c: real, n: real, l: real)
    requires n > 0.0
    ensures (c / n * l) * n == Prod(c, l)
  {
    var p := c / n;
    assert p * n == c;
    assert (p * l) * n == (p * n) * l;
  }

  lemma TermsStep(m: MathLib, values: seq<string>, keys: seq<string>)
    requires values != [] && keys != []
    ensures var p := multiset(values)[keys[0]] as real / |values| as real;
      EntropyTerms(m, values, keys) == p * LogShare(m, values, keys[0]) + EntropyTerms(m, values, keys[1..])
  {
  }

  lemma WeighedStep(m: MathLib, all: seq<string>, part: seq<string>, keys: seq<string>)
    requires all != [] && keys != []
    ensures Weighed(m, all, part, keys)
         == Prod(multiset(part)[keys[0]] as real, LogShare(m, all, keys[0])) + Weighed(m, all, part, keys[1..])
  {
  }

  lemma TermScaled(c: real, n: real, l: real, rest: real, weighed: real)
    requires n > 0.0 && rest * n == weighed
    ensures (c / n * l + rest) * n == Prod(c, l) + weighed
  {
    ShareTimes(c, n, l);
    hide Prod;
    var x := c / n * l;
    assert (x + rest) * n == x * n + rest * n;
  }

  lemma {:induction false} TermsWeighed(m: MathLib, values: seq<string>, keys: seq<string>)
    requires values != []
    ensures EntropyTerms(m, values, keys) * |values| as real == Weighed(m, values, values, keys)
  {
    if keys != [] {
      TermsWeighed(m, values, keys[1..]);
      TermsStep(m, values, keys);
      WeighedStep(m, values, values, keys);
      TermScaled(multiset(values)[keys[0]] as real, |values| as real, LogShare(m, values, keys[0]),
                 EntropyTerms(m, values, keys[1..]), Weighed(m, values, values, keys[1..]));
    }
  }

  lemma NothingWeighed(k: real)
    ensures Prod(0.0, k) == 0.0
  {
  }

  lemma {:induction false} WeighedNone(m: MathLib, all: seq<string>, keys: seq<string>)
    requires all != []
    ensures Weighed(m, all, [], keys) == 0.0
  {
    if keys != [] {
      WeighedNone(m, all, keys[1..]);
      NothingWeighed(LogShare(m, all, keys[0]));
    }
  }

  lemma OneMore(c: real, l: real)
    ensures Prod(c + 1.0, l) == Prod(c, l) + l
  {
  }

  lemma {:induction false} WeighedAbsent(m: MathLib, all: seq<string>, part: seq<string>, x: string, keys: seq<string>)
    requires all != [] && x !in keys
    ensures Weighed(m, all, part + [x], keys) == Weighed(m, all, part, keys)
  {
    hide LogShare, Prod;
    if keys != [] {
      WeighedAbsent(m, all, part, x, keys[1..]);
    }
  }

  lemma {:induction false} WeighedMore(m: MathLib, all: seq<string>, part: seq<string>, x: string, keys: seq<string>)
    requires all != [] && x in keys && forall i, j :: 0 <= i < j < |keys| ==> keys[i] != keys[j]
    ensures Weighed(m, all, part + [x], keys) == Weighed(m, all, part, keys) + LogShare(m, all, x)
  {
    hide LogShare, Prod;
    var c := multiset(part)[keys[0]];
    if keys[0] == x {
      assert x !in keys[1..];
      WeighedAbsent(m, all, part, x, keys[1..]);
      assert multiset(part + [x])[x] == c + 1;
      OneMore(c as real, LogShare(m, all, x));
    } else {
      WeighedMore(m, all, part, x, keys[1..]);
      assert multiset(part + [x])[keys[0]] == c;
    }
  }

  lemma SurpriseStep(m: MathLib, all: seq<string>, part: seq<string>, x: string)
    requires all != []
    ensures Surprise(m, all, part + [x]) == Surprise(m, all, part) - LogShare(m, all, x)
  {
    assert (part + [x])[..|part|] == part;
    OccurrencesAre(all, x);
  }

  lemma {:induction false} WeighedIsSurprise(m: MathLib, all: seq<string>, part: seq<string>, keys: seq<string>)
    requires all != [] && (forall x :: x in part ==> x in keys)
    requires forall i, j :: 0 <= i < j < |keys| ==> keys[i] != keys[j]
    ensures Weighed(m, all, part, keys) == -Surprise(m, all, part)
    decreases |part|
  {
    hide LogShare, Weighed;
    if part == [] {
      WeighedNone(m, all, keys);
    } else {
      var t, x := part[..|part| - 1], part[|part| - 1];
      assert part == t + [x];
      WeighedIsSurprise(m, all, t, keys);
      WeighedMore(m, all, t, x, keys);
      SurpriseStep(m, all, t, x);
    }
  }

  lemma EntropyExactly(m: MathLib, values: seq<string>)
    requires values != []
    ensures EntropyMeant(m, values, Entropy(m, values))
  {
    hide EntropyTerms, Weighed, Surprise, Distinct;
    DistinctOnce(values);
    TermsWeighed(m, values, Distinct(values));
    WeighedIsSurprise(m, values, values, Distinct(values));
    Negated(EntropyTerms(m, values, Distinct(values)), |values| as real);
  }

  lemma Negated(x: real, n: real)
    ensures -x * n == -(x * n)
  {
  }

  lemma SurpriseLast(m: MathLib, all: seq<string>, t: seq<string>, x: string)
    requires all != []
    ensures Surprise(m, all, t + [x]) == Surprise(m, all, t) - m.ln(Occurrences(all, x) as real / |all| as real)
  {
    assert (t + [x])[..|t|] == t;
    hide Occurrences;
  }

  lemma EqualTerm(m: MathLib, c: nat, whole: nat, k: nat)
    requires Sound(m) && k >= 1 && whole > 0 && c * k == whole
    ensures m.ln(c as real / whole as real) == -m.ln(k as real)
  {
    InverseShare(c as real, whole as real, k as real);
    LogOfInverse(m.ln, c as real / whole as real, k as real);
  }

  lemma {:induction false} EqualSurprise(m: MathLib, all: seq<string>, values: seq<string>, k: nat)
    requires Sound(m) && all != [] && k >= 1 && forall v :: v in values ==> Occurrences(all, v) * k == |all|
    ensures Surprise(m, all, values) == |values| as real * m.ln(k as real)
  {
    hide Occurrences, Sound;
    if values != [] {
      var n := |values| - 1;
      var t, x := values[..n], values[n];
      assert values == t + [x] && |values| as real == n as real + 1.0;
      EqualSurprise(m, all, t, k);
      SurpriseLast(m, all, t, x);
      EqualTerm(m, Occurrences(all, x), |all|, k);
      OneMoreTime(n as real, m.ln(k as real));
    }
  }

  lemma InverseShare(c: real, whole: real, k: real)
    requires c * k == whole && whole > 0.0 && k >= 1.0 && c >= 0.0
    ensures c / whole > 0.0 && (c / whole) * k == 1.0
  {
    assert c > 0.0;
    QuotientBounds(c, whole);
    var p := c / whole;
    assert p * whole == c;
    assert (p * k) * whole == (p * whole) * k;
    assert (p * whole) * k == c * k;
    OneByDivision(p * k, whole);
  }

  lemma OneMoreTime(n: real, l: real)
    ensures (n + 1.0) * l == n * l + l
  {
  }

  /** Values that are all equally frequent, k of them, have entropy ln k. */
  lemma EntropyOfEqual(m: MathLib, values: seq<string>, k: nat)
    requires Sound(m) && values != [] && k >= 1
    requires forall v :: v in values ==> Occurrences(values, v) * k == |values|
    ensures Entropy(m, values) == m.ln(k as real)
  {
    hide Entropy, Surprise, Occurrences;
    EntropyExactly(m, values);
    EqualSurprise(m, values, values, k);
    CancelFactor(Entropy(m, values), m.ln(k as real), |values| as real);
  }

  lemma CancelFactor(x: real, y: real, n: real)
    requires n > 0.0 && x * n == n * y
    ensures x == y
  {
  }

  lemma LogIsNegative(m: MathLib, x: real)
    requires Sound(m) && 0.0 < x < 1.0
    ensures m.ln(x) < 0.0
  {
  }

  lemma OccurrenceBounds(all: seq<string>, v: string)
    requires v in all
    ensures 0.0 < Occurrences(all, v) as real / |all| as real <= 1.0
    ensures Occurrences(all, v) as real / |all| as real == 1.0 <==> forall x :: x in all ==> x == v
  {
    OccurrencesAre(all, v);
    ShareOfOccurrences(all, v);
    MultisetIsCount(all, v);
    FilterLength(all, Is(v));
    hide Filter, Occurrences;
    var c, n := Occurrences(all, v) as real, |all| as real;
    assert (c / n) * n == c;
  }

  lemma {:induction false} SurpriseSign(m: MathLib, all: seq<string>, values: seq<string>)
    requires Sound(m) && all != [] && forall v :: v in values ==> v in all
    ensures Surprise(m, all, values) >= 0.0
    ensures Surprise(m, all, values) == 0.0 <==> AllAlone(all, values)
  {
    hide Occurrences, Sound, AllAlone, Alone;
    if values == [] {
      NoneToAccompany(all);
    } else {
      var t, last := values[..|values| - 1], values[|values| - 1];
      assert values == t + [last];
      SurpriseSign(m, all, t);
      OneSurprise(m, all, last);
      OneMoreAlone(all, t, last);
    }
  }

  /** There is no other value than this one. */
  ghost predicate Alone(all: seq<string>, v: string) {
    forall x :: x in all ==> x == v
  }

  ghost predicate AllAlone(all: seq<string>, values: seq<string>) {
    forall v :: v in values ==> Alone(all, v)
  }

  lemma NoneToAccompany(all: seq<string>)
    ensures AllAlone(all, [])
  {
  }

  lemma OneMoreAlone(all: seq<string>, t: seq<string>, last: string)
    ensures AllAlone(all, t + [last]) <==> AllAlone(all, t) && Alone(all, last)
  {
    hide Alone;
    assert forall v :: v in t + [last] <==> v in t || v == last;
  }

  /** One value is no surprise exactly when there is no other. */
  lemma OneSurprise(m: MathLib, all: seq<string>, v: string)
    requires Sound(m) && v in all
    ensures m.ln(Occurrences(all, v) as real / |all| as real) <= 0.0
    ensures m.ln(Occurrences(all, v) as real / |all| as real) == 0.0 <==> Alone(all, v)
  {
    hide Occurrences, Sound;
    OccurrenceBounds(all, v);
    var p := Occurrences(all, v) as real / |all| as real;
    if p < 1.0 {
      LogIsNegative(m, p);
    } else {
      LogOfOne(m);
    }
  }

  lemma LogOfOne(m: MathLib)
    requires Sound(m)
    ensures m.ln(1.0) == 0.0
  {
    LogOfInverse(m.ln, 1.0, 1.0);
  }

  /** Entropy is zero exactly when all values are one. */
  lemma EntropyOfOne(m: MathLib, values: seq<string>)
    requires Sound(m) && values != []
    ensures Entropy(m, values) == 0.0 <==> forall v, x :: v in values && x in values ==> x == v
  {
    hide Entropy, Surprise, Occurrences, Sound;
    EntropyExactly(m, values);
    SurpriseSign(m, values, values);
    assert AllAlone(values, values) <==> forall v, x :: v in values && x in values ==> x == v;
    ZeroProduct(Entropy(m, values), |values| as real);
  }

  lemma ZeroProduct(x: real, n: real)
    requires n > 0.0
    ensures x * n == 0.0 <==> x == 0.0
  {
  }

  // ---------------------------------------------------------------- the divergence

  /** The events whose amount falls in a bin; the outer bins are unbounded. */
  ghost function BinSet(events: seq<Event>, edges: seq<real>, bin: nat): set<nat>
    requires bin + 1 < |edges|
  {
    set i: nat | i < |events|
              && (bin == 0 || edges[bin] <= events[i].amount)
              && (bin == |edges| - 2 || events[i].amount < edges[bin + 1])
  }

  /** How much likelier the window makes its own amounts than the reference does, on a logarithmic scale. */
  ghost function CrossLog(m: MathLib, shares: seq<real>, reference: seq<real>): real
    requires |shares| == |reference|
  {
    if shares == [] then 0.0
    else
      var n := |shares| - 1;
      var floored := if reference[n] < 0.000000000001 then 0.000000000001 else reference[n];
      CrossLog(m, shares[..n], reference[..n]) + shares[n] * (m.ln(shares[n]) - m.ln(floored))
  }

  /** The shares are the bins' numbers of events, each raised by a millionth, of their total. */
  ghost predicate SharesOf(events: seq<Event>, edges: seq<real>, shares: seq<real>) {
    && |edges| == |shares| + 1
    && forall i :: 0 <= i < |shares| ==>
         shares[i] * (|events| as real + 0.000001 * |shares| as real) == |BinSet(events, edges, i)| as real + 0.000001
  }

  ghost predicate DivergenceMeant(m: MathLib, b: Baseline, events: seq<Event>, kl: real) {
    forall shares: seq<real> :: |shares| == |b.probabilities| && SharesOf(events, b.edges, shares) ==>
      kl == CrossLog(m, shares, b.probabilities)
  }

  function InThisBin(edges: seq<real>, bin: nat): real -> bool {
    (x: real) => |edges| >= 2 && BinOf(x, edges) == Some(bin)
  }

  lemma {:induction false} BinCount(amounts: seq<real>, edges: seq<real>, bin: nat)
    requires bin + 1 < |edges|
    ensures Tally(amounts, edges)[bin] == |Filter(amounts, InThisBin(edges, bin))|
  {
    if amounts != [] {
      var t, x := amounts[..|amounts| - 1], amounts[|amounts| - 1];
      assert amounts == t + [x];
      BinCount(t, edges, bin);
      FilterAppend(t, x, InThisBin(edges, bin));
      hide Filter, BinOf;
    }
  }

  lemma TallyExactly(events: seq<Event>, edges: seq<real>, bin: nat)
    requires bin + 1 < |edges| && Increasing(edges)
    ensures Tally(Map(events, AmountOf), edges)[bin] == |BinSet(events, edges, bin)|
  {
    hide Tally, BinOf, Filter;
    var amounts := Map(events, AmountOf);
    BinCount(amounts, edges, bin);
    forall i: nat ensures i in BinSet(events, edges, bin) <==> i < |amounts| && InThisBin(edges, bin)(amounts[i]) {
      if i < |amounts| {
        BinMeaning(amounts[i], edges, bin);
      }
    }
    FilterCount(amounts, InThisBin(edges, bin), BinSet(events, edges, bin));
  }

  lemma LogOfQuotient(m: MathLib, v: real, r: real)
    requires Sound(m) && v > 0.0 && r > 0.0
    ensures m.ln(v / r) == m.ln(v) - m.ln(r)
  {
    QuotientBounds(v, r);
    var q := v / r;
    assert q * r == v;
    LogOfFactors(m, q, r, v);
  }

  lemma LogOfFactors(m: MathLib, q: real, r: real, v: real)
    requires Sound(m) && q > 0.0 && r > 0.0 && q * r == v
    ensures m.ln(v) == m.ln(q) + m.ln(r)
  {
    assert LogOfProduct(m.ln, q, r);
  }

  lemma {:induction false} DivergenceLast(m: MathLib, current: seq<real>, reference: seq<real>, v: real, r: real)
    requires |current| == |reference|
    ensures Divergence(m, current + [v], reference + [r])
         == Divergence(m, current, reference) + v * m.ln(v / Floored(r))
  {
    if current == [] {
      assert [] + [v] == [v] && [] + [r] == [r] && [v][1..] == [];
      assert Divergence(m, [v], [r]) == v * m.ln(v / Floored(r)) + Divergence(m, [v][1..], [r][1..]);
      NoDivergence(m, [v][1..], [r][1..]);
    } else {
      DivergenceLast(m, current[1..], reference[1..], v, r);
      assert (current + [v])[1..] == current[1..] + [v] && (reference + [r])[1..] == reference[1..] + [r];
    }
  }

  lemma {:induction false} DivergenceIsCrossLog(m: MathLib, current: seq<real>, reference: seq<real>)
    requires Sound(m) && |current| == |reference| && forall i :: 0 <= i < |current| ==> current[i] > 0.0
    ensures Divergence(m, current, reference) == CrossLog(m, current, reference)
  {
    hide Divergence, Sound;
    if current == [] {
      NoDivergence(m, current, reference);
    } else {
      var n := |current| - 1;
      assert current == current[..n] + [current[n]] && reference == reference[..n] + [reference[n]];
      DivergenceIsCrossLog(m, current[..n], reference[..n]);
      DivergenceLast(m, current[..n], reference[..n], current[n], reference[n]);
      LogOfQuotient(m, current[n], Floored(reference[n]));
    }
  }

  lemma SameShare(x: real, count: nat, mass: real)
    requires mass > 0.0 && x * mass == count as real + SMOOTHING
    ensures x == Share(count, mass)
  {
    ShareSound(count, mass);
    CancelFactorRight(x, Share(count, mass), mass);
  }

  lemma CancelFactorRight(x: real, y: real, n: real)
    requires n > 0.0 && x * n == y * n
    ensures x == y
  {
  }

  lemma MassIs(b: Baseline, events: seq<Event>)
    requires ValidBaseline(b)
    ensures |b.edges| >= 2 && Increasing(b.edges) && |Tally(Map(events, AmountOf), b.edges)| == |b.probabilities|
    ensures Mass(Tally(Map(events, AmountOf), b.edges)) == |events| as real + 0.000001 * |b.probabilities| as real
  {
    CurrentHistogramTotal(b, Map(events, AmountOf));
    IncreasingFromNeighbours(b.edges);
    hide Tally, Total, Sum;
  }

  lemma SharesAre(b: Baseline, events: seq<Event>, shares: seq<real>)
    requires ValidBaseline(b) && |shares| == |b.probabilities| && SharesOf(events, b.edges, shares)
    ensures |b.edges| >= 2 && shares == Probabilities(Tally(Map(events, AmountOf), b.edges))
  {
    hide Tally, Total, Probabilities, Share, BinSet, Sum, Mass, ValidBaseline, Increasing;
    MassIs(b, events);
    var counts := Tally(Map(events, AmountOf), b.edges);
    assert counts != [];
    ProbabilityOf(counts);
    forall i | 0 <= i < |shares| ensures shares[i] == Share(counts[i], Mass(counts)) {
      TallyExactly(events, b.edges, i);
      SameShare(shares[i], counts[i], Mass(counts));
    }
  }

  lemma DivergenceExactly(m: MathLib, b: Baseline, events: seq<Event>)
    requires Sound(m) && ValidBaseline(b) && |b.edges| >= 2
    ensures DivergenceMeant(m, b, events, AmountDivergence(m, b, Map(events, AmountOf)))
  {
    var current := Probabilities(Tally(Map(events, AmountOf), b.edges));
    ProbabilitiesSound(Tally(Map(events, AmountOf), b.edges));
    hide Probabilities, Tally, Divergence, CrossLog, SharesOf, ValidBaseline, Sound;
    DivergenceIsCrossLog(m, current, b.probabilities);
    forall shares: seq<real> | |shares| == |b.probabilities| && SharesOf(events, b.edges, shares)
      ensures shares == current
    {
      SharesAre(b, events, shares);
    }
  }

  // ---------------------------------------------------------------- the vector

  /** What a feature vector says of the events in its window. */
  ghost predicate VectorMeant(m: MathLib, b: Baseline, events: seq<Event>, windowHours: nat, triggeredAt: int,
                              v: FeatureVector)
    requires events != []
  {
    && ScoresMeant(b, events, triggeredAt, v)
    && SharesMeant(b, events, v)
    && SlopeMeant(events, windowHours, triggeredAt, v.volumeTrendSlope)
    && VariationMeant(events, v.interarrivalTimeCv)
    && EntropyMeant(m, Map(events, (e: Event) => e.device), v.deviceEntropy)
    && EntropyMeant(m, Map(events, (e: Event) => e.geo), v.geoEntropy)
    && DivergenceMeant(m, b, events, v.amountDistributionKl)
  }

  lemma VectorRest(m: MathLib, b: Baseline, events: seq<Event>, windowHours: nat, triggeredAt: int)
    requires ValidBaseline(b) && |b.edges| >= 2 && events != [] && windowHours >= 1
    ensures var v := Vector(m, b, events, windowHours, triggeredAt);
      && v.volumeTrendSlope == VolumeSlope(Map(events, TimeOf), windowHours, triggeredAt)
      && v.interarrivalTimeCv == Variation(m, Gaps(Map(events, TimeOf)))
      && v.deviceEntropy == Entropy(m, Map(events, DeviceOf)) && v.geoEntropy == Entropy(m, Map(events, GeoOf))
      && v.amountDistributionKl == AmountDivergence(m, b, Map(events, AmountOf))
  {
    hide ZScore, Mean, Sum, Ratio, Filter, VolumeSlope, Variation, Entropy, AmountDivergence, Gaps;
  }

  lemma SameTexts(events: seq<Event>)
    ensures Map(events, DeviceOf) == Map(events, (e: Event) => e.device)
    ensures Map(events, GeoOf) == Map(events, (e: Event) => e.geo)
  {
  }

  lemma VectorExactly(m: MathLib, b: Baseline, events: seq<Event>, windowHours: nat, triggeredAt: int)
    requires Sound(m) && ValidBaseline(b) && |b.edges| >= 2 && events != [] && windowHours >= 1
    requires forall i, j :: 0 <= i < j < |events| ==> events[i].at <= events[j].at
    ensures VectorMeant(m, b, events, windowHours, triggeredAt, Vector(m, b, events, windowHours, triggeredAt))
  {
    hide Vector, ScoresMeant, SharesMeant, SlopeMeant, VariationMeant, EntropyMeant, DivergenceMeant, Variation, Gaps,
        Entropy, AmountDivergence, VolumeSlope, ValidBaseline, Sound;
    VectorScores(m, b, events, windowHours, triggeredAt);
    VectorShares(m, b, events, windowHours, triggeredAt);
    VectorRest(m, b, events, windowHours, triggeredAt);
    SlopeExactly(events, windowHours, triggeredAt);
    VariationExactly(m, events);
    SameTexts(events);
    EntropyExactly(m, Map(events, DeviceOf));
    EntropyExactly(m, Map(events, GeoOf));
    DivergenceExactly(m, b, events);
  }

  /** Whatever is built says, in all thirteen places, what it should of the window's events. */
  lemma FeaturesExactly(m: MathLib, merchant: string, triggeredAt: int, b: Baseline, transactions: seq<Event>,
                        windowHours: nat)
    requires Sound(m) && ValidBaseline(b) && |b.edges| >= 2 && windowHours >= 1
    requires BuildFeatures(m, merchant, triggeredAt, b, transactions, windowHours).Success?
    ensures var events := WindowEvents(merchant, triggeredAt - windowHours * HOUR, triggeredAt, transactions);
      && events != []
      && VectorMeant(m, b, events, windowHours, triggeredAt,
                     BuildFeatures(m, merchant, triggeredAt, b, transactions, windowHours).value)
  {
    hide Vector, VectorMeant, InBounds, ValidBaseline, Sound, WindowEvents;
    var start := triggeredAt - windowHours * HOUR;
    WindowExactly(merchant, start, triggeredAt, transactions);
    var events := WindowEvents(merchant, start, triggeredAt, transactions);
    if events != [] {
      VectorExactly(m, b, events, windowHours, triggeredAt);
    }
  }
}
