/** The locked thirteen-feature vector, built from facts known at the hold timestamp. */
module Features {
  import opened Histogram
  import opened Instants
  import opened RealMath
  import opened Regression
  import opened Sequences
  import opened Wrappers

  datatype Auth = APPROVED | FAILED

  datatype Event = Event(id: string, merchant: string, at: int, amount: real, device: string, geo: string,
                         auth: Auth, refundAt: Option<int>, chargebackAt: Option<int>)

  datatype Baseline = Baseline(volumeMean: real, volumeStd: real, gmvMean: real, gmvStd: real,
                               ticketMean: real, ticketStd: real, refundMean: real, refundStd: real,
                               chargebackMean: real, chargebackStd: real,
                               knownDevices: set<string>, knownGeos: set<string>,
                               edges: seq<real>, probabilities: seq<real>)

  /** The declared bounds of a merchant baseline. */
  predicate ValidBaseline(b: Baseline) {
    && b.volumeMean > 0.0 && b.volumeStd > 0.0 && b.gmvMean > 0.0 && b.gmvStd > 0.0
    && b.ticketMean > 0.0 && b.ticketStd > 0.0
    && 0.0 <= b.refundMean <= 1.0 && b.refundStd > 0.0
    && 0.0 <= b.chargebackMean <= 1.0 && b.chargebackStd > 0.0
    && |b.edges| == |b.probabilities| + 1
    && (forall i :: 0 <= i < |b.edges| - 1 ==> b.edges[i] < b.edges[i + 1])
    && (forall i :: 0 <= i < |b.probabilities| ==> b.probabilities[i] >= 0.0)
    && 0.999 <= Sum(b.probabilities) <= 1.001
  }

  datatype FeatureVector = FeatureVector(volumeDeltaZ: real, gmvDeltaZ: real, ticketSizeDeltaZ: real,
                                         newDeviceRatio: real, newGeoRatio: real, refundRateDeltaZ: real,
                                         chargebackRateDeltaZ: real, failedAuthRatio: real, volumeTrendSlope: real,
                                         interarrivalTimeCv: real, deviceEntropy: real, geoEntropy: real,
                                         amountDistributionKl: real)

  /** The declared bounds of a feature vector. */
  predicate InBounds(v: FeatureVector) {
    && 0.0 <= v.newDeviceRatio <= 1.0
    && 0.0 <= v.newGeoRatio <= 1.0
    && 0.0 <= v.failedAuthRatio <= 1.0
    && v.interarrivalTimeCv >= 0.0
    && v.deviceEntropy >= 0.0
    && v.geoEntropy >= 0.0
    && v.amountDistributionKl >= 0.0
  }

  datatype FeatureError = NoTransactionsInWindow | OutOfBounds

  // ---------------------------------------------------------------- scalar features

  function ZScore(value: real, mean: real, std: real): real
    requires std > 0.0
  {
    (value - mean) / std
  }

  /** Values in order of first appearance: the keys of a counter. */
  function Distinct(values: seq<string>): (r: seq<string>)
    ensures forall v :: v in r <==> v in values
  {
    if values == [] then []
    else
      var r := Distinct(values[..|values| - 1]);
      var last := values[|values| - 1];
      assert values == values[..|values| - 1] + [last];
      if last in r then r else r + [last]
  }

  function EntropyTerms(m: MathLib, values: seq<string>, keys: seq<string>): real
    requires values != []
  {
    if keys == [] then 0.0
    else
      var p := multiset(values)[keys[0]] as real / |values| as real;
      p * m.ln(p) + EntropyTerms(m, values, keys[1..])
  }

  function Entropy(m: MathLib, values: seq<string>): real {
    if values == [] then 0.0 else -EntropyTerms(m, values, Distinct(values))
  }

  lemma NonPositiveTerm(m: MathLib, p: real)
    requires Sound(m) && 0.0 < p <= 1.0
    ensures p * m.ln(p) <= 0.0
  {
    LogOfFraction(m.ln, p);
  }

  lemma ShareOfOccurrences(values: seq<string>, k: string)
    requires k in values
    ensures 0.0 < multiset(values)[k] as real / |values| as real <= 1.0
  {
    assert k in multiset(values);
    var occurrences := multiset(values)[k];
    MultisetSize(values, k);
    QuotientBounds(occurrences as real, |values| as real);
  }

  lemma {:induction false} MultisetSize(values: seq<string>, k: string)
    ensures multiset(values)[k] <= |values|
  {
    if values != [] {
      MultisetSize(values[1..], k);
      assert values == [values[0]] + values[1..];
    }
  }

  lemma {:induction false} EntropyTermsNonPositive(m: MathLib, values: seq<string>, keys: seq<string>)
    requires Sound(m) && values != [] && forall k :: k in keys ==> k in values
    ensures EntropyTerms(m, values, keys) <= 0.0
  {
    if keys != [] {
      EntropyTermsNonPositive(m, values, keys[1..]);
      ShareOfOccurrences(values, keys[0]);
      NonPositiveTerm(m, multiset(values)[keys[0]] as real / |values| as real);
    }
  }

  lemma EntropyNonNegative(m: MathLib, values: seq<string>)
    requires Sound(m)
    ensures Entropy(m, values) >= 0.0
  {
    if values != [] {
      EntropyTermsNonPositive(m, values, Distinct(values));
    }
  }

  function Variation(m: MathLib, values: seq<real>): real {
    if |values| < 2 then 0.0
    else if Mean(values) == 0.0 then 0.0
    else Deviation(m, values) / Mean(values)
  }

  lemma VariationNonNegative(m: MathLib, values: seq<real>)
    requires Sound(m) && forall i :: 0 <= i < |values| ==> values[i] >= 0.0
    ensures Variation(m, values) >= 0.0
  {
    if |values| >= 2 && Mean(values) != 0.0 {
      SumNonNegative(values);
      QuotientBounds(Sum(values), |values| as real);
      DeviationNonNegative(m, values);
      QuotientBounds(Deviation(m, values), Mean(values));
    }
  }

  lemma {:induction false} SumNonNegative(values: seq<real>)
    requires forall i :: 0 <= i < |values| ==> values[i] >= 0.0
    ensures Sum(values) >= 0.0
  {
    if values != [] {
      SumNonNegative(values[1..]);
    }
  }

  /** Seconds between neighbours. */
  function Gaps(times: seq<int>): (r: seq<real>)
    ensures |r| == if |times| == 0 then 0 else |times| - 1
  {
    if |times| < 2 then []
    else [(times[1] - times[0]) as real / SECOND as real] + Gaps(times[1..])
  }

  lemma {:induction false} GapsNonNegative(times: seq<int>)
    requires forall i, j :: 0 <= i < j < |times| ==> times[i] <= times[j]
    ensures forall i :: 0 <= i < |Gaps(times)| ==> Gaps(times)[i] >= 0.0
  {
    if |times| >= 2 {
      GapsNonNegative(times[1..]);
      QuotientBounds((times[1] - times[0]) as real, SECOND as real);
    }
  }

  // ---------------------------------------------------------------- hourly volume

  function BucketOf(time: int, windowHours: nat, end: int): int {
    var hours := (time - (end - windowHours * HOUR)) / HOUR;
    if hours < windowHours - 1 then hours else windowHours - 1
  }

  function HourCounts(times: seq<int>, windowHours: nat, end: int): (r: seq<nat>)
    ensures |r| == windowHours
  {
    if times == [] then Repeat(0, windowHours)
    else
      var bucket := BucketOf(times[|times| - 1], windowHours, end);
      Bump(HourCounts(times[..|times| - 1], windowHours, end), if bucket >= 0 then Some(bucket) else None)
  }

  function AsReal(n: nat): real {
    n as real
  }

  function VolumeSlope(times: seq<int>, windowHours: nat, end: int): real
    requires windowHours >= 1
  {
    Slope(Map(HourCounts(times, windowHours, end), AsReal))
  }

  method HourlyVolumeSlope(events: seq<Event>, windowHours: nat, end: int) returns (slope: real)
    requires windowHours >= 1
    ensures slope == VolumeSlope(Map(events, TimeOf), windowHours, end)
  {
    var counts: seq<nat> := Repeat(0, windowHours);
    var start := end - windowHours * HOUR;
    ghost var times := Map(events, TimeOf);
    for k := 0 to |events|
      invariant counts == HourCounts(times[..k], windowHours, end)
    {
      assert times[..k + 1][..k] == times[..k];
      var hours := (events[k].at - start) / HOUR;
      var bucket := if windowHours - 1 < hours then windowHours - 1 else hours;
      if bucket >= 0 {
        counts := counts[bucket := counts[bucket] + 1];
      }
    }
    assert times[..|times|] == times;
    slope := Slope(Map(counts, AsReal));
  }

  function NotBefore(start: int): int -> bool {
    (t: int) => start <= t
  }

  /** Every event at or after the window start is counted in exactly one hour. */
  lemma {:induction false} HourCountsTotal(times: seq<int>, windowHours: nat, end: int)
    requires windowHours >= 1
    ensures Total(HourCounts(times, windowHours, end)) == |Filter(times, NotBefore(end - windowHours * HOUR))|
  {
    var start := end - windowHours * HOUR;
    if times == [] {
      TotalOfZeros(Repeat(0, windowHours));
    } else {
      var t, x := times[..|times| - 1], times[|times| - 1];
      assert times == t + [x];
      HourCountsTotal(t, windowHours, end);
      FilterAppend(t, x, NotBefore(start));
      var bucket := BucketOf(x, windowHours, end);
      assert bucket >= 0 <==> start <= x;
      if bucket >= 0 {
        BumpTotal(HourCounts(t, windowHours, end), bucket);
      }
    }
  }

  /** The slope feature: each in-window event counted once, over a denominator of w(w^2-1)/12, and no
      line a + b * hour fits the hourly counts better than the one it defines through the means. */
  lemma VolumeSlopeIsLeastSquares(times: seq<int>, windowHours: nat, end: int, a: real, b: real)
    requires windowHours >= 1
    ensures var counts := Map(HourCounts(times, windowHours, end), AsReal); var w := windowHours as real;
      && LineError(counts, VolumeSlope(times, windowHours, end)) <= SquaredError(counts, a, b)
      && IndexSpread(windowHours, MeanIndex(windowHours)) == w * (w * w - 1.0) / 12.0
      && Total(HourCounts(times, windowHours, end)) == |Filter(times, NotBefore(end - windowHours * HOUR))|
  {
    HourCountsTotal(times, windowHours, end);
    DenominatorClosed(windowHours);
    hide *;
    SlopeOptimal(Map(HourCounts(times, windowHours, end), AsReal), a, b);
    SlopeUnfolds(times, windowHours, end);
  }

  lemma SlopeUnfolds(times: seq<int>, windowHours: nat, end: int)
    requires windowHours >= 1
    ensures VolumeSlope(times, windowHours, end) == Slope(Map(HourCounts(times, windowHours, end), AsReal))
  {
  }

  // ---------------------------------------------------------------- projections of events

  function TimeOf(e: Event): int { e.at }
  function AmountOf(e: Event): real { e.amount }
  function DeviceOf(e: Event): string { e.device }
  function GeoOf(e: Event): string { e.geo }
  predicate FailedAuth(e: Event) { e.auth == FAILED }

  predicate ByTime(a: Event, b: Event) {
    a.at <= b.at
  }

  function RefundKnownBy(asOf: int): Event -> bool {
    (e: Event) => e.refundAt.Some? && e.refundAt.value <= asOf
  }

  function ChargebackKnownBy(asOf: int): Event -> bool {
    (e: Event) => e.chargebackAt.Some? && e.chargebackAt.value <= asOf
  }

  function InHoldWindow(merchant: string, start: int, end: int): Event -> bool {
    (e: Event) => e.merchant == merchant && start <= e.at <= end
  }

  function OutsideSet(known: set<string>): string -> bool {
    (v: string) => v !in known
  }

  function Ratio(part: nat, whole: nat): real
    requires whole > 0
  {
    part as real / whole as real
  }

  lemma RatioBounds(part: nat, whole: nat)
    requires 0 < whole && part <= whole
    ensures 0.0 <= Ratio(part, whole) <= 1.0
  {
    QuotientBounds(part as real, whole as real);
  }

  // ---------------------------------------------------------------- the vector

  function WindowEvents(merchant: string, start: int, end: int, transactions: seq<Event>): seq<Event> {
    StableSort(Filter(transactions, InHoldWindow(merchant, start, end)), ByTime)
  }

  function AmountDivergence(m: MathLib, b: Baseline, amounts: seq<real>): real
    requires ValidBaseline(b) && |b.edges| >= 2
  {
    Divergence(m, Probabilities(Tally(amounts, b.edges)), b.probabilities)
  }

  function Vector(m: MathLib, b: Baseline, events: seq<Event>, windowHours: nat, triggeredAt: int): FeatureVector
    requires ValidBaseline(b) && |b.edges| >= 2 && events != [] && windowHours >= 1
  {
    var amounts, volume := Map(events, AmountOf), |events|;
    var times, devices, geos := Map(events, TimeOf), Map(events, DeviceOf), Map(events, GeoOf);
    FeatureVector(
      ZScore(volume as real, b.volumeMean, b.volumeStd),
      ZScore(Sum(amounts), b.gmvMean, b.gmvStd),
      ZScore(Mean(amounts), b.ticketMean, b.ticketStd),
      Ratio(|Filter(devices, OutsideSet(b.knownDevices))|, volume),
      Ratio(|Filter(geos, OutsideSet(b.knownGeos))|, volume),
      ZScore(Ratio(|Filter(events, RefundKnownBy(triggeredAt))|, volume), b.refundMean, b.refundStd),
      ZScore(Ratio(|Filter(events, ChargebackKnownBy(triggeredAt))|, volume), b.chargebackMean, b.chargebackStd),
      Ratio(|Filter(events, FailedAuth)|, volume),
      VolumeSlope(times, windowHours, triggeredAt),
      Variation(m, Gaps(times)),
      Entropy(m, devices),
      Entropy(m, geos),
      AmountDivergence(m, b, amounts))
  }

  function Finish(m: MathLib, b: Baseline, events: seq<Event>, windowHours: nat, triggeredAt: int)
    : Result<FeatureVector, FeatureError>
    requires ValidBaseline(b) && |b.edges| >= 2 && windowHours >= 1
  {
    if events == [] then Failure(NoTransactionsInWindow)
    else
      var v := Vector(m, b, events, windowHours, triggeredAt);
      if InBounds(v) then Success(v) else Failure(OutOfBounds)
  }

  function BuildFeatures(m: MathLib, merchant: string, triggeredAt: int, b: Baseline, transactions: seq<Event>,
                         windowHours: nat): Result<FeatureVector, FeatureError>
    requires ValidBaseline(b) && |b.edges| >= 2 && windowHours >= 1
  {
    Finish(m, b, WindowEvents(merchant, triggeredAt - windowHours * HOUR, triggeredAt, transactions),
           windowHours, triggeredAt)
  }

  // ---------------------------------------------------------------- bounds

  lemma FilterRatio<T>(s: seq<T>, p: T -> bool)
    requires s != []
    ensures 0.0 <= Ratio(|Filter(s, p)|, |s|) <= 1.0
  {
    FilterMembers(s, p);
    RatioBounds(|Filter(s, p)|, |s|);
  }

  lemma IncreasingFromNeighbours(edges: seq<real>)
    requires forall i :: 0 <= i < |edges| - 1 ==> edges[i] < edges[i + 1]
    ensures Increasing(edges)
  {
    forall i, j | 0 <= i < j < |edges| ensures edges[i] < edges[j] {
      NeighboursChain(edges, i, j);
    }
  }

  lemma {:induction false} NeighboursChain(edges: seq<real>, i: nat, j: nat)
    requires forall k :: 0 <= k < |edges| - 1 ==> edges[k] < edges[k + 1]
    requires i < j < |edges|
    ensures edges[i] < edges[j]
  {
    if i + 1 < j {
      NeighboursChain(edges, i, j - 1);
    }
  }

  /** Against any valid baseline the current histogram counts each amount of the window exactly once. */
  lemma CurrentHistogramTotal(b: Baseline, amounts: seq<real>)
    requires ValidBaseline(b)
    ensures |b.edges| >= 2 && Total(Tally(amounts, b.edges)) == |amounts|
  {
    assert b.probabilities != [];
    IncreasingFromNeighbours(b.edges);
    TallyTotal(amounts, b.edges);
  }

  /** The divergence feature is never negative when the floored reference has mass at most one. */
  lemma DivergenceNonNegative(m: MathLib, b: Baseline, amounts: seq<real>)
    requires Sound(m) && ValidBaseline(b) && |b.edges| >= 2 && FlooredSum(b.probabilities) <= 1.0
    ensures AmountDivergence(m, b, amounts) >= 0.0
  {
    var counts := Tally(amounts, b.edges);
    ProbabilitiesSound(counts);
    DivergenceAtLeast(m, Probabilities(counts), b.probabilities);
  }

  /** Nor when the reference, empty bins and all, has mass at most one before flooring, as long as the
      window has at most about 250 000 amounts: smoothing then keeps every share well above the floor. */
  lemma DivergenceNonNegativeSmall(m: MathLib, b: Baseline, amounts: seq<real>)
    requires Sound(m) && ValidBaseline(b) && |b.edges| >= 2 && Sum(b.probabilities) <= 1.0
    requires |amounts| as real + SMOOTHING * |b.probabilities| as real <= 250_000.0
    ensures AmountDivergence(m, b, amounts) >= 0.0
  {
    var counts := Tally(amounts, b.edges);
    CurrentHistogramTotal(b, amounts);
    ProbabilitiesSound(counts);
    var mass := Mass(counts);
    assert mass <= 250_000.0;
    assert SMOOTHING / mass >= 4.0 * FLOOR by { ShareOfSmallMass(mass); }
    DivergenceAtLeastUnfloored(m, Probabilities(counts), b.probabilities);
  }

  lemma ShareOfSmallMass(mass: real)
    requires 0.0 < mass <= 250_000.0
    ensures SMOOTHING / mass >= 4.0 * FLOOR
  {
    assert (SMOOTHING / mass) * mass == SMOOTHING;
  }

  /** Of the declared bounds of a non-empty, time-ordered window's vector only one can fail: that the
      divergence of its amounts from the reference is not negative. */
  lemma VectorInBounds(m: MathLib, b: Baseline, events: seq<Event>, windowHours: nat, triggeredAt: int)
    requires Sound(m) && ValidBaseline(b) && |b.edges| >= 2
    requires events != [] && windowHours >= 1 && Sorted(events, ByTime)
    ensures InBounds(Vector(m, b, events, windowHours, triggeredAt)) <==>
            AmountDivergence(m, b, Map(events, AmountOf)) >= 0.0
  {
    var times, devices, geos := Map(events, TimeOf), Map(events, DeviceOf), Map(events, GeoOf);
    FilterRatio(devices, OutsideSet(b.knownDevices));
    FilterRatio(geos, OutsideSet(b.knownGeos));
    FilterRatio(events, FailedAuth);
    forall i, j | 0 <= i < j < |times| ensures times[i] <= times[j] {
      assert ByTime(events[i], events[j]);
    }
    GapsNonNegative(times);
    VariationNonNegative(m, Gaps(times));
    EntropyNonNegative(m, devices);
    EntropyNonNegative(m, geos);
    hide Ratio, Filter, Variation, Entropy, AmountDivergence, ZScore, Sum, Mean, VolumeSlope, Gaps, Sorted;
  }

  ghost predicate SomeInWindow(merchant: string, start: int, end: int, transactions: seq<Event>) {
    exists e | e in transactions :: e.merchant == merchant && start <= e.at <= end
  }

  lemma WindowEventsSorted(merchant: string, start: int, end: int, transactions: seq<Event>)
    ensures Sorted(WindowEvents(merchant, start, end, transactions), ByTime)
    ensures WindowEvents(merchant, start, end, transactions) != [] <==> SomeInWindow(merchant, start, end, transactions)
  {
    var inWindow := InHoldWindow(merchant, start, end);
    var kept := Filter(transactions, inWindow);
    SortSorted(kept, ByTime);
    FilterMembers(transactions, inWindow);
    assert |WindowEvents(merchant, start, end, transactions)| == |kept|;
    hide Filter, StableSort, Sorted, WindowEvents;
    if kept != [] {
      assert kept[0] in transactions && inWindow(kept[0]);
    }
  }

  /** The amounts of the transactions in a hold's window, in time order. */
  function WindowAmounts(merchant: string, start: int, end: int, transactions: seq<Event>): seq<real> {
    Map(WindowEvents(merchant, start, end, transactions), AmountOf)
  }

  lemma FinishTotal(m: MathLib, b: Baseline, events: seq<Event>, windowHours: nat, triggeredAt: int)
    requires Sound(m) && ValidBaseline(b) && |b.edges| >= 2
    requires windowHours >= 1 && Sorted(events, ByTime)
    ensures var r := Finish(m, b, events, windowHours, triggeredAt);
      && (r.Success? <==> events != [] && AmountDivergence(m, b, Map(events, AmountOf)) >= 0.0)
      && (r.Success? ==> InBounds(r.value))
      && (r.Failure? ==> r.error == if events == [] then NoTransactionsInWindow else OutOfBounds)
  {
    if events != [] {
      VectorInBounds(m, b, events, windowHours, triggeredAt);
    }
    hide Vector, InBounds, ValidBaseline, Sorted, AmountDivergence;
  }

  /** Building fails only when the window is empty or its amounts diverge negatively from the reference,
      and then for the bound the code declares on that feature. */
  lemma BuildTotal(m: MathLib, merchant: string, triggeredAt: int, b: Baseline, transactions: seq<Event>,
                   windowHours: nat)
    requires Sound(m) && ValidBaseline(b) && |b.edges| >= 2 && windowHours >= 1
    ensures var start := triggeredAt - windowHours * HOUR;
      var found := SomeInWindow(merchant, start, triggeredAt, transactions);
      var amounts := WindowAmounts(merchant, start, triggeredAt, transactions);
      var r := BuildFeatures(m, merchant, triggeredAt, b, transactions, windowHours);
      && (r.Success? <==> found && AmountDivergence(m, b, amounts) >= 0.0)
      && (r.Success? ==> InBounds(r.value))
      && (r.Failure? ==> r.error == if found then OutOfBounds else NoTransactionsInWindow)
  {
    var start := triggeredAt - windowHours * HOUR;
    hide Finish, WindowEvents, ValidBaseline, Sorted, SomeInWindow, InBounds, AmountDivergence;
    WindowEventsSorted(merchant, start, triggeredAt, transactions);
    FinishTotal(m, b, WindowEvents(merchant, start, triggeredAt, transactions), windowHours, triggeredAt);
  }

  // ---------------------------------------------------------------- the future does not matter

  function KnownOnly(time: Option<int>, asOf: int): Option<int> {
    if time.Some? && time.value <= asOf then time else None
  }

  /** The event as it could be told at the cutoff: later refunds and chargebacks erased. */
  function Censor(asOf: int): Event -> Event {
    (e: Event) => e.(refundAt := KnownOnly(e.refundAt, asOf), chargebackAt := KnownOnly(e.chargebackAt, asOf))
  }

  lemma {:induction false} MapOfMap<T, U>(s: seq<T>, c: T -> T, f: T -> U)
    requires forall x :: x in s ==> f(c(x)) == f(x)
    ensures Map(Map(s, c), f) == Map(s, f)
  {
  }

  lemma {:induction false} FilterOfMap<T>(s: seq<T>, c: T -> T, p: T -> bool)
    requires forall x :: x in s ==> p(c(x)) == p(x)
    ensures Filter(Map(s, c), p) == Map(Filter(s, p), c)
  {
    if s != [] {
      FilterOfMap(s[1..], c, p);
      assert Map(s, c)[1..] == Map(s[1..], c);
    }
  }

  lemma VectorIgnoresFuture(m: MathLib, b: Baseline, events: seq<Event>, windowHours: nat, triggeredAt: int)
    requires ValidBaseline(b) && |b.edges| >= 2 && events != [] && windowHours >= 1
    ensures Vector(m, b, Map(events, Censor(triggeredAt)), windowHours, triggeredAt)
         == Vector(m, b, events, windowHours, triggeredAt)
  {
    var c := Censor(triggeredAt);
    MapOfMap(events, c, AmountOf);
    MapOfMap(events, c, TimeOf);
    MapOfMap(events, c, DeviceOf);
    MapOfMap(events, c, GeoOf);
    FilterOfMap(events, c, RefundKnownBy(triggeredAt));
    FilterOfMap(events, c, ChargebackKnownBy(triggeredAt));
    FilterOfMap(events, c, FailedAuth);
    hide Filter, Variation, Entropy, AmountDivergence, ZScore, Sum, Mean, VolumeSlope, Gaps, Ratio;
  }

  lemma FinishIgnoresFuture(m: MathLib, b: Baseline, events: seq<Event>, events': seq<Event>, windowHours: nat,
                            triggeredAt: int)
    requires ValidBaseline(b) && |b.edges| >= 2 && windowHours >= 1
    requires Map(events, Censor(triggeredAt)) == Map(events', Censor(triggeredAt))
    ensures Finish(m, b, events, windowHours, triggeredAt) == Finish(m, b, events', windowHours, triggeredAt)
  {
    hide Vector, InBounds, ValidBaseline;
    assert |events| == |events'|;
    if events != [] {
      VectorIgnoresFuture(m, b, events, windowHours, triggeredAt);
      VectorIgnoresFuture(m, b, events', windowHours, triggeredAt);
    }
  }

  /** Features are a function of the censored window: transactions after the hold, and refunds or
      chargebacks after it, cannot change them. */
  lemma FeaturesIgnoreFuture(m: MathLib, merchant: string, triggeredAt: int, b: Baseline,
                             transactions: seq<Event>, transactions': seq<Event>, windowHours: nat)
    requires ValidBaseline(b) && |b.edges| >= 2 && windowHours >= 1
    requires var start := triggeredAt - windowHours * HOUR;
      Map(Filter(transactions, InHoldWindow(merchant, start, triggeredAt)), Censor(triggeredAt))
      == Map(Filter(transactions', InHoldWindow(merchant, start, triggeredAt)), Censor(triggeredAt))
    ensures BuildFeatures(m, merchant, triggeredAt, b, transactions, windowHours)
         == BuildFeatures(m, merchant, triggeredAt, b, transactions', windowHours)
  {
    hide *;
    var start := triggeredAt - windowHours * HOUR;
    SortCensored(Filter(transactions, InHoldWindow(merchant, start, triggeredAt)), triggeredAt);
    SortCensored(Filter(transactions', InHoldWindow(merchant, start, triggeredAt)), triggeredAt);
    BuildUnfolds(m, merchant, triggeredAt, b, transactions, windowHours);
    BuildUnfolds(m, merchant, triggeredAt, b, transactions', windowHours);
    FinishIgnoresFuture(m, b, WindowEvents(merchant, start, triggeredAt, transactions),
                        WindowEvents(merchant, start, triggeredAt, transactions'), windowHours, triggeredAt);
  }

  lemma BuildUnfolds(m: MathLib, merchant: string, triggeredAt: int, b: Baseline, transactions: seq<Event>,
                     windowHours: nat)
    requires ValidBaseline(b) && |b.edges| >= 2 && windowHours >= 1
    ensures var start := triggeredAt - windowHours * HOUR;
      && WindowEvents(merchant, start, triggeredAt, transactions)
         == StableSort(Filter(transactions, InHoldWindow(merchant, start, triggeredAt)), ByTime)
      && BuildFeatures(m, merchant, triggeredAt, b, transactions, windowHours)
         == Finish(m, b, WindowEvents(merchant, start, triggeredAt, transactions), windowHours, triggeredAt)
  {
    hide Finish, Filter, StableSort, ValidBaseline;
  }

  lemma SortCensored(events: seq<Event>, asOf: int)
    ensures Map(StableSort(events, ByTime), Censor(asOf)) == StableSort(Map(events, Censor(asOf)), ByTime)
  {
    SortMap(events, Censor(asOf), ByTime, ByTime);
  }
}
