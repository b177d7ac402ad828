/** What each field of the thirty-day baseline says of the events in its span. */
module BaselineMeaning {
  import opened BaselineBuilder
  import opened FeatureMeaning
  import opened Features
  import opened Histogram
  import opened Instants
  import opened RealMath
  import opened Regression
  import opened Sequences
  import opened Wrappers

  // ---------------------------------------------------------------- order does not matter to sums

  lemma WithoutOne<T>(s: seq<T>, i: nat, x: T, t: seq<T>)
    requires i < |s| && s[i] == x && multiset(s) == multiset([x] + t)
    ensures multiset(s[..i] + s[i + 1..]) == multiset(t)
  {
    assert s == s[..i] + [x] + s[i + 1..];
    assert multiset(s[..i] + s[i + 1..]) == multiset(s) - multiset{x};
    assert multiset(t) == multiset([x] + t) - multiset{x};
  }

  lemma SumSplit(p: seq<real>, x: real, q: seq<real>)
    ensures Sum(p + ([x] + q)) == x + Sum(p + q)
  {
    hide Sum;
    SumConcat(p, [x] + q);
    SumConcat([x], q);
    SumConcat(p, q);
    OneTerm(x);
  }

  lemma SumWithoutOne(s: seq<real>, i: nat)
    requires i < |s|
    ensures Sum(s) == s[i] + Sum(s[..i] + s[i + 1..])
  {
    hide Sum;
    var p, q := s[..i], s[i + 1..];
    assert s == p + ([s[i]] + q);
    SumSplit(p, s[i], q);
  }

  lemma {:induction false} SumShuffled(a: seq<real>, b: seq<real>)
    requires multiset(a) == multiset(b)
    ensures Sum(a) == Sum(b)
    decreases |a|
  {
    assert |a| == |multiset(a)| == |multiset(b)| == |b|;
    if a != [] {
      assert a == [a[0]] + a[1..];
      assert a[0] in multiset(b);
      var i :| 0 <= i < |b| && b[i] == a[0];
      WithoutOne(b, i, a[0], a[1..]);
      SumShuffled(a[1..], b[..i] + b[i + 1..]);
      SumWithoutOne(b, i);
    }
  }

  function Square(x: real): real {
    x * x
  }

  lemma {:induction false} PowerIsSum(xs: seq<real>)
    ensures PowerSum(xs) == Sum(Map(xs, Square))
  {
    if xs != [] {
      var n := |xs| - 1;
      PowerIsSum(xs[..n]);
      assert xs == xs[..n] + [xs[n]];
      MapAppend(xs[..n], xs[n], Square);
      SumConcat(Map(xs[..n], Square), [Square(xs[n])]);
      OneTerm(Square(xs[n]));
    }
  }

  lemma MapSplit<T, U>(p: seq<T>, x: T, q: seq<T>, f: T -> U)
    ensures multiset(Map(p + ([x] + q), f)) == multiset([f(x)]) + multiset(Map(p + q, f))
  {
    MapConcat(p, [x] + q, f);
    MapConcat([x], q, f);
    MapConcat(p, q, f);
    assert Map([x], f) == [f(x)];
    hide Map;
  }

  lemma FromNothing<T>(s: seq<T>)
    ensures [] + s == s
  {
  }

  lemma {:induction false} MapShuffled<T, U>(a: seq<T>, b: seq<T>, f: T -> U)
    requires multiset(a) == multiset(b)
    ensures multiset(Map(a, f)) == multiset(Map(b, f))
    decreases |a|
  {
    hide Map;
    assert |a| == |multiset(a)| == |multiset(b)| == |b|;
    if a != [] {
      assert a == [a[0]] + a[1..];
      assert a[0] in multiset(b);
      var i :| 0 <= i < |b| && b[i] == a[0];
      WithoutOne(b, i, a[0], a[1..]);
      MapShuffled(a[1..], b[..i] + b[i + 1..], f);
      assert b == b[..i] + ([b[i]] + b[i + 1..]);
      MapSplit(b[..i], b[i], b[i + 1..], f);
      MapSplit([], a[0], a[1..], f);
      FromNothing([a[0]] + a[1..]);
      FromNothing(a[1..]);
    }
  }

  lemma PowerShuffled(a: seq<real>, b: seq<real>)
    requires multiset(a) == multiset(b)
    ensures PowerSum(a) == PowerSum(b)
  {
    PowerIsSum(a);
    PowerIsSum(b);
    MapShuffled(a, b, Square);
    SumShuffled(Map(a, Square), Map(b, Square));
  }

  lemma {:induction false} CountShuffled<T>(a: seq<T>, b: seq<T>, p: T -> bool)
    requires multiset(a) == multiset(b)
    ensures |Filter(a, p)| == |Filter(b, p)|
    decreases |a|
  {
    assert |a| == |multiset(a)| == |multiset(b)| == |b|;
    if a != [] {
      assert a == [a[0]] + a[1..];
      assert a[0] in multiset(b);
      var i :| 0 <= i < |b| && b[i] == a[0];
      WithoutOne(b, i, a[0], a[1..]);
      CountShuffled(a[1..], b[..i] + b[i + 1..], p);
      assert b == b[..i] + ([b[i]] + b[i + 1..]);
      FilterConcat(b[..i], [b[i]] + b[i + 1..], p);
      FilterConcat([b[i]], b[i + 1..], p);
      FilterConcat(b[..i], b[i + 1..], p);
      FilterConcat([a[0]], a[1..], p);
    }
  }

  lemma {:induction false} RegroupedCounts(spanned: seq<Event>, dates: seq<int>, e: Event)
    requires forall i, j :: 0 <= i < j < |dates| ==> dates[i] != dates[j]
    ensures multiset(Regrouped(spanned, dates))[e] == if DateOf(e.at) in dates then multiset(spanned)[e] else 0
    decreases |dates|
  {
    if dates != [] {
      var rest, last := dates[..|dates| - 1], dates[|dates| - 1];
      assert dates == rest + [last];
      RegroupedCounts(spanned, rest, e);
      FilterMultiset(spanned, OnDate(last));
      hide Filter;
      assert multiset(Regrouped(spanned, dates)) == multiset(Regrouped(spanned, rest)) + multiset(OfDay(spanned, last));
    }
  }

  /** Regrouping by day only reorders. */
  lemma RegroupedShuffles(spanned: seq<Event>)
    ensures multiset(Regrouped(spanned, Dates(spanned))) == multiset(spanned)
  {
    DatesMembers(spanned);
    forall e ensures multiset(Regrouped(spanned, Dates(spanned)))[e] == multiset(spanned)[e] {
      RegroupedCounts(spanned, Dates(spanned), e);
      if e in multiset(spanned) {
        assert e in spanned;
      }
    }
    hide Regrouped, Dates;
  }

  // ---------------------------------------------------------------- what a field can say

  /** The span holds the events from its start to just before its end, each as often as it was given. */
  lemma SpanExactly(events: seq<Event>, start: int, end: int)
    ensures forall e :: multiset(Filter(events, InSpan(start, end)))[e]
                        == if start <= e.at < end then multiset(events)[e] else 0
  {
    FilterMultiset(events, InSpan(start, end));
    hide Filter;
  }

  /** The population deviation of some numbers. */
  ghost predicate DeviationOf(xs: seq<real>, d: real) {
    d >= 0.0 && Spreads(|xs| as real, PowerSum(xs), Sum(xs), Prod(|xs| as real, d))
  }

  /** The least number that reaches all three. */
  ghost predicate LeastReaching(x: real, a: real, b: real, c: real) {
    && x >= a && x >= b && x >= c
    && (x == a || x == b || x == c)
  }

  /** A deviation raised to a floor and to a share of the mean. */
  ghost predicate SpreadMeant(xs: seq<real>, std: real, floor: real, portion: real) {
    exists d: real :: DeviationOf(xs, d) && LeastReaching(std, d, floor, portion)
  }

  /** A mean raised to a millionth. */
  ghost predicate MeanMeant(xs: seq<real>, mean: real) {
    if Sum(xs) >= 0.000001 * |xs| as real then mean * |xs| as real == Sum(xs) else mean == 0.000001
  }

  function Paid(e: Event): real {
    e.amount
  }

  /** The index set of one date. */
  ghost function DaySet(events: seq<Event>, date: int): set<nat> {
    set i: nat | i < |events| && DateOf(events[i].at) == date
  }

  ghost function DayTurnover(events: seq<Event>, date: int): real {
    if events == [] then 0.0
    else
      var last := events[|events| - 1];
      DayTurnover(events[..|events| - 1], date) + if DateOf(last.at) == date then last.amount else 0.0
  }

  /** Thirty numbers: the events of each date. */
  ghost function PerDate(events: seq<Event>, first: int): (r: seq<real>)
    ensures |r| == 30
  {
    seq(30, k requires 0 <= k < 30 => |DaySet(events, first + k)| as real)
  }

  /** Thirty amounts: the turnover of each date. */
  ghost function TurnoverPerDate(events: seq<Event>, first: int): (r: seq<real>)
    ensures |r| == 30
  {
    seq(30, k requires 0 <= k < 30 => DayTurnover(events, first + k))
  }

  ghost predicate VolumeMeant(b: Baseline, spanned: seq<Event>, first: int) {
    var volumes := PerDate(spanned, first);
    && MeanMeant(volumes, b.volumeMean)
    && SpreadMeant(volumes, b.volumeStd, 5.0, Sum(volumes) / 30.0 * 0.15)
  }

  ghost predicate TurnoverMeant(b: Baseline, spanned: seq<Event>, first: int) {
    var turnover := TurnoverPerDate(spanned, first);
    && MeanMeant(turnover, b.gmvMean)
    && SpreadMeant(turnover, b.gmvStd, 500.0, Sum(turnover) / 30.0 * 0.20)
  }

  ghost predicate IsMean(mean: real, count: nat, total: real) {
    mean * count as real == total
  }

  ghost predicate TicketMeant(b: Baseline, spanned: seq<Event>) {
    && IsMean(b.ticketMean, |spanned|, Turnover(spanned))
    && SpreadMeant(Map(spanned, Paid), b.ticketStd, 50.0, b.ticketMean * 0.25)
  }

  /** Every date of the span, once. */
  ghost predicate DatesOf(spanned: seq<Event>, dates: seq<int>) {
    && (forall i, j :: 0 <= i < j < |dates| ==> dates[i] != dates[j])
    && (forall d :: d in dates <==> exists i :: 0 <= i < |spanned| && DateOf(spanned[i].at) == d)
  }

  /** The mean over the dates of the share of marked events, and its deviation raised to a floor. */
  ghost predicate RateMeant(spanned: seq<Event>, dates: seq<int>, marked: set<nat>, mean: real, std: real,
                            floor: real)
  {
    exists rates: seq<real> :: RateGiven(spanned, dates, rates, marked, mean, std, floor)
  }

  ghost predicate RateGiven(spanned: seq<Event>, dates: seq<int>, rates: seq<real>, marked: set<nat>, mean: real,
                            std: real, floor: real)
  {
    && |rates| == |dates|
    && (forall k :: 0 <= k < |dates| ==>
          rates[k] * |DaySet(spanned, dates[k])| as real == |DaySet(spanned, dates[k]) * marked| as real)
    && mean * |dates| as real == Sum(rates)
    && SpreadMeant(rates, std, floor, floor)
  }

  ghost function RefundedSet(spanned: seq<Event>, end: int): set<nat> {
    set i: nat | i < |spanned| && spanned[i].refundAt.Some? && spanned[i].refundAt.value < end
  }

  ghost function ChargedBackSet(spanned: seq<Event>, end: int): set<nat> {
    set i: nat | i < |spanned| && spanned[i].chargebackAt.Some? && spanned[i].chargebackAt.value < end
  }

  /** The middle of some numbers in ascending order. */
  ghost predicate MedianOf(xs: seq<real>, median: real) {
    exists sorted: seq<real> ::
      && multiset(sorted) == multiset(xs) && sorted != []
      && (forall i, j :: 0 <= i < j < |sorted| ==> sorted[i] <= sorted[j])
      && var n := |sorted|;
         if n % 2 == 1 then median == sorted[n / 2] else 2.0 * median == sorted[n / 2 - 1] + sorted[n / 2]
  }

  ghost predicate HistogramMeant(b: Baseline, spanned: seq<Event>) {
    && |b.edges| == 5 && b.edges[0] == 0.0
    && b.edges[1] == b.edges[2] / 2.0 && b.edges[3] == 2.0 * b.edges[2] && b.edges[4] == 6.0 * b.edges[2]
    && (exists median: real :: MedianOf(Map(spanned, Paid), median)
                              && LeastReaching(b.edges[2], median, 1.0, 1.0))
    && SharesOf(spanned, b.edges, b.probabilities)
  }

  // ---------------------------------------------------------------- the daily series

  lemma DayCount(spanned: seq<Event>, date: int)
    ensures |OfDay(spanned, date)| == |DaySet(spanned, date)|
  {
    FilterCount(spanned, OnDate(date), DaySet(spanned, date));
  }

  lemma {:induction false} VolumesAre(spanned: seq<Event>, first: int, days: nat, k: nat)
    requires k < days
    ensures DailyVolumes(spanned, first, days)[k] == |DaySet(spanned, first + k)| as real
  {
    if k == days - 1 {
      DayCount(spanned, first + k);
    } else {
      VolumesAre(spanned, first, days - 1, k);
    }
  }

  lemma {:induction false} DayTurnoverIs(spanned: seq<Event>, date: int)
    ensures Sum(Map(OfDay(spanned, date), AmountOf)) == DayTurnover(spanned, date)
  {
    if spanned != [] {
      var t, e := spanned[..|spanned| - 1], spanned[|spanned| - 1];
      assert spanned == t + [e];
      DayTurnoverIs(t, date);
      FilterAppend(t, e, OnDate(date));
      hide Filter, Sum;
      if DateOf(e.at) == date {
        MapAppend(OfDay(t, date), e, AmountOf);
        SumConcat(Map(OfDay(t, date), AmountOf), [e.amount]);
        OneTerm(e.amount);
      } else {
        assert OfDay(t, date) + [] == OfDay(t, date);
      }
    }
  }

  lemma {:induction false} TurnoversAre(spanned: seq<Event>, first: int, days: nat, k: nat)
    requires k < days
    ensures DailyTurnover(spanned, first, days)[k] == DayTurnover(spanned, first + k)
  {
    hide Sum, Map, DayTurnover;
    if k == days - 1 {
      DayTurnoverIs(spanned, first + k);
    } else {
      TurnoversAre(spanned, first, days - 1, k);
    }
  }

  lemma SeriesAre(spanned: seq<Event>, first: int)
    ensures DailyVolumes(spanned, first, BASELINE_DAYS) == PerDate(spanned, first)
    ensures DailyTurnover(spanned, first, BASELINE_DAYS) == TurnoverPerDate(spanned, first)
  {
    hide DailyVolumes, DailyTurnover, DayTurnover, DaySet;
    forall k: nat | k < BASELINE_DAYS
      ensures DailyVolumes(spanned, first, BASELINE_DAYS)[k] == |DaySet(spanned, first + k)| as real
      ensures DailyTurnover(spanned, first, BASELINE_DAYS)[k] == DayTurnover(spanned, first + k)
    {
      VolumesAre(spanned, first, BASELINE_DAYS, k);
      TurnoversAre(spanned, first, BASELINE_DAYS, k);
    }
  }

  lemma MaxOfThree(a: real, b: real, c: real)
    ensures LeastReaching(Max(Max(a, b), c), a, b, c) && LeastReaching(Max(a, b), a, b, b)
  {
  }

  lemma DeviationMeant(m: MathLib, xs: seq<real>)
    requires Sound(m) && xs != []
    ensures DeviationOf(xs, DeviationIfMany(m, xs)) && DeviationOf(xs, Deviation(m, xs))
  {
    DeviationExactly(m, xs);
    if |xs| == 1 {
      DeviationOfOne(xs);
    }
    hide Deviation, PowerSum, Sum, Spreads, Sound;
  }

  lemma DeviationOfOne(xs: seq<real>)
    requires |xs| == 1
    ensures DeviationOf(xs, 0.0)
  {
    assert xs == [xs[0]];
    OneTerm(xs[0]);
    assert xs[..0] == [];
    assert PowerSum(xs) == xs[0] * xs[0];
  }

  lemma SpreadOf(m: MathLib, xs: seq<real>, floor: real, portion: real)
    requires Sound(m) && xs != []
    ensures SpreadMeant(xs, Max(Max(Deviation(m, xs), floor), portion), floor, portion)
    ensures SpreadMeant(xs, Max(Max(DeviationIfMany(m, xs), floor), portion), floor, portion)
    ensures SpreadMeant(xs, Max(DeviationIfMany(m, xs), floor), floor, floor)
  {
    hide Deviation, DeviationIfMany, DeviationOf, LeastReaching, Max, Sound;
    DeviationMeant(m, xs);
    MaxOfThree(Deviation(m, xs), floor, portion);
    MaxOfThree(DeviationIfMany(m, xs), floor, portion);
  }

  lemma MeanRaised(xs: seq<real>)
    requires xs != []
    ensures MeanMeant(xs, Max(Mean(xs), 0.000001))
  {
    MeanUndone(xs);
    var n, c := |xs| as real, Mean(xs);
    hide Sum, Mean;
    MeanAgainst(c, n, Sum(xs));
  }

  lemma MeanAgainst(c: real, n: real, s: real)
    requires n > 0.0 && c * n == s
    ensures c >= 0.000001 <==> s >= 0.000001 * n
  {
    if c >= 0.000001 {
      assert (c - 0.000001) * n >= 0.0;
    } else {
      assert (0.000001 - c) * n > 0.0;
    }
  }

  // ---------------------------------------------------------------- the composed record

  lemma MeanOfThirty(xs: seq<real>)
    requires |xs| == 30
    ensures Mean(xs) == Sum(xs) / 30.0
  {
    hide Sum;
  }

  lemma SeriesMeant(m: MathLib, volumes: seq<real>, turnover: seq<real>, refunds: seq<real>, chargebacks: seq<real>,
                    events: seq<Event>)
    requires Sound(m) && |volumes| == |turnover| == 30 && events != []
    ensures var b := Compose(m, volumes, turnover, refunds, chargebacks, events);
      && MeanMeant(volumes, b.volumeMean)
      && SpreadMeant(volumes, b.volumeStd, 5.0, Sum(volumes) / 30.0 * 0.15)
      && MeanMeant(turnover, b.gmvMean)
      && SpreadMeant(turnover, b.gmvStd, 500.0, Sum(turnover) / 30.0 * 0.20)
  {
    hide Deviation, DeviationIfMany, Sum, Mean, SpreadMeant, MeanMeant, MeanOrZero, Median, Max, EdgesFor,
        Probabilities, Tally, Sound;
    MeanRaised(volumes);
    MeanRaised(turnover);
    MeanOfThirty(volumes);
    MeanOfThirty(turnover);
    SpreadOf(m, volumes, 5.0, Sum(volumes) / 30.0 * 0.15);
    SpreadOf(m, turnover, 500.0, Sum(turnover) / 30.0 * 0.20);
  }

  lemma TicketsMeant(m: MathLib, volumes: seq<real>, turnover: seq<real>, refunds: seq<real>, chargebacks: seq<real>,
                     events: seq<Event>)
    requires Sound(m) && volumes != [] && turnover != [] && events != []
    ensures var b := Compose(m, volumes, turnover, refunds, chargebacks, events);
      var amounts := Map(events, AmountOf);
      && b.ticketMean * |amounts| as real == Sum(amounts)
      && SpreadMeant(amounts, b.ticketStd, 50.0, b.ticketMean * 0.25)
  {
    hide Deviation, DeviationIfMany, Sum, SpreadMeant, MeanOrZero, Mean, Median, Max, EdgesFor, Probabilities, Tally,
        Sound;
    var amounts := Map(events, AmountOf);
    MeanUndone(amounts);
    SpreadOf(m, amounts, 50.0, Mean(amounts) * 0.25);
  }

  lemma RatesAre(m: MathLib, volumes: seq<real>, turnover: seq<real>, refunds: seq<real>, chargebacks: seq<real>,
                 events: seq<Event>)
    requires Sound(m) && volumes != [] && turnover != [] && events != [] && refunds != [] && chargebacks != []
    ensures var b := Compose(m, volumes, turnover, refunds, chargebacks, events);
      && b.refundMean * |refunds| as real == Sum(refunds)
      && SpreadMeant(refunds, b.refundStd, 0.015, 0.015)
      && b.chargebackMean * |chargebacks| as real == Sum(chargebacks)
      && SpreadMeant(chargebacks, b.chargebackStd, 0.005, 0.005)
  {
    hide Deviation, DeviationIfMany, Sum, SpreadMeant, Mean, Median, Max, EdgesFor, Probabilities, Tally, Sound;
    MeanUndone(refunds);
    MeanUndone(chargebacks);
    SpreadOf(m, refunds, 0.015, 0.015);
    SpreadOf(m, chargebacks, 0.005, 0.005);
  }

  lemma PeopleAre(m: MathLib, volumes: seq<real>, turnover: seq<real>, refunds: seq<real>, chargebacks: seq<real>,
                  events: seq<Event>)
    requires volumes != [] && turnover != [] && events != []
    ensures var b := Compose(m, volumes, turnover, refunds, chargebacks, events);
      && (forall d :: d in b.knownDevices <==> exists e :: e in events && e.device == d)
      && (forall g :: g in b.knownGeos <==> exists e :: e in events && e.geo == g)
      && b.edges == EdgesFor(Max(1.0, Median(Map(events, AmountOf))))
      && b.probabilities == Probabilities(Tally(Map(events, AmountOf), b.edges))
  {
    hide Deviation, DeviationIfMany, Mean, MeanOrZero, Median, Max, EdgesFor, Probabilities, Tally;
  }

  // ---------------------------------------------------------------- reordering and dates

  lemma DeviationShuffled(a: seq<real>, b: seq<real>, d: real)
    requires multiset(a) == multiset(b) && DeviationOf(a, d)
    ensures DeviationOf(b, d)
  {
    SumShuffled(a, b);
    PowerShuffled(a, b);
    assert |a| == |multiset(a)| == |multiset(b)| == |b|;
    hide Sum, PowerSum, Spreads, Prod;
  }

  lemma SpreadShuffled(a: seq<real>, b: seq<real>, std: real, floor: real, portion: real)
    requires multiset(a) == multiset(b) && SpreadMeant(a, std, floor, portion)
    ensures SpreadMeant(b, std, floor, portion)
  {
    hide DeviationOf, LeastReaching;
    var d :| DeviationOf(a, d) && LeastReaching(std, d, floor, portion);
    DeviationShuffled(a, b, d);
  }

  lemma AmountsShuffle(spanned: seq<Event>)
    ensures var amounts := Map(spanned, Paid);
      && Map(spanned, AmountOf) == amounts
      && multiset(Map(Regrouped(spanned, Dates(spanned)), AmountOf)) == multiset(amounts)
      && Sum(Map(Regrouped(spanned, Dates(spanned)), AmountOf)) == Turnover(spanned)
      && |Regrouped(spanned, Dates(spanned))| == |spanned|
  {
    hide Regrouped, Dates, Sum, Turnover;
    var regrouped := Regrouped(spanned, Dates(spanned));
    RegroupedShuffles(spanned);
    assert |regrouped| == |multiset(regrouped)| == |multiset(spanned)| == |spanned|;
    MapShuffled(regrouped, spanned, AmountOf);
    SumShuffled(Map(regrouped, AmountOf), Map(spanned, AmountOf));
    TurnoverIsSum(spanned);
  }

  lemma DatesExactly(spanned: seq<Event>)
    ensures DatesOf(spanned, Dates(spanned))
  {
    hide Dates;
    DatesMembers(spanned);
    forall d ensures d in Dates(spanned) <==> exists i :: 0 <= i < |spanned| && DateOf(spanned[i].at) == d {
      if d in Dates(spanned) {
        var day := OfDay(spanned, d);
        FilterMembers(spanned, OnDate(d));
        hide Filter;
        assert day[0] in spanned && DateOf(day[0].at) == d;
      }
    }
  }

  lemma {:induction false} RateAt(spanned: seq<Event>, dates: seq<int>, p: Event -> bool, k: nat)
    requires k < |dates|
    ensures DailyRates(spanned, dates, p)[k] == RateOf(OfDay(spanned, dates[k]), p)
    decreases |dates|
  {
    hide RateOf, OfDay;
    var n := |dates| - 1;
    if k < n {
      RateAt(spanned, dates[..n], p, k);
    }
  }

  lemma RateIs(spanned: seq<Event>, date: int, p: Event -> bool, marked: set<nat>)
    requires OfDay(spanned, date) != []
    requires forall i: nat :: i in marked <==> i < |spanned| && p(spanned[i])
    ensures RateOf(OfDay(spanned, date), p) * |DaySet(spanned, date)| as real
         == |DaySet(spanned, date) * marked| as real
  {
    hide Filter, DaySet, Ratio, OfDay;
    var day := OfDay(spanned, date);
    DayCount(spanned, date);
    MarkedOnDate(spanned, date, p, marked);
    RatioUndone(|Filter(day, p)|, |day|);
  }

  lemma RateOnDate(spanned: seq<Event>, p: Event -> bool, marked: set<nat>, k: nat)
    requires k < |Dates(spanned)| && forall i: nat :: i in marked <==> i < |spanned| && p(spanned[i])
    ensures var date := Dates(spanned)[k];
      DailyRates(spanned, Dates(spanned), p)[k] * |DaySet(spanned, date)| as real
      == |DaySet(spanned, date) * marked| as real
  {
    hide Dates, DailyRates, DaySet, OfDay, RateOf;
    DatesMembers(spanned);
    assert Dates(spanned)[k] in Dates(spanned);
    RateAt(spanned, Dates(spanned), p, k);
    RateIs(spanned, Dates(spanned)[k], p, marked);
  }

  lemma MarkedOnDate(spanned: seq<Event>, date: int, p: Event -> bool, marked: set<nat>)
    requires forall i: nat :: i in marked <==> i < |spanned| && p(spanned[i])
    ensures |Filter(OfDay(spanned, date), p)| == |DaySet(spanned, date) * marked|
  {
    var both := (e: Event) => DateOf(e.at) == date && p(e);
    FilterFilter(spanned, OnDate(date), p, both);
    FilterCount(spanned, both, DaySet(spanned, date) * marked);
  }

  lemma RatesMeant(spanned: seq<Event>, p: Event -> bool, marked: set<nat>, mean: real, std: real, floor: real)
    requires forall i: nat :: i in marked <==> i < |spanned| && p(spanned[i])
    requires var rates := DailyRates(spanned, Dates(spanned), p);
      mean * |rates| as real == Sum(rates) && SpreadMeant(rates, std, floor, floor)
    ensures RateMeant(spanned, Dates(spanned), marked, mean, std, floor)
  {
    hide Dates, DailyRates, DaySet, SpreadMeant, Sum;
    var dates := Dates(spanned);
    var rates := DailyRates(spanned, dates, p);
    forall k: nat | k < |dates|
      ensures rates[k] * |DaySet(spanned, dates[k])| as real == |DaySet(spanned, dates[k]) * marked| as real
    {
      RateOnDate(spanned, p, marked, k);
    }
    assert RateGiven(spanned, dates, rates, marked, mean, std, floor);
  }

  lemma OrderTotal()
    ensures TotalPreorder(LessOrEqual)
  {
  }

  lemma MedianExactly(xs: seq<real>, ys: seq<real>)
    requires xs != [] && multiset(xs) == multiset(ys)
    ensures MedianOf(ys, Median(xs))
  {
    var sorted := StableSort(xs, LessOrEqual);
    OrderTotal();
    SortSorted(xs, LessOrEqual);
    SortMultiset(xs, LessOrEqual);
    hide StableSort;
    forall i, j | 0 <= i < j < |sorted| ensures sorted[i] <= sorted[j] {
      assert LessOrEqual(sorted[i], sorted[j]);
    }
  }

  lemma EdgesAre(median: real)
    ensures var edges := EdgesFor(Max(1.0, median));
      && edges[0] == 0.0 && edges[1] == edges[2] / 2.0 && edges[3] == 2.0 * edges[2] && edges[4] == 6.0 * edges[2]
      && LeastReaching(edges[2], median, 1.0, 1.0) && Increasing(edges)
  {
  }

  lemma SameTally(spanned: seq<Event>, amounts: seq<real>, edges: seq<real>, bin: nat)
    requires multiset(amounts) == multiset(Map(spanned, AmountOf)) && |edges| == 5 && Increasing(edges) && bin < 4
    ensures Tally(amounts, edges)[bin] == |BinSet(spanned, edges, bin)|
  {
    hide Tally, BinSet, Filter, Increasing, InThisBin;
    BinCount(amounts, edges, bin);
    CountShuffled(amounts, Map(spanned, AmountOf), InThisBin(edges, bin));
    BinCount(Map(spanned, AmountOf), edges, bin);
    TallyExactly(spanned, edges, bin);
  }

  ghost predicate RaisedShare(p: real, count: nat, n: nat) {
    p * (n as real + 0.000001 * 4 as real) == count as real + 0.000001
  }

  lemma ShareLine(counts: seq<nat>, n: nat, i: nat)
    requires |counts| == 4 && Total(counts) == n && i < 4
    ensures RaisedShare(Probabilities(counts)[i], counts[i], n)
  {
    hide Total, Probabilities, Share, Mass;
    MassOf(counts, n);
    ProbabilityOf(counts);
    ShareSound(counts[i], Mass(counts));
  }

  lemma SharesExactly(spanned: seq<Event>, amounts: seq<real>, edges: seq<real>)
    requires multiset(amounts) == multiset(Map(spanned, AmountOf)) && |amounts| == |spanned|
    requires |edges| == 5 && Increasing(edges)
    ensures SharesOf(spanned, edges, Probabilities(Tally(amounts, edges)))
  {
    hide Tally, Total, Probabilities, BinSet, Increasing, RaisedShare, SharesOf;
    var counts := Tally(amounts, edges);
    TallyTotal(amounts, edges);
    forall i: nat | i < 4
      ensures RaisedShare(Probabilities(counts)[i], |BinSet(spanned, edges, i)|, |spanned|)
    {
      SameTally(spanned, amounts, edges, i);
      ShareLine(counts, |spanned|, i);
    }
    SharesByLine(spanned, edges, Probabilities(counts));
  }

  lemma SharesByLine(spanned: seq<Event>, edges: seq<real>, shares: seq<real>)
    requires |shares| == 4 && |edges| == 5
    requires forall i: nat :: i < 4 ==> RaisedShare(shares[i], |BinSet(spanned, edges, i)|, |spanned|)
    ensures SharesOf(spanned, edges, shares)
  {
    hide BinSet;
  }

  lemma MassOf(counts: seq<nat>, n: nat)
    requires |counts| == 4 && Total(counts) == n
    ensures Mass(counts) == n as real + 0.000001 * 4 as real
  {
    hide Total;
  }

  // ---------------------------------------------------------------- the theorem

  /** What a baseline says of the events in its span. */
  ghost predicate BaselineMeant(b: Baseline, spanned: seq<Event>, first: int, end: int, dates: seq<int>) {
    && VolumeMeant(b, spanned, first)
    && TurnoverMeant(b, spanned, first)
    && TicketMeant(b, spanned)
    && RateMeant(spanned, dates, RefundedSet(spanned, end), b.refundMean, b.refundStd, 0.015)
    && RateMeant(spanned, dates, ChargedBackSet(spanned, end), b.chargebackMean, b.chargebackStd, 0.005)
    && (forall d :: d in b.knownDevices <==> exists e :: e in spanned && e.device == d)
    && (forall g :: g in b.knownGeos <==> exists e :: e in spanned && e.geo == g)
    && HistogramMeant(b, spanned)
  }

  lemma PeopleExactly(m: MathLib, spanned: seq<Event>, start: int, end: int)
    requires spanned != []
    ensures var b := BaselineOf(m, spanned, start, end);
      && (forall d :: d in b.knownDevices <==> exists e :: e in spanned && e.device == d)
      && (forall g :: g in b.knownGeos <==> exists e :: e in spanned && e.geo == g)
  {
    hide Compose, DailyVolumes, DailyTurnover, DailyRates, Regrouped, Dates;
    var dates := Dates(spanned);
    RegroupedAll(spanned);
    PeopleAre(m, DailyVolumes(spanned, DateOf(start), BASELINE_DAYS),
              DailyTurnover(spanned, DateOf(start), BASELINE_DAYS), DailyRates(spanned, dates, RefundedBefore(end)),
              DailyRates(spanned, dates, ChargedBackBefore(end)), Regrouped(spanned, dates));
  }

  lemma HistogramExactly(m: MathLib, spanned: seq<Event>, start: int, end: int)
    requires spanned != []
    ensures HistogramMeant(BaselineOf(m, spanned, start, end), spanned)
  {
    hide Compose, DailyVolumes, DailyTurnover, DailyRates, Regrouped, Dates, Median, EdgesFor, Max, MedianOf,
        LeastReaching, SharesOf, Probabilities, Tally, Increasing, Sum, Turnover;
    var dates := Dates(spanned);
    RegroupedAll(spanned);
    var regrouped := Regrouped(spanned, dates);
    PeopleAre(m, DailyVolumes(spanned, DateOf(start), BASELINE_DAYS),
              DailyTurnover(spanned, DateOf(start), BASELINE_DAYS), DailyRates(spanned, dates, RefundedBefore(end)),
              DailyRates(spanned, dates, ChargedBackBefore(end)), regrouped);
    AmountsShuffle(spanned);
    var median := Median(Map(regrouped, AmountOf));
    MedianExactly(Map(regrouped, AmountOf), Map(spanned, Paid));
    EdgesAre(median);
    SharesExactly(spanned, Map(regrouped, AmountOf), EdgesFor(Max(1.0, median)));
  }

  lemma SeriesExactly(m: MathLib, spanned: seq<Event>, start: int, end: int)
    requires Sound(m) && spanned != []
    ensures var b := BaselineOf(m, spanned, start, end);
      VolumeMeant(b, spanned, DateOf(start)) && TurnoverMeant(b, spanned, DateOf(start))
  {
    hide Compose, DailyRates, Regrouped, Dates, MeanMeant, SpreadMeant, PerDate, TurnoverPerDate, DailyVolumes,
        DailyTurnover, Sum, Sound;
    var dates, first := Dates(spanned), DateOf(start);
    RegroupedAll(spanned);
    SeriesAre(spanned, first);
    SeriesMeant(m, DailyVolumes(spanned, first, BASELINE_DAYS), DailyTurnover(spanned, first, BASELINE_DAYS),
                DailyRates(spanned, dates, RefundedBefore(end)), DailyRates(spanned, dates, ChargedBackBefore(end)),
                Regrouped(spanned, dates));
  }

  lemma TicketsOf(m: MathLib, spanned: seq<Event>, start: int, end: int)
    requires Sound(m) && spanned != []
    ensures var b := BaselineOf(m, spanned, start, end);
      var amounts := Map(Regrouped(spanned, Dates(spanned)), AmountOf);
      && IsMean(b.ticketMean, |amounts|, Sum(amounts))
      && SpreadMeant(amounts, b.ticketStd, 50.0, b.ticketMean * 0.25)
  {
    hide Compose, DailyRates, Regrouped, Dates, SpreadMeant, DailyVolumes, DailyTurnover, Sum, Sound;
    var dates, first := Dates(spanned), DateOf(start);
    RegroupedAll(spanned);
    TicketsMeant(m, DailyVolumes(spanned, first, BASELINE_DAYS), DailyTurnover(spanned, first, BASELINE_DAYS),
                 DailyRates(spanned, dates, RefundedBefore(end)), DailyRates(spanned, dates, ChargedBackBefore(end)),
                 Regrouped(spanned, dates));
  }

  lemma TicketsExactly(m: MathLib, spanned: seq<Event>, start: int, end: int)
    requires Sound(m) && spanned != []
    ensures TicketMeant(BaselineOf(m, spanned, start, end), spanned)
  {
    hide BaselineOf, Regrouped, Dates, SpreadMeant, Sum, Turnover, Sound, IsMean, Map;
    TicketsOf(m, spanned, start, end);
    AmountsShuffle(spanned);
    var b, amounts := BaselineOf(m, spanned, start, end), Map(Regrouped(spanned, Dates(spanned)), AmountOf);
    SpreadShuffled(amounts, Map(spanned, Paid), b.ticketStd, 50.0, b.ticketMean * 0.25);
  }

  lemma RatesExactly(m: MathLib, spanned: seq<Event>, start: int, end: int)
    requires Sound(m) && spanned != []
    ensures var b := BaselineOf(m, spanned, start, end);
      && RateMeant(spanned, Dates(spanned), RefundedSet(spanned, end), b.refundMean, b.refundStd, 0.015)
      && RateMeant(spanned, Dates(spanned), ChargedBackSet(spanned, end), b.chargebackMean, b.chargebackStd, 0.005)
  {
    hide Compose, DailyRates, Regrouped, Dates, SpreadMeant, DailyVolumes, DailyTurnover, Sum, Sound, RateMeant;
    var dates, first := Dates(spanned), DateOf(start);
    RegroupedAll(spanned);
    DatesMembers(spanned);
    assert spanned[0] in spanned;
    assert dates != [];
    var refunds, chargebacks :=
      DailyRates(spanned, dates, RefundedBefore(end)), DailyRates(spanned, dates, ChargedBackBefore(end));
    RatesAre(m, DailyVolumes(spanned, first, BASELINE_DAYS), DailyTurnover(spanned, first, BASELINE_DAYS), refunds,
             chargebacks, Regrouped(spanned, dates));
    var b := BaselineOf(m, spanned, start, end);
    RatesMeant(spanned, RefundedBefore(end), RefundedSet(spanned, end), b.refundMean, b.refundStd, 0.015);
    RatesMeant(spanned, ChargedBackBefore(end), ChargedBackSet(spanned, end), b.chargebackMean, b.chargebackStd, 0.005);
  }

  /** Whatever baseline is built says, in every field, what it should of the span's events. */
  lemma BaselineExactly(m: MathLib, events: seq<Event>, start: int, end: int)
    requires Sound(m) && BuildBaseline(m, events, start, end).Success?
    ensures var spanned := Filter(events, InSpan(start, end)); var r := BuildBaseline(m, events, start, end).value;
      && spanned != []
      && exists dates: seq<int> ::
           DatesOf(spanned, dates) && r.1 == |dates| && BaselineMeant(r.0, spanned, DateOf(start), end, dates)
  {
    hide BaselineOf, Filter, DatesOf, VolumeMeant, TurnoverMeant, TicketMeant, RateMeant, HistogramMeant, ValidBaseline,
        Sound, RefundedSet, ChargedBackSet;
    var spanned := Filter(events, InSpan(start, end));
    DatesExactly(spanned);
    SeriesExactly(m, spanned, start, end);
    TicketsExactly(m, spanned, start, end);
    RatesExactly(m, spanned, start, end);
    PeopleExactly(m, spanned, start, end);
    HistogramExactly(m, spanned, start, end);
  }
}
