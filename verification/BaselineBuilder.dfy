/** The thirty-day merchant baseline built from the events before the current window. */
module BaselineBuilder {
  import opened Features
  import opened Histogram
  import opened Instants
  import opened RealMath
  import opened Sequences
  import opened Wrappers

  const BASELINE_DAYS: nat := 30

  datatype BaselineError = NoBaselineTransactions | InvalidBaseline

  // ---------------------------------------------------------------- grouping by calendar date

  function InSpan(start: int, end: int): Event -> bool {
    (e: Event) => start <= e.at < end
  }

  function OnDate(date: int): Event -> bool {
    (e: Event) => DateOf(e.at) == date
  }

  function BeforeDate(date: int): Event -> bool {
    (e: Event) => DateOf(e.at) < date
  }

  /** Dates in order of first appearance: the keys of the grouping dictionary. */
  function Dates(events: seq<Event>): seq<int> {
    if events == [] then []
    else
      var r := Dates(events[..|events| - 1]);
      var date := DateOf(events[|events| - 1].at);
      if date in r then r else r + [date]
  }

  function OfDay(events: seq<Event>, date: int): seq<Event> {
    Filter(events, OnDate(date))
  }

  /** The grouping dictionary: every date that occurs, with its events in input order. */
  ghost predicate Grouped(byDay: map<int, seq<Event>>, order: seq<int>, spanned: seq<Event>) {
    && order == Dates(spanned)
    && (forall d :: d in byDay <==> d in order)
    && forall d | d in byDay :: byDay[d] == OfDay(spanned, d)
  }

  lemma {:induction false} DatesMembers(events: seq<Event>)
    ensures forall d | d in Dates(events) :: OfDay(events, d) != []
    ensures forall e | e in events :: DateOf(e.at) in Dates(events)
    ensures forall i, j :: 0 <= i < j < |Dates(events)| ==> Dates(events)[i] != Dates(events)[j]
  {
    if events != [] {
      var t, e := events[..|events| - 1], events[|events| - 1];
      assert events == t + [e];
      DatesMembers(t);
      forall d | d in Dates(events) ensures OfDay(events, d) != [] {
        FilterAppend(t, e, OnDate(d));
      }
    }
  }

  lemma GroupStep(byDay: map<int, seq<Event>>, order: seq<int>, spanned: seq<Event>, e: Event)
    requires Grouped(byDay, order, spanned)
    ensures var date := DateOf(e.at);
      Grouped(byDay[date := (if date in byDay then byDay[date] else []) + [e]],
              if date in byDay then order else order + [date], spanned + [e])
  {
    var date := DateOf(e.at);
    assert (spanned + [e])[..|spanned|] == spanned;
    forall d ensures OfDay(spanned + [e], d) == OfDay(spanned, d) + if d == date then [e] else [] {
      FilterAppend(spanned, e, OnDate(d));
    }
    if date !in byDay {
      DatesMembers(spanned);
      forall x | x in spanned ensures !OnDate(date)(x) {
        assert DateOf(x.at) in order;
      }
      FilterNone(spanned, OnDate(date));
    }
  }

  method GroupByDay(events: seq<Event>, start: int, end: int)
    returns (byDay: map<int, seq<Event>>, order: seq<int>)
    ensures Grouped(byDay, order, Filter(events, InSpan(start, end)))
  {
    byDay, order := map[], [];
    for k := 0 to |events|
      invariant Grouped(byDay, order, Filter(events[..k], InSpan(start, end)))
    {
      var e := events[k];
      ghost var before := Filter(events[..k], InSpan(start, end));
      assert events[..k + 1] == events[..k] + [e];
      FilterAppend(events[..k], e, InSpan(start, end));
      if start <= e.at < end {
        assert Filter(events[..k + 1], InSpan(start, end)) == before + [e];
        var date := DateOf(e.at);
        GroupStep(byDay, order, before, e);
        order := if date in byDay then order else order + [date];
        byDay := byDay[date := (if date in byDay then byDay[date] else []) + [e]];
      } else {
        assert Filter(events[..k + 1], InSpan(start, end)) == before;
      }
    }
    assert events[..|events|] == events;
  }

  // ---------------------------------------------------------------- daily series

  /** The events day by day, in the order the days first appear. */
  function Regrouped(spanned: seq<Event>, dates: seq<int>): seq<Event> {
    if dates == [] then [] else Regrouped(spanned, dates[..|dates| - 1]) + OfDay(spanned, dates[|dates| - 1])
  }

  function DailyVolumes(spanned: seq<Event>, firstDate: int, days: nat): (r: seq<real>)
    ensures |r| == days
  {
    if days == 0 then []
    else DailyVolumes(spanned, firstDate, days - 1) + [|OfDay(spanned, firstDate + days - 1)| as real]
  }

  function DailyTurnover(spanned: seq<Event>, firstDate: int, days: nat): (r: seq<real>)
    ensures |r| == days
  {
    if days == 0 then []
    else DailyTurnover(spanned, firstDate, days - 1)
         + [Sum(Map(OfDay(spanned, firstDate + days - 1), AmountOf))]
  }

  /** Daily shares of events satisfying `p`, one per date that occurs. */
  function DailyRates(spanned: seq<Event>, dates: seq<int>, p: Event -> bool): (r: seq<real>)
    ensures |r| == |dates|
  {
    if dates == [] then []
    else DailyRates(spanned, dates[..|dates| - 1], p) + [RateOf(OfDay(spanned, dates[|dates| - 1]), p)]
  }

  function RateOf(day: seq<Event>, p: Event -> bool): real {
    if day == [] then 0.0 else Ratio(|Filter(day, p)|, |day|)
  }

  function RefundedBefore(end: int): Event -> bool {
    (e: Event) => e.refundAt.Some? && e.refundAt.value < end
  }

  function ChargedBackBefore(end: int): Event -> bool {
    (e: Event) => e.chargebackAt.Some? && e.chargebackAt.value < end
  }

  // ---------------------------------------------------------------- amounts

  predicate LessOrEqual(a: real, b: real) {
    a <= b
  }

  function Median(xs: seq<real>): real
    requires xs != []
  {
    var sorted := StableSort(xs, LessOrEqual);
    var n := |sorted|;
    if n % 2 == 1 then sorted[n / 2] else (sorted[n / 2 - 1] + sorted[n / 2]) / 2.0
  }

  function EdgesFor(median: real): (r: seq<real>)
    ensures |r| == 5
  {
    [0.0, median * 0.5, median, median * 2.0, median * 6.0]
  }

  lemma EdgesIncrease(median: real)
    requires median > 0.0
    ensures Increasing(EdgesFor(median))
    ensures forall i :: 0 <= i < 4 ==> EdgesFor(median)[i] < EdgesFor(median)[i + 1]
  {
  }

  /** The threshold chain that fills the reference histogram bins amounts exactly as the current
      histogram does. */
  method CountReference(amounts: seq<real>, edges: seq<real>) returns (counts: seq<nat>)
    requires |edges| == 5 && Increasing(edges)
    ensures counts == Tally(amounts, edges)
  {
    counts := [0, 0, 0, 0];
    for k := 0 to |amounts|
      invariant counts == Tally(amounts[..k], edges) && |counts| == 4
    {
      var amount := amounts[k];
      assert amounts[..k + 1][..k] == amounts[..k];
      var bin := if amount < edges[1] then 0 else if amount < edges[2] then 1 else if amount < edges[3] then 2 else 3;
      assert BinOf(amount, edges) == Some(bin) by {
        assert InBin(amount, edges, bin);
        BinMeaning(amount, edges, bin);
      }
      if amount < edges[1] {
        counts := counts[0 := counts[0] + 1];
      } else if amount < edges[2] {
        counts := counts[1 := counts[1] + 1];
      } else if amount < edges[3] {
        counts := counts[2 := counts[2] + 1];
      } else {
        counts := counts[3 := counts[3] + 1];
      }
    }
    assert amounts[..|amounts|] == amounts;
  }

  // ---------------------------------------------------------------- the baseline

  lemma {:induction false} RegroupedMembers(spanned: seq<Event>, dates: seq<int>)
    ensures forall e | e in Regrouped(spanned, dates) :: e in spanned
    ensures forall e | e in spanned && DateOf(e.at) in dates :: e in Regrouped(spanned, dates)
  {
    if dates != [] {
      var rest, last := dates[..|dates| - 1], dates[|dates| - 1];
      RegroupedMembers(spanned, rest);
      FilterMembers(spanned, OnDate(last));
      assert dates == rest + [last];
    }
  }

  /** Regrouping by day loses and invents nothing. */
  lemma RegroupedAll(spanned: seq<Event>)
    ensures forall e | e in Regrouped(spanned, Dates(spanned)) :: e in spanned
    ensures forall e | e in spanned :: e in Regrouped(spanned, Dates(spanned))
    ensures spanned != [] <==> Regrouped(spanned, Dates(spanned)) != []
  {
    DatesMembers(spanned);
    RegroupedMembers(spanned, Dates(spanned));
    if spanned != [] {
      assert spanned[0] in spanned;
    } else {
      assert Dates(spanned) == [];
    }
  }

  function DeviationIfMany(m: MathLib, xs: seq<real>): real {
    if |xs| > 1 then Deviation(m, xs) else 0.0
  }

  function MeanOrZero(xs: seq<real>): real {
    if xs == [] then 0.0 else Mean(xs)
  }

  /** The baseline record, from the daily series, the daily rates and the regrouped events. */
  function Compose(m: MathLib, volumes: seq<real>, turnover: seq<real>, refunds: seq<real>, chargebacks: seq<real>,
                   baselineEvents: seq<Event>): Baseline
    requires volumes != [] && turnover != [] && baselineEvents != []
  {
    var amounts := Map(baselineEvents, AmountOf);
    var ticketMean := Mean(amounts);
    var edges := EdgesFor(Max(1.0, Median(amounts)));
    Baseline(
      Max(Mean(volumes), 0.000001), Max(Max(Deviation(m, volumes), 5.0), Mean(volumes) * 0.15),
      Max(Mean(turnover), 0.000001), Max(Max(Deviation(m, turnover), 500.0), Mean(turnover) * 0.20),
      ticketMean, Max(Max(DeviationIfMany(m, amounts), 50.0), ticketMean * 0.25),
      MeanOrZero(refunds), Max(DeviationIfMany(m, refunds), 0.015),
      MeanOrZero(chargebacks), Max(DeviationIfMany(m, chargebacks), 0.005),
      (set e | e in baselineEvents :: e.device), (set e | e in baselineEvents :: e.geo),
      edges, Probabilities(Tally(amounts, edges)))
  }

  function BaselineOf(m: MathLib, spanned: seq<Event>, start: int, end: int): Baseline
    requires spanned != []
  {
    RegroupedAll(spanned);
    var dates := Dates(spanned);
    Compose(m, DailyVolumes(spanned, DateOf(start), BASELINE_DAYS),
            DailyTurnover(spanned, DateOf(start), BASELINE_DAYS), DailyRates(spanned, dates, RefundedBefore(end)),
            DailyRates(spanned, dates, ChargedBackBefore(end)), Regrouped(spanned, dates))
  }

  function BuildBaseline(m: MathLib, events: seq<Event>, start: int, end: int): Result<(Baseline, nat), BaselineError> {
    var spanned := Filter(events, InSpan(start, end));
    if spanned == [] then Failure(NoBaselineTransactions)
    else
      var b := BaselineOf(m, spanned, start, end);
      if ValidBaseline(b) then Success((b, |Dates(spanned)|)) else Failure(InvalidBaseline)
  }

  /** Walks the grouping once, in dictionary order, for the per-day rates and the regrouped events. */
  method WalkDays(byDay: map<int, seq<Event>>, order: seq<int>, ghost spanned: seq<Event>, end: int)
    returns (baselineEvents: seq<Event>, refunds: seq<real>, chargebacks: seq<real>)
    requires Grouped(byDay, order, spanned)
    ensures baselineEvents == Regrouped(spanned, order)
    ensures refunds == DailyRates(spanned, order, RefundedBefore(end))
    ensures chargebacks == DailyRates(spanned, order, ChargedBackBefore(end))
  {
    forall d | d in order ensures d in byDay {
    }
    baselineEvents, refunds, chargebacks := [], [], [];
    for k := 0 to |order|
      invariant baselineEvents == Regrouped(spanned, order[..k])
      invariant refunds == DailyRates(spanned, order[..k], RefundedBefore(end))
      invariant chargebacks == DailyRates(spanned, order[..k], ChargedBackBefore(end))
    {
      assert order[..k + 1][..k] == order[..k];
      var day := byDay[order[k]];
      baselineEvents := baselineEvents + day;
      refunds := refunds + [RateOf(day, RefundedBefore(end))];
      chargebacks := chargebacks + [RateOf(day, ChargedBackBefore(end))];
    }
    assert order[..|order|] == order;
  }

  /** Counts and turnover of each of the thirty calendar dates, empty days included. */
  method DailySeries(byDay: map<int, seq<Event>>, order: seq<int>, ghost spanned: seq<Event>, firstDate: int)
    returns (volumes: seq<real>, turnover: seq<real>)
    requires Grouped(byDay, order, spanned)
    ensures volumes == DailyVolumes(spanned, firstDate, BASELINE_DAYS)
    ensures turnover == DailyTurnover(spanned, firstDate, BASELINE_DAYS)
  {
    hide Filter, Dates;
    volumes, turnover := [], [];
    for offset := 0 to BASELINE_DAYS
      invariant volumes == DailyVolumes(spanned, firstDate, offset)
      invariant turnover == DailyTurnover(spanned, firstDate, offset)
    {
      var date := firstDate + offset;
      var day := if date in byDay then byDay[date] else [];
      assert day == OfDay(spanned, date) by {
        if date !in byDay {
          NoSuchDay(spanned, date);
        }
      }
      volumes := volumes + [|day| as real];
      turnover := turnover + [Sum(Map(day, AmountOf))];
    }
  }

  method MakeBaseline(m: MathLib, events: seq<Event>, start: int, end: int)
      returns (r: Result<(Baseline, nat), BaselineError>)
    ensures r == BuildBaseline(m, events, start, end)
  {
    hide Compose, ValidBaseline, Filter, Dates, Regrouped, DailyRates, DailyVolumes, DailyTurnover;
    var byDay, order := GroupByDay(events, start, end);
    ghost var spanned := Filter(events, InSpan(start, end));
    var baselineEvents, refunds, chargebacks := WalkDays(byDay, order, spanned, end);
    RegroupedAll(spanned);
    if baselineEvents == [] {
      return Failure(NoBaselineTransactions);
    }
    var volumes, turnover := DailySeries(byDay, order, spanned, DateOf(start));
    var b := Compose(m, volumes, turnover, refunds, chargebacks, baselineEvents);
    r := if ValidBaseline(b) then Success((b, |order|)) else Failure(InvalidBaseline);
  }

  lemma NoSuchDay(spanned: seq<Event>, date: int)
    requires date !in Dates(spanned)
    ensures OfDay(spanned, date) == []
  {
    DatesMembers(spanned);
    FilterNone(spanned, OnDate(date));
  }

  // ---------------------------------------------------------------- the baseline is always valid

  lemma {:induction false} DailyRatesBounds(spanned: seq<Event>, dates: seq<int>, p: Event -> bool)
    ensures forall i :: 0 <= i < |dates| ==> 0.0 <= DailyRates(spanned, dates, p)[i] <= 1.0
  {
    if dates != [] {
      DailyRatesBounds(spanned, dates[..|dates| - 1], p);
      var day := OfDay(spanned, dates[|dates| - 1]);
      if day != [] {
        FilterRatio(day, p);
      }
    }
  }

  lemma MeanOrZeroBounds(xs: seq<real>, lo: real, hi: real)
    requires lo <= 0.0 <= hi && forall i :: 0 <= i < |xs| ==> lo <= xs[i] <= hi
    ensures lo <= MeanOrZero(xs) <= hi
  {
    if xs != [] {
      MeanBounds(xs, lo, hi);
    }
  }

  lemma MaxAtLeast(x: real, y: real)
    ensures Max(x, y) >= x && Max(x, y) >= y
  {
  }

  lemma HistogramValid(amounts: seq<real>)
    requires amounts != []
    ensures var edges := EdgesFor(Max(1.0, Median(amounts))); var p := Probabilities(Tally(amounts, edges));
      && |edges| == |p| + 1
      && (forall i :: 0 <= i < |edges| - 1 ==> edges[i] < edges[i + 1])
      && (forall i :: 0 <= i < |p| ==> p[i] >= 0.0)
      && Sum(p) == 1.0
      && (|amounts| < 1_000_000 ==> FlooredSum(p) == 1.0)
  {
    var edges := EdgesFor(Max(1.0, Median(amounts)));
    MaxAtLeast(1.0, Median(amounts));
    EdgesIncrease(Max(1.0, Median(amounts)));
    var counts := Tally(amounts, edges);
    ProbabilitiesSound(counts);
    TallyTotal(amounts, edges);
    if |amounts| < 1_000_000 {
      ReferenceAboveFloor(counts);
    }
    hide Probabilities, Tally, Median, Sum, FlooredSum, SMOOTHING, Mass;
  }

  /** Positive amounts and a non-empty span are all it takes for every declared bound to hold. */
  lemma ComposeValid(m: MathLib, volumes: seq<real>, turnover: seq<real>, refunds: seq<real>, chargebacks: seq<real>,
                     baselineEvents: seq<Event>)
    requires volumes != [] && turnover != [] && baselineEvents != []
    requires forall e | e in baselineEvents :: e.amount > 0.0
    requires forall i :: 0 <= i < |refunds| ==> 0.0 <= refunds[i] <= 1.0
    requires forall i :: 0 <= i < |chargebacks| ==> 0.0 <= chargebacks[i] <= 1.0
    ensures var b := Compose(m, volumes, turnover, refunds, chargebacks, baselineEvents);
      && ValidBaseline(b) && |b.probabilities| == 4 && Sum(b.probabilities) == 1.0
      && (|baselineEvents| < 1_000_000 ==> FlooredSum(b.probabilities) == 1.0)
  {
    hide Mean, Deviation, DeviationIfMany, MeanOrZero, Probabilities, Tally, Median, EdgesFor, Sum, FlooredSum;
    var amounts := Map(baselineEvents, AmountOf);
    MeanPositive(amounts);
    HistogramValid(amounts);
    MeanOrZeroBounds(refunds, 0.0, 1.0);
    MeanOrZeroBounds(chargebacks, 0.0, 1.0);
  }

  function NotOnDate(date: int): Event -> bool {
    (e: Event) => DateOf(e.at) != date
  }

  lemma {:induction false} SplitByDate(spanned: seq<Event>, date: int)
    ensures |OfDay(spanned, date)| + |Filter(spanned, NotOnDate(date))| == |spanned|
  {
    if spanned != [] {
      SplitByDate(spanned[1..], date);
    }
  }

  lemma {:induction false} RegroupedOthers(spanned: seq<Event>, date: int, rest: seq<int>)
    requires date !in rest
    ensures Regrouped(spanned, rest) == Regrouped(Filter(spanned, NotOnDate(date)), rest)
  {
    if rest != [] {
      var last := rest[|rest| - 1];
      RegroupedOthers(spanned, date, rest[..|rest| - 1]);
      FilterFilter(spanned, NotOnDate(date), OnDate(last), OnDate(last));
    }
  }

  lemma {:induction false} RegroupedLength(spanned: seq<Event>, dates: seq<int>)
    requires forall i, j :: 0 <= i < j < |dates| ==> dates[i] != dates[j]
    ensures |Regrouped(spanned, dates)| <= |spanned|
    decreases |dates|
  {
    if dates != [] {
      var rest, last := dates[..|dates| - 1], dates[|dates| - 1];
      RegroupedLength(Filter(spanned, NotOnDate(last)), rest);
      RegroupedOthers(spanned, last, rest);
      SplitByDate(spanned, last);
    }
  }

  /** The firewall's promise about the baseline: whenever the span holds an event and amounts are
      positive, building succeeds, the reference has mass one, and below a million events the floor
      never bites. */
  lemma BaselineTotal(m: MathLib, events: seq<Event>, start: int, end: int)
    requires forall e | e in events :: e.amount > 0.0
    ensures var spanned := Filter(events, InSpan(start, end)); var r := BuildBaseline(m, events, start, end);
      && (r.Success? <==> spanned != [])
      && (r.Success? ==> ValidBaseline(r.value.0) && r.value.1 == |Dates(spanned)| && |r.value.0.edges| == 5)
      && (r.Success? ==> Sum(r.value.0.probabilities) == 1.0)
      && (r.Success? && |spanned| < 1_000_000 ==> FlooredSum(r.value.0.probabilities) == 1.0)
  {
    var spanned := Filter(events, InSpan(start, end));
    if spanned != [] {
      FilterMembers(events, InSpan(start, end));
      RegroupedAll(spanned);
      DatesMembers(spanned);
      RegroupedLength(spanned, Dates(spanned));
      DailyRatesBounds(spanned, Dates(spanned), RefundedBefore(end));
      DailyRatesBounds(spanned, Dates(spanned), ChargedBackBefore(end));
      hide Compose, ValidBaseline, Filter, Regrouped, DailyRates, Dates, DailyVolumes, DailyTurnover;
      ComposeValid(m, DailyVolumes(spanned, DateOf(start), BASELINE_DAYS),
                   DailyTurnover(spanned, DateOf(start), BASELINE_DAYS),
                   DailyRates(spanned, Dates(spanned), RefundedBefore(end)),
                   DailyRates(spanned, Dates(spanned), ChargedBackBefore(end)), Regrouped(spanned, Dates(spanned)));
    }
  }

  // ---------------------------------------------------------------- event-count conservation

  lemma {:induction false} DateStep(spanned: seq<Event>, date: int)
    ensures |Filter(spanned, BeforeDate(date + 1))| == |Filter(spanned, BeforeDate(date))| + |OfDay(spanned, date)|
  {
    if spanned != [] {
      DateStep(spanned[1..], date);
    }
  }

  lemma {:induction false} VolumesSum(spanned: seq<Event>, firstDate: int, days: nat)
    requires forall e | e in spanned :: firstDate <= DateOf(e.at)
    ensures Sum(DailyVolumes(spanned, firstDate, days)) == |Filter(spanned, BeforeDate(firstDate + days))| as real
  {
    if days == 0 {
      FilterNone(spanned, BeforeDate(firstDate));
    } else {
      VolumesSum(spanned, firstDate, days - 1);
      DateStep(spanned, firstDate + days - 1);
      var volumes, last := DailyVolumes(spanned, firstDate, days - 1), |OfDay(spanned, firstDate + days - 1)| as real;
      SumConcat(volumes, [last]);
      assert Sum([last]) == last;
    }
  }

  /** The thirty daily volumes account for every baseline event exactly when none falls on the
      thirty-first calendar date the unaligned span touches. */
  lemma VolumesConserved(events: seq<Event>, start: int)
    ensures var end := start + BASELINE_DAYS * DAY; var spanned := Filter(events, InSpan(start, end));
      Sum(DailyVolumes(spanned, DateOf(start), BASELINE_DAYS)) == |spanned| as real
      <==> forall e | e in events && start <= e.at < end :: DateOf(e.at) != DateOf(end)
  {
    var end := start + BASELINE_DAYS * DAY;
    var spanned, last := Filter(events, InSpan(start, end)), DateOf(start) + BASELINE_DAYS;
    assert DateOf(end) == last;
    FilterMembers(events, InSpan(start, end));
    forall e | e in spanned ensures DateOf(start) <= DateOf(e.at) <= last {
    }
    VolumesSum(spanned, DateOf(start), BASELINE_DAYS);
    FilterLength(spanned, BeforeDate(last));
    hide Filter, DailyVolumes, Sum;
    assert forall e | e in spanned :: BeforeDate(last)(e) <==> DateOf(e.at) != last;
  }

  /** A span that starts at midnight never reaches a thirty-first date. */
  lemma VolumesConservedAligned(events: seq<Event>, start: int)
    requires start % DAY == 0
    ensures var spanned := Filter(events, InSpan(start, start + BASELINE_DAYS * DAY));
      Sum(DailyVolumes(spanned, DateOf(start), BASELINE_DAYS)) == |spanned| as real
  {
    VolumesConserved(events, start);
  }

  /** A span that starts one microsecond after midnight reaches a thirty-first date, and an event there
      is in the baseline but in none of the thirty volumes. */
  lemma ThirtyFirstDateLost(e: Event)
    requires e.at == BASELINE_DAYS * DAY
    ensures var spanned := Filter([e], InSpan(1, 1 + BASELINE_DAYS * DAY));
      spanned == [e] && Sum(DailyVolumes(spanned, DateOf(1), BASELINE_DAYS)) != 1.0
  {
    VolumesConserved([e], 1);
    assert e in [e];
  }
}
