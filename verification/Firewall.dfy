/** What an empty blocker list guarantees: telemetry joined every selected payment, so events match
    payments one to one, the baseline and every feature bound hold, and a vector is returned
    exactly then. */
module Firewall {
  import opened BaselineBuilder
  import opened Features
  import opened Histogram
  import opened Instants
  import opened LiveFeatures
  import opened Observations
  import opened RealMath
  import opened Selection
  import opened Sequences
  import opened Text
  import opened Wrappers

  // ---------------------------------------------------------------- inputs the service accepts

  /** Amounts are positive and identifiers fit the declared lengths. */
  ghost predicate FitRow(o: Observed<PaymentFact>) {
    o.fact.amount > 0 && 1 <= |Strip(o.entity)| <= 128
  }

  ghost predicate FitTelemetry(t: Telemetry) {
    1 <= |Strip(t.device)| <= 256 && 1 <= |Strip(t.geo)| <= 64
  }

  ghost predicate FitSources(account: string, s: Sources) {
    && 1 <= |Strip(account)| <= 128
    && (forall o | o in s.payments :: FitRow(o))
    && (forall t | t in s.telemetry :: FitTelemetry(t))
  }

  // ---------------------------------------------------------------- events succeed on fit inputs

  lemma {:induction false} TelemetryMapsMembers(rows: seq<Telemetry>)
    ensures forall k | k in OrderMap(rows) :: OrderMap(rows)[k] in rows
    ensures forall k | k in PaymentMap(rows) :: PaymentMap(rows)[k] in rows
  {
    if rows != [] {
      TelemetryMapsMembers(rows[..|rows| - 1]);
      assert rows == rows[..|rows| - 1] + [rows[|rows| - 1]];
    }
  }

  lemma JoinedTelemetry(s: Sources, row: Observed<PaymentFact>)
    ensures var t := TelemetryFor(row, JoinsOf(s)); t.Some? ==> t.value in s.telemetry
  {
    var sorted := StableSort(s.telemetry, TelemetryEarlier);
    TelemetryMapsMembers(sorted);
    SortMembers(s.telemetry, TelemetryEarlier);
    hide StableSort, OrderMap, PaymentMap, FirstTimestamps, OrderIdOf;
  }

  lemma FitEvent(account: string, s: Sources, row: Observed<PaymentFact>)
    requires FitSources(account, s) && FitRow(row)
    ensures var e := EventFor(account, row, JoinsOf(s)); e.Some? ==> ValidEvent(e.value)
  {
    JoinedTelemetry(s, row);
    hide JoinsOf, TelemetryFor, MapAuthStatus, Strip;
  }

  /** On fit inputs the event loop never raises, and produces the rows that can be told, in order. */
  function Told(account: string, rows: seq<Observed<PaymentFact>>, joins: Joins): seq<Event> {
    if rows == [] then []
    else
      var event := EventFor(account, rows[|rows| - 1], joins);
      Told(account, rows[..|rows| - 1], joins) + if event.Some? then [event.value] else []
  }

  /** Every row that can be told makes an event inside the declared bounds. */
  ghost predicate EventsValid(account: string, rows: seq<Observed<PaymentFact>>, joins: Joins) {
    forall o | o in rows :: EventFor(account, o, joins).Some? ==> ValidEvent(EventFor(account, o, joins).value)
  }

  /** The event loop raises exactly when some told event is out of bounds. */
  lemma {:induction false} EventsExact(account: string, rows: seq<Observed<PaymentFact>>, joins: Joins)
    ensures EventsOf(account, rows, joins)
         == if EventsValid(account, rows, joins) then Success(Told(account, rows, joins)) else Failure(InvalidEvent)
  {
    if rows != [] {
      var t, o := rows[..|rows| - 1], rows[|rows| - 1];
      assert rows == t + [o];
      EventsExact(account, t, joins);
      assert EventsValid(account, rows, joins)
         <==> EventsValid(account, t, joins)
              && (EventFor(account, o, joins).Some? ==> ValidEvent(EventFor(account, o, joins).value));
      assert Told(account, t, joins) + [] == Told(account, t, joins);
      hide EventFor, ValidEvent, EventsValid;
    }
  }

  lemma FitEventsValid(account: string, s: Sources, rows: seq<Observed<PaymentFact>>)
    requires FitSources(account, s) && forall o | o in rows :: FitRow(o)
    ensures EventsValid(account, rows, JoinsOf(s))
  {
    forall o | o in rows ensures EventFor(account, o, JoinsOf(s)).Some?
        ==> ValidEvent(EventFor(account, o, JoinsOf(s)).value) {
      FitEvent(account, s, o);
    }
    hide EventFor, ValidEvent, FitSources, FitRow, JoinsOf;
  }

  function Tellable(account: string, joins: Joins): Observed<PaymentFact> -> bool {
    (o: Observed<PaymentFact>) => EventFor(account, o, joins).Some?
  }

  lemma EventKeepsRow(account: string, row: Observed<PaymentFact>, joins: Joins)
    ensures var e := EventFor(account, row, joins);
      e.Some? ==> e.value.id == Strip(row.entity) && row.createdAt == Some(e.value.at)
                  && e.value.merchant == Strip(account) && e.value.amount == row.fact.amount as real / 100.0
  {
    hide TelemetryFor, MapAuthStatus, Strip;
  }

  /** A window of events counts exactly the tellable rows of that window. */
  lemma {:induction false} ToldWindow(account: string, rows: seq<Observed<PaymentFact>>, joins: Joins,
                                      p: Event -> bool, q: Observed<PaymentFact> -> bool)
    requires forall o | o in rows :: EventFor(account, o, joins).Some? ==> p(EventFor(account, o, joins).value) == q(o)
    ensures |Filter(Told(account, rows, joins), p)| == |Filter(Filter(rows, q), Tellable(account, joins))|
  {
    if rows != [] {
      var t, o := rows[..|rows| - 1], rows[|rows| - 1];
      assert rows == t + [o];
      ToldWindow(account, t, joins, p, q);
      ToldWindowStep(account, t, o, joins, p, q);
    }
  }

  lemma ToldStep(account: string, t: seq<Observed<PaymentFact>>, o: Observed<PaymentFact>, joins: Joins)
    ensures var e := EventFor(account, o, joins);
      Told(account, t + [o], joins) == Told(account, t, joins) + if e.Some? then [e.value] else []
  {
    assert (t + [o])[..|t|] == t;
  }

  lemma ToldWindowStep(account: string, t: seq<Observed<PaymentFact>>, o: Observed<PaymentFact>, joins: Joins,
                       p: Event -> bool, q: Observed<PaymentFact> -> bool)
    requires EventFor(account, o, joins).Some? ==> p(EventFor(account, o, joins).value) == q(o)
    requires |Filter(Told(account, t, joins), p)| == |Filter(Filter(t, q), Tellable(account, joins))|
    ensures |Filter(Told(account, t + [o], joins), p)| == |Filter(Filter(t + [o], q), Tellable(account, joins))|
  {
    hide EventFor, Filter, Told;
    var told, kept, tellable, e := Told(account, t, joins), Filter(t, q), Tellable(account, joins),
        EventFor(account, o, joins);
    ToldStep(account, t, o, joins);
    FilterAppend(t, o, q);
    FilterAppend(kept, o, tellable);
    if e.Some? {
      FilterAppend(told, e.value, p);
    } else {
      assert Told(account, t + [o], joins) == told;
    }
    if q(o) {
      assert Filter(t + [o], q) == kept + [o];
    } else {
      assert Filter(t + [o], q) == kept;
    }
  }

  /** When every row can be told, events and rows correspond position by position. */
  lemma {:induction false} ToldAll(account: string, rows: seq<Observed<PaymentFact>>, joins: Joins)
    requires forall o | o in rows :: EventFor(account, o, joins).Some?
    ensures |Told(account, rows, joins)| == |rows|
    ensures forall i :: 0 <= i < |rows| ==> Told(account, rows, joins)[i] == EventFor(account, rows[i], joins).value
  {
    if rows != [] {
      var t, o := rows[..|rows| - 1], rows[|rows| - 1];
      assert rows == t + [o];
      ToldAll(account, t, joins);
      hide EventFor, Told;
      ToldStep(account, t, o, joins);
    }
  }

  lemma {:induction false} ToldMembers(account: string, rows: seq<Observed<PaymentFact>>, joins: Joins)
    ensures forall e | e in Told(account, rows, joins) :: exists o | o in rows :: EventFor(account, o, joins) == Some(e)
    ensures |Told(account, rows, joins)| <= |rows|
  {
    if rows != [] {
      ToldMembers(account, rows[..|rows| - 1], joins);
      hide EventFor;
    }
  }

  // ---------------------------------------------------------------- coverage

  lemma CoverageBounds(events: nat, payments: nat)
    requires events <= payments
    ensures IsShare(Coverage(events, payments))
    ensures Incomplete(Coverage(events, payments)) <==> events < payments
  {
    if payments > 0 {
      QuotientBounds(events as real, payments as real);
      QuotientBelowOne(events as real, payments as real);
    }
  }

  /** The counts the firewall looks at: rows and events of the two windows. */
  lemma WindowCounts(account: string, latest: seq<Observed<PaymentFact>>, joins: Joins, asOf: int)
    ensures var events, tellable := Told(account, latest, joins), Tellable(account, joins);
      && |Filter(events, InSpan(BaselineStart(asOf), CurrentStart(asOf)))|
         == |Filter(Filter(latest, CreatedBefore(BaselineStart(asOf), CurrentStart(asOf))), tellable)|
      && |Filter(events, HappenedUpTo(CurrentStart(asOf), asOf))|
         == |Filter(Filter(latest, CreatedUpTo(CurrentStart(asOf), asOf)), tellable)|
  {
    forall o: Observed<PaymentFact> {
      EventKeepsRow(account, o, joins);
    }
    hide EventFor;
    ToldWindow(account, latest, joins, InSpan(BaselineStart(asOf), CurrentStart(asOf)),
               CreatedBefore(BaselineStart(asOf), CurrentStart(asOf)));
    ToldWindow(account, latest, joins, HappenedUpTo(CurrentStart(asOf), asOf), CreatedUpTo(CurrentStart(asOf), asOf));
  }

  lemma NoBlockersMeans(baselineCount: nat, activeDays: nat, baselineCoverage: Option<real>,
                        currentCoverage: Option<real>, currentCount: nat, unmappedCount: nat)
    ensures Blockers(baselineCount, activeDays, baselineCoverage, currentCoverage, currentCount, unmappedCount) == []
       <==> && baselineCount >= MIN_BASELINE_TRANSACTIONS && activeDays >= MIN_BASELINE_ACTIVE_DAYS
            && !Incomplete(baselineCoverage) && !Incomplete(currentCoverage) && currentCount > 0 && unmappedCount == 0
  {
  }

  /** The selected rows all fall in one of the two windows. */
  lemma SelectedInWindow(payments: seq<Observed<PaymentFact>>, asOf: int)
    ensures forall o | o in Selected(payments, asOf) ::
              o in payments && o.createdAt.Some? && BaselineStart(asOf) <= o.createdAt.value <= asOf
    ensures |Selected(payments, asOf)| <= |payments|
  {
    var window := InEventWindow<PaymentFact>(BaselineStart(asOf), asOf);
    FilterMembers(payments, window);
    LatestBySelects(Filter(payments, window));
    LatestByLength(Filter(payments, window));
    hide LatestBy, Filter, HasEntity, DistinctEntities;
  }

  lemma {:induction false} UpsertLength<T>(d: seq<Observed<T>>, o: Observed<T>)
    ensures |Upsert(d, o)| <= |d| + 1
  {
    if d != [] && d[0].entity != o.entity {
      UpsertLength(d[1..], o);
    }
  }

  lemma {:induction false} OverwriteLength<T>(s: seq<Observed<T>>)
    ensures |Overwrite(s)| <= |s|
  {
    if s != [] {
      OverwriteLength(s[..|s| - 1]);
      UpsertLength(Overwrite(s[..|s| - 1]), s[|s| - 1]);
    }
  }

  lemma LatestByLength<T>(rows: seq<Observed<T>>)
    ensures |LatestBy(rows)| <= |rows|
  {
    OverwriteLength(StableSort(rows, Earlier));
  }

  /** Complete coverage in both windows means every selected row was told. */
  lemma CompleteCoverage(account: string, latest: seq<Observed<PaymentFact>>, joins: Joins, asOf: int)
    requires forall o | o in latest :: o.createdAt.Some? && BaselineStart(asOf) <= o.createdAt.value <= asOf
    requires |Filter(Told(account, latest, joins), InSpan(BaselineStart(asOf), CurrentStart(asOf)))|
             >= |Filter(latest, CreatedBefore(BaselineStart(asOf), CurrentStart(asOf)))|
    requires |Filter(Told(account, latest, joins), HappenedUpTo(CurrentStart(asOf), asOf))|
             >= |Filter(latest, CreatedUpTo(CurrentStart(asOf), asOf))|
    ensures forall o | o in latest :: EventFor(account, o, joins).Some?
  {
    WindowCounts(account, latest, joins, asOf);
    var tellable := Tellable(account, joins);
    var before, upTo := CreatedBefore(BaselineStart(asOf), CurrentStart(asOf)), CreatedUpTo(CurrentStart(asOf), asOf);
    FilterMembers(Filter(latest, before), tellable);
    FilterMembers(Filter(latest, upTo), tellable);
    FilterLength(Filter(latest, before), tellable);
    FilterLength(Filter(latest, upTo), tellable);
    FilterMembers(latest, before);
    FilterMembers(latest, upTo);
    hide Filter, Told, EventFor;
    forall o | o in latest ensures EventFor(account, o, joins).Some? {
      assert before(o) || upTo(o);
      assert tellable(o);
    }
  }

  // ---------------------------------------------------------------- the firewall theorem

  /** What stands behind a vector: a current window with an event, and a baseline inside its bounds. */
  ghost predicate Grounded(m: MathLib, asOf: int, events: seq<Event>) {
    var built := BuildBaseline(m, events, BaselineStart(asOf), CurrentStart(asOf));
    && Filter(events, HappenedUpTo(CurrentStart(asOf), asOf)) != []
    && built.Success? && ValidBaseline(built.value.0)
  }

  lemma GroundedByParts(m: MathLib, asOf: int, events: seq<Event>)
    requires forall e | e in events :: e.amount > 0.0
    requires Filter(events, InSpan(BaselineStart(asOf), CurrentStart(asOf))) != []
    requires Filter(events, HappenedUpTo(CurrentStart(asOf), asOf)) != []
    ensures Grounded(m, asOf, events)
  {
    BaselineTotal(m, events, BaselineStart(asOf), CurrentStart(asOf));
    hide BuildBaseline, ValidBaseline, Filter, BaselineStart, CurrentStart;
  }

  /** Sizes below which flooring the reference cannot turn the divergence negative: fewer than a million
      baseline rows, or fewer than 250 000 current ones. */
  predicate Manageable(baselineCount: nat, currentCount: nat) {
    baselineCount < 1_000_000 || currentCount < 250_000
  }

  lemma DivergenceManageable(m: MathLib, b: Baseline, amounts: seq<real>, baselineCount: nat)
    requires Sound(m) && ValidBaseline(b) && |b.edges| == 5 && Sum(b.probabilities) == 1.0
    requires baselineCount < 1_000_000 ==> FlooredSum(b.probabilities) == 1.0
    requires Manageable(baselineCount, |amounts|)
    ensures AmountDivergence(m, b, amounts) >= 0.0
  {
    hide AmountDivergence, Sum, FlooredSum;
    if baselineCount < 1_000_000 {
      DivergenceNonNegative(m, b, amounts);
    } else {
      assert |amounts| as real <= 249_999.0;
      DivergenceNonNegativeSmall(m, b, amounts);
    }
  }

  /** The amounts of the current window diverge negatively from the baseline built over the span. */
  ghost predicate Diverges(m: MathLib, account: string, asOf: int, events: seq<Event>) {
    var built := BuildBaseline(m, events, BaselineStart(asOf), CurrentStart(asOf));
    && built.Success? && ValidBaseline(built.value.0) && |built.value.0.edges| >= 2
    && AmountDivergence(m, built.value.0,
                        WindowAmounts(Strip(account), asOf - CURRENT_WINDOW_HOURS * HOUR, asOf, events)) < 0.0
  }

  /** Scoring the events behind an empty blocker list fails exactly when their amounts diverge. */
  lemma ScoreExact(m: MathLib, account: string, asOf: int, events: seq<Event>)
    requires Sound(m)
    requires forall e | e in events :: e.amount > 0.0 && e.merchant == Strip(account)
    requires Filter(events, InSpan(BaselineStart(asOf), CurrentStart(asOf))) != []
    requires Filter(events, HappenedUpTo(CurrentStart(asOf), asOf)) != []
    ensures var r := Score(m, account, asOf, events);
      && (r.Success? <==> !Diverges(m, account, asOf, events))
      && (r.Success? ==> InBounds(r.value.0))
      && (r.Failure? ==> r.error == FeaturesFailed(OutOfBounds))
  {
    assert CURRENT_WINDOW_HOURS >= 1;
    hide Score, Filter, BuildBaseline, BuildFeatures, ValidBaseline, AmountDivergence, WindowAmounts, InBounds,
        SomeInWindow, Strip, Sound, Sum, FlooredSum;
    var start, end := BaselineStart(asOf), CurrentStart(asOf);
    BaselineTotal(m, events, start, end);
    CurrentEvents(Strip(account), asOf, events);
    BuildTotal(m, Strip(account), asOf, BuildBaseline(m, events, start, end).value.0, events, CURRENT_WINDOW_HOURS);
    ScoreUnfolds(m, account, asOf, events);
  }

  lemma ScoreUnfolds(m: MathLib, account: string, asOf: int, events: seq<Event>)
    requires BuildBaseline(m, events, BaselineStart(asOf), CurrentStart(asOf)).Success?
    requires var b := BuildBaseline(m, events, BaselineStart(asOf), CurrentStart(asOf)).value.0;
      ValidBaseline(b) && |b.edges| >= 2
    ensures var built := BuildBaseline(m, events, BaselineStart(asOf), CurrentStart(asOf)).value;
      var features := BuildFeatures(m, Strip(account), asOf, built.0, events, CURRENT_WINDOW_HOURS);
      Score(m, account, asOf, events)
      == if features.Success? then Success((features.value, built.1)) else Failure(FeaturesFailed(features.error))
  {
    hide BuildBaseline, BuildFeatures, Strip, ValidBaseline;
  }

  /** Few enough events never diverge. */
  lemma FewDoNotDiverge(m: MathLib, account: string, asOf: int, events: seq<Event>)
    requires Sound(m)
    requires Manageable(|Filter(events, InSpan(BaselineStart(asOf), CurrentStart(asOf)))|,
                        |Filter(events, HappenedUpTo(CurrentStart(asOf), asOf))|)
    requires forall e | e in events :: e.amount > 0.0 && e.merchant == Strip(account)
    ensures !Diverges(m, account, asOf, events)
  {
    hide Filter, BuildBaseline, ValidBaseline, AmountDivergence, WindowAmounts, SomeInWindow, Strip, Sound, Sum,
        FlooredSum;
    var start, end := BaselineStart(asOf), CurrentStart(asOf);
    BaselineTotal(m, events, start, end);
    CurrentEvents(Strip(account), asOf, events);
    var built := BuildBaseline(m, events, start, end);
    if built.Success? {
      DivergenceManageable(m, built.value.0,
                           WindowAmounts(Strip(account), asOf - CURRENT_WINDOW_HOURS * HOUR, asOf, events),
                           |Filter(events, InSpan(start, end))|);
    }
  }

  /** The window the features are built over holds exactly the current events. */
  lemma CurrentEvents(merchant: string, asOf: int, events: seq<Event>)
    requires forall e | e in events :: e.merchant == merchant
    ensures var current := Filter(events, HappenedUpTo(CurrentStart(asOf), asOf));
      var start := asOf - CURRENT_WINDOW_HOURS * HOUR;
      && |WindowAmounts(merchant, start, asOf, events)| == |current|
      && (current != [] ==> SomeInWindow(merchant, start, asOf, events))
  {
    var start := asOf - CURRENT_WINDOW_HOURS * HOUR;
    var current := Filter(events, HappenedUpTo(CurrentStart(asOf), asOf));
    FilterAgree(events, HappenedUpTo(CurrentStart(asOf), asOf), InHoldWindow(merchant, start, asOf));
    FilterMembers(events, HappenedUpTo(CurrentStart(asOf), asOf));
    hide Filter, StableSort;
    if current != [] {
      assert current[0] in current;
    }
  }

  /** What a preview shows when nothing blocks it. */
  ghost predicate OneToOne(account: string, latest: seq<Observed<PaymentFact>>, events: seq<Event>) {
    && |events| == |latest|
    && forall i :: 0 <= i < |latest| ==>
         && events[i].id == Strip(latest[i].entity) && latest[i].createdAt == Some(events[i].at)
         && events[i].merchant == Strip(account) && events[i].amount == latest[i].fact.amount as real / 100.0
  }

  lemma TellableOneToOne(account: string, latest: seq<Observed<PaymentFact>>, joins: Joins)
    requires forall o | o in latest :: EventFor(account, o, joins).Some?
    ensures OneToOne(account, latest, Told(account, latest, joins))
  {
    ToldAll(account, latest, joins);
    forall o: Observed<PaymentFact> {
      EventKeepsRow(account, o, joins);
    }
    hide EventFor, Strip, Told;
  }

  /** None of the six conditions that block a preview holds of the selected rows and their events. */
  predicate Unblocked(latest: seq<Observed<PaymentFact>>, events: seq<Event>, asOf: int) {
    var start, end := BaselineStart(asOf), CurrentStart(asOf);
    var baselinePayments, currentPayments :=
      Filter(latest, CreatedBefore(start, end)), Filter(latest, CreatedUpTo(end, asOf));
    Blockers(|baselinePayments|, |ActiveDates(baselinePayments)|,
             Coverage(|Filter(events, InSpan(start, end))|, |baselinePayments|),
             Coverage(|Filter(events, HappenedUpTo(end, asOf))|, |currentPayments|), |currentPayments|,
             |Filter(latest, Unmapped)|) == []
  }

  /** The summary of valid told events fails exactly when nothing blocks and their amounts diverge. Else it
      has a vector, inside every bound, exactly when nothing blocks; then events and selected rows
      correspond one to one. */
  lemma SummaryExact(m: MathLib, account: string, asOf: int, latest: seq<Observed<PaymentFact>>, joins: Joins)
    requires Sound(m)
    requires EventsValid(account, latest, joins)
    requires forall o | o in latest :: o.createdAt.Some? && BaselineStart(asOf) <= o.createdAt.value <= asOf
    ensures var events := Told(account, latest, joins); var r := Summarize(m, account, asOf, latest, events);
      && (r.Success? <==> !(Unblocked(latest, events, asOf) && Diverges(m, account, asOf, events)))
      && (r.Failure? ==> r.error == FeaturesFailed(OutOfBounds))
      && (r.Success? ==>
            && (r.value.vector.Some? <==> r.value.blockers == [])
            && (r.value.shadowScoreEligible <==> r.value.blockers == []))
      && (r.Success? && r.value.vector.Some? ==>
            InBounds(r.value.vector.value) && OneToOne(account, latest, events) && Grounded(m, asOf, events))
  {
    var events := Told(account, latest, joins);
    var start, end := BaselineStart(asOf), CurrentStart(asOf);
    var baselinePayments, currentPayments :=
      Filter(latest, CreatedBefore(start, end)), Filter(latest, CreatedUpTo(end, asOf));
    var baselineEvents, currentEvents :=
      |Filter(events, InSpan(start, end))|, |Filter(events, HappenedUpTo(end, asOf))|;
    WindowCounts(account, latest, joins, asOf);
    FilterMembers(baselinePayments, Tellable(account, joins));
    FilterMembers(currentPayments, Tellable(account, joins));
    CoverageBounds(baselineEvents, |baselinePayments|);
    CoverageBounds(currentEvents, |currentPayments|);
    NoBlockersMeans(|baselinePayments|, |ActiveDates(baselinePayments)|, Coverage(baselineEvents, |baselinePayments|),
                    Coverage(currentEvents, |currentPayments|), |currentPayments|, |Filter(latest, Unmapped)|);
    hide Filter, Blockers, Coverage, Incomplete, Score, ActiveDates, Told, EventsValid, EventFor, InBounds, OneToOne,
        Sound, IsShare, Grounded, Diverges;
    if !Incomplete(Coverage(baselineEvents, |baselinePayments|))
       && !Incomplete(Coverage(currentEvents, |currentPayments|))
       && |baselinePayments| >= MIN_BASELINE_TRANSACTIONS && |currentPayments| > 0
    {
      CompleteCoverage(account, latest, joins, asOf);
      TellableOneToOne(account, latest, joins);
      ToldValid(account, latest, joins);
      ScoreExact(m, account, asOf, events);
      GroundedByParts(m, asOf, events);
    }
  }

  lemma ToldValid(account: string, latest: seq<Observed<PaymentFact>>, joins: Joins)
    requires EventsValid(account, latest, joins)
    ensures forall e | e in Told(account, latest, joins) :: e.amount > 0.0 && e.merchant == Strip(account)
  {
    ToldMembers(account, latest, joins);
    forall e | e in Told(account, latest, joins) ensures e.amount > 0.0 && e.merchant == Strip(account) {
      var o :| o in latest && EventFor(account, o, joins) == Some(e);
      EventKeepsRow(account, o, joins);
      hide EventFor, Told, Strip;
    }
  }

  /** The selected payments of the two windows are few enough, whatever else the store holds. */
  ghost predicate ManageableStore(s: Sources, asOf: int) {
    var latest := Selected(s.payments, asOf);
    Manageable(|Filter(latest, CreatedBefore(BaselineStart(asOf), CurrentStart(asOf)))|,
               |Filter(latest, CreatedUpTo(CurrentStart(asOf), asOf))|)
  }

  /** Fewer than a million selected payments are few enough. */
  lemma FewSelected(s: Sources, asOf: int)
    requires |Selected(s.payments, asOf)| < 1_000_000
    ensures ManageableStore(s, asOf)
  {
    FilterMembers(Selected(s.payments, asOf), CreatedBefore(BaselineStart(asOf), CurrentStart(asOf)));
    hide Filter, Selected;
  }

  /** The firewall. A preview is returned exactly when every event told of a selected row is inside the
      declared bounds and the current amounts do not diverge negatively from the baseline while nothing
      blocks. It then carries a vector, inside every declared bound, exactly when no blocker is listed, in
      which case events and selected payments correspond one to one, the current window holds an event and
      the baseline the vector is measured against is inside every declared bound too. */
  lemma FirewallExact(m: MathLib, account: string, asOf: int, s: Sources)
    requires Sound(m)
    ensures var r := BuildPreview(m, account, asOf, s); var latest := Selected(s.payments, asOf);
      var events := Told(account, latest, JoinsOf(s));
      && (r.Success? <==>
            && EventsValid(account, latest, JoinsOf(s))
            && !(Unblocked(latest, events, asOf) && Diverges(m, account, asOf, events)))
      && (r.Failure? ==>
            r.error == if EventsValid(account, latest, JoinsOf(s)) then FeaturesFailed(OutOfBounds) else InvalidEvent)
      && (r.Success? ==>
            && (r.value.vector.Some? <==> r.value.blockers == [])
            && (r.value.shadowScoreEligible <==> r.value.blockers == []))
      && (r.Success? && r.value.vector.Some? ==>
            && InBounds(r.value.vector.value)
            && EventsOf(account, latest, JoinsOf(s)) == Success(events)
            && OneToOne(account, latest, events) && Grounded(m, asOf, events))
  {
    var latest, joins := Selected(s.payments, asOf), JoinsOf(s);
    SelectedInWindow(s.payments, asOf);
    hide Selected, JoinsOf, EventsOf, Summarize, Told, InBounds, OneToOne, Sound, EventsValid, Grounded, Unblocked,
        Diverges;
    EventsExact(account, latest, joins);
    if EventsValid(account, latest, joins) {
      SummaryExact(m, account, asOf, latest, joins);
    }
  }

  /** Events are fewer than the rows they are told of, in either window. */
  lemma ManageableEvents(m: MathLib, account: string, asOf: int, s: Sources)
    requires Sound(m) && ManageableStore(s, asOf) && EventsValid(account, Selected(s.payments, asOf), JoinsOf(s))
    ensures !Diverges(m, account, asOf, Told(account, Selected(s.payments, asOf), JoinsOf(s)))
  {
    var latest, joins := Selected(s.payments, asOf), JoinsOf(s);
    WindowCounts(account, latest, joins, asOf);
    FilterMembers(Filter(latest, CreatedBefore(BaselineStart(asOf), CurrentStart(asOf))), Tellable(account, joins));
    FilterMembers(Filter(latest, CreatedUpTo(CurrentStart(asOf), asOf)), Tellable(account, joins));
    hide Selected, JoinsOf, Filter, Told, EventsValid, Diverges, Sound, BaselineStart, CurrentStart;
    ToldValid(account, latest, joins);
    FewDoNotDiverge(m, account, asOf, Told(account, latest, joins));
  }

  /** Positive amounts, identifiers of the declared lengths and few enough selected payments in one of the
      two windows are enough. */
  lemma FirewallTotal(m: MathLib, account: string, asOf: int, s: Sources)
    requires Sound(m) && FitSources(account, s) && ManageableStore(s, asOf)
    ensures BuildPreview(m, account, asOf, s).Success?
  {
    SelectedInWindow(s.payments, asOf);
    FitEventsValid(account, s, Selected(s.payments, asOf));
    hide *;
    ManageableEvents(m, account, asOf, s);
    FirewallExact(m, account, asOf, s);
  }
}
