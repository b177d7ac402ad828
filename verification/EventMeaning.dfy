/** What event is told of a payment, and what a preview says, read off the source rows. */
module EventMeaning {
  import opened BaselineBuilder
  import opened Features
  import opened Firewall
  import opened Instants
  import opened LiveFeatures
  import opened Observations
  import opened RealMath
  import opened Selection
  import opened Sequences
  import opened Text
  import opened Wrappers

  // ---------------------------------------------------------------- first timestamps

  function Qualifies<T>(payment: T -> string, keep: T -> bool, id: string): Observed<T> -> bool {
    (o: Observed<T>) => keep(o.fact) && payment(o.fact) == id
  }

  lemma {:induction false} FirstTimestampIs<T>(rows: seq<Observed<T>>, payment: T -> string, keep: T -> bool,
                                               id: string)
    ensures var found := Filter(rows, Qualifies(payment, keep, id)); var times := FirstTimestamps(rows, payment, keep);
      && (id in times <==> found != [])
      && (id in times ==> times[id] == TimestampOf(found[0]))
  {
    if rows != [] {
      var t, o := rows[..|rows| - 1], rows[|rows| - 1];
      assert rows == t + [o];
      FirstTimestampIs(t, payment, keep, id);
      FilterAppend(t, o, Qualifies(payment, keep, id));
      hide Filter, TimestampOf;
    }
  }

  /** The time of the row learned first among those given, none when there is none. */
  ghost predicate FirstTime<T(!new)>(rows: seq<Observed<T>>, time: Option<int>) {
    if rows == [] then time == None
    else
      exists o :: FirstLeast(rows, Earlier, o)
               && time == Some(if o.createdAt.Some? then o.createdAt.value else o.observedAt)
  }

  lemma FirstTimeIs<T(!new)>(rows: seq<Observed<T>>, payment: T -> string, keep: T -> bool, id: string)
    ensures FirstTime(Filter(rows, Qualifies(payment, keep, id)),
                      Lookup(FirstTimestamps(StableSort(rows, Earlier), payment, keep), id))
  {
    hide FirstTimestamps, Filter, FirstLeast;
    var found := Filter(rows, Qualifies(payment, keep, id));
    ObservationOrders<T>();
    FirstTimestampIs(StableSort(rows, Earlier), payment, keep, id);
    SortFilter(rows, Earlier, Qualifies(payment, keep, id));
    if found != [] {
      SortHead(found, Earlier);
    }
    hide StableSort;
  }

  // ---------------------------------------------------------------- latest telemetry

  function BoundTo(paymentId: string): Telemetry -> bool {
    (t: Telemetry) => paymentId != "" && t.paymentId == Some(paymentId)
  }

  function OfOrder(orderId: string): Telemetry -> bool {
    (t: Telemetry) => t.orderId == orderId
  }

  lemma {:induction false} PaymentMapIs(rows: seq<Telemetry>, id: string)
    ensures var found := Filter(rows, BoundTo(id));
      Lookup(PaymentMap(rows), id) == if found == [] then None else Some(found[|found| - 1])
  {
    if rows != [] {
      var t, o := rows[..|rows| - 1], rows[|rows| - 1];
      assert rows == t + [o];
      PaymentMapIs(t, id);
      FilterAppend(t, o, BoundTo(id));
      hide Filter;
    }
  }

  lemma {:induction false} OrderMapIs(rows: seq<Telemetry>, id: string)
    ensures var found := Filter(rows, OfOrder(id));
      Lookup(OrderMap(rows), id) == if found == [] then None else Some(found[|found| - 1])
  {
    if rows != [] {
      var t, o := rows[..|rows| - 1], rows[|rows| - 1];
      assert rows == t + [o];
      OrderMapIs(t, id);
      FilterAppend(t, o, OfOrder(id));
      hide Filter;
    }
  }

  /** The row learned last among those given, the later one on a tie; none when there is none. */
  ghost predicate LastKnown(rows: seq<Telemetry>, t: Option<Telemetry>) {
    if rows == [] then t == None else t.Some? && LastGreatest(rows, TelemetryEarlier, t.value)
  }

  lemma TelemetryOrder()
    ensures TotalPreorder(TelemetryEarlier)
  {
  }

  lemma ByPaymentIs(rows: seq<Telemetry>, id: string)
    ensures LastKnown(Filter(rows, BoundTo(id)), Lookup(PaymentMap(StableSort(rows, TelemetryEarlier)), id))
  {
    hide PaymentMap, Filter, LastGreatest, Lookup;
    var found := Filter(rows, BoundTo(id));
    TelemetryOrder();
    PaymentMapIs(StableSort(rows, TelemetryEarlier), id);
    SortFilter(rows, TelemetryEarlier, BoundTo(id));
    if found != [] {
      SortTail(found, TelemetryEarlier);
    }
    hide StableSort;
  }

  lemma ByOrderIs(rows: seq<Telemetry>, id: string)
    ensures LastKnown(Filter(rows, OfOrder(id)), Lookup(OrderMap(StableSort(rows, TelemetryEarlier)), id))
  {
    hide OrderMap, Filter, LastGreatest, Lookup;
    var found := Filter(rows, OfOrder(id));
    TelemetryOrder();
    OrderMapIs(StableSort(rows, TelemetryEarlier), id);
    SortFilter(rows, TelemetryEarlier, OfOrder(id));
    if found != [] {
      SortTail(found, TelemetryEarlier);
    }
    hide StableSort;
  }

  // ---------------------------------------------------------------- the event

  /** The order a payment is looked up by: its own when it has one, else the current one. */
  function OrderOf(o: Observed<PaymentFact>, s: Sources): string {
    if o.fact.orderId.Some? && o.fact.orderId.value != "" then o.fact.orderId.value
    else if o.entity in s.orderByPayment && s.orderByPayment[o.entity].Some? then s.orderByPayment[o.entity].value
    else ""
  }

  /** The telemetry a payment can be joined with: what is bound to the payment itself, else what its order has. */
  function Joinable(o: Observed<PaymentFact>, s: Sources): seq<Telemetry> {
    var own := Filter(s.telemetry, BoundTo(o.entity));
    if own != [] then own else if OrderOf(o, s) != "" then Filter(s.telemetry, OfOrder(OrderOf(o, s))) else []
  }

  function ProcessedFor(id: string): Observed<RefundFact> -> bool {
    (o: Observed<RefundFact>) => o.fact.paymentId == id && Lower(o.fact.status) == "processed"
  }

  function DisputedFor(id: string): Observed<DisputeFact> -> bool {
    (o: Observed<DisputeFact>) => o.fact.paymentId == id
  }

  function RefundsOf(s: Sources, id: string): seq<Observed<RefundFact>> {
    Filter(s.refunds, ProcessedFor(id))
  }

  function DisputesOf(s: Sources, id: string): seq<Observed<DisputeFact>> {
    Filter(s.disputes, DisputedFor(id))
  }

  /** A payment in INR with an event time, a known status and telemetry to join is told, and no other is. */
  predicate Tells(o: Observed<PaymentFact>, s: Sources) {
    && o.createdAt.Some? && o.fact.currency == "INR"
    && Lower(Strip(o.fact.status)) in {"authorized", "captured", "refunded", "failed"}
    && Joinable(o, s) != []
  }

  /** What is told of it: its own facts, the device and geography of the latest joinable telemetry, and the
      first processed refund and the first dispute of the payment. */
  ghost predicate EventMeant(account: string, o: Observed<PaymentFact>, s: Sources, e: Event) {
    && e.id == Strip(o.entity) && e.merchant == Strip(account) && Some(e.at) == o.createdAt
    && e.amount * 100.0 == o.fact.amount as real
    && (e.auth == FAILED <==> Lower(Strip(o.fact.status)) == "failed")
    && (exists t :: LastGreatest(Joinable(o, s), TelemetryEarlier, t)
                 && e.device == Strip(t.device) && e.geo == Strip(t.geo))
    && FirstTime(RefundsOf(s, o.entity), e.refundAt)
    && FirstTime(DisputesOf(s, o.entity), e.chargebackAt)
  }

  lemma TelemetryExactly(o: Observed<PaymentFact>, s: Sources)
    ensures LastKnown(Joinable(o, s), TelemetryFor(o, JoinsOf(s)))
  {
    hide Filter, StableSort, OrderMap, PaymentMap, FirstTimestamps, LastGreatest;
    ByPaymentIs(s.telemetry, o.entity);
    ByOrderIs(s.telemetry, OrderOf(o, s));
  }

  lemma TimesExactly(o: Observed<PaymentFact>, s: Sources)
    ensures FirstTime(RefundsOf(s, o.entity), Lookup(JoinsOf(s).refunds, o.entity))
    ensures FirstTime(DisputesOf(s, o.entity), Lookup(JoinsOf(s).chargebacks, o.entity))
  {
    hide StableSort, OrderMap, PaymentMap, FirstTimestamps, FirstTime, Filter, Lookup;
    FirstTimeIs(s.refunds, RefundPayment, ProcessedRefund, o.entity);
    FirstTimeIs(s.disputes, DisputePayment, AnyDispute, o.entity);
    SameRefunds(s, o.entity);
    SameDisputes(s, o.entity);
  }

  lemma SameRefunds(s: Sources, id: string)
    ensures Filter(s.refunds, Qualifies(RefundPayment, ProcessedRefund, id)) == RefundsOf(s, id)
  {
    hide Lower;
    forall o: Observed<RefundFact> ensures Qualifies(RefundPayment, ProcessedRefund, id)(o) == ProcessedFor(id)(o) {
      assert ProcessedRefund(o.fact) == (Lower(o.fact.status) == "processed");
      assert RefundPayment(o.fact) == o.fact.paymentId;
    }
    FilterAgree(s.refunds, Qualifies(RefundPayment, ProcessedRefund, id), ProcessedFor(id));
  }

  lemma SameDisputes(s: Sources, id: string)
    ensures Filter(s.disputes, Qualifies(DisputePayment, AnyDispute, id)) == DisputesOf(s, id)
  {
    forall o: Observed<DisputeFact> ensures Qualifies(DisputePayment, AnyDispute, id)(o) == DisputedFor(id)(o) {
      assert AnyDispute(o.fact) && DisputePayment(o.fact) == o.fact.paymentId;
    }
    FilterAgree(s.disputes, Qualifies(DisputePayment, AnyDispute, id), DisputedFor(id));
  }

  lemma Hundredths(amount: int)
    ensures amount as real / 100.0 * 100.0 == amount as real
  {
  }

  /** The event told of a payment, read off the source rows. */
  lemma EventExactly(account: string, o: Observed<PaymentFact>, s: Sources)
    ensures EventFor(account, o, JoinsOf(s)).Some? <==> Tells(o, s)
    ensures Tells(o, s) ==> EventMeant(account, o, s, EventFor(account, o, JoinsOf(s)).value)
  {
    hide JoinsOf, TelemetryFor, FirstTime, LastGreatest, Joinable, RefundsOf, DisputesOf, Strip, Lower, Lookup;
    TelemetryExactly(o, s);
    TimesExactly(o, s);
    Hundredths(o.fact.amount);
  }

  // ---------------------------------------------------------------- the preview

  const DAY_LONG := 86_400_000_000

  predicate InBaseline(o: Observed<PaymentFact>, asOf: int) {
    o.createdAt.Some? && asOf - 31 * DAY_LONG <= o.createdAt.value < asOf - DAY_LONG
  }

  predicate InCurrent(o: Observed<PaymentFact>, asOf: int) {
    o.createdAt.Some? && asOf - DAY_LONG <= o.createdAt.value <= asOf
  }

  /** One latest row of every payment with a row of the last thirty-one days. */
  ghost predicate LatestRows(payments: seq<Observed<PaymentFact>>, asOf: int, latest: seq<Observed<PaymentFact>>) {
    && (forall o :: o in latest ==> o in payments && (InBaseline(o, asOf) || InCurrent(o, asOf)))
    && (forall o, r | o in latest && r in payments && (InBaseline(r, asOf) || InCurrent(r, asOf)) ::
          r.entity == o.entity ==> r.observedAt <= o.observedAt)
    && (forall r :: r in payments && (InBaseline(r, asOf) || InCurrent(r, asOf)) ==>
          exists o :: o in latest && o.entity == r.entity)
    && (forall i, j :: 0 <= i < j < |latest| ==> latest[i].entity != latest[j].entity)
  }

  lemma SelectedRows(payments: seq<Observed<PaymentFact>>, asOf: int)
    ensures LatestRows(payments, asOf, Selected(payments, asOf))
  {
    var window := InEventWindow<PaymentFact>(BaselineStart(asOf), asOf);
    var rows := Filter(payments, window);
    FilterMembers(payments, window);
    LatestBySelects(rows);
    hide LatestBy, Filter;
    var latest := Selected(payments, asOf);
    assert forall o: Observed<PaymentFact> :: window(o) <==> InBaseline(o, asOf) || InCurrent(o, asOf);
  }

  ghost function BaselineRows(latest: seq<Observed<PaymentFact>>, asOf: int): set<nat> {
    set i: nat | i < |latest| && InBaseline(latest[i], asOf)
  }

  ghost function CurrentRows(latest: seq<Observed<PaymentFact>>, asOf: int): set<nat> {
    set i: nat | i < |latest| && InCurrent(latest[i], asOf)
  }

  ghost function ToldRows(latest: seq<Observed<PaymentFact>>, s: Sources): set<nat> {
    set i: nat | i < |latest| && Tells(latest[i], s)
  }

  /** The dates with a row in the baseline window. */
  ghost function ActiveOn(latest: seq<Observed<PaymentFact>>, asOf: int): set<int> {
    set o | o in latest && InBaseline(o, asOf) :: DateOf(o.createdAt.value)
  }

  /** The share of some rows that is told. */
  ghost predicate CoverageMeant(coverage: Option<real>, rows: set<nat>, told: set<nat>) {
    if rows == {} then coverage == None else coverage.Some? && coverage.value * |rows| as real == |rows * told| as real
  }

  /** When each blocker is listed. */
  ghost predicate Blocked(latest: seq<Observed<PaymentFact>>, s: Sources, asOf: int, blocker: Blocker) {
    match blocker
    case INSUFFICIENT_BASELINE_TRANSACTIONS => |BaselineRows(latest, asOf)| < 30
    case INSUFFICIENT_BASELINE_ACTIVE_DAYS => |ActiveOn(latest, asOf)| < 7
    case BASELINE_TELEMETRY_INCOMPLETE => exists o :: o in latest && InBaseline(o, asOf) && !Tells(o, s)
    case CURRENT_WINDOW_TELEMETRY_INCOMPLETE => exists o :: o in latest && InCurrent(o, asOf) && !Tells(o, s)
    case NO_CURRENT_WINDOW_PAYMENTS => forall o :: o in latest ==> !InCurrent(o, asOf)
    case UNMAPPED_PAYMENT_AUTH_STATUS =>
      exists o :: o in latest && Lower(Strip(o.fact.status)) !in {"authorized", "captured", "refunded", "failed"}
  }

  lemma WindowRows(latest: seq<Observed<PaymentFact>>, asOf: int)
    ensures |Filter(latest, CreatedBefore(BaselineStart(asOf), CurrentStart(asOf)))| == |BaselineRows(latest, asOf)|
    ensures |Filter(latest, CreatedUpTo(CurrentStart(asOf), asOf))| == |CurrentRows(latest, asOf)|
  {
    FilterCount(latest, CreatedBefore(BaselineStart(asOf), CurrentStart(asOf)), BaselineRows(latest, asOf));
    FilterCount(latest, CreatedUpTo(CurrentStart(asOf), asOf), CurrentRows(latest, asOf));
  }

  lemma TellableIs(account: string, o: Observed<PaymentFact>, s: Sources)
    ensures Tellable(account, JoinsOf(s))(o) <==> Tells(o, s)
  {
    EventExactly(account, o, s);
    hide EventFor, JoinsOf, Tells, EventMeant;
  }

  lemma ToldCounts(account: string, latest: seq<Observed<PaymentFact>>, s: Sources, asOf: int)
    ensures var events := Told(account, latest, JoinsOf(s));
      && |Filter(events, InSpan(BaselineStart(asOf), CurrentStart(asOf)))|
         == |BaselineRows(latest, asOf) * ToldRows(latest, s)|
      && |Filter(events, HappenedUpTo(CurrentStart(asOf), asOf))| == |CurrentRows(latest, asOf) * ToldRows(latest, s)|
  {
    hide Filter, Told, JoinsOf, Tells, EventFor;
    var before := CreatedBefore(BaselineStart(asOf), CurrentStart(asOf));
    var upTo, tellable := CreatedUpTo(CurrentStart(asOf), asOf), Tellable(account, JoinsOf(s));
    WindowCounts(account, latest, JoinsOf(s), asOf);
    var both := (o: Observed<PaymentFact>) => before(o) && tellable(o);
    var currentBoth := (o: Observed<PaymentFact>) => upTo(o) && tellable(o);
    FilterFilter(latest, before, tellable, both);
    FilterFilter(latest, upTo, tellable, currentBoth);
    forall o: Observed<PaymentFact> {
      TellableIs(account, o, s);
    }
    hide Tellable;
    FilterCount(latest, both, BaselineRows(latest, asOf) * ToldRows(latest, s));
    FilterCount(latest, currentBoth, CurrentRows(latest, asOf) * ToldRows(latest, s));
  }

  lemma CoverageIs(told: nat, rows: nat)
    ensures if rows == 0 then Coverage(told, rows) == None
            else Coverage(told, rows).Some? && Coverage(told, rows).value * rows as real == told as real
    ensures told <= rows ==> (Incomplete(Coverage(told, rows)) <==> told < rows)
  {
    if rows > 0 && told <= rows {
      CoverageBounds(told, rows);
    }
  }

  lemma PartOf(rows: set<nat>, told: set<nat>)
    ensures |rows * told| <= |rows|
    ensures |rows * told| < |rows| <==> exists i :: i in rows && i !in told
  {
    var rest := rows - told;
    assert rows == rows * told + rest;
    assert |rows| == |rows * told| + |rest|;
    if rest != {} {
      var i :| i in rest;
    }
  }

  /** What a preview says of the selected rows. */
  ghost predicate PreviewMeant(s: Sources, asOf: int, latest: seq<Observed<PaymentFact>>, p: Preview) {
    && p.asOf == asOf && p.currentStart == asOf - DAY_LONG && p.baselineEnd == asOf - DAY_LONG
    && p.baselineStart == asOf - 31 * DAY_LONG
    && p.baselineTransactions == |BaselineRows(latest, asOf)|
    && p.currentTransactions == |CurrentRows(latest, asOf)|
    && CoverageMeant(p.baselineCoverage, BaselineRows(latest, asOf), ToldRows(latest, s))
    && CoverageMeant(p.currentCoverage, CurrentRows(latest, asOf), ToldRows(latest, s))
    && (forall blocker :: blocker in p.blockers <==> Blocked(latest, s, asOf, blocker))
    && (p.vector.None? ==> p.baselineActiveDays == |ActiveOn(latest, asOf)|)
    && (p.vector.Some? <==> p.blockers == []) && (p.shadowScoreEligible <==> p.vector.Some?)
  }

  lemma DatesAre(latest: seq<Observed<PaymentFact>>, asOf: int)
    ensures ActiveDates(Filter(latest, CreatedBefore(BaselineStart(asOf), CurrentStart(asOf))))
         == ActiveOn(latest, asOf)
  {
    FilterMembers(latest, CreatedBefore(BaselineStart(asOf), CurrentStart(asOf)));
    hide Filter;
  }

  lemma UnmappedIs(latest: seq<Observed<PaymentFact>>)
    ensures |Filter(latest, Unmapped)| > 0 <==>
            exists o :: o in latest && Lower(Strip(o.fact.status)) !in {"authorized", "captured", "refunded", "failed"}
  {
    FilterMembers(latest, Unmapped);
    hide Filter, Lower, Strip;
    if |Filter(latest, Unmapped)| > 0 {
      var kept := Filter(latest, Unmapped);
      assert kept[0] in kept;
    }
  }

  lemma BlockersAre(baselineCount: nat, activeDays: nat, baselineCoverage: Option<real>, currentCoverage: Option<real>,
                    currentCount: nat, unmappedCount: nat, blocker: Blocker)
    ensures blocker in Blockers(baselineCount, activeDays, baselineCoverage, currentCoverage, currentCount,
                                unmappedCount)
       <==> match blocker
            case INSUFFICIENT_BASELINE_TRANSACTIONS => baselineCount < 30
            case INSUFFICIENT_BASELINE_ACTIVE_DAYS => activeDays < 7
            case BASELINE_TELEMETRY_INCOMPLETE => Incomplete(baselineCoverage)
            case CURRENT_WINDOW_TELEMETRY_INCOMPLETE => Incomplete(currentCoverage)
            case NO_CURRENT_WINDOW_PAYMENTS => currentCount == 0
            case UNMAPPED_PAYMENT_AUTH_STATUS => unmappedCount > 0
  {
    hide Incomplete;
  }

  lemma RowsNotTold(latest: seq<Observed<PaymentFact>>, s: Sources, asOf: int)
    ensures (exists i :: i in BaselineRows(latest, asOf) && i !in ToldRows(latest, s)) <==>
            exists o :: o in latest && InBaseline(o, asOf) && !Tells(o, s)
    ensures (exists i :: i in CurrentRows(latest, asOf) && i !in ToldRows(latest, s)) <==>
            exists o :: o in latest && InCurrent(o, asOf) && !Tells(o, s)
    ensures CurrentRows(latest, asOf) == {} <==> forall o :: o in latest ==> !InCurrent(o, asOf)
  {
    hide Tells;
    if o :| o in latest && InBaseline(o, asOf) && !Tells(o, s) {
      var i :| 0 <= i < |latest| && latest[i] == o;
      assert i in BaselineRows(latest, asOf) && i !in ToldRows(latest, s);
    }
    if o :| o in latest && InCurrent(o, asOf) && !Tells(o, s) {
      var i :| 0 <= i < |latest| && latest[i] == o;
      assert i in CurrentRows(latest, asOf) && i !in ToldRows(latest, s);
    }
    if o :| o in latest && InCurrent(o, asOf) {
      var i :| 0 <= i < |latest| && latest[i] == o;
      assert i in CurrentRows(latest, asOf);
    }
    if i :| i in CurrentRows(latest, asOf) {
      assert latest[i] in latest && InCurrent(latest[i], asOf);
    }
  }

  lemma BlockedExactly(account: string, latest: seq<Observed<PaymentFact>>, s: Sources, asOf: int, blocker: Blocker)
    ensures var events := Told(account, latest, JoinsOf(s));
      var rows, current := |BaselineRows(latest, asOf)|, |CurrentRows(latest, asOf)|;
      blocker in Blockers(rows, |ActiveOn(latest, asOf)|,
                          Coverage(|BaselineRows(latest, asOf) * ToldRows(latest, s)|, rows),
                          Coverage(|CurrentRows(latest, asOf) * ToldRows(latest, s)|, current), current,
                          |Filter(latest, Unmapped)|)
      <==> Blocked(latest, s, asOf, blocker)
  {
    hide Filter, Told, JoinsOf, Tells, Coverage, Incomplete, BaselineRows, CurrentRows, ToldRows, Blockers, Lower,
        Strip;
    var rows, current := BaselineRows(latest, asOf), CurrentRows(latest, asOf);
    PartOf(rows, ToldRows(latest, s));
    PartOf(current, ToldRows(latest, s));
    CoverageIs(|rows * ToldRows(latest, s)|, |rows|);
    CoverageIs(|current * ToldRows(latest, s)|, |current|);
    RowsNotTold(latest, s, asOf);
    UnmappedIs(latest);
    BlockersAre(|rows|, |ActiveOn(latest, asOf)|,
                Coverage(|rows * ToldRows(latest, s)|, |rows|), Coverage(|current * ToldRows(latest, s)|, |current|),
                |current|, |Filter(latest, Unmapped)|, blocker);
  }

  lemma CoverageMeantIs(rows: set<nat>, told: set<nat>)
    ensures CoverageMeant(Coverage(|rows * told|, |rows|), rows, told)
  {
    CoverageIs(|rows * told|, |rows|);
    hide Coverage;
  }

  lemma ConcludeIs(m: MathLib, account: string, asOf: int, baselineCount: nat, activeDays: nat, currentCount: nat,
                   unmappedCount: nat, events: seq<Event>)
    ensures var r := Conclude(m, account, asOf, baselineCount, activeDays, currentCount, unmappedCount, events);
      var baselineCoverage :=
        Coverage(|Filter(events, InSpan(BaselineStart(asOf), CurrentStart(asOf)))|, baselineCount);
      var currentCoverage := Coverage(|Filter(events, HappenedUpTo(CurrentStart(asOf), asOf))|, currentCount);
      r.Success? ==>
        var p := r.value;
        && p.asOf == asOf && p.currentStart == asOf - DAY_LONG && p.baselineEnd == asOf - DAY_LONG
        && p.baselineStart == asOf - 31 * DAY_LONG
        && p.baselineTransactions == baselineCount && p.currentTransactions == currentCount
        && p.baselineCoverage == baselineCoverage && p.currentCoverage == currentCoverage
        && p.blockers
           == Blockers(baselineCount, activeDays, baselineCoverage, currentCoverage, currentCount, unmappedCount)
        && (p.vector.None? ==> p.baselineActiveDays == activeDays)
        && (p.vector.Some? <==> p.blockers == []) && (p.shadowScoreEligible <==> p.vector.Some?)
  {
    hide Filter, Coverage, Blockers, Score, IsShare;
  }

  /** The summary, with its counts put in terms of the selected rows. */
  lemma SummaryIs(m: MathLib, account: string, asOf: int, latest: seq<Observed<PaymentFact>>, s: Sources)
    ensures var r := Summarize(m, account, asOf, latest, Told(account, latest, JoinsOf(s)));
      r.Success? ==> PreviewMeant(s, asOf, latest, r.value)
  {
    hide Filter, Told, JoinsOf, Coverage, Blockers, BaselineRows, CurrentRows, ToldRows, Blocked, Conclude, ActiveDates,
        ActiveOn, CoverageMeant, BaselineStart, CurrentStart;
    var events := Told(account, latest, JoinsOf(s));
    WindowRows(latest, asOf);
    ToldCounts(account, latest, s, asOf);
    DatesAre(latest, asOf);
    CoverageMeantIs(BaselineRows(latest, asOf), ToldRows(latest, s));
    CoverageMeantIs(CurrentRows(latest, asOf), ToldRows(latest, s));
    ConcludeIs(m, account, asOf, |BaselineRows(latest, asOf)|, |ActiveOn(latest, asOf)|,
               |CurrentRows(latest, asOf)|, |Filter(latest, Unmapped)|, events);
    forall blocker {
      BlockedExactly(account, latest, s, asOf, blocker);
    }
  }

  /** Every preview says what it should of the latest rows; the vector it may carry is that of the told events
      of the last day against the baseline of the thirty days before. */
  lemma PreviewExactly(m: MathLib, account: string, asOf: int, s: Sources)
    requires BuildPreview(m, account, asOf, s).Success?
    ensures var p := BuildPreview(m, account, asOf, s).value; var latest := Selected(s.payments, asOf);
      && LatestRows(s.payments, asOf, latest)
      && PreviewMeant(s, asOf, latest, p)
      && (p.vector.Some? ==>
            var events := Told(account, latest, JoinsOf(s));
            var built := BuildBaseline(m, events, asOf - 31 * DAY_LONG, asOf - DAY_LONG);
            && built.Success? && ValidBaseline(built.value.0) && |built.value.0.edges| >= 2
            && p.baselineActiveDays == built.value.1
            && BuildFeatures(m, Strip(account), asOf, built.value.0, events, 24) == Success(p.vector.value))
  {
    hide Selected, LatestRows, PreviewMeant, EventsOf, JoinsOf, Told, Summarize, BuildBaseline, BuildFeatures, Strip,
        EventsValid;
    var latest := Selected(s.payments, asOf);
    SelectedRows(s.payments, asOf);
    EventsExact(account, latest, JoinsOf(s));
    SummaryIs(m, account, asOf, latest, s);
    VectorIs(m, account, asOf, latest, Told(account, latest, JoinsOf(s)));
  }

  lemma VectorIs(m: MathLib, account: string, asOf: int, latest: seq<Observed<PaymentFact>>, events: seq<Event>)
    ensures var r := Summarize(m, account, asOf, latest, events);
      r.Success? && r.value.vector.Some? ==>
        var built := BuildBaseline(m, events, asOf - 31 * DAY_LONG, asOf - DAY_LONG);
        && built.Success? && ValidBaseline(built.value.0) && |built.value.0.edges| >= 2
        && r.value.baselineActiveDays == built.value.1
        && BuildFeatures(m, Strip(account), asOf, built.value.0, events, 24) == Success(r.value.vector.value)
  {
    hide Filter, Coverage, Blockers, BuildBaseline, BuildFeatures, Strip, ValidBaseline, ActiveDates;
    ScoredBaseline(m, events, BaselineStart(asOf), CurrentStart(asOf));
  }
}
