/** The live preview of an account at a past cutoff, read from the current store: what later changes to
    the store can reach it. Observations are filtered by knowledge time; the payments' current order ids
    are not, and telemetry rows get their payment ids later, under their old knowledge time. */
module LivePreview {
  import opened BaselineBuilder
  import opened Features
  import opened LiveFeatures
  import opened Observations
  import opened RealMath
  import opened Selection
  import opened Sequences
  import opened Text
  import opened Wrappers

  /** One account's rows: observations, telemetry, and the current-state order id of each payment. */
  datatype LiveStore = LiveStore(payments: seq<Observed<PaymentFact>>, refunds: seq<Observed<RefundFact>>,
                                 disputes: seq<Observed<DisputeFact>>, telemetry: seq<Telemetry>,
                                 orders: map<string, Option<string>>)

  function InPreviewWindow(asOf: int): Observed<PaymentFact> -> bool {
    (o: Observed<PaymentFact>) => o.observedAt <= asOf && InEventWindow(BaselineStart(asOf), asOf)(o)
  }

  function TelemetryKnown(asOf: int): Telemetry -> bool {
    (t: Telemetry) => t.observedAt <= asOf
  }

  function FetchSources(d: LiveStore, asOf: int): Sources {
    Sources(Filter(d.payments, InPreviewWindow(asOf)), Filter(d.refunds, KnownAt(asOf)),
        Filter(d.disputes, KnownAt(asOf)), Filter(d.telemetry, TelemetryKnown(asOf)), d.orders)
  }

  function PreviewNow(m: MathLib, account: string, d: LiveStore, asOf: int): Result<Preview, LiveError> {
    BuildPreview(m, account, asOf, FetchSources(d, asOf))
  }

  /** The payments the preview selects, and the lookups it makes for them. */
  function Latest(d: LiveStore, asOf: int): seq<Observed<PaymentFact>> {
    Selected(FetchSources(d, asOf).payments, asOf)
  }

  function JoinsAt(d: LiveStore, asOf: int): Joins {
    JoinsOf(FetchSources(d, asOf))
  }

  ghost predicate SameObservations(d: LiveStore, d': LiveStore, asOf: int) {
    && Filter(d.payments, KnownAt(asOf)) == Filter(d'.payments, KnownAt(asOf))
    && Filter(d.refunds, KnownAt(asOf)) == Filter(d'.refunds, KnownAt(asOf))
    && Filter(d.disputes, KnownAt(asOf)) == Filter(d'.disputes, KnownAt(asOf))
  }

  // ---------------------------------------------------------------- what is told of a payment

  /** A payment an event is made of, once telemetry is found for it. */
  predicate Eligible(o: Observed<PaymentFact>) {
    o.createdAt.Some? && o.fact.currency == "INR" && MapAuthStatus(o.fact.status).Some?
  }

  /** The device and the geography found for a payment. */
  function SignalsOf(t: Option<Telemetry>): Option<(string, string)> {
    if t.Some? then Some((Strip(t.value.device), Strip(t.value.geo))) else None
  }

  function SignalsFor(o: Observed<PaymentFact>, joins: Joins): Option<(string, string)> {
    SignalsOf(TelemetryFor(o, joins))
  }

  /** What is told of each selected payment, in order; the preview is computed from this and the rows. */
  function Tellings(account: string, rows: seq<Observed<PaymentFact>>, joins: Joins): seq<Option<Event>> {
    Map(rows, (o: Observed<PaymentFact>) => EventFor(account, o, joins))
  }

  lemma TellingExact(account: string, o: Observed<PaymentFact>, joins: Joins, joins': Joins)
    requires joins.refunds == joins'.refunds && joins.chargebacks == joins'.chargebacks
    ensures EventFor(account, o, joins) == EventFor(account, o, joins')
       <==> (Eligible(o) ==> SignalsFor(o, joins) == SignalsFor(o, joins'))
  {
    hide TelemetryFor, MapAuthStatus, Strip, Lookup;
  }

  lemma TellingsExact(account: string, rows: seq<Observed<PaymentFact>>, joins: Joins, joins': Joins)
    requires joins.refunds == joins'.refunds && joins.chargebacks == joins'.chargebacks
    ensures Tellings(account, rows, joins) == Tellings(account, rows, joins')
       <==> forall o | o in rows && Eligible(o) :: SignalsFor(o, joins) == SignalsFor(o, joins')
  {
    hide EventFor, SignalsFor, Eligible, Map;
    forall o: Observed<PaymentFact> { TellingExact(account, o, joins, joins'); }
    var a, b := Tellings(account, rows, joins), Tellings(account, rows, joins');
    assert forall i :: 0 <= i < |rows| ==>
        a[i] == EventFor(account, rows[i], joins) && b[i] == EventFor(account, rows[i], joins');
    if a == b {
      forall o | o in rows && Eligible(o) ensures SignalsFor(o, joins) == SignalsFor(o, joins') {
        var i :| 0 <= i < |rows| && rows[i] == o;
        assert a[i] == b[i];
      }
    }
    if forall o | o in rows && Eligible(o) :: SignalsFor(o, joins) == SignalsFor(o, joins') {
      forall i | 0 <= i < |rows| ensures a[i] == b[i] {
        assert rows[i] in rows;
      }
    }
  }

  lemma {:induction false} EventsFromTellings(account: string, rows: seq<Observed<PaymentFact>>, joins: Joins,
                                              joins': Joins)
    requires forall o | o in rows :: EventFor(account, o, joins) == EventFor(account, o, joins')
    ensures EventsOf(account, rows, joins) == EventsOf(account, rows, joins')
  {
    hide EventFor, ValidEvent;
    if rows != [] {
      var n := |rows| - 1;
      assert rows == rows[..n] + [rows[n]];
      EventsFromTellings(account, rows[..n], joins, joins');
    }
  }

  lemma SameSelection(d: LiveStore, d': LiveStore, asOf: int)
    requires SameObservations(d, d', asOf)
    ensures Latest(d, asOf) == Latest(d', asOf)
    ensures JoinsAt(d, asOf).refunds == JoinsAt(d', asOf).refunds
    ensures JoinsAt(d, asOf).chargebacks == JoinsAt(d', asOf).chargebacks
  {
    var inWindow := InEventWindow<PaymentFact>(BaselineStart(asOf), asOf);
    FilterFilter(d.payments, KnownAt(asOf), inWindow, InPreviewWindow(asOf));
    FilterFilter(d'.payments, KnownAt(asOf), inWindow, InPreviewWindow(asOf));
    hide Filter, Selected, StableSort, FirstTimestamps, OrderMap, PaymentMap;
  }

  /** Between two states of the store with the same observations up to the cutoff, the preview's input
      changes exactly when the device or geography found for some eligible selected payment does, and
      the preview can change only then. */
  lemma LivePreviewExact(m: MathLib, account: string, d: LiveStore, d': LiveStore, asOf: int)
    requires SameObservations(d, d', asOf)
    ensures var latest := Latest(d, asOf);
      var told, told' := Tellings(account, latest, JoinsAt(d, asOf)), Tellings(account, latest, JoinsAt(d', asOf));
      && (told == told' <==>
            forall o | o in latest && Eligible(o) ::
              SignalsFor(o, JoinsAt(d, asOf)) == SignalsFor(o, JoinsAt(d', asOf)))
      && (told == told' ==> PreviewNow(m, account, d, asOf) == PreviewNow(m, account, d', asOf))
  {
    hide SameObservations, JoinsOf, Selected, Summarize, EventsOf, Eligible, SignalsFor, EventFor;
    var latest := Latest(d, asOf);
    var joins, joins' := JoinsAt(d, asOf), JoinsAt(d', asOf);
    SameSelection(d, d', asOf);
    TellingsExact(account, latest, joins, joins');
    if Tellings(account, latest, joins) == Tellings(account, latest, joins') {
      forall o | o in latest ensures EventFor(account, o, joins) == EventFor(account, o, joins') {
        TellingExact(account, o, joins, joins');
      }
      EventsFromTellings(account, latest, joins, joins');
    }
  }

  // ---------------------------------------------------------------- current order ids

  predicate OwnOrder(o: Observed<PaymentFact>) {
    o.fact.orderId.Some? && Truthy(o.fact.orderId.value)
  }

  /** The signals a payment would get through an order. */
  function ThroughOrder(orderId: Option<string>, byOrder: map<string, Telemetry>): Option<(string, string)> {
    if orderId.Some? && Truthy(orderId.value) then SignalsOf(Lookup(byOrder, orderId.value)) else None
  }

  /** With telemetry unchanged, a changed current-state order id reaches a payment exactly when the row
      carries no order id of its own, no telemetry is bound to the payment, and the two order ids lead to
      different signals. */
  lemma OrderIdReaches(o: Observed<PaymentFact>, joins: Joins, orders: map<string, Option<string>>)
    ensures SignalsFor(o, joins) != SignalsFor(o, joins.(orderByPayment := orders))
       <==> && !OwnOrder(o) && o.entity !in joins.byPayment
            && ThroughOrder(Lookup(joins.orderByPayment, o.entity).GetOr(None), joins.byOrder)
               != ThroughOrder(Lookup(orders, o.entity).GetOr(None), joins.byOrder)
  {
    hide Strip;
  }

  // ---------------------------------------------------------------- payment ids filled in later

  /** The same telemetry row, or the row with its empty payment id filled in from `bound`. */
  predicate FilledWithin(a: Telemetry, b: Telemetry, bound: set<string>) {
    a == b || (a.paymentId.None? && b.paymentId.Some? && b.paymentId.value in bound && a == b.(paymentId := None))
  }

  ghost predicate AllFilledWithin(a: seq<Telemetry>, b: seq<Telemetry>, bound: set<string>) {
    |a| == |b| && forall i :: 0 <= i < |a| ==> FilledWithin(a[i], b[i], bound)
  }

  lemma {:induction false} InsertFilledWithin(x: Telemetry, y: Telemetry, a: seq<Telemetry>, b: seq<Telemetry>,
                                              bound: set<string>)
    requires FilledWithin(x, y, bound) && AllFilledWithin(a, b, bound)
    ensures AllFilledWithin(Insert(x, a, TelemetryEarlier), Insert(y, b, TelemetryEarlier), bound)
  {
    if a != [] {
      InsertFilledWithin(x, y, a[1..], b[1..], bound);
    }
  }

  lemma {:induction false} SortFilledWithin(a: seq<Telemetry>, b: seq<Telemetry>, bound: set<string>)
    requires AllFilledWithin(a, b, bound)
    ensures AllFilledWithin(StableSort(a, TelemetryEarlier), StableSort(b, TelemetryEarlier), bound)
  {
    if a != [] {
      SortFilledWithin(a[1..], b[1..], bound);
      InsertFilledWithin(a[0], b[0], StableSort(a[1..], TelemetryEarlier), StableSort(b[1..], TelemetryEarlier), bound);
    }
  }

  lemma {:induction false} OrderMapFilledWithin(a: seq<Telemetry>, b: seq<Telemetry>, bound: set<string>)
    requires AllFilledWithin(a, b, bound)
    ensures OrderMap(a).Keys == OrderMap(b).Keys
    ensures forall k | k in OrderMap(a) :: FilledWithin(OrderMap(a)[k], OrderMap(b)[k], bound)
  {
    if a != [] {
      var n := |a| - 1;
      OrderMapFilledWithin(a[..n], b[..n], bound);
      assert FilledWithin(a[n], b[n], bound);
    }
  }

  lemma {:induction false} PaymentMapFilledWithin(a: seq<Telemetry>, b: seq<Telemetry>, bound: set<string>,
                                                  paymentId: string)
    requires AllFilledWithin(a, b, bound) && paymentId !in bound
    ensures Lookup(PaymentMap(a), paymentId) == Lookup(PaymentMap(b), paymentId)
  {
    if a != [] {
      var n := |a| - 1;
      PaymentMapFilledWithin(a[..n], b[..n], bound, paymentId);
      assert FilledWithin(a[n], b[n], bound);
    }
  }

  /** Filling in payment ids changes what is found only for the payments filled in. */
  lemma FillInReaches(o: Observed<PaymentFact>, joins: Joins, joins': Joins, a: seq<Telemetry>, b: seq<Telemetry>,
                      bound: set<string>)
    requires AllFilledWithin(a, b, bound) && joins.orderByPayment == joins'.orderByPayment
    requires joins.byOrder == OrderMap(StableSort(a, TelemetryEarlier))
    requires joins.byPayment == PaymentMap(StableSort(a, TelemetryEarlier))
    requires joins'.byOrder == OrderMap(StableSort(b, TelemetryEarlier))
    requires joins'.byPayment == PaymentMap(StableSort(b, TelemetryEarlier))
    requires o.entity !in bound
    ensures SignalsFor(o, joins) == SignalsFor(o, joins')
  {
    hide StableSort, OrderMap, PaymentMap, Strip;
    var s, t := StableSort(a, TelemetryEarlier), StableSort(b, TelemetryEarlier);
    SortFilledWithin(a, b, bound);
    OrderMapFilledWithin(s, t, bound);
    PaymentMapFilledWithin(s, t, bound, o.entity);
  }

  /** So the preview of a past cutoff survives every later change that fills in payment ids of payments it
      did not select and changes current order ids only of payments that carry their own. */
  lemma LivePreviewStable(m: MathLib, account: string, d: LiveStore, d': LiveStore, asOf: int, bound: set<string>)
    requires SameObservations(d, d', asOf)
    requires AllFilledWithin(Filter(d.telemetry, TelemetryKnown(asOf)), Filter(d'.telemetry, TelemetryKnown(asOf)),
                             bound)
    requires forall o | o in Latest(d, asOf) && Eligible(o) ::
               && o.entity !in bound
               && (OwnOrder(o) || Lookup(d.orders, o.entity).GetOr(None) == Lookup(d'.orders, o.entity).GetOr(None))
    ensures PreviewNow(m, account, d, asOf) == PreviewNow(m, account, d', asOf)
  {
    hide PreviewNow, Latest, Eligible, SameObservations, AllFilledWithin, Filter, StableSort, OrderMap, PaymentMap,
        FirstTimestamps;
    hide SignalsFor, Tellings;
    var latest := Latest(d, asOf);
    var joins, joins' := JoinsAt(d, asOf), JoinsAt(d', asOf);
    forall o | o in latest && Eligible(o) ensures SignalsFor(o, joins) == SignalsFor(o, joins') {
      var between := joins.(orderByPayment := d'.orders);
      OrderIdReaches(o, joins, d'.orders);
      FillInReaches(o, between, joins', Filter(d.telemetry, TelemetryKnown(asOf)),
          Filter(d'.telemetry, TelemetryKnown(asOf)), bound);
    }
    LivePreviewExact(m, account, d, d', asOf);
  }

  // ---------------------------------------------------------------- a preview that changes

  /** One captured payment without an order id of its own, and telemetry for an order. */
  function LateStore(orders: map<string, Option<string>>): LiveStore {
    LiveStore([LatePayment()], [], [], [LateTelemetry()], orders)
  }

  function LatePayment(): Observed<PaymentFact> {
    Observed("pay", 0, Some(0), PaymentFact(None, "captured", 100, "INR", "card", true, 0, None))
  }

  function LateTelemetry(): Telemetry {
    Telemetry("order", None, "device", "IN", 0)
  }

  lemma LateSources(orders: map<string, Option<string>>)
    ensures FetchSources(LateStore(orders), 0) == Sources([LatePayment()], [], [], [LateTelemetry()], orders)
  {
    assert InEventWindow(BaselineStart(0), 0)(LatePayment());
    FilterAll([LatePayment()], InPreviewWindow(0));
    FilterAll([LateTelemetry()], TelemetryKnown(0));
    EmptyFilters();
    hide Filter;
  }

  lemma EmptyFilters()
    ensures Filter<Observed<RefundFact>>([], KnownAt(0)) == [] && Filter<Observed<DisputeFact>>([], KnownAt(0)) == []
  {
  }

  lemma LateLatest()
    ensures Selected([LatePayment()], 0) == [LatePayment()]
  {
    var o := LatePayment();
    FilterAll([o], InEventWindow(BaselineStart(0), 0));
    SortOfSorted([o], Earlier);
    hide Filter, StableSort;
    assert [o][..0] == [];
    assert Overwrite([o]) == [o];
  }

  lemma LateJoins(orders: map<string, Option<string>>)
    ensures var joins := JoinsOf(Sources([LatePayment()], [], [], [LateTelemetry()], orders));
      joins.byOrder == map["order" := LateTelemetry()] && joins.byPayment == map[] && joins.orderByPayment == orders
  {
    var t := LateTelemetry();
    SortOfSorted([t], TelemetryEarlier);
    hide StableSort, FirstTimestamps;
    assert [t][..0] == [];
  }

  /** What is told of the payment: nothing while its order id is unknown, an event afterwards. */
  lemma LateTelling(account: string, joins: Joins)
    requires joins.byOrder == map["order" := LateTelemetry()] && joins.byPayment == map[]
    ensures joins.orderByPayment == map[] ==> EventFor(account, LatePayment(), joins).None?
    ensures joins.orderByPayment == map["pay" := Some("order")] ==>
              EventFor(account, LatePayment(), joins).Some? && EventFor(account, LatePayment(), joins).value.at == 0
  {
    hide MapAuthStatus, Strip, Lower;
    NormalStatus("captured");
  }

  lemma LateEvents(account: string, joins: Joins)
    ensures var e := EventFor(account, LatePayment(), joins);
      && (e.None? ==> EventsOf(account, [LatePayment()], joins) == Success([]))
      && (e.Some? ==> EventsOf(account, [LatePayment()], joins)
                      == if ValidEvent(e.value) then Success([e.value]) else Failure(InvalidEvent))
  {
    hide EventFor, ValidEvent;
    assert [LatePayment()][..0] == [];
    assert EventsOf(account, [], joins) == Success([]);
    var e := EventFor(account, LatePayment(), joins);
    assert e.Some? ==> [] + [e.value] == [e.value];
  }

  lemma NoBaselineBlocks(activeDays: nat, baselineCoverage: Option<real>, currentCoverage: Option<real>,
                         currentCount: nat, unmappedCount: nat)
    ensures Blockers(0, activeDays, baselineCoverage, currentCoverage, currentCount, unmappedCount) != []
  {
  }

  lemma LateConclusion(m: MathLib, account: string, activeDays: nat, unmappedCount: nat, events: seq<Event>)
    requires |events| <= 1 && Filter(events, HappenedUpTo(CurrentStart(0), 0)) == events
    ensures var r := Conclude(m, account, 0, 0, activeDays, 1, unmappedCount, events);
      && r.Success?
      && r.value.currentCoverage == Some(|events| as real)
  {
    hide Filter, Score;
    var n := |Filter(events, HappenedUpTo(CurrentStart(0), 0))|;
    assert Coverage(n, 1) == Some(|events| as real);
    NoBaselineBlocks(activeDays, Coverage(|Filter(events, InSpan(BaselineStart(0), CurrentStart(0)))|, 0),
        Coverage(n, 1), 1, unmappedCount);
  }

  /** With one current payment and no baseline the preview is blocked, and shows how much was told. */
  lemma LateSummary(m: MathLib, account: string, events: seq<Event>)
    requires |events| <= 1 && forall e | e in events :: e.at == 0
    ensures var r := Summarize(m, account, 0, [LatePayment()], events);
      r.Success? && r.value.currentCoverage == Some(|events| as real)
  {
    hide Filter, ActiveDates, Unmapped, Conclude;
    var o := LatePayment();
    FilterAll([o], CreatedUpTo(CurrentStart(0), 0));
    FilterNone([o], CreatedBefore(BaselineStart(0), CurrentStart(0)));
    FilterAll(events, HappenedUpTo(CurrentStart(0), 0));
    LateConclusion(m, account, |ActiveDates([])|, |Filter([o], Unmapped)|, events);
  }

  /** The current-state order id, learned at any later time, turns up in the preview of the past cutoff. */
  lemma LateOrderIdChangesPreview(m: MathLib, account: string)
    ensures PreviewNow(m, account, LateStore(map[]), 0)
         != PreviewNow(m, account, LateStore(map["pay" := Some("order")]), 0)
  {
    var before, after: map<string, Option<string>> := map[], map["pay" := Some("order")];
    LateSources(before);
    LateSources(after);
    LateLatest();
    LateJoins(before);
    LateJoins(after);
    var joins := JoinsOf(Sources([LatePayment()], [], [], [LateTelemetry()], before));
    var joins' := JoinsOf(Sources([LatePayment()], [], [], [LateTelemetry()], after));
    LateTelling(account, joins);
    LateTelling(account, joins');
    LateEvents(account, joins);
    LateEvents(account, joins');
    LateSummary(m, account, []);
    LateSummary(m, account, [EventFor(account, LatePayment(), joins').value]);
    hide FetchSources, Selected, JoinsOf, EventsOf, EventFor, Summarize, ValidEvent, LatePayment, LateTelemetry;
  }
}
