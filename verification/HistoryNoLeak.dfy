/** A preview of imported history depends only on what was observable at its cutoff: rows observed
    later, refund or dispute facts observed later, fraud labels, payment methods, refund amounts and
    the choice among the approved statuses cannot change it. */
module HistoryNoLeak {
  import opened Features
  import opened Instants
  import opened LiveFeatures
  import opened Observations
  import opened OperatorHistory
  import opened RealMath
  import opened Selection
  import opened Sequences
  import opened Text
  import opened Wrappers

  // ---------------------------------------------------------------- payment facts that matter

  /** One representative per authorisation outcome. */
  function CanonicalStatus(status: string): string {
    match MapAuthStatus(status)
    case Some(APPROVED) => "captured"
    case Some(FAILED) => "failed"
    case None => ""
  }

  /** The representative maps to the same authorisation outcome. */
  lemma CanonicalAuth(status: string)
    ensures MapAuthStatus(CanonicalStatus(status)) == MapAuthStatus(status)
  {
    NormalStatus("captured");
    NormalStatus("failed");
    NormalStatus("");
    hide Lower, Strip;
  }

  /** What the preview can see of a payment fact. */
  function Essential(f: PaymentFact): PaymentFact {
    PaymentFact(f.orderId, CanonicalStatus(f.status), f.amount, f.currency, "", false, 0, None)
  }

  lemma EssentialEvent(account: string, o: Observed<PaymentFact>, joins: Joins)
    ensures EventFor(account, Restate(Essential)(o), joins) == EventFor(account, o, joins)
  {
    EssentialOf(o);
    CanonicalAuth(o.fact.status);
    var o' := Restate(Essential)(o);
    hide MapAuthStatus, CanonicalStatus, Strip, Restate, Essential;
    assert TelemetryFor(o', joins) == TelemetryFor(o, joins);
  }

  lemma EssentialOf(o: Observed<PaymentFact>)
    ensures var o' := Restate(Essential)(o);
      && o'.entity == o.entity && o'.observedAt == o.observedAt && o'.createdAt == o.createdAt
      && o'.fact.orderId == o.fact.orderId && o'.fact.amount == o.fact.amount && o'.fact.currency == o.fact.currency
      && o'.fact == Essential(o.fact)
      && o'.fact.status == CanonicalStatus(o.fact.status)
  {
    assert Restate(Essential)(o) == Observed(o.entity, o.observedAt, o.createdAt, Essential(o.fact));
    hide CanonicalStatus;
  }

  lemma {:induction false} EssentialEvents(account: string, rows: seq<Observed<PaymentFact>>, joins: Joins)
    ensures EventsOf(account, Map(rows, Restate(Essential)), joins) == EventsOf(account, rows, joins)
  {
    hide EventFor, ValidEvent, Map, Restate, Essential;
    if rows != [] {
      var t, o := rows[..|rows| - 1], rows[|rows| - 1];
      EssentialEvents(account, t, joins);
      EssentialEvent(account, o, joins);
      assert Map(rows, Restate(Essential))[..|rows| - 1] == Map(t, Restate(Essential));
      assert Map(rows, Restate(Essential))[|rows| - 1] == Restate(Essential)(o);
    }
  }

  lemma EssentialCount(rows: seq<Observed<PaymentFact>>, p: Observed<PaymentFact> -> bool)
    requires forall o | o in rows :: p(Restate(Essential)(o)) == p(o)
    ensures Filter(Map(rows, Restate(Essential)), p) == Map(Filter(rows, p), Restate(Essential))
  {
    FilterOfMap(rows, Restate(Essential), p);
  }

  lemma EssentialDates(rows: seq<Observed<PaymentFact>>)
    ensures ActiveDates(Map(rows, Restate(Essential))) == ActiveDates(rows)
  {
    var mapped := Map(rows, Restate(Essential));
    forall d ensures d in ActiveDates(mapped) <==> d in ActiveDates(rows) {
      if d in ActiveDates(rows) {
        var o :| o in rows && o.createdAt.Some? && DateOf(o.createdAt.value) == d;
        var i :| 0 <= i < |rows| && rows[i] == o;
        assert mapped[i] in mapped && mapped[i].createdAt == o.createdAt;
      }
      if d in ActiveDates(mapped) {
        var o :| o in mapped && o.createdAt.Some? && DateOf(o.createdAt.value) == d;
        var i :| 0 <= i < |mapped| && mapped[i] == o;
        assert rows[i] in rows && rows[i].createdAt == o.createdAt;
      }
    }
  }

  lemma EssentialSummary(m: MathLib, account: string, asOf: int, latest: seq<Observed<PaymentFact>>, events: seq<Event>)
    ensures Summarize(m, account, asOf, Map(latest, Restate(Essential)), events)
            == Summarize(m, account, asOf, latest, events)
  {
    var before, upTo := CreatedBefore(BaselineStart(asOf), CurrentStart(asOf)), CreatedUpTo(CurrentStart(asOf), asOf);
    EssentialWindows(latest, asOf);
    EssentialUnmapped(latest);
    EssentialDates(Filter(latest, before));
    hide Filter, ActiveDates, Conclude, Restate, Essential, Unmapped, Map;
    MapLength(Filter(latest, before), Restate(Essential));
    MapLength(Filter(latest, upTo), Restate(Essential));
    MapLength(Filter(latest, Unmapped), Restate(Essential));
  }

  lemma MapLength<T, U>(s: seq<T>, f: T -> U)
    ensures |Map(s, f)| == |s|
  {
  }

  lemma EssentialWindows(latest: seq<Observed<PaymentFact>>, asOf: int)
    ensures var before, upTo := CreatedBefore(BaselineStart(asOf), CurrentStart(asOf)),
            CreatedUpTo(CurrentStart(asOf), asOf);
      && Filter(Map(latest, Restate(Essential)), before) == Map(Filter(latest, before), Restate(Essential))
      && Filter(Map(latest, Restate(Essential)), upTo) == Map(Filter(latest, upTo), Restate(Essential))
  {
    hide CanonicalStatus, Filter;
    EssentialCount(latest, CreatedBefore(BaselineStart(asOf), CurrentStart(asOf)));
    EssentialCount(latest, CreatedUpTo(CurrentStart(asOf), asOf));
  }

  lemma EssentialUnmapped(latest: seq<Observed<PaymentFact>>)
    ensures Filter(Map(latest, Restate(Essential)), Unmapped) == Map(Filter(latest, Unmapped), Restate(Essential))
  {
    hide MapAuthStatus, CanonicalStatus, Filter;
    forall o: Observed<PaymentFact> ensures Unmapped(Restate(Essential)(o)) == Unmapped(o) {
      EssentialOf(o);
      CanonicalAuth(o.fact.status);
    }
    EssentialCount(latest, Unmapped);
  }

  lemma EssentialSelected(payments: seq<Observed<PaymentFact>>, asOf: int)
    ensures Selected(Map(payments, Restate(Essential)), asOf) == Map(Selected(payments, asOf), Restate(Essential))
  {
    EssentialCount(payments, InEventWindow(BaselineStart(asOf), asOf));
    LatestByRestate(Filter(payments, InEventWindow(BaselineStart(asOf), asOf)), Essential);
    hide LatestBy, Filter, CanonicalStatus;
  }

  /** The whole preview sees payments only through their essential facts. */
  lemma EssentialPreview(m: MathLib, account: string, asOf: int, s: Sources, s': Sources)
    requires s'.payments == Map(s.payments, Restate(Essential)) && JoinsOf(s') == JoinsOf(s)
    ensures BuildPreview(m, account, asOf, s') == BuildPreview(m, account, asOf, s)
  {
    hide Selected, EventsOf, Summarize, JoinsOf, Map;
    var latest := Selected(s.payments, asOf);
    EssentialSelected(s.payments, asOf);
    EssentialEvents(account, latest, JoinsOf(s));
    match EventsOf(account, latest, JoinsOf(s)) {
      case Success(events) => EssentialSummary(m, account, asOf, latest, events);
      case Failure(_) =>
    }
  }

  // ---------------------------------------------------------------- dispute facts do not matter

  function Anonymous(f: DisputeFact): DisputeFact {
    DisputeFact(f.paymentId, "", "")
  }

  lemma {:induction false} AnonymousTimestamps(rows: seq<Observed<DisputeFact>>)
    ensures FirstTimestamps(Map(rows, Restate(Anonymous)), DisputePayment, AnyDispute)
         == FirstTimestamps(rows, DisputePayment, AnyDispute)
  {
    if rows != [] {
      var t, o := rows[..|rows| - 1], rows[|rows| - 1];
      AnonymousTimestamps(t);
      var mapped := Map(rows, Restate(Anonymous));
      assert mapped[..|rows| - 1] == Map(t, Restate(Anonymous));
      AnonymousRow(o);
      assert mapped[|rows| - 1] == Restate(Anonymous)(o);
      hide Map, Restate, Anonymous;
    }
  }

  lemma AnonymousRow(o: Observed<DisputeFact>)
    ensures var o' := Restate(Anonymous)(o);
      && DisputePayment(o'.fact) == DisputePayment(o.fact) && TimestampOf(o') == TimestampOf(o)
      && AnyDispute(o'.fact) && AnyDispute(o.fact)
      && o' == Observed(o.entity, o.observedAt, o.createdAt, Anonymous(o.fact))
  {
    assert Restate(Anonymous)(o) == Observed(o.entity, o.observedAt, o.createdAt, Anonymous(o.fact));
  }

  lemma AnonymousDisputes(rows: seq<Observed<DisputeFact>>)
    ensures FirstTimestamps(StableSort(Map(rows, Restate(Anonymous)), Earlier), DisputePayment, AnyDispute)
         == FirstTimestamps(StableSort(rows, Earlier), DisputePayment, AnyDispute)
  {
    SortMap(rows, Restate(Anonymous), Earlier, Earlier);
    AnonymousTimestamps(StableSort(rows, Earlier));
  }

  // ---------------------------------------------------------------- the view of a record

  /** A record as it could be told at the cutoff: later refund and dispute facts erased, labels,
      methods and amounts refunded dropped, the status reduced to its authorisation outcome. */
  function View(asOf: int): Record -> Record {
    (r: Record) => Record(r.transactionId, r.orderId, r.eventAt, r.observedAt, r.amount, r.currency,
                          CanonicalStatus(r.status), "", r.device, r.geo, 0,
                          if RefundKnown(r, asOf) then r.refundEventAt else None,
                          if RefundKnown(r, asOf) then r.refundObservedAt else None,
                          None, None,
                          if DisputeKnown(r, asOf) then r.disputeEventAt else None,
                          if DisputeKnown(r, asOf) then r.disputeObservedAt else None,
                          None)
  }

  /** What two gatherings must share. */
  ghost predicate SameEssentials(s: Sources, s': Sources) {
    && Map(s'.payments, Restate(Essential)) == Map(s.payments, Restate(Essential))
    && s'.refunds == s.refunds
    && Map(s'.disputes, Restate(Anonymous)) == Map(s.disputes, Restate(Anonymous))
    && s'.telemetry == s.telemetry
    && s'.orderByPayment == s.orderByPayment
  }

  function Extend(s: Sources, r: Record, asOf: int): Sources {
    Sources(s.payments + [PaymentRow(r, asOf)], s.refunds + RefundRows(r, asOf), s.disputes + DisputeRows(r, asOf),
            s.telemetry + [TelemetryRow(r)], s.orderByPayment[r.transactionId := Some(r.orderId)])
  }

  lemma GatherStep(t: seq<Record>, r: Record, asOf: int)
    ensures var s := Gather(t, asOf);
      Gather(t + [r], asOf) == if s.Failure? || r.observedAt > asOf then s
                               else if Unparseable(r, asOf) then Failure(MissingTimestamp)
                               else Success(Extend(s.value, r, asOf))
  {
    assert (t + [r])[..|t|] == t;
    hide PaymentRow, RefundRows, DisputeRows, TelemetryRow;
  }

  lemma {:induction false} GatherKnown(records: seq<Record>, asOf: int)
    ensures Gather(records, asOf) == Gather(Filter(records, ObservedBy(asOf)), asOf)
  {
    if records != [] {
      var t, r := records[..|records| - 1], records[|records| - 1];
      assert records == t + [r];
      GatherKnown(t, asOf);
      hide Gather, Filter, Extend, Unparseable;
      FilterAppend(t, r, ObservedBy(asOf));
      GatherStep(t, r, asOf);
      GatherStep(Filter(t, ObservedBy(asOf)), r, asOf);
      if r.observedAt <= asOf {
        assert Filter(records, ObservedBy(asOf)) == Filter(t, ObservedBy(asOf)) + [r];
      } else {
        assert Filter(records, ObservedBy(asOf)) == Filter(t, ObservedBy(asOf));
      }
    } else {
      assert Filter(records, ObservedBy(asOf)) == [];
    }
  }

  /** What the view keeps. */
  lemma ViewKeeps(r: Record, asOf: int)
    ensures var v := View(asOf)(r);
      && v.transactionId == r.transactionId && v.orderId == r.orderId && v.eventAt == r.eventAt
      && v.observedAt == r.observedAt && v.amount == r.amount && v.currency == r.currency
      && v.device == r.device && v.geo == r.geo && v.status == CanonicalStatus(r.status)
      && RefundKnown(v, asOf) == RefundKnown(r, asOf) && DisputeKnown(v, asOf) == DisputeKnown(r, asOf)
      && (RefundKnown(r, asOf) ==> v.refundEventAt == r.refundEventAt && v.refundObservedAt == r.refundObservedAt)
      && (DisputeKnown(r, asOf) ==> v.disputeEventAt == r.disputeEventAt && v.disputeObservedAt == r.disputeObservedAt)
  {
    hide CanonicalStatus;
  }

  lemma ViewDisputes(v: Record, r: Record, asOf: int)
    requires v.transactionId == r.transactionId && DisputeKnown(v, asOf) == DisputeKnown(r, asOf)
    requires DisputeKnown(r, asOf) ==>
               v.disputeEventAt == r.disputeEventAt && v.disputeObservedAt == r.disputeObservedAt
    ensures Map(DisputeRows(v, asOf), Restate(Anonymous)) == Map(DisputeRows(r, asOf), Restate(Anonymous))
  {
    if DisputeRows(r, asOf) != [] {
      AnonymousRow(DisputeRows(v, asOf)[0]);
      AnonymousRow(DisputeRows(r, asOf)[0]);
      assert Restate(Anonymous)(DisputeRows(v, asOf)[0]) == Restate(Anonymous)(DisputeRows(r, asOf)[0]);
    }
  }

  lemma ViewPayment(v: Record, r: Record, asOf: int)
    requires v.transactionId == r.transactionId && v.orderId == r.orderId && v.eventAt == r.eventAt
    requires v.observedAt == r.observedAt && v.amount == r.amount && v.currency == r.currency
    requires v.status == CanonicalStatus(r.status)
    ensures Restate(Essential)(PaymentRow(v, asOf)) == Restate(Essential)(PaymentRow(r, asOf))
  {
    CanonicalTwice(r.status);
    EssentialOf(PaymentRow(v, asOf));
    EssentialOf(PaymentRow(r, asOf));
    hide CanonicalStatus, RefundStatus, Restate;
  }

  lemma ViewRows(r: Record, asOf: int)
    ensures var v := View(asOf)(r);
      && v.observedAt == r.observedAt && Unparseable(v, asOf) == Unparseable(r, asOf)
      && Restate(Essential)(PaymentRow(v, asOf)) == Restate(Essential)(PaymentRow(r, asOf))
      && TelemetryRow(v) == TelemetryRow(r) && RefundRows(v, asOf) == RefundRows(r, asOf)
      && Map(DisputeRows(v, asOf), Restate(Anonymous)) == Map(DisputeRows(r, asOf), Restate(Anonymous))
  {
    hide View, CanonicalStatus, Restate, Essential, Anonymous, PaymentRow, DisputeRows, Map, RefundKnown, DisputeKnown;
    var v := View(asOf)(r);
    ViewKeeps(r, asOf);
    ViewDisputes(v, r, asOf);
    ViewPayment(v, r, asOf);
  }

  lemma CanonicalTwice(status: string)
    ensures CanonicalStatus(CanonicalStatus(status)) == CanonicalStatus(status)
  {
    CanonicalAuth(status);
    hide MapAuthStatus;
  }

  lemma ExtendEssentials(s: Sources, s': Sources, r: Record, r': Record, asOf: int)
    requires SameEssentials(s, s')
    requires Restate(Essential)(PaymentRow(r', asOf)) == Restate(Essential)(PaymentRow(r, asOf))
    requires TelemetryRow(r') == TelemetryRow(r) && RefundRows(r', asOf) == RefundRows(r, asOf)
    requires Map(DisputeRows(r', asOf), Restate(Anonymous)) == Map(DisputeRows(r, asOf), Restate(Anonymous))
    ensures SameEssentials(Extend(s, r, asOf), Extend(s', r', asOf))
  {
    MapConcat(s.payments, [PaymentRow(r, asOf)], Restate(Essential));
    MapConcat(s'.payments, [PaymentRow(r', asOf)], Restate(Essential));
    MapConcat(s.disputes, DisputeRows(r, asOf), Restate(Anonymous));
    MapConcat(s'.disputes, DisputeRows(r', asOf), Restate(Anonymous));
    assert Map([PaymentRow(r, asOf)], Restate(Essential)) == Map([PaymentRow(r', asOf)], Restate(Essential));
    hide CanonicalStatus, PaymentRow, RefundRows, DisputeRows, Essential, Anonymous;
  }

  lemma GatherNone(asOf: int)
    ensures var s := Gather([], asOf);
      s == Gather(Map([], View(asOf)), asOf) && (s.Success? ==> SameEssentials(s.value, s.value))
  {
  }

  /** Gathering from known records and from their views fails alike and shares all essentials. */
  lemma {:induction false} GatherViews(records: seq<Record>, asOf: int)
    requires forall r | r in records :: r.observedAt <= asOf
    ensures var s, s' := Gather(records, asOf), Gather(Map(records, View(asOf)), asOf);
      && s.Success? == s'.Success?
      && (s.Failure? ==> s.error == s'.error)
      && (s.Success? ==> SameEssentials(s.value, s'.value))
  {
    hide Gather, View, SameEssentials, Extend, PaymentRow, RefundRows, DisputeRows, TelemetryRow, Unparseable, Map;
    if records == [] {
      GatherNone(asOf);
    } else {
      var t, r := records[..|records| - 1], records[|records| - 1];
      assert records == t + [r];
      GatherViews(t, asOf);
      var v := View(asOf)(r);
      ViewRows(r, asOf);
      assert Map(records, View(asOf)) == Map(t, View(asOf)) + [v];
      GatherStep(t, r, asOf);
      GatherStep(Map(t, View(asOf)), v, asOf);
      var s, s' := Gather(t, asOf), Gather(Map(t, View(asOf)), asOf);
      if s.Success? {
        ExtendEssentials(s.value, s'.value, r, v, asOf);
      }
    }
  }

  lemma SameEssentialsPreview(m: MathLib, account: string, asOf: int, s: Sources, s': Sources)
    requires SameEssentials(s, s')
    ensures BuildPreview(m, account, asOf, s) == BuildPreview(m, account, asOf, s')
  {
    AnonymousDisputes(s.disputes);
    AnonymousDisputes(s'.disputes);
    assert JoinsOf(s) == JoinsOf(s') by { hide StableSort, OrderMap, PaymentMap, FirstTimestamps, Map; }
    var bare := s.(payments := Map(s.payments, Restate(Essential)));
    assert JoinsOf(bare) == JoinsOf(s);
    hide *;
    EssentialPreview(m, account, asOf, s, bare);
    EssentialPreview(m, account, asOf, s', bare);
  }

  /** A preview factors through the views of the records observed by its cutoff. */
  lemma PreviewOfViews(m: MathLib, account: string, records: seq<Record>, asOf: int)
    ensures PreviewAt(m, account, records, asOf)
         == PreviewAt(m, account, Map(Filter(records, ObservedBy(asOf)), View(asOf)), asOf)
  {
    var known := Filter(records, ObservedBy(asOf));
    GatherKnown(records, asOf);
    FilterMembers(records, ObservedBy(asOf));
    hide Gather, Filter, BuildPreview, View, SameEssentials, Map;
    GatherViews(known, asOf);
    var s, s' := Gather(known, asOf), Gather(Map(known, View(asOf)), asOf);
    if s.Success? {
      SameEssentialsPreview(m, account, asOf, s.value, s'.value);
    }
  }

  /** No leak: two histories whose target was observed at the same instant and whose records
      observed by then look alike through the view give the same preview, whatever else they hold:
      later rows, later refund or dispute facts, labels, methods, refund amounts, statuses swapped
      among the approved ones. */
  lemma PreviewDoesNotLeak(m: MathLib, account: string, records: seq<Record>, records': seq<Record>,
                           transactionId: string)
    requires FindTarget(records, transactionId).Some? && FindTarget(records', transactionId).Some?
    requires var asOf := FindTarget(records, transactionId).value.observedAt;
      && FindTarget(records', transactionId).value.observedAt == asOf
      && Map(Filter(records, ObservedBy(asOf)), View(asOf)) == Map(Filter(records', ObservedBy(asOf)), View(asOf))
    ensures PreviewOf(m, account, records, transactionId) == PreviewOf(m, account, records', transactionId)
  {
    hide PreviewAt, Filter, View, Map, FindTarget;
    var asOf := FindTarget(records, transactionId).value.observedAt;
    PreviewOfViews(m, account, records, asOf);
    PreviewOfViews(m, account, records', asOf);
  }

  /** Swapping one approved status for another, in either order, is invisible to the view. */
  lemma ApprovedStatusesAlike(a: string, b: string)
    requires Lower(Strip(a)) in {"authorized", "captured", "refunded"}
    requires Lower(Strip(b)) in {"authorized", "captured", "refunded"}
    ensures CanonicalStatus(a) == CanonicalStatus(b)
  {
  }

  /** Editing one record in ways the view cannot see leaves every view list unchanged. */
  lemma InvisibleEdit(records: seq<Record>, i: nat, r: Record, asOf: int)
    requires i < |records| && View(asOf)(r) == View(asOf)(records[i])
    ensures Map(Filter(records[i := r], ObservedBy(asOf)), View(asOf))
            == Map(Filter(records, ObservedBy(asOf)), View(asOf))
  {
    var a, b, was := records[..i], records[i + 1..], records[i];
    assert records == a + [was] + b && records[i := r] == a + [r] + b;
    ViewKeeps(r, asOf);
    ViewKeeps(was, asOf);
    FilterConcat(a + [was], b, ObservedBy(asOf));
    FilterConcat(a + [r], b, ObservedBy(asOf));
    FilterAppend(a, was, ObservedBy(asOf));
    FilterAppend(a, r, ObservedBy(asOf));
    var known, later := Filter(a, ObservedBy(asOf)), Filter(b, ObservedBy(asOf));
    hide Filter, View;
    if was.observedAt <= asOf {
      assert Filter(records, ObservedBy(asOf)) == known + [was] + later;
      assert Filter(records[i := r], ObservedBy(asOf)) == known + [r] + later;
      ReplaceInMap(known, was, r, later, View(asOf));
    } else {
      assert Filter(records, ObservedBy(asOf)) == known + later;
      assert Filter(records[i := r], ObservedBy(asOf)) == known + later;
    }
  }

  lemma ReplaceInMap<T, U>(a: seq<T>, x: T, y: T, b: seq<T>, f: T -> U)
    requires f(x) == f(y)
    ensures Map(a + [x] + b, f) == Map(a + [y] + b, f)
  {
  }

  /** Inserting a record observed after the cutoff, anywhere, leaves them unchanged too. */
  lemma InvisibleInsertion(a: seq<Record>, r: Record, b: seq<Record>, asOf: int)
    requires r.observedAt > asOf
    ensures Map(Filter(a + [r] + b, ObservedBy(asOf)), View(asOf)) == Map(Filter(a + b, ObservedBy(asOf)), View(asOf))
  {
    FilterConcat(a + [r], b, ObservedBy(asOf));
    FilterAppend(a, r, ObservedBy(asOf));
    FilterConcat(a, b, ObservedBy(asOf));
    hide Filter, View;
  }

  // ---------------------------------------------------------------- whole previews

  lemma {:induction false} FindTargetConcat(a: seq<Record>, b: seq<Record>, transactionId: string)
    ensures FindTarget(a + b, transactionId)
         == if FindTarget(a, transactionId).Some? then FindTarget(a, transactionId) else FindTarget(b, transactionId)
  {
    if a == [] {
      assert a + b == b;
    } else {
      assert (a + b)[1..] == a[1..] + b;
      FindTargetConcat(a[1..], b, transactionId);
    }
  }

  lemma FindTargetOne(r: Record, transactionId: string)
    ensures FindTarget([r], transactionId) == if r.transactionId == transactionId then Some(r) else None
  {
  }

  /** Where the target is, with one record singled out. */
  lemma FindTargetAround(a: seq<Record>, r: Record, b: seq<Record>, transactionId: string)
    ensures FindTarget(a + [r] + b, transactionId)
         == if FindTarget(a, transactionId).Some? then FindTarget(a, transactionId)
            else if r.transactionId == transactionId then Some(r)
            else FindTarget(b, transactionId)
  {
    hide FindTarget;
    FindTargetConcat(a + [r], b, transactionId);
    FindTargetConcat(a, [r], transactionId);
    FindTargetOne(r, transactionId);
  }

  predicate Approved(status: string) {
    Lower(Strip(status)) in {"authorized", "captured", "refunded"}
  }

  /** The edits a preview at the cutoff cannot see: the fraud label, the method, the amount refunded, the
      phase and status of a dispute; a status swapped among the approved ones; the times of a refund or
      a dispute not known by the cutoff, before and after the edit. */
  predicate InvisibleChange(was: Record, r: Record, asOf: int) {
    && r.transactionId == was.transactionId && r.orderId == was.orderId && r.eventAt == was.eventAt
    && r.observedAt == was.observedAt && r.amount == was.amount && r.currency == was.currency
    && r.device == was.device && r.geo == was.geo
    && (r.status == was.status || (Approved(r.status) && Approved(was.status)))
    && ((r.refundEventAt == was.refundEventAt && r.refundObservedAt == was.refundObservedAt)
        || (!RefundKnown(r, asOf) && !RefundKnown(was, asOf)))
    && ((r.disputeEventAt == was.disputeEventAt && r.disputeObservedAt == was.disputeObservedAt)
        || (!DisputeKnown(r, asOf) && !DisputeKnown(was, asOf)))
  }

  lemma InvisibleToView(was: Record, r: Record, asOf: int)
    requires InvisibleChange(was, r, asOf)
    ensures View(asOf)(r) == View(asOf)(was)
  {
    if r.status != was.status {
      ApprovedStatusesAlike(r.status, was.status);
    }
    hide CanonicalStatus, Approved;
  }

  /** Such an edit, of any record and by whatever amount, changes no preview of the history. */
  lemma PreviewIgnoresEdit(m: MathLib, account: string, records: seq<Record>, i: nat, r: Record, transactionId: string)
    requires i < |records| && FindTarget(records, transactionId).Some?
    requires InvisibleChange(records[i], r, FindTarget(records, transactionId).value.observedAt)
    ensures PreviewOf(m, account, records[i := r], transactionId) == PreviewOf(m, account, records, transactionId)
  {
    var asOf := FindTarget(records, transactionId).value.observedAt;
    var a, b, was := records[..i], records[i + 1..], records[i];
    assert records == a + [was] + b && records[i := r] == a + [r] + b;
    hide FindTarget, View, Map, Filter, PreviewOf;
    FindTargetAround(a, was, b, transactionId);
    FindTargetAround(a, r, b, transactionId);
    InvisibleToView(was, r, asOf);
    InvisibleEdit(records, i, r, asOf);
    PreviewDoesNotLeak(m, account, records, records[i := r], transactionId);
  }

  /** Nor does any change at all to a record observed after the cutoff, as long as it stays after the
      cutoff and does not take over the target's own id. */
  lemma PreviewIgnoresLaterRecord(m: MathLib, account: string, a: seq<Record>, was: Record, r: Record, b: seq<Record>,
                                  transactionId: string)
    requires FindTarget(a + [was] + b, transactionId).Some? && r.transactionId != transactionId
    requires var asOf := FindTarget(a + [was] + b, transactionId).value.observedAt;
             was.observedAt > asOf && r.observedAt > asOf
    ensures PreviewOf(m, account, a + [r] + b, transactionId) == PreviewOf(m, account, a + [was] + b, transactionId)
  {
    var asOf := FindTarget(a + [was] + b, transactionId).value.observedAt;
    hide FindTarget, View, Map, Filter, PreviewOf;
    FindTargetAround(a, was, b, transactionId);
    FindTargetAround(a, r, b, transactionId);
    InvisibleInsertion(a, was, b, asOf);
    InvisibleInsertion(a, r, b, asOf);
    PreviewDoesNotLeak(m, account, a + [was] + b, a + [r] + b, transactionId);
  }

  /** Nor does inserting (or, read from right to left, deleting) such a record anywhere. */
  lemma PreviewIgnoresInsertion(m: MathLib, account: string, a: seq<Record>, r: Record, b: seq<Record>,
                                transactionId: string)
    requires FindTarget(a + b, transactionId).Some? && r.transactionId != transactionId
    requires r.observedAt > FindTarget(a + b, transactionId).value.observedAt
    ensures PreviewOf(m, account, a + [r] + b, transactionId) == PreviewOf(m, account, a + b, transactionId)
  {
    hide FindTarget, View, Map, Filter, PreviewOf;
    FindTargetAround(a, r, b, transactionId);
    FindTargetConcat(a, b, transactionId);
    InvisibleInsertion(a, r, b, FindTarget(a + b, transactionId).value.observedAt);
    PreviewDoesNotLeak(m, account, a + b, a + [r] + b, transactionId);
  }
}
