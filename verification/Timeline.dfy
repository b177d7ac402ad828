/** Point-in-time merchant snapshots rebuilt from provider observations. */
module Timeline {
  import opened Instants
  import opened Observations
  import opened Selection
  import opened Sequences
  import opened Wrappers

  datatype PaymentFact = PaymentFact(status: string, amount: nat, currency: string, paymentMethod: Option<string>,
                                     captured: bool, amountRefunded: nat)
  datatype RefundFact = RefundFact(paymentId: string, amount: nat, currency: string, status: string)
  datatype DisputeFact = DisputeFact(paymentId: string, amount: nat, currency: string, status: string)
  datatype SettlementFact = SettlementFact(amount: nat, currency: Option<string>, status: string, fees: nat, tax: nat)

  /** The four observation lists handed to the snapshot builder. */
  datatype History = History(payments: seq<Observed<PaymentFact>>, refunds: seq<Observed<RefundFact>>,
                             disputes: seq<Observed<DisputeFact>>, settlements: seq<Observed<SettlementFact>>)

  datatype Code = UNRESOLVED_PIPELINE_EVENTS | MISSING_PROVIDER_EVENT_TIME | PROVIDER_TIMESTAMP_IN_FUTURE
                | REFUND_EXCEEDS_PAYMENT | MIXED_CURRENCIES | UNVALIDATED_CURRENCY
                | NO_PAYMENT_HISTORY_IN_WINDOW | AS_OF_IN_FUTURE
  datatype Severity = CRITICAL | WARNING
  datatype Issue = Issue(code: Code, severity: Severity)
  datatype QualityStatus = PASS | PASS_WITH_WARNINGS | BLOCKED
  datatype QualityReport = QualityReport(status: QualityStatus, criticalCount: nat, warningCount: nat,
                                         issues: seq<Issue>)

  datatype Metrics = Metrics(paymentCount: nat, capturedCount: nat, failedCount: nat, grossCaptured: int,
                             amountRefunded: int, refundCount: nat, processedRefundCount: nat, disputeCount: nat,
                             openDisputeCount: nat, settlementCount: nat, methods: multiset<string>,
                             currencies: set<string>, unresolved: nat)

  datatype Snapshot = Snapshot(asOf: int, windowStart: int, rows: History, metrics: Metrics,
                               quality: QualityReport, firewallBlocked: bool)

  // ---------------------------------------------------------------- counting and summing

  function Count<T>(s: seq<T>, p: T -> bool): nat {
    |Filter(s, p)|
  }

  function Total<T>(s: seq<T>, f: T -> int): int {
    if s == [] then 0 else f(s[0]) + Total(s[1..], f)
  }

  // ---------------------------------------------------------------- data-quality firewall

  predicate MissingTime<T>(o: Observed<T>) {
    o.createdAt.None?
  }

  /** The provider timestamp is more than five minutes after the knowledge timestamp. */
  predicate ClockSkewed<T>(o: Observed<T>) {
    o.createdAt.Some? && o.createdAt.value > o.observedAt + 5 * MINUTE
  }

  predicate OverRefunded(o: Observed<PaymentFact>) {
    o.fact.amountRefunded > o.fact.amount
  }

  function MissingTimes(h: History): nat {
    Count(h.payments, MissingTime) + Count(h.refunds, MissingTime)
    + Count(h.disputes, MissingTime) + Count(h.settlements, MissingTime)
  }

  function ClockSkews(h: History): nat {
    Count(h.payments, ClockSkewed) + Count(h.refunds, ClockSkewed)
    + Count(h.disputes, ClockSkewed) + Count(h.settlements, ClockSkewed)
  }

  function Currencies(h: History): set<string> {
    (set o | o in h.payments && o.fact.currency != "" :: o.fact.currency)
    + (set o | o in h.refunds && o.fact.currency != "" :: o.fact.currency)
    + (set o | o in h.disputes && o.fact.currency != "" :: o.fact.currency)
    + (set o | o in h.settlements && o.fact.currency.Some? && o.fact.currency.value != "" :: o.fact.currency.value)
  }

  function IsSeverity(severity: Severity): Issue -> bool {
    (i: Issue) => i.severity == severity
  }

  /** Why a report blocks automatic use of the snapshot. */
  predicate Blocking(h: History, unresolved: nat) {
    || unresolved > 0
    || MissingTimes(h) > 0
    || ClockSkews(h) > 0
    || Count(h.payments, OverRefunded) > 0
    || |Currencies(h)| > 1
    || (|Currencies(h)| == 1 && Currencies(h) != {"INR"})
  }

  function AddIf(issues: seq<Issue>, condition: bool, code: Code, severity: Severity): seq<Issue> {
    if condition then issues + [Issue(code, severity)] else issues
  }

  /** The eight checks, in the order the report makes them. */
  function Checks(unresolved: bool, missing: bool, skewed: bool, overRefunded: bool,
                  mixed: bool, unvalidated: bool, noHistory: bool, future: bool): seq<Issue>
  {
    var upToTime := AddIf(AddIf([], unresolved, UNRESOLVED_PIPELINE_EVENTS, CRITICAL),
                          missing, MISSING_PROVIDER_EVENT_TIME, CRITICAL);
    var upToRefund := AddIf(AddIf(upToTime, skewed, PROVIDER_TIMESTAMP_IN_FUTURE, CRITICAL),
                            overRefunded, REFUND_EXCEEDS_PAYMENT, CRITICAL);
    var upToCurrency := AddIf(AddIf(upToRefund, mixed, MIXED_CURRENCIES, CRITICAL),
                              unvalidated, UNVALIDATED_CURRENCY, CRITICAL);
    AddIf(AddIf(upToCurrency, noHistory, NO_PAYMENT_HISTORY_IN_WINDOW, WARNING), future, AS_OF_IN_FUTURE, WARNING)
  }

  function Issues(h: History, unresolved: nat, asOf: int, now: int): seq<Issue> {
    Checks(unresolved > 0, MissingTimes(h) > 0, ClockSkews(h) > 0, Count(h.payments, OverRefunded) > 0,
           |Currencies(h)| > 1, |Currencies(h)| == 1 && Currencies(h) != {"INR"},
           h.payments == [], asOf > now + 5 * MINUTE)
  }

  function Report(issues: seq<Issue>): QualityReport {
    var critical, warnings := Count(issues, IsSeverity(CRITICAL)), Count(issues, IsSeverity(WARNING));
    QualityReport(if critical > 0 then BLOCKED else if warnings > 0 then PASS_WITH_WARNINGS else PASS,
                  critical, warnings, issues)
  }

  function Quality(h: History, unresolved: nat, asOf: int, now: int): QualityReport {
    Report(Issues(h, unresolved, asOf, now))
  }

  /** The report as it is assembled: one check after another, appending to the issue list. */
  method AssessQuality(h: History, unresolved: nat, asOf: int, now: int) returns (report: QualityReport)
    ensures report == Quality(h, unresolved, asOf, now)
  {
    hide Currencies, MissingTimes, ClockSkews, Report;
    var issues: seq<Issue> := [];
    if unresolved > 0 {
      issues := issues + [Issue(UNRESOLVED_PIPELINE_EVENTS, CRITICAL)];
    }
    if MissingTimes(h) > 0 {
      issues := issues + [Issue(MISSING_PROVIDER_EVENT_TIME, CRITICAL)];
    }
    if ClockSkews(h) > 0 {
      issues := issues + [Issue(PROVIDER_TIMESTAMP_IN_FUTURE, CRITICAL)];
    }
    if Count(h.payments, OverRefunded) > 0 {
      issues := issues + [Issue(REFUND_EXCEEDS_PAYMENT, CRITICAL)];
    }
    var currencies := Currencies(h);
    if |currencies| > 1 {
      issues := issues + [Issue(MIXED_CURRENCIES, CRITICAL)];
    } else if |currencies| == 1 && currencies != {"INR"} {
      issues := issues + [Issue(UNVALIDATED_CURRENCY, CRITICAL)];
    }
    if h.payments == [] {
      issues := issues + [Issue(NO_PAYMENT_HISTORY_IN_WINDOW, WARNING)];
    }
    if asOf > now + 5 * MINUTE {
      issues := issues + [Issue(AS_OF_IN_FUTURE, WARNING)];
    }
    report := Report(issues);
  }

  /** Every issue is of one severity, so the two counters account for the whole list. */
  lemma {:induction false} SeveritiesPartition(issues: seq<Issue>)
    ensures Count(issues, IsSeverity(CRITICAL)) + Count(issues, IsSeverity(WARNING)) == |issues|
  {
    if issues != [] {
      SeveritiesPartition(issues[1..]);
    }
  }

  function Bit(b: bool): nat {
    if b then 1 else 0
  }

  lemma CountAddIf(issues: seq<Issue>, condition: bool, code: Code, severity: Severity)
    ensures var more := AddIf(issues, condition, code, severity);
      && Count(more, IsSeverity(CRITICAL)) == Count(issues, IsSeverity(CRITICAL))
           + Bit(condition && severity == CRITICAL)
      && Count(more, IsSeverity(WARNING)) == Count(issues, IsSeverity(WARNING)) + Bit(condition && severity == WARNING)
  {
    FilterAppend(issues, Issue(code, severity), IsSeverity(CRITICAL));
    FilterAppend(issues, Issue(code, severity), IsSeverity(WARNING));
  }

  lemma ChecksCount(unresolved: bool, missing: bool, skewed: bool, overRefunded: bool,
                    mixed: bool, unvalidated: bool, noHistory: bool, future: bool)
    ensures var issues := Checks(unresolved, missing, skewed, overRefunded, mixed, unvalidated, noHistory, future);
      && Count(issues, IsSeverity(CRITICAL)) == Bit(unresolved) + Bit(missing) + Bit(skewed) + Bit(overRefunded)
                                                + Bit(mixed) + Bit(unvalidated)
      && Count(issues, IsSeverity(WARNING)) == Bit(noHistory) + Bit(future)
  {
    assert Count([], IsSeverity(CRITICAL)) == 0 && Count([], IsSeverity(WARNING)) == 0;
    hide Count, AddIf;
    var i1 := AddIf([], unresolved, UNRESOLVED_PIPELINE_EVENTS, CRITICAL);
    var i2 := AddIf(i1, missing, MISSING_PROVIDER_EVENT_TIME, CRITICAL);
    var i3 := AddIf(i2, skewed, PROVIDER_TIMESTAMP_IN_FUTURE, CRITICAL);
    var i4 := AddIf(i3, overRefunded, REFUND_EXCEEDS_PAYMENT, CRITICAL);
    var i5 := AddIf(i4, mixed, MIXED_CURRENCIES, CRITICAL);
    var i6 := AddIf(i5, unvalidated, UNVALIDATED_CURRENCY, CRITICAL);
    var i7 := AddIf(i6, noHistory, NO_PAYMENT_HISTORY_IN_WINDOW, WARNING);
    CountAddIf([], unresolved, UNRESOLVED_PIPELINE_EVENTS, CRITICAL);
    CountAddIf(i1, missing, MISSING_PROVIDER_EVENT_TIME, CRITICAL);
    CountAddIf(i2, skewed, PROVIDER_TIMESTAMP_IN_FUTURE, CRITICAL);
    CountAddIf(i3, overRefunded, REFUND_EXCEEDS_PAYMENT, CRITICAL);
    CountAddIf(i4, mixed, MIXED_CURRENCIES, CRITICAL);
    CountAddIf(i5, unvalidated, UNVALIDATED_CURRENCY, CRITICAL);
    CountAddIf(i6, noHistory, NO_PAYMENT_HISTORY_IN_WINDOW, WARNING);
    CountAddIf(i7, future, AS_OF_IN_FUTURE, WARNING);
  }

  /** The firewall blocks exactly when one of the six critical conditions holds, and a report is a
      clean pass exactly when there is nothing at all to say. */
  lemma FirewallMeaning(h: History, unresolved: nat, asOf: int, now: int)
    ensures var q := Quality(h, unresolved, asOf, now);
      && (q.status == BLOCKED <==> Blocking(h, unresolved))
      && (q.status == PASS <==> !Blocking(h, unresolved) && h.payments != [] && asOf <= now + 5 * MINUTE)
      && q.criticalCount + q.warningCount == |q.issues|
  {
    SeveritiesPartition(Issues(h, unresolved, asOf, now));
    ChecksCount(unresolved > 0, MissingTimes(h) > 0, ClockSkews(h) > 0, Count(h.payments, OverRefunded) > 0,
                |Currencies(h)| > 1, |Currencies(h)| == 1 && Currencies(h) != {"INR"},
                h.payments == [], asOf > now + 5 * MINUTE);
  }

  // ---------------------------------------------------------------- the snapshot

  predicate IsCaptured(o: Observed<PaymentFact>) { o.fact.captured }
  predicate IsFailed(o: Observed<PaymentFact>) { o.fact.status == "failed" }
  predicate IsProcessed(o: Observed<RefundFact>) { o.fact.status == "processed" }
  predicate IsOpenDispute(o: Observed<DisputeFact>) { o.fact.status !in {"won", "lost", "closed"} }
  function AmountOf(o: Observed<PaymentFact>): int { o.fact.amount }
  function RefundedOf(o: Observed<PaymentFact>): int { o.fact.amountRefunded }

  /** `item.method or "unknown"` */
  function MethodOf(o: Observed<PaymentFact>): string {
    if o.fact.paymentMethod.Some? && o.fact.paymentMethod.value != "" then o.fact.paymentMethod.value else "unknown"
  }

  function MetricsOf(h: History, unresolved: nat): Metrics {
    Metrics(|h.payments|, Count(h.payments, IsCaptured), Count(h.payments, IsFailed),
            Total(Filter(h.payments, IsCaptured), AmountOf), Total(h.payments, RefundedOf),
            |h.refunds|, Count(h.refunds, IsProcessed), |h.disputes|, Count(h.disputes, IsOpenDispute),
            |h.settlements|, multiset(Map(h.payments, MethodOf)), Currencies(h), unresolved)
  }

  function Select(h: History, windowStart: int, asOf: int): History {
    History(Windowed(h.payments, windowStart, asOf), Windowed(h.refunds, windowStart, asOf),
            Windowed(h.disputes, windowStart, asOf), Windowed(h.settlements, windowStart, asOf))
  }

  function Assemble(rows: History, unresolved: nat, asOf: int, windowStart: int, now: int): Snapshot {
    var quality := Quality(rows, unresolved, asOf, now);
    Snapshot(asOf, windowStart, rows, MetricsOf(rows, unresolved), quality, quality.status == BLOCKED)
  }

  datatype SnapshotError = LookbackOutOfRange

  function BuildSnapshot(h: History, unresolved: nat, asOf: int, lookbackHours: int, now: int)
    : Result<Snapshot, SnapshotError>
  {
    if !(1 <= lookbackHours <= 720) then Failure(LookbackOutOfRange)
    else
      var windowStart := asOf - lookbackHours * HOUR;
      var rows := Select(h, windowStart, asOf);
      Success(Assemble(rows, unresolved, asOf, windowStart, now))
  }

  /** The snapshot store: the database query keeps only rows learned inside the window. */
  function Fetched(h: History, windowStart: int, asOf: int): History {
    History(Filter(h.payments, LearnedInWindow(windowStart, asOf)),
            Filter(h.refunds, LearnedInWindow(windowStart, asOf)),
            Filter(h.disputes, LearnedInWindow(windowStart, asOf)),
            Filter(h.settlements, LearnedInWindow(windowStart, asOf)))
  }

  /** A webhook event as stored: when it was received, and its mutable processing status. */
  datatype WebhookEvent = WebhookEvent(receivedAt: int, status: string)

  function Pending(windowStart: int, asOf: int): WebhookEvent -> bool {
    (e: WebhookEvent) => windowStart <= e.receivedAt <= asOf && e.status != "PROCESSED" && e.status != "SKIPPED"
  }

  function Unresolved(events: seq<WebhookEvent>, windowStart: int, asOf: int): nat {
    Count(events, Pending(windowStart, asOf))
  }

  function StoreSnapshot(h: History, events: seq<WebhookEvent>, asOf: int, lookbackHours: int, now: int)
    : Result<Snapshot, SnapshotError>
  {
    var windowStart := asOf - lookbackHours * HOUR;
    BuildSnapshot(Fetched(h, windowStart, asOf), Unresolved(events, windowStart, asOf), asOf, lookbackHours, now)
  }

  method TakeSnapshot(h: History, unresolved: nat, asOf: int, lookbackHours: int, now: int)
    returns (r: Result<Snapshot, SnapshotError>)
    ensures r == BuildSnapshot(h, unresolved, asOf, lookbackHours, now)
  {
    hide Quality, LatestAsOf, Filter, MetricsOf;
    if !(1 <= lookbackHours <= 720) {
      return Failure(LookbackOutOfRange);
    }
    var windowStart := asOf - lookbackHours * HOUR;
    var payments := SelectLatestAsOf(h.payments, asOf);
    var refunds := SelectLatestAsOf(h.refunds, asOf);
    var disputes := SelectLatestAsOf(h.disputes, asOf);
    var settlements := SelectLatestAsOf(h.settlements, asOf);
    var rows := History(Filter(payments, InEventWindow(windowStart, asOf)),
                        Filter(refunds, InEventWindow(windowStart, asOf)),
                        Filter(disputes, InEventWindow(windowStart, asOf)),
                        Filter(settlements, InEventWindow(windowStart, asOf)));
    var quality := AssessQuality(rows, unresolved, asOf, now);
    r := Success(Snapshot(asOf, windowStart, rows, MetricsOf(rows, unresolved), quality, quality.status == BLOCKED));
  }

  // ---------------------------------------------------------------- properties of snapshots

  /** The two histories agree on everything the service knew at the cutoff. */
  ghost predicate SameKnowledge(h: History, h': History, asOf: int) {
    && Filter(h.payments, KnownAt(asOf)) == Filter(h'.payments, KnownAt(asOf))
    && Filter(h.refunds, KnownAt(asOf)) == Filter(h'.refunds, KnownAt(asOf))
    && Filter(h.disputes, KnownAt(asOf)) == Filter(h'.disputes, KnownAt(asOf))
    && Filter(h.settlements, KnownAt(asOf)) == Filter(h'.settlements, KnownAt(asOf))
  }

  lemma SnapshotIgnoresFuture(h: History, h': History, unresolved: nat, asOf: int, lookbackHours: int, now: int)
    requires SameKnowledge(h, h', asOf)
    ensures BuildSnapshot(h, unresolved, asOf, lookbackHours, now)
            == BuildSnapshot(h', unresolved, asOf, lookbackHours, now)
  {
    FutureIrrelevant(h.payments, h'.payments, asOf);
    FutureIrrelevant(h.refunds, h'.refunds, asOf);
    FutureIrrelevant(h.disputes, h'.disputes, asOf);
    FutureIrrelevant(h.settlements, h'.settlements, asOf);
  }

  lemma SnapshotIgnoresArrivalOrder(h: History, h': History, unresolved: nat, asOf: int, lookbackHours: int, now: int)
    requires Shuffled(h.payments, h'.payments, asOf) && Shuffled(h.refunds, h'.refunds, asOf)
    requires Shuffled(h.disputes, h'.disputes, asOf) && Shuffled(h.settlements, h'.settlements, asOf)
    ensures BuildSnapshot(h, unresolved, asOf, lookbackHours, now)
            == BuildSnapshot(h', unresolved, asOf, lookbackHours, now)
  {
    ArrivalOrderIrrelevant(h.payments, h'.payments, asOf);
    ArrivalOrderIrrelevant(h.refunds, h'.refunds, asOf);
    ArrivalOrderIrrelevant(h.disputes, h'.disputes, asOf);
    ArrivalOrderIrrelevant(h.settlements, h'.settlements, asOf);
  }

  /** No row that the snapshot would show was learned before the window started. */
  ghost predicate NoneLearnedEarly(rows: History, windowStart: int) {
    && (forall o | o in rows.payments :: windowStart <= o.observedAt)
    && (forall o | o in rows.refunds :: windowStart <= o.observedAt)
    && (forall o | o in rows.disputes :: windowStart <= o.observedAt)
    && (forall o | o in rows.settlements :: windowStart <= o.observedAt)
  }

  /** The database's knowledge-time filter preserves the snapshot exactly when no shown row was
      learned before the window. */
  lemma StoreSnapshotSelected(h: History, events: seq<WebhookEvent>, asOf: int, lookbackHours: int, now: int)
    requires 1 <= lookbackHours <= 720
    ensures var windowStart := asOf - lookbackHours * HOUR;
      StoreSnapshot(h, events, asOf, lookbackHours, now)
      == BuildSnapshot(h, Unresolved(events, windowStart, asOf), asOf, lookbackHours, now)
      <==> NoneLearnedEarly(Select(h, windowStart, asOf), windowStart)
  {
    hide Select, Fetched, MetricsOf, Quality, Unresolved;
    var windowStart := asOf - lookbackHours * HOUR;
    var unresolved := Unresolved(events, windowStart, asOf);
    SelectExact(h, windowStart, asOf);
    AssembleShowsRows(Select(h, windowStart, asOf), unresolved, asOf, windowStart, now);
    AssembleShowsRows(Select(Fetched(h, windowStart, asOf), windowStart, asOf), unresolved, asOf, windowStart, now);
  }

  lemma AssembleShowsRows(rows: History, unresolved: nat, asOf: int, windowStart: int, now: int)
    ensures Assemble(rows, unresolved, asOf, windowStart, now).rows == rows
    ensures Assemble(rows, unresolved, asOf, windowStart, now).metrics.unresolved == unresolved
  {
  }

  lemma SelectExact(h: History, windowStart: int, asOf: int)
    ensures Select(Fetched(h, windowStart, asOf), windowStart, asOf) == Select(h, windowStart, asOf)
       <==> NoneLearnedEarly(Select(h, windowStart, asOf), windowStart)
  {
    PushDownSelected(h.payments, windowStart, asOf);
    PushDownSelected(h.refunds, windowStart, asOf);
    PushDownSelected(h.disputes, windowStart, asOf);
    PushDownSelected(h.settlements, windowStart, asOf);
  }

  /** No two rows of an entity known at the cutoff were learned at the same instant. */
  ghost predicate DistinctlyKnown(h: History, asOf: int) {
    && DistinctKnowledgeTimes(Filter(h.payments, KnownAt(asOf)))
    && DistinctKnowledgeTimes(Filter(h.refunds, KnownAt(asOf)))
    && DistinctKnowledgeTimes(Filter(h.disputes, KnownAt(asOf)))
    && DistinctKnowledgeTimes(Filter(h.settlements, KnownAt(asOf)))
  }

  ghost predicate NoRowMissed(h: History, windowStart: int, asOf: int) {
    && NoneMissed(h.payments, windowStart, asOf) && NoneMissed(h.refunds, windowStart, asOf)
    && NoneMissed(h.disputes, windowStart, asOf) && NoneMissed(h.settlements, windowStart, asOf)
  }

  /** Over the stored rows: the filter preserves the snapshot exactly when no known row has its event in
      the window, its knowledge time before it, and no known successor. */
  lemma StoreSnapshotExact(h: History, events: seq<WebhookEvent>, asOf: int, lookbackHours: int, now: int)
    requires 1 <= lookbackHours <= 720 && DistinctlyKnown(h, asOf)
    ensures var windowStart := asOf - lookbackHours * HOUR;
      StoreSnapshot(h, events, asOf, lookbackHours, now)
      == BuildSnapshot(h, Unresolved(events, windowStart, asOf), asOf, lookbackHours, now)
      <==> NoRowMissed(h, windowStart, asOf)
  {
    hide MetricsOf, Quality, Unresolved, Windowed, NoneMissed;
    var windowStart := asOf - lookbackHours * HOUR;
    var unresolved := Unresolved(events, windowStart, asOf);
    PushDownExact(h.payments, windowStart, asOf);
    PushDownExact(h.refunds, windowStart, asOf);
    PushDownExact(h.disputes, windowStart, asOf);
    PushDownExact(h.settlements, windowStart, asOf);
    AssembleShowsRows(Select(h, windowStart, asOf), unresolved, asOf, windowStart, now);
    AssembleShowsRows(Select(Fetched(h, windowStart, asOf), windowStart, asOf), unresolved, asOf, windowStart, now);
  }

  /** In particular when the provider's event times never run ahead of the knowledge times. */
  lemma StoreSnapshotPreserved(h: History, events: seq<WebhookEvent>, asOf: int, lookbackHours: int, now: int)
    requires forall o | o in h.payments :: o.createdAt.Some? ==> o.createdAt.value <= o.observedAt
    requires forall o | o in h.refunds :: o.createdAt.Some? ==> o.createdAt.value <= o.observedAt
    requires forall o | o in h.disputes :: o.createdAt.Some? ==> o.createdAt.value <= o.observedAt
    requires forall o | o in h.settlements :: o.createdAt.Some? ==> o.createdAt.value <= o.observedAt
    ensures StoreSnapshot(h, events, asOf, lookbackHours, now)
         == BuildSnapshot(h, Unresolved(events, asOf - lookbackHours * HOUR, asOf), asOf, lookbackHours, now)
  {
    hide MetricsOf, Quality, Windowed, Unresolved;
    var windowStart := asOf - lookbackHours * HOUR;
    PushDownPreserves(h.payments, windowStart, asOf);
    PushDownPreserves(h.refunds, windowStart, asOf);
    PushDownPreserves(h.disputes, windowStart, asOf);
    PushDownPreserves(h.settlements, windowStart, asOf);
  }

  // ---------------------------------------------------------------- later changes to the store

  lemma FetchedFromKnown<T>(rows: seq<Observed<T>>, windowStart: int, asOf: int)
    ensures Filter(rows, LearnedInWindow(windowStart, asOf))
            == Filter(Filter(rows, KnownAt(asOf)), LearnedSince(windowStart))
  {
    FilterFilter(rows, KnownAt(asOf), LearnedSince(windowStart), LearnedInWindow(windowStart, asOf));
  }

  lemma SameFetched(h: History, h': History, windowStart: int, asOf: int)
    requires SameKnowledge(h, h', asOf)
    ensures Fetched(h, windowStart, asOf) == Fetched(h', windowStart, asOf)
  {
    FetchedFromKnown(h.payments, windowStart, asOf);
    FetchedFromKnown(h'.payments, windowStart, asOf);
    FetchedFromKnown(h.refunds, windowStart, asOf);
    FetchedFromKnown(h'.refunds, windowStart, asOf);
    FetchedFromKnown(h.disputes, windowStart, asOf);
    FetchedFromKnown(h'.disputes, windowStart, asOf);
    FetchedFromKnown(h.settlements, windowStart, asOf);
    FetchedFromKnown(h'.settlements, windowStart, asOf);
    hide Filter;
  }

  /** Whatever is observed later, a past snapshot of the store stays what it was exactly when the count
      of unresolved webhook events of its window does; that count reads a status that changes later. */
  lemma StoreSnapshotStable(h: History, h': History, events: seq<WebhookEvent>, events': seq<WebhookEvent>,
                            asOf: int, lookbackHours: int, now: int)
    requires 1 <= lookbackHours <= 720 && SameKnowledge(h, h', asOf)
    ensures var windowStart := asOf - lookbackHours * HOUR;
      StoreSnapshot(h, events, asOf, lookbackHours, now) == StoreSnapshot(h', events', asOf, lookbackHours, now)
      <==> Unresolved(events, windowStart, asOf) == Unresolved(events', windowStart, asOf)
  {
    hide Fetched, Select, Unresolved, Assemble;
    var windowStart := asOf - lookbackHours * HOUR;
    SameFetched(h, h', windowStart, asOf);
    var rows := Select(Fetched(h, windowStart, asOf), windowStart, asOf);
    AssembleShowsRows(rows, Unresolved(events, windowStart, asOf), asOf, windowStart, now);
    AssembleShowsRows(rows, Unresolved(events', windowStart, asOf), asOf, windowStart, now);
  }

  lemma UnresolvedOne(e: WebhookEvent, windowStart: int, asOf: int)
    ensures Unresolved([e], windowStart, asOf) == if Pending(windowStart, asOf)(e) then 1 else 0
  {
    var pending := Pending(windowStart, asOf);
    if pending(e) {
      FilterAll([e], pending);
    } else {
      FilterNone([e], pending);
    }
  }

  /** An event received in the window blocks its snapshot until it is processed, however late: processing
      it turns the same past snapshot into a clean pass when there is nothing else to report. */
  lemma LateProcessingUnblocks(h: History, receivedAt: int, asOf: int, lookbackHours: int, now: int)
    requires 1 <= lookbackHours <= 720 && asOf - lookbackHours * HOUR <= receivedAt <= asOf <= now + 5 * MINUTE
    requires var windowStart := asOf - lookbackHours * HOUR;
      var rows := Select(Fetched(h, windowStart, asOf), windowStart, asOf);
      rows.payments != [] && !Blocking(rows, 0)
    ensures StoreSnapshot(h, [WebhookEvent(receivedAt, "RECEIVED")], asOf, lookbackHours, now).value.quality.status
            == BLOCKED
    ensures StoreSnapshot(h, [WebhookEvent(receivedAt, "PROCESSED")], asOf, lookbackHours, now).value.quality.status
            == PASS
  {
    hide Quality, MetricsOf, Select, Fetched, Unresolved, MissingTimes, ClockSkews, Currencies, Count;
    var windowStart := asOf - lookbackHours * HOUR;
    var rows := Select(Fetched(h, windowStart, asOf), windowStart, asOf);
    UnresolvedOne(WebhookEvent(receivedAt, "RECEIVED"), windowStart, asOf);
    UnresolvedOne(WebhookEvent(receivedAt, "PROCESSED"), windowStart, asOf);
    FirewallMeaning(rows, 1, asOf, now);
    FirewallMeaning(rows, 0, asOf, now);
  }

  /** What a successful snapshot shows: known rows inside the window, one per entity, and metrics
      that account for every one of them. The missing-event-time check can never fire, because the
      window has already dropped such rows. */
  lemma SnapshotSound(h: History, unresolved: nat, asOf: int, lookbackHours: int, now: int)
    requires 1 <= lookbackHours <= 720
    ensures var s := BuildSnapshot(h, unresolved, asOf, lookbackHours, now).value;
      && Shown(h.payments, s.rows.payments, s.windowStart, asOf)
      && Shown(h.refunds, s.rows.refunds, s.windowStart, asOf)
      && Shown(h.disputes, s.rows.disputes, s.windowStart, asOf)
      && Shown(h.settlements, s.rows.settlements, s.windowStart, asOf)
      && |s.metrics.methods| == s.metrics.paymentCount == |s.rows.payments|
      && MissingTimes(s.rows) == 0
      && (s.firewallBlocked <==> Blocking(s.rows, unresolved))
  {
    hide Quality, Windowed, Blocking, DistinctEntities;
    var s := BuildSnapshot(h, unresolved, asOf, lookbackHours, now).value;
    WindowedShows(h.payments, s.windowStart, asOf);
    WindowedShows(h.refunds, s.windowStart, asOf);
    WindowedShows(h.disputes, s.windowStart, asOf);
    WindowedShows(h.settlements, s.windowStart, asOf);
    FirewallMeaning(s.rows, unresolved, asOf, now);
  }

  /** `d` is one known, latest row per entity, all inside the event window. */
  ghost predicate Shown<T>(rows: seq<Observed<T>>, d: seq<Observed<T>>, windowStart: int, asOf: int) {
    && DistinctEntities(d)
    && (forall o | o in d :: o in rows && o.observedAt <= asOf)
    && (forall o | o in d :: o.createdAt.Some? && windowStart <= o.createdAt.value <= asOf)
    && (forall o, r | o in d && r in rows && r.entity == o.entity && r.observedAt <= asOf ::
         r.observedAt <= o.observedAt)
  }

  lemma WindowedShows<T(!new)>(rows: seq<Observed<T>>, windowStart: int, asOf: int)
    ensures Shown(rows, Windowed(rows, windowStart, asOf), windowStart, asOf)
    ensures Count(Windowed(rows, windowStart, asOf), MissingTime) == 0
  {
    var latest, inWindow, known := LatestAsOf(rows, asOf), InEventWindow<T>(windowStart, asOf),
        Filter(rows, KnownAt(asOf));
    LatestAsOfSelects(rows, asOf);
    WindowDistinct(latest, inWindow);
    FilterMembers(latest, inWindow);
    FilterMembers(rows, KnownAt(asOf));
    assert Windowed(rows, windowStart, asOf) == Filter(latest, inWindow);
    hide Windowed, LatestAsOf, StableSort, Filter, HasEntity, DistinctEntities;
    FilterNone(Filter(latest, inWindow), MissingTime);
    assert forall o | o in latest :: o in known;
  }

  lemma {:induction false} WindowDistinct<T>(d: seq<Observed<T>>, p: Observed<T> -> bool)
    requires DistinctEntities(d)
    ensures DistinctEntities(Filter(d, p))
  {
    if d != [] {
      WindowDistinct(d[1..], p);
      if p(d[0]) {
        var rest := Filter(d[1..], p);
        FilterMembers(d[1..], p);
        forall j | 0 <= j < |rest| ensures rest[j].entity != d[0].entity {
          assert rest[j] in d[1..];
          var k :| 0 <= k < |d[1..]| && d[1..][k] == rest[j];
          assert d[k + 1] == rest[j];
        }
      }
    }
  }
}
