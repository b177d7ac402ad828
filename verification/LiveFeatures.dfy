/** From provider observations and first-party telemetry to a feature preview: latest row per
    payment, telemetry join, data-quality firewall, baseline and feature vector. */
module LiveFeatures {
  import opened BaselineBuilder
  import opened Features
  import opened Instants
  import opened Observations
  import opened RealMath
  import opened Selection
  import opened Sequences
  import opened Text
  import opened Wrappers

  const CURRENT_WINDOW_HOURS: nat := 24
  const MIN_BASELINE_TRANSACTIONS: nat := 30
  const MIN_BASELINE_ACTIVE_DAYS: nat := 7

  datatype PaymentFact = PaymentFact(orderId: Option<string>, status: string, amount: int, currency: string,
                                     paymentMethod: string, captured: bool, amountRefunded: int,
                                     refundStatus: Option<string>)
  datatype RefundFact = RefundFact(paymentId: string, status: string)
  datatype DisputeFact = DisputeFact(paymentId: string, status: string, phase: string)
  datatype Telemetry = Telemetry(orderId: string, paymentId: Option<string>, device: string, geo: string,
                                 observedAt: int)

  datatype Sources = Sources(payments: seq<Observed<PaymentFact>>, refunds: seq<Observed<RefundFact>>,
                             disputes: seq<Observed<DisputeFact>>, telemetry: seq<Telemetry>,
                             orderByPayment: map<string, Option<string>>)

  datatype LiveError =
    | InvalidEvent
    | BaselineFailed(b: BaselineError)
    | FeaturesFailed(f: FeatureError)
    | CoverageOutOfRange

  // ---------------------------------------------------------------- mappings and joins

  function MapAuthStatus(status: string): Option<Auth> {
    var normalized := Lower(Strip(status));
    if normalized in {"authorized", "captured", "refunded"} then Some(APPROVED)
    else if normalized == "failed" then Some(FAILED)
    else None
  }

  lemma CapturedIsWord() ensures IsLowerWord("captured") {}
  lemma FailedIsWord() ensures IsLowerWord("failed") {}
  lemma AuthorizedIsWord() ensures IsLowerWord("authorized") {}
  lemma RefundedIsWord() ensures IsLowerWord("refunded") {}

  /** The status words are their own normal form, and what each one means for authorisation. */
  lemma NormalStatus(status: string)
    requires status in {"authorized", "captured", "refunded", "failed", ""}
    ensures Lower(Strip(status)) == status
    ensures MapAuthStatus(status) == if status == "failed" then Some(FAILED) else if status == "" then None
            else Some(APPROVED)
  {
    CapturedIsWord();
    FailedIsWord();
    AuthorizedIsWord();
    RefundedIsWord();
    assert IsLowerWord("");
    hide IsLowerWord, Lower, Strip;
    NormalWord(status);
  }

  predicate TelemetryEarlier(a: Telemetry, b: Telemetry) {
    a.observedAt <= b.observedAt
  }

  function OrderMap(rows: seq<Telemetry>): map<string, Telemetry> {
    if rows == [] then map[] else OrderMap(rows[..|rows| - 1])[rows[|rows| - 1].orderId := rows[|rows| - 1]]
  }

  function PaymentMap(rows: seq<Telemetry>): map<string, Telemetry> {
    if rows == [] then map[]
    else
      var row := rows[|rows| - 1];
      var before := PaymentMap(rows[..|rows| - 1]);
      if row.paymentId.Some? && Truthy(row.paymentId.value) then before[row.paymentId.value := row] else before
  }

  method TelemetryMaps(rows: seq<Telemetry>)
      returns (byOrder: map<string, Telemetry>, byPayment: map<string, Telemetry>)
    ensures byOrder == OrderMap(StableSort(rows, TelemetryEarlier))
    ensures byPayment == PaymentMap(StableSort(rows, TelemetryEarlier))
  {
    var sorted := StableSort(rows, TelemetryEarlier);
    byOrder, byPayment := map[], map[];
    for i := 0 to |sorted|
      invariant byOrder == OrderMap(sorted[..i]) && byPayment == PaymentMap(sorted[..i])
    {
      var row := sorted[i];
      assert sorted[..i + 1][..i] == sorted[..i];
      byOrder := byOrder[row.orderId := row];
      if row.paymentId.Some? && Truthy(row.paymentId.value) {
        byPayment := byPayment[row.paymentId.value := row];
      }
    }
    assert sorted[..|sorted|] == sorted;
  }

  /** When a refund or dispute happened: the provider's time, or else the knowledge time. */
  function TimestampOf<T>(o: Observed<T>): int {
    if o.createdAt.Some? then o.createdAt.value else o.observedAt
  }

  /** First qualifying row per payment, in knowledge order. */
  function FirstTimestamps<T>(rows: seq<Observed<T>>, payment: T -> string, keep: T -> bool): map<string, int> {
    if rows == [] then map[]
    else
      var row := rows[|rows| - 1];
      var before := FirstTimestamps(rows[..|rows| - 1], payment, keep);
      if keep(row.fact) && payment(row.fact) !in before then before[payment(row.fact) := TimestampOf(row)] else before
  }

  method StatusTimestamps<T(!new)>(rows: seq<Observed<T>>, payment: T -> string, keep: T -> bool)
      returns (result: map<string, int>)
    ensures result == FirstTimestamps(StableSort(rows, Earlier), payment, keep)
  {
    var sorted := StableSort(rows, Earlier);
    result := map[];
    for i := 0 to |sorted|
      invariant result == FirstTimestamps(sorted[..i], payment, keep)
    {
      var row := sorted[i];
      assert sorted[..i + 1][..i] == sorted[..i];
      if !keep(row.fact) {
        continue;
      }
      if payment(row.fact) !in result {
        result := result[payment(row.fact) := TimestampOf(row)];
      }
    }
    assert sorted[..|sorted|] == sorted;
  }

  function RefundPayment(f: RefundFact): string { f.paymentId }
  predicate ProcessedRefund(f: RefundFact) { Lower(f.status) == "processed" }
  function DisputePayment(f: DisputeFact): string { f.paymentId }
  predicate AnyDispute(f: DisputeFact) { true }

  /** Everything the event loop looks up by payment or order. */
  datatype Joins = Joins(byOrder: map<string, Telemetry>, byPayment: map<string, Telemetry>,
                         orderByPayment: map<string, Option<string>>, refunds: map<string, int>,
                         chargebacks: map<string, int>)

  function JoinsOf(s: Sources): Joins {
    var telemetry := StableSort(s.telemetry, TelemetryEarlier);
    Joins(OrderMap(telemetry), PaymentMap(telemetry), s.orderByPayment,
          FirstTimestamps(StableSort(s.refunds, Earlier), RefundPayment, ProcessedRefund),
          FirstTimestamps(StableSort(s.disputes, Earlier), DisputePayment, AnyDispute))
  }

  // ---------------------------------------------------------------- events

  /** The row's own order id when it has a non-empty one, else the current-state order id. */
  function OrderIdOf(row: Observed<PaymentFact>, joins: Joins): Option<string> {
    if row.fact.orderId.Some? && Truthy(row.fact.orderId.value) then row.fact.orderId
    else Lookup(joins.orderByPayment, row.entity).GetOr(None)
  }

  /** Telemetry bound to the payment itself, else to its order. */
  function TelemetryFor(row: Observed<PaymentFact>, joins: Joins): Option<Telemetry> {
    if row.entity in joins.byPayment then Some(joins.byPayment[row.entity])
    else
      var orderId := OrderIdOf(row, joins);
      if orderId.Some? && Truthy(orderId.value) then Lookup(joins.byOrder, orderId.value) else None
  }

  /** The event a payment row turns into, if it is in INR, has an event time, a mapped status and
      matching telemetry. */
  function EventFor(account: string, row: Observed<PaymentFact>, joins: Joins): Option<Event> {
    if row.createdAt.None? || row.fact.currency != "INR" then None
    else
      var auth, telemetry := MapAuthStatus(row.fact.status), TelemetryFor(row, joins);
      if auth.None? || telemetry.None? then None
      else Some(Event(Strip(row.entity), Strip(account), row.createdAt.value, row.fact.amount as real / 100.0,
                      Strip(telemetry.value.device), Strip(telemetry.value.geo), auth.value,
                      Lookup(joins.refunds, row.entity), Lookup(joins.chargebacks, row.entity)))
  }

  /** The declared bounds of a transaction event. */
  predicate ValidEvent(e: Event) {
    1 <= |e.id| <= 128 && 1 <= |e.merchant| <= 128 && e.amount > 0.0 && 1 <= |e.device| <= 256 && 1 <= |e.geo| <= 64
  }

  function EventsOf(account: string, rows: seq<Observed<PaymentFact>>, joins: Joins): Result<seq<Event>, LiveError> {
    if rows == [] then Success([])
    else
      var events :- EventsOf(account, rows[..|rows| - 1], joins);
      var event := EventFor(account, rows[|rows| - 1], joins);
      if event.None? then Success(events)
      else if !ValidEvent(event.value) then Failure(InvalidEvent)
      else Success(events + [event.value])
  }

  method JoinSources(s: Sources) returns (joins: Joins)
    ensures joins == JoinsOf(s)
  {
    hide StableSort, OrderMap, PaymentMap, FirstTimestamps;
    var byOrder, byPayment := TelemetryMaps(s.telemetry);
    var refunds := StatusTimestamps(s.refunds, RefundPayment, ProcessedRefund);
    var chargebacks := StatusTimestamps(s.disputes, DisputePayment, AnyDispute);
    joins := Joins(byOrder, byPayment, s.orderByPayment, refunds, chargebacks);
  }

  /** The event loop over the latest payments: skip, skip, skip, or append. */
  method CollectEvents(account: string, latestPayments: seq<Observed<PaymentFact>>, joins: Joins)
    returns (r: Result<seq<Event>, LiveError>)
    ensures r == EventsOf(account, latestPayments, joins)
  {
    hide MapAuthStatus, TelemetryFor, ValidEvent, Strip, Lookup;
    var events: seq<Event> := [];
    for i := 0 to |latestPayments|
      invariant EventsOf(account, latestPayments[..i], joins) == Success(events)
    {
      var row := latestPayments[i];
      assert latestPayments[..i + 1][..i] == latestPayments[..i];
      if row.createdAt.None? || row.fact.currency != "INR" {
        continue;
      }
      var auth := MapAuthStatus(row.fact.status);
      if auth.None? {
        continue;
      }
      var telemetry := TelemetryFor(row, joins);
      if telemetry.None? {
        continue;
      }
      var event := Event(Strip(row.entity), Strip(account), row.createdAt.value, row.fact.amount as real / 100.0,
                         Strip(telemetry.value.device), Strip(telemetry.value.geo), auth.value,
                         Lookup(joins.refunds, row.entity), Lookup(joins.chargebacks, row.entity));
      if !ValidEvent(event) {
        StuckEvents(account, latestPayments, i + 1, joins);
        return Failure(InvalidEvent);
      }
      events := events + [event];
    }
    assert latestPayments[..|latestPayments|] == latestPayments;
    r := Success(events);
  }

  method MakeEvents(account: string, payments: seq<Observed<PaymentFact>>, s: Sources)
      returns (r: Result<seq<Event>, LiveError>)
    ensures r == EventsOf(account, LatestBy(payments), JoinsOf(s))
  {
    hide EventsOf, LatestBy, JoinsOf;
    var latestPayments := SelectLatestBy(payments);
    var joins := JoinSources(s);
    r := CollectEvents(account, latestPayments, joins);
  }

  /** Once a row fails validation the whole build fails. */
  lemma {:induction false} StuckEvents(account: string, rows: seq<Observed<PaymentFact>>, k: nat, joins: Joins)
    requires k <= |rows| && EventsOf(account, rows[..k], joins).Failure?
    ensures EventsOf(account, rows, joins) == Failure(InvalidEvent)
    decreases |rows| - k
  {
    if k == |rows| {
      assert rows[..k] == rows;
      FailureKind(account, rows, joins);
    } else {
      assert rows[..k + 1][..k] == rows[..k];
      StuckEvents(account, rows, k + 1, joins);
    }
  }

  lemma {:induction false} FailureKind(account: string, rows: seq<Observed<PaymentFact>>, joins: Joins)
    ensures EventsOf(account, rows, joins).Failure? ==> EventsOf(account, rows, joins) == Failure(InvalidEvent)
  {
    if rows != [] {
      FailureKind(account, rows[..|rows| - 1], joins);
    }
  }

  // ---------------------------------------------------------------- the preview

  datatype Blocker = INSUFFICIENT_BASELINE_TRANSACTIONS | INSUFFICIENT_BASELINE_ACTIVE_DAYS
                   | BASELINE_TELEMETRY_INCOMPLETE | CURRENT_WINDOW_TELEMETRY_INCOMPLETE
                   | NO_CURRENT_WINDOW_PAYMENTS | UNMAPPED_PAYMENT_AUTH_STATUS

  datatype Preview = Preview(asOf: int, currentStart: int, baselineStart: int, baselineEnd: int,
                             baselineTransactions: nat, baselineActiveDays: nat, currentTransactions: nat,
                             baselineCoverage: Option<real>, currentCoverage: Option<real>,
                             blockers: seq<Blocker>, vector: Option<FeatureVector>, shadowScoreEligible: bool)

  function CreatedBefore(start: int, end: int): Observed<PaymentFact> -> bool {
    (o: Observed<PaymentFact>) => o.createdAt.Some? && start <= o.createdAt.value < end
  }

  function CreatedUpTo(start: int, end: int): Observed<PaymentFact> -> bool {
    (o: Observed<PaymentFact>) => o.createdAt.Some? && start <= o.createdAt.value <= end
  }

  function HappenedUpTo(start: int, end: int): Event -> bool {
    (e: Event) => start <= e.at <= end
  }

  predicate Unmapped(o: Observed<PaymentFact>) {
    MapAuthStatus(o.fact.status).None?
  }

  function Coverage(events: nat, payments: nat): Option<real> {
    if payments == 0 then None else Some(events as real / payments as real)
  }

  predicate Incomplete(coverage: Option<real>) {
    coverage.Some? && coverage.value < 1.0
  }

  function ActiveDates(rows: seq<Observed<PaymentFact>>): set<int> {
    set o | o in rows && o.createdAt.Some? :: DateOf(o.createdAt.value)
  }

  function AddBlocker(blockers: seq<Blocker>, condition: bool, blocker: Blocker): seq<Blocker> {
    if condition then blockers + [blocker] else blockers
  }

  function Blockers(baselineCount: nat, activeDays: nat, baselineCoverage: Option<real>, currentCoverage: Option<real>,
                    currentCount: nat, unmappedCount: nat): seq<Blocker>
  {
    var b1 := AddBlocker([], baselineCount < MIN_BASELINE_TRANSACTIONS, INSUFFICIENT_BASELINE_TRANSACTIONS);
    var b2 := AddBlocker(b1, activeDays < MIN_BASELINE_ACTIVE_DAYS, INSUFFICIENT_BASELINE_ACTIVE_DAYS);
    var b3 := AddBlocker(b2, Incomplete(baselineCoverage), BASELINE_TELEMETRY_INCOMPLETE);
    var b4 := AddBlocker(b3, Incomplete(currentCoverage), CURRENT_WINDOW_TELEMETRY_INCOMPLETE);
    var b5 := AddBlocker(b4, currentCount == 0, NO_CURRENT_WINDOW_PAYMENTS);
    AddBlocker(b5, unmappedCount > 0, UNMAPPED_PAYMENT_AUTH_STATUS)
  }

  /** The windows a cutoff defines. */
  function CurrentStart(asOf: int): int {
    asOf - CURRENT_WINDOW_HOURS * HOUR
  }

  function BaselineStart(asOf: int): int {
    CurrentStart(asOf) - BASELINE_DAYS * DAY
  }

  /** The rows selected for a cutoff: inside the 31-day window, latest per payment. */
  function Selected(payments: seq<Observed<PaymentFact>>, asOf: int): seq<Observed<PaymentFact>> {
    LatestBy(Filter(payments, InEventWindow(BaselineStart(asOf), asOf)))
  }

  /** Baseline, then features; only reached when nothing blocks. */
  function Score(m: MathLib, account: string, asOf: int, events: seq<Event>): Result<(FeatureVector, nat), LiveError> {
    var built := BuildBaseline(m, events, BaselineStart(asOf), CurrentStart(asOf));
    if built.Failure? then Failure(BaselineFailed(built.error))
    else
      ScoredBaseline(m, events, BaselineStart(asOf), CurrentStart(asOf));
      var vector := BuildFeatures(m, Strip(account), asOf, built.value.0, events, CURRENT_WINDOW_HOURS);
      if vector.Failure? then Failure(FeaturesFailed(vector.error)) else Success((vector.value, built.value.1))
  }

  lemma ScoredBaseline(m: MathLib, events: seq<Event>, start: int, end: int)
    ensures var r := BuildBaseline(m, events, start, end);
      r.Success? ==> ValidBaseline(r.value.0) && |r.value.0.edges| >= 2
  {
    var r := BuildBaseline(m, events, start, end);
    if r.Success? && |r.value.0.edges| < 2 {
      assert false;
    }
  }

  /** The preview given the selected rows and their events. */
  function Summarize(m: MathLib, account: string, asOf: int, latest: seq<Observed<PaymentFact>>, events: seq<Event>)
    : Result<Preview, LiveError>
  {
    var baselinePayments := Filter(latest, CreatedBefore(BaselineStart(asOf), CurrentStart(asOf)));
    var currentPayments := Filter(latest, CreatedUpTo(CurrentStart(asOf), asOf));
    Conclude(m, account, asOf, |baselinePayments|, |ActiveDates(baselinePayments)|, |currentPayments|,
             |Filter(latest, Unmapped)|, events)
  }

  /** The preview given the row counts and the events. */
  function Conclude(m: MathLib, account: string, asOf: int, baselineCount: nat, activeDays: nat, currentCount: nat,
                    unmappedCount: nat, events: seq<Event>): Result<Preview, LiveError>
  {
    var currentStart, baselineStart := CurrentStart(asOf), BaselineStart(asOf);
    var baselineCoverage := Coverage(|Filter(events, InSpan(baselineStart, currentStart))|, baselineCount);
    var currentCoverage := Coverage(|Filter(events, HappenedUpTo(currentStart, asOf))|, currentCount);
    var blockers := Blockers(baselineCount, activeDays, baselineCoverage, currentCoverage, currentCount, unmappedCount);
    if blockers != [] then
      Checked(Preview(asOf, currentStart, baselineStart, currentStart, baselineCount, activeDays, currentCount,
                      baselineCoverage, currentCoverage, blockers, None, false))
    else
      var scored :- Score(m, account, asOf, events);
      Checked(Preview(asOf, currentStart, baselineStart, currentStart, baselineCount, scored.1, currentCount,
                      baselineCoverage, currentCoverage, blockers, Some(scored.0), true))
  }

  predicate IsShare(coverage: Option<real>) {
    coverage.Some? ==> 0.0 <= coverage.value <= 1.0
  }

  /** The declared bounds of the two coverage fields. */
  function Checked(p: Preview): Result<Preview, LiveError> {
    if IsShare(p.baselineCoverage) && IsShare(p.currentCoverage) then Success(p) else Failure(CoverageOutOfRange)
  }

  function BuildPreview(m: MathLib, account: string, asOf: int, s: Sources): Result<Preview, LiveError> {
    var latest := Selected(s.payments, asOf);
    var events :- EventsOf(account, latest, JoinsOf(s));
    Summarize(m, account, asOf, latest, events)
  }

  method MakePreview(m: MathLib, account: string, asOf: int, s: Sources) returns (r: Result<Preview, LiveError>)
    ensures r == BuildPreview(m, account, asOf, s)
  {
    hide LatestBy, Filter, EventsOf, JoinsOf, Summarize;
    var relevant := Filter(s.payments, InEventWindow(BaselineStart(asOf), asOf));
    var latest := SelectLatestBy(relevant);
    var events :- MakeEvents(account, relevant, s);
    r := Summarize(m, account, asOf, latest, events);
  }
}
