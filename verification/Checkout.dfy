/** Checkout sessions: every committed transaction of the checkout bridge is a step, and webhooks,
    verified binds and reconciliation may come in any order. */
module Checkout {
  import opened Instants
  import opened Text
  import opened Wrappers

  /** A UUID, as its digits without dashes. */
  type Uuid = string

  datatype Lifecycle = PENDING_PROVIDER_ORDER | PROVIDER_ORDER_FAILED | OPEN | AUTHORIZED | ATTEMPTED | ATTEMPT_FAILED
                     | PAID | ABANDONED

  datatype Order = Order(sessionId: Uuid, accountId: string, orderId: Option<string>, paymentId: Option<string>,
                         amount: int, currency: string, receipt: string, providerStatus: string, providerAttempts: nat,
                         lifecycle: Lifecycle, lastPaymentStatus: Option<string>, device: string, geo: string,
                         clientEventAt: Option<int>, telemetryId: Option<Uuid>, authoritativeStatus: Option<string>,
                         signatureVerifiedAt: Option<int>, webhookConfirmedAt: Option<int>, reconciledAt: Option<int>,
                         expiresAt: Option<int>, abandonedAt: Option<int>, createdAt: int, updatedAt: int)

  /** What a telemetry row says; its payload hash is taken over exactly these fields. */
  datatype Signals = Signals(accountId: string, orderId: string, paymentId: Option<string>, device: string, geo: string,
                             clientEventAt: Option<int>, observedAt: int)
  datatype Telemetry = Telemetry(signals: Signals, payloadHash: string)

  datatype Attempt = Attempt(sessionId: Uuid, accountId: string, orderId: string, paymentId: string, status: string,
                             captured: bool, lastEventType: string, lastSourceEventId: string, firstSeenAt: int,
                             lastSeenAt: int)

  /** The tables, with the unique index of the provider's order identifiers. */
  datatype Store = Store(orders: map<Uuid, Order>, byOrder: map<string, Uuid>, telemetry: map<Uuid, Telemetry>,
                         attempts: map<string, Attempt>)

  datatype Env = Env(digest: Signals -> string, deviceHash: (string, string) -> string)

  datatype Rejection = SessionNotFound | FutureClientTime | InvalidOrderId | NotCreated | OrderMismatch | Conflict
                     | BoundToAnotherPayment | NoTelemetry | TelemetryMissing | TelemetryBoundToAnother
                     | AttemptBoundToAnother | InvalidLimit | InvalidHours

  const EXPIRY_HOURS := 24

  /** An order as the provider describes it; a field of the wrong kind is None. */
  datatype ProviderOrder = ProviderOrder(id: Option<string>, status: Option<string>, amount: Option<int>,
                                         currency: Option<string>, receipt: Option<string>, attempts: Option<int>)

  function AttemptsOf(p: ProviderOrder): nat {
    if p.attempts.Some? && p.attempts.value >= 0 then p.attempts.value else 0
  }

  function Normal(s: Option<string>): string {
    Lower(Strip(s.GetOr("")))
  }

  function DeriveLifecycle(payment: Option<string>, order: Option<string>): Lifecycle {
    if Normal(order) == "paid" || Normal(payment) == "captured" || Normal(payment) == "refunded" then PAID
    else if Normal(payment) == "authorized" then AUTHORIZED
    else if Normal(payment) == "failed" then ATTEMPT_FAILED
    else if Normal(order) == "attempted" then ATTEMPTED
    else OPEN
  }

  function Receipt(sessionId: Uuid): string {
    "rt-" + if |sessionId| <= 24 then sessionId else sessionId[..24]
  }

  predicate StartsWith(s: string, prefix: string) {
    prefix <= s
  }

  // ---------------------------------------------------------------- the transactions as steps

  /** A step's outcome: the new tables, and why it was refused if it was. */
  type Outcome = (Store, Option<Rejection>)

  function Refuse(s: Store, why: Rejection): Outcome { (s, Some(why)) }
  function Commit(s: Store): Outcome { (s, None) }

  datatype NewSession = NewSession(accountId: string, amount: int, currency: string, pseudonym: string, geo: string,
                                   clientEventAt: Option<int>)

  function PendingOrder(env: Env, r: NewSession, id: Uuid, now: int): Order {
    Order(id, r.accountId, None, None, r.amount, r.currency, Receipt(id), "PENDING_PROVIDER_ORDER", 0,
          PENDING_PROVIDER_ORDER, None, env.deviceHash(r.accountId, r.pseudonym), r.geo, r.clientEventAt,
          None, None, None, None, None, Some(now + EXPIRY_HOURS * HOUR), None, now, now)
  }

  function CreatePending(env: Env, s: Store, r: NewSession, id: Uuid, now: int): Outcome {
    if r.clientEventAt.Some? && r.clientEventAt.value > now + 5 * MINUTE then Refuse(s, FutureClientTime)
    else if id in s.orders || (exists k <- s.orders :: s.orders[k].receipt == Receipt(id)) then Refuse(s, Conflict)
    else Commit(s.(orders := s.orders[id := PendingOrder(env, r, id, now)]))
  }

  function MarkProviderFailed(s: Store, id: Uuid, now: int): Outcome {
    if id !in s.orders then Commit(s)
    else
      Commit(s.(orders := s.orders[id := s.orders[id].(providerStatus := "PROVIDER_ORDER_FAILED",
                                                       lifecycle := PROVIDER_ORDER_FAILED, updatedAt := now)]))
  }

  function FirstSignals(row: Order, orderId: string, now: int): Signals {
    Signals(row.accountId, orderId, None, row.device, row.geo, row.clientEventAt, now)
  }

  function Sign(env: Env, signals: Signals): Telemetry {
    Telemetry(signals, env.digest(signals))
  }

  function Unindex(byOrder: map<string, Uuid>, orderId: Option<string>): map<string, Uuid> {
    if orderId.Some? then byOrder - {orderId.value} else byOrder
  }

  function FinalizeOrder(env: Env, s: Store, id: Uuid, p: ProviderOrder, telemetryId: Uuid, now: int): Outcome {
    if p.id.None? || !StartsWith(p.id.value, "order_") then Refuse(s, InvalidOrderId)
    else if p.status != Some("created") then Refuse(s, NotCreated)
    else if id !in s.orders then Refuse(s, SessionNotFound)
    else
      var row := s.orders[id];
      var orderId := p.id.value;
      if p.amount != Some(row.amount) || p.currency != Some(row.currency) || p.receipt != Some(row.receipt)
          then Refuse(s, OrderMismatch)
      else if telemetryId in s.telemetry || (orderId in s.byOrder && s.byOrder[orderId] != id) then Refuse(s, Conflict)
      else
        var row' := row.(orderId := Some(orderId), providerStatus := "created", providerAttempts := AttemptsOf(p),
                         lifecycle := OPEN, telemetryId := Some(telemetryId), reconciledAt := Some(now),
                         updatedAt := now);
        Commit(s.(orders := s.orders[id := row'], byOrder := Unindex(s.byOrder, row.orderId)[orderId := id],
                  telemetry := s.telemetry[telemetryId := Sign(env, FirstSignals(row, orderId, now))]))
  }

  /** The telemetry row bound to a payment, its hash recomputed. */
  function BindTelemetry(env: Env, t: Telemetry, paymentId: string): Telemetry {
    Sign(env, t.signals.(paymentId := Some(paymentId)))
  }

  predicate FreeFor(bound: Option<string>, paymentId: string) {
    bound.None? || bound.value == paymentId
  }

  function Max(a: nat, b: nat): nat { if a < b then b else a }

  function BoundOrder(row: Order, paymentId: string, status: string, now: int): Order {
    var lifecycle := DeriveLifecycle(Some(status), Some(row.providerStatus));
    row.(paymentId := Some(paymentId), providerAttempts := Max(row.providerAttempts, 1),
         authoritativeStatus := Some(status), lastPaymentStatus := Some(status), lifecycle := lifecycle,
         providerStatus := if lifecycle == PAID then "paid" else row.providerStatus, signatureVerifiedAt := Some(now),
         updatedAt := now)
  }

  function BindVerifiedPayment(env: Env, s: Store, id: Uuid, paymentId: string, status: string, now: int): Outcome {
    if id !in s.orders then Refuse(s, SessionNotFound)
    else
      var row := s.orders[id];
      if !FreeFor(row.paymentId, paymentId) then Refuse(s, BoundToAnotherPayment)
      else if row.telemetryId.None? then Refuse(s, NoTelemetry)
      else
        var tid := row.telemetryId.value;
        if tid !in s.telemetry then Refuse(s, TelemetryMissing)
        else if !FreeFor(s.telemetry[tid].signals.paymentId, paymentId) then Refuse(s, TelemetryBoundToAnother)
        else
          Commit(s.(orders := s.orders[id := BoundOrder(row, paymentId, status, now)],
                    telemetry := s.telemetry[tid := BindTelemetry(env, s.telemetry[tid], paymentId)]))
  }

  datatype PaymentEvent = PaymentEvent(eventType: string, sourceEventId: string, orderId: Option<string>,
                                       paymentId: string, status: string, captured: bool, observedAt: int)

  function SeenAttempt(attempts: map<string, Attempt>, row: Order, orderId: string, e: PaymentEvent): Attempt {
    if e.paymentId in attempts then
      attempts[e.paymentId].(status := e.status, captured := e.captured, lastEventType := e.eventType,
                             lastSourceEventId := e.sourceEventId, lastSeenAt := e.observedAt)
    else
      Attempt(row.sessionId, row.accountId, orderId, e.paymentId, e.status, e.captured, e.eventType, e.sourceEventId,
              e.observedAt, e.observedAt)
  }

  function AttemptCount(attempts: map<string, Attempt>, sessionId: Uuid): nat {
    |set p | p in attempts && attempts[p].sessionId == sessionId|
  }

  function ObservedOrder(row: Order, e: PaymentEvent, distinctAttempts: nat): Order {
    var lifecycle := DeriveLifecycle(Some(e.status), Some(row.providerStatus));
    var seen := row.(providerAttempts := Max(row.providerAttempts, distinctAttempts),
                     lastPaymentStatus := Some(e.status), authoritativeStatus := Some(e.status), lifecycle := lifecycle,
                     updatedAt := e.observedAt);
    if lifecycle == PAID then
      seen.(providerStatus := "paid", paymentId := Some(e.paymentId), webhookConfirmedAt := Some(e.observedAt))
    else if Normal(Some(e.status)) == "authorized" then seen.(paymentId := Some(e.paymentId))
    else seen
  }

  function ObservedTelemetry(env: Env, telemetry: map<Uuid, Telemetry>, row: Order, paymentId: string)
    : map<Uuid, Telemetry>
  {
    if row.lifecycle == PAID && row.telemetryId.Some? && row.telemetryId.value in telemetry
       && FreeFor(telemetry[row.telemetryId.value].signals.paymentId, paymentId)
    then telemetry[row.telemetryId.value := BindTelemetry(env, telemetry[row.telemetryId.value], paymentId)]
    else telemetry
  }

  function ObservePaymentEvent(env: Env, s: Store, e: PaymentEvent): Outcome {
    if e.orderId.None? || e.orderId.value == "" || e.orderId.value !in s.byOrder then Commit(s)
    else
      var orderId := e.orderId.value;
      var id := s.byOrder[orderId];
      if id !in s.orders then Commit(s)
      else
        var row := s.orders[id];
        if e.paymentId in s.attempts
            && (s.attempts[e.paymentId].sessionId != row.sessionId || s.attempts[e.paymentId].orderId != orderId)
        then Refuse(s, AttemptBoundToAnother)
        else
          var attempts := s.attempts[e.paymentId := SeenAttempt(s.attempts, row, orderId, e)];
          var row' := ObservedOrder(row, e, AttemptCount(attempts, row.sessionId));
          Commit(s.(orders := s.orders[id := row'], attempts := attempts,
                    telemetry := ObservedTelemetry(env, s.telemetry, row', e.paymentId)))
  }

  /** The order statuses reconciliation accepts. */
  predicate Reconciles(status: string) {
    status == "created" || status == "attempted" || status == "paid"
  }

  function ReconciledOrder(row: Order, status: string, attempts: nat, abandonAfterHours: int, now: int): Order {
    var lifecycle := if status == "paid" then PAID
                     else if status == "attempted" then
                       if Lower(row.lastPaymentStatus.GetOr("")) == "failed" then ATTEMPT_FAILED else ATTEMPTED
                     else OPEN;
    var expiry := row.expiresAt.GetOr(row.createdAt + abandonAfterHours * HOUR);
    var expired := status != "paid" && now >= expiry;
    row.(providerStatus := status, providerAttempts := attempts, reconciledAt := Some(now), expiresAt := Some(expiry),
         updatedAt := now, lifecycle := if expired then ABANDONED else lifecycle,
         abandonedAt := if expired then Some(row.abandonedAt.GetOr(now)) else row.abandonedAt)
  }

  /** The write half of reconciling one session, with an order status fetched at some earlier time. */
  function ReconcileCommit(s: Store, id: Uuid, status: string, attempts: nat, abandonAfterHours: int,
                           now: int): Outcome
  {
    if id !in s.orders then Commit(s)
    else Commit(s.(orders := s.orders[id := ReconciledOrder(s.orders[id], status, attempts, abandonAfterHours, now)]))
  }

  datatype Action = Create(request: NewSession, id: Uuid, now: int)
                  | MarkFailed(id: Uuid, now: int)
                  | Finalize(id: Uuid, providerOrder: ProviderOrder, telemetryId: Uuid, now: int)
                  | Bind(id: Uuid, paymentId: string, status: string, now: int)
                  | Observe(event: PaymentEvent)
                  | Reconcile(id: Uuid, fetched: string, attempts: nat, abandonAfterHours: int, now: int)

  function Step(env: Env, s: Store, a: Action): Outcome {
    match a
    case Create(r, id, now) => CreatePending(env, s, r, id, now)
    case MarkFailed(id, now) => MarkProviderFailed(s, id, now)
    case Finalize(id, p, telemetryId, now) => FinalizeOrder(env, s, id, p, telemetryId, now)
    case Bind(id, paymentId, status, now) => BindVerifiedPayment(env, s, id, paymentId, status, now)
    case Observe(e) => ObservePaymentEvent(env, s, e)
    case Reconcile(id, status, attempts, hours, now) => if Reconciles(status)
        then ReconcileCommit(s, id, status, attempts, hours, now) else Commit(s)
  }

  const EMPTY := Store(map[], map[], map[], map[])

  function Run(env: Env, s: Store, actions: seq<Action>): Store {
    if actions == [] then s else Step(env, Run(env, s, actions[..|actions| - 1]), actions[|actions| - 1]).0
  }

  // ---------------------------------------------------------------- the store class

  datatype ReconcileResult = ReconcileResult(inspected: nat, updated: nat, paid: nat, attempted: nat, open: nat,
                                             abandoned: nat, errors: nat)

  /** One session's share of the counters. */
  function Tally(c: ReconcileResult, status: Option<string>, abandoned: bool): ReconcileResult {
    if status.None? then c.(errors := c.errors + 1)
    else
      c.(updated := c.updated + 1,
         paid := c.paid + (if status.value == "paid" then 1 else 0),
         attempted := c.attempted + (if status.value == "attempted" then 1 else 0),
         open := c.open + (if status.value == "created" then 1 else 0),
         abandoned := c.abandoned + (if abandoned then 1 else 0))
  }

  /** What the provider answers for each order; None is a failed call. */
  type Provider = string -> Option<ProviderOrder>

  /** The usable answer for a session, or None where the loop counts an error. */
  function Fetched(provider: Provider, row: Order): (r: Option<ProviderOrder>)
    ensures r.Some? ==> r.value.status.Some? && Reconciles(r.value.status.value)
  {
    var answer := provider(row.orderId.GetOr(""));
    if answer.Some? && answer.value.status.Some? && Reconciles(answer.value.status.value) then answer else None
  }

  /** Reconciling the sessions one after another, without interference. */
  function ReconcileAll(s: Store, rows: seq<Order>, provider: Provider, hours: int,
                        now: int): (r: (Store, ReconcileResult))
    requires forall row <- rows :: row.sessionId in s.orders
    ensures r.0.orders.Keys == s.orders.Keys
  {
    if rows == [] then (s, ReconcileResult(0, 0, 0, 0, 0, 0, 0))
    else
      var n := |rows| - 1;
      var (before, c) := ReconcileAll(s, rows[..n], provider, hours, now);
      var answer := Fetched(provider, rows[n]);
      if answer.None? then (before, Tally(c, None, false))
      else
        var after := ReconcileCommit(before, rows[n].sessionId, answer.value.status.value, AttemptsOf(answer.value),
            hours, now).0;
        (after, Tally(c, answer.value.status, after.orders[rows[n].sessionId].lifecycle == ABANDONED))
  }

  lemma ReconcileNone(s: Store, provider: Provider, hours: int, now: int)
    ensures ReconcileAll(s, [], provider, hours, now) == (s, ReconcileResult(0, 0, 0, 0, 0, 0, 0))
  {
  }

  lemma ReconcileNext(s: Store, rows: seq<Order>, i: nat, provider: Provider, hours: int, now: int)
    requires i < |rows| && forall row <- rows :: row.sessionId in s.orders
    ensures var (before, c) := ReconcileAll(s, rows[..i], provider, hours, now);
            var answer := Fetched(provider, rows[i]);
            ReconcileAll(s, rows[..i + 1], provider, hours, now)
            == if answer.None? then (before, Tally(c, None, false))
               else
                 var after := ReconcileCommit(before, rows[i].sessionId, answer.value.status.value,
                     AttemptsOf(answer.value), hours, now).0;
                 (after, Tally(c, answer.value.status, after.orders[rows[i].sessionId].lifecycle == ABANDONED))
  {
    assert rows[..i + 1][..i] == rows[..i];
    hide Fetched, ReconciledOrder, AttemptsOf, Tally;
  }

  predicate Selectable(row: Order) {
    && row.orderId.Some? && row.lifecycle != ABANDONED && row.lifecycle != PROVIDER_ORDER_FAILED
    && (row.lifecycle != PAID || row.providerAttempts == 0)
  }

  /** An answer the database may give to the selection: the oldest selectable rows, at most `limit`. */
  ghost predicate Selection(orders: map<Uuid, Order>, limit: int, rows: seq<Order>) {
    && |rows| <= limit
    && (forall row <- rows :: row.sessionId in orders && orders[row.sessionId] == row && Selectable(row))
    && (forall i, j :: 0 <= i < j < |rows| ==>
          rows[i].sessionId != rows[j].sessionId && rows[i].createdAt <= rows[j].createdAt)
    && (forall id <- orders :: Selectable(orders[id]) && orders[id] !in rows ==>
          |rows| == limit && forall row <- rows :: row.createdAt <= orders[id].createdAt)
  }

  lemma SelectedExist(orders: map<Uuid, Order>, limit: int, rows: seq<Order>)
    requires Selection(orders, limit, rows)
    ensures forall row <- rows :: row.sessionId in orders
  {
  }

  class CheckoutBridgeStore {
    const env: Env
    var orders: map<Uuid, Order>
    var byOrder: map<string, Uuid>
    var telemetry: map<Uuid, Telemetry>
    var attempts: map<string, Attempt>

    ghost function Contents(): Store
      reads this
    {
      Store(orders, byOrder, telemetry, attempts)
    }

    constructor (env: Env)
      ensures this.env == env && Contents() == EMPTY
    {
      this.env := env;
      orders, byOrder, telemetry, attempts := map[], map[], map[], map[];
    }

    method CreatePendingOrder(r: NewSession, id: Uuid, now: int) returns (why: Option<Rejection>)
      modifies this
      ensures (Contents(), why) == CreatePending(env, old(Contents()), r, id, now)
    {
      if r.clientEventAt.Some? && r.clientEventAt.value > now + 5 * MINUTE { return Some(FutureClientTime); }
      var receipt := Receipt(id);
      if id in orders || exists k <- orders :: orders[k].receipt == receipt { return Some(Conflict); }
      orders := orders[id := PendingOrder(env, r, id, now)];
      why := None;
    }

    method MarkFailed(id: Uuid, now: int)
      modifies this
      ensures Commit(Contents()) == MarkProviderFailed(old(Contents()), id, now)
    {
      if id !in orders { return; }
      var row := orders[id];
      row := row.(providerStatus := "PROVIDER_ORDER_FAILED");
      row := row.(lifecycle := PROVIDER_ORDER_FAILED);
      row := row.(updatedAt := now);
      orders := orders[id := row];
    }

    method Finalize(id: Uuid, p: ProviderOrder, telemetryId: Uuid, now: int) returns (why: Option<Rejection>)
      modifies this
      ensures (Contents(), why) == FinalizeOrder(env, old(Contents()), id, p, telemetryId, now)
    {
      if p.id.None? || !StartsWith(p.id.value, "order_") { return Some(InvalidOrderId); }
      var orderId := p.id.value;
      if p.status != Some("created") { return Some(NotCreated); }
      if id !in orders { return Some(SessionNotFound); }
      var row := orders[id];
      if p.amount != Some(row.amount) || p.currency != Some(row.currency) || p.receipt != Some(row.receipt) {
        return Some(OrderMismatch);
      }
      if telemetryId in telemetry || (orderId in byOrder && byOrder[orderId] != id) { return Some(Conflict); }
      telemetry := telemetry[telemetryId := Sign(env, FirstSignals(row, orderId, now))];
      byOrder := Unindex(byOrder, row.orderId)[orderId := id];
      row := row.(orderId := Some(orderId));
      row := row.(providerStatus := "created", providerAttempts := AttemptsOf(p));
      row := row.(lifecycle := OPEN, telemetryId := Some(telemetryId), reconciledAt := Some(now), updatedAt := now);
      orders := orders[id := row];
      why := None;
    }

    method BindVerified(id: Uuid, paymentId: string, status: string, now: int) returns (why: Option<Rejection>)
      modifies this
      ensures (Contents(), why) == BindVerifiedPayment(env, old(Contents()), id, paymentId, status, now)
    {
      hide DeriveLifecycle, Normal;
      if id !in orders { return Some(SessionNotFound); }
      var row := orders[id];
      if row.paymentId.Some? && row.paymentId.value != paymentId { return Some(BoundToAnotherPayment); }
      if row.telemetryId.None? { return Some(NoTelemetry); }
      var tid := row.telemetryId.value;
      if tid !in telemetry { return Some(TelemetryMissing); }
      var t := telemetry[tid];
      if t.signals.paymentId.Some? && t.signals.paymentId.value != paymentId { return Some(TelemetryBoundToAnother); }
      row := row.(paymentId := Some(paymentId));
      row := row.(providerAttempts := Max(row.providerAttempts, 1), authoritativeStatus := Some(status),
          lastPaymentStatus := Some(status));
      row := row.(lifecycle := DeriveLifecycle(Some(status), Some(row.providerStatus)));
      if row.lifecycle == PAID {
        row := row.(providerStatus := "paid");
      }
      row := row.(signatureVerifiedAt := Some(now), updatedAt := now);
      orders := orders[id := row];
      telemetry := telemetry[tid := BindTelemetry(env, t, paymentId)];
      why := None;
    }

    method ObserveEvent(e: PaymentEvent) returns (why: Option<Rejection>)
      modifies this
      ensures (Contents(), why) == ObservePaymentEvent(env, old(Contents()), e)
    {
      hide DeriveLifecycle, Normal, AttemptCount;
      if e.orderId.None? || e.orderId.value == "" { return None; }
      var orderId := e.orderId.value;
      if orderId !in byOrder || byOrder[orderId] !in orders { return None; }
      var id := byOrder[orderId];
      var row := orders[id];
      if e.paymentId in attempts {
        var attempt := attempts[e.paymentId];
        if attempt.sessionId != row.sessionId || attempt.orderId != orderId { return Some(AttemptBoundToAnother); }
      }
      attempts := attempts[e.paymentId := SeenAttempt(attempts, row, orderId, e)];
      row := row.(providerAttempts := Max(row.providerAttempts, AttemptCount(attempts, row.sessionId)));
      row := row.(lastPaymentStatus := Some(e.status), authoritativeStatus := Some(e.status));
      row := row.(lifecycle := DeriveLifecycle(Some(e.status), Some(row.providerStatus)));
      if row.lifecycle == PAID {
        row := row.(providerStatus := "paid", paymentId := Some(e.paymentId), webhookConfirmedAt := Some(e.observedAt));
        if row.telemetryId.Some? && row.telemetryId.value in telemetry {
          var t := telemetry[row.telemetryId.value];
          if t.signals.paymentId.None? || t.signals.paymentId.value == e.paymentId {
            telemetry := telemetry[row.telemetryId.value := BindTelemetry(env, t, e.paymentId)];
          }
        }
      } else if Normal(Some(e.status)) == "failed" {
        // Failed attempts leave the canonical payment free for the eventual success.
      } else if Normal(Some(e.status)) == "authorized" {
        row := row.(paymentId := Some(e.paymentId));
      }
      row := row.(updatedAt := e.observedAt);
      orders := orders[id := row];
      why := None;
    }

    /** Reconciles the selected sessions; `rows` is the database's answer to the selection query. */
    method ReconcileOpenOrders(provider: Provider, limit: int, abandonAfterHours: int, now: int, rows: seq<Order>)
      returns (r: Result<ReconcileResult, Rejection>)
      requires 1 <= limit <= 1000 ==> Selection(orders, limit, rows)
      modifies `orders
      ensures r.Failure? <==> !(1 <= limit <= 1000) || !(1 <= abandonAfterHours <= 720)
      ensures r.Failure? ==> Contents() == old(Contents())
      ensures r.Success? ==>
                var (after, counts) := ReconcileAll(old(Contents()), rows, provider, abandonAfterHours, now);
                Contents() == after && r.value == counts.(inspected := |rows|)
    {
      hide Fetched, ReconciledOrder, AttemptsOf, Selection, ReconcileAll;
      if !(1 <= limit <= 1000) { return Failure(InvalidLimit); }
      if !(1 <= abandonAfterHours <= 720) { return Failure(InvalidHours); }
      ghost var before := Contents();
      ReconcileNone(before, provider, abandonAfterHours, now);
      SelectedExist(orders, limit, rows);
      var updated, paid, attempted, open, abandoned, errors := 0, 0, 0, 0, 0, 0;
      for i := 0 to |rows|
        invariant (Contents(), ReconcileResult(0, updated, paid, attempted, open, abandoned, errors))
               == ReconcileAll(before, rows[..i], provider, abandonAfterHours, now)
      {
        ReconcileNext(before, rows, i, provider, abandonAfterHours, now);
        var answer := Fetched(provider, rows[i]);
        var id := rows[i].sessionId;
        if answer.None? {
          errors := errors + 1;
        } else if id in orders {
          var status := answer.value.status.value;
          orders := orders[id := ReconciledOrder(orders[id], status, AttemptsOf(answer.value), abandonAfterHours, now)];
          if status == "paid" {
            paid := paid + 1;
          } else if status == "attempted" {
            attempted := attempted + 1;
          } else {
            open := open + 1;
          }
          if orders[id].lifecycle == ABANDONED {
            abandoned := abandoned + 1;
          }
          updated := updated + 1;
        }
      }
      assert rows[..|rows|] == rows;
      r := Success(ReconcileResult(|rows|, updated, paid, attempted, open, abandoned, errors));
    }
  }
}
