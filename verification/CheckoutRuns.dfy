/** What every run of checkout transactions keeps, and the two ways a paid session can be disturbed. */
module CheckoutRuns {
  import opened Checkout
  import opened Text
  import opened Wrappers

  // ---------------------------------------------------------------- the invariant

  /** The provider's word and the lifecycle agree on whether the session is paid. */
  predicate PaidAgrees(row: Order) {
    row.lifecycle == PAID <==> row.providerStatus == "paid"
  }

  predicate OrderOk(id: Uuid, row: Order) {
    && row.sessionId == id && PaidAgrees(row) && row.orderId != Some("")
    && (row.orderId.Some? <==> row.telemetryId.Some?)
  }

  ghost predicate OrdersOk(orders: map<Uuid, Order>) {
    forall id <- orders :: OrderOk(id, orders[id])
  }

  /** Sessions and provider order identifiers are in one-to-one correspondence. */
  ghost predicate IndexOk(orders: map<Uuid, Order>, byOrder: map<string, Uuid>) {
    && (forall id <- orders :: orders[id].orderId.Some? ==>
          orders[id].orderId.value in byOrder && byOrder[orders[id].orderId.value] == id)
    && (forall o <- byOrder :: byOrder[o] in orders && orders[byOrder[o]].orderId == Some(o))
  }

  /** Every telemetry row's payload hash is the digest of what the row says. */
  ghost predicate TelemetryOk(env: Env, telemetry: map<Uuid, Telemetry>) {
    forall t <- telemetry :: telemetry[t].payloadHash == env.digest(telemetry[t].signals)
  }

  ghost predicate LinksOk(orders: map<Uuid, Order>, telemetry: map<Uuid, Telemetry>) {
    forall id <- orders :: orders[id].telemetryId.Some? ==> orders[id].telemetryId.value in telemetry
  }

  ghost predicate AttemptsOk(ids: set<Uuid>, attempts: map<string, Attempt>) {
    forall p <- attempts :: attempts[p].paymentId == p && attempts[p].sessionId in ids
  }

  ghost predicate Inv(env: Env, s: Store) {
    && OrdersOk(s.orders) && IndexOk(s.orders, s.byOrder) && TelemetryOk(env, s.telemetry)
    && LinksOk(s.orders, s.telemetry) && AttemptsOk(s.orders.Keys, s.attempts)
  }

  // ---------------------------------------------------------------- lifecycles

  lemma NormalPaid()
    ensures Normal(Some("paid")) == "paid"
  {
    NormalWord("paid");
  }

  /** Once the provider said paid, no payment status takes the lifecycle anywhere else. */
  lemma PaidAbsorbs(payment: Option<string>)
    ensures DeriveLifecycle(payment, Some("paid")) == PAID
  {
    NormalPaid();
  }

  lemma BoundOk(row: Order, paymentId: string, status: string, now: int)
    requires PaidAgrees(row)
    ensures PaidAgrees(BoundOrder(row, paymentId, status, now))
    ensures row.lifecycle == PAID ==> BoundOrder(row, paymentId, status, now).lifecycle == PAID
  {
    PaidAbsorbs(Some(status));
    hide DeriveLifecycle;
  }

  lemma ObservedOk(row: Order, e: PaymentEvent, n: nat)
    requires PaidAgrees(row)
    ensures PaidAgrees(ObservedOrder(row, e, n))
    ensures row.lifecycle == PAID ==> ObservedOrder(row, e, n).lifecycle == PAID
  {
    PaidAbsorbs(Some(e.status));
    hide DeriveLifecycle, Normal;
  }

  lemma ReconciledOk(row: Order, status: string, attempts: nat, hours: int, now: int)
    ensures PaidAgrees(ReconciledOrder(row, status, attempts, hours, now))
    ensures ReconciledOrder(row, status, attempts, hours, now).lifecycle == PAID <==> status == "paid"
  {
    hide Lower;
  }

  // ---------------------------------------------------------------- every step keeps the invariant

  /** Changing one session, without touching its order identifier. */
  lemma OrderChanged(orders: map<Uuid, Order>, byOrder: map<string, Uuid>, telemetry: map<Uuid, Telemetry>, id: Uuid,
                     row: Order)
    requires OrdersOk(orders) && IndexOk(orders, byOrder) && LinksOk(orders, telemetry) && id in orders
    requires OrderOk(id, row) && row.orderId == orders[id].orderId && row.telemetryId == orders[id].telemetryId
    ensures OrdersOk(orders[id := row]) && IndexOk(orders[id := row], byOrder) && LinksOk(orders[id := row], telemetry)
    ensures orders[id := row].Keys == orders.Keys
  {
    hide OrderOk;
  }

  lemma CreateKeepsInv(env: Env, s: Store, r: NewSession, id: Uuid, now: int)
    requires Inv(env, s)
    ensures Inv(env, CreatePending(env, s, r, id, now).0)
  {
    hide OrdersOk, IndexOk, LinksOk, AttemptsOk, PendingOrder;
    if CreatePending(env, s, r, id, now).1.None? {
      SessionAdded(env, s, r, id, now);
    }
  }

  lemma SessionAdded(env: Env, s: Store, r: NewSession, id: Uuid, now: int)
    requires Inv(env, s) && id !in s.orders
    ensures var orders := s.orders[id := PendingOrder(env, r, id, now)];
            OrdersOk(orders) && IndexOk(orders, s.byOrder) && LinksOk(orders, s.telemetry)
                && AttemptsOk(orders.Keys, s.attempts)
  {
    hide Receipt;
  }

  lemma MarkFailedKeepsInv(env: Env, s: Store, id: Uuid, now: int)
    requires Inv(env, s)
    ensures Inv(env, MarkProviderFailed(s, id, now).0)
  {
    if id in s.orders {
      OrderChanged(s.orders, s.byOrder, s.telemetry, id, MarkProviderFailed(s, id, now).0.orders[id]);
    }
  }

  lemma IndexMoved(orders: map<Uuid, Order>, byOrder: map<string, Uuid>, id: Uuid, row: Order)
    requires IndexOk(orders, byOrder) && id in orders && row.orderId.Some?
    requires row.orderId.value in byOrder ==> byOrder[row.orderId.value] == id
    ensures IndexOk(orders[id := row], Unindex(byOrder, orders[id].orderId)[row.orderId.value := id])
  {
  }

  lemma TelemetryAdded(env: Env, orders: map<Uuid, Order>, telemetry: map<Uuid, Telemetry>, id: Uuid, row: Order,
                       signals: Signals)
    requires OrdersOk(orders) && TelemetryOk(env, telemetry) && LinksOk(orders, telemetry) && id in orders
    requires row.sessionId == orders[id].sessionId && PaidAgrees(row) && row.orderId.Some? && row.telemetryId.Some?
    requires row.orderId.value != ""
    ensures OrdersOk(orders[id := row])
    ensures TelemetryOk(env, telemetry[row.telemetryId.value := Sign(env, signals)])
    ensures LinksOk(orders[id := row], telemetry[row.telemetryId.value := Sign(env, signals)])
  {
    assert OrderOk(id, orders[id]);
  }

  lemma FinalizeKeepsInv(env: Env, s: Store, id: Uuid, p: ProviderOrder, telemetryId: Uuid, now: int)
    requires Inv(env, s)
    ensures Inv(env, FinalizeOrder(env, s, id, p, telemetryId, now).0)
  {
    hide IndexOk, Unindex, AttemptsOf, OrderOk, AttemptsOk, TelemetryOk, LinksOk, OrdersOk;
    var step := FinalizeOrder(env, s, id, p, telemetryId, now);
    if step.1.None? {
      IndexMoved(s.orders, s.byOrder, id, step.0.orders[id]);
      assert step.0.orders.Keys == s.orders.Keys;
      var row := step.0.orders[id];
      TelemetryAdded(env, s.orders, s.telemetry, id, row, FirstSignals(s.orders[id], p.id.value, now));
    }
  }

  lemma OneOrderOk(orders: map<Uuid, Order>, id: Uuid)
    requires OrdersOk(orders) && id in orders
    ensures OrderOk(id, orders[id])
  {
  }

  lemma BindKeepsInv(env: Env, s: Store, id: Uuid, paymentId: string, status: string, now: int)
    requires Inv(env, s)
    ensures Inv(env, BindVerifiedPayment(env, s, id, paymentId, status, now).0)
  {
    hide OrdersOk, IndexOk, AttemptsOk, DeriveLifecycle, PaidAgrees;
    if BindVerifiedPayment(env, s, id, paymentId, status, now).1.None? {
      var row := s.orders[id];
      OneOrderOk(s.orders, id);
      BoundOk(row, paymentId, status, now);
      OrderChanged(s.orders, s.byOrder, s.telemetry, id, BoundOrder(row, paymentId, status, now));
    }
  }

  lemma ObservedTelemetryOk(env: Env, orders: map<Uuid, Order>, telemetry: map<Uuid, Telemetry>, row: Order,
                            paymentId: string)
    requires TelemetryOk(env, telemetry) && LinksOk(orders, telemetry)
    ensures TelemetryOk(env, ObservedTelemetry(env, telemetry, row, paymentId))
    ensures LinksOk(orders, ObservedTelemetry(env, telemetry, row, paymentId))
  {
  }

  lemma ObserveKeepsInv(env: Env, s: Store, e: PaymentEvent)
    requires Inv(env, s)
    ensures Inv(env, ObservePaymentEvent(env, s, e).0)
  {
    hide OrdersOk, IndexOk, PaidAgrees, AttemptCount, LinksOk, TelemetryOk, ObservedTelemetry, ObservedOrder;
    var step := ObservePaymentEvent(env, s, e);
    if step.1.None? && e.orderId.Some? && e.orderId.value != "" && e.orderId.value in s.byOrder
        && s.byOrder[e.orderId.value] in s.orders {
      var id := s.byOrder[e.orderId.value];
      var row := s.orders[id];
      OneOrderOk(s.orders, id);
      var attempts := s.attempts[e.paymentId := SeenAttempt(s.attempts, row, e.orderId.value, e)];
      var n := AttemptCount(attempts, row.sessionId);
      ObservedOk(row, e, n);
      ObservedSame(row, e, n);
      var row' := ObservedOrder(row, e, n);
      OrderChanged(s.orders, s.byOrder, s.telemetry, id, row');
      ObservedTelemetryOk(env, s.orders[id := row'], s.telemetry, row', e.paymentId);
    }
  }

  lemma ObservedSame(row: Order, e: PaymentEvent, n: nat)
    ensures var row' := ObservedOrder(row, e, n);
            row'.sessionId == row.sessionId && row'.orderId == row.orderId && row'.telemetryId == row.telemetryId
  {
    hide DeriveLifecycle, Normal;
  }

  lemma ReconcileKeepsInv(env: Env, s: Store, id: Uuid, status: string, attempts: nat, hours: int, now: int)
    requires Inv(env, s)
    ensures Inv(env, ReconcileCommit(s, id, status, attempts, hours, now).0)
  {
    if id in s.orders {
      ReconciledOk(s.orders[id], status, attempts, hours, now);
      OrderChanged(s.orders, s.byOrder, s.telemetry, id, ReconciledOrder(s.orders[id], status, attempts, hours, now));
    }
  }

  lemma StepKeepsInv(env: Env, s: Store, a: Action)
    requires Inv(env, s)
    ensures Inv(env, Step(env, s, a).0)
  {
    hide Inv, CreatePending, MarkProviderFailed, FinalizeOrder, BindVerifiedPayment, ObservePaymentEvent,
        ReconcileCommit;
    match a
    case Create(r, id, now) => CreateKeepsInv(env, s, r, id, now);
    case MarkFailed(id, now) => MarkFailedKeepsInv(env, s, id, now);
    case Finalize(id, p, telemetryId, now) => FinalizeKeepsInv(env, s, id, p, telemetryId, now);
    case Bind(id, paymentId, status, now) => BindKeepsInv(env, s, id, paymentId, status, now);
    case Observe(e) => ObserveKeepsInv(env, s, e);
    case Reconcile(id, status, attempts, hours, now) => ReconcileKeepsInv(env, s, id, status, attempts, hours, now);
  }

  /** After every run of transactions, in any order, the invariant holds. */
  lemma {:induction false} RunKeepsInv(env: Env, actions: seq<Action>)
    ensures Inv(env, Run(env, EMPTY, actions))
  {
    if actions == [] {
    } else {
      hide Inv, Step;
      RunKeepsInv(env, actions[..|actions| - 1]);
      StepKeepsInv(env, Run(env, EMPTY, actions[..|actions| - 1]), actions[|actions| - 1]);
    }
  }

  // ---------------------------------------------------------------- who can leave PAID

  predicate Paid(s: Store, id: Uuid) {
    id in s.orders && s.orders[id].lifecycle == PAID
  }

  /** The only transactions that may take a session out of PAID. */
  predicate Unpays(a: Action, id: Uuid) {
    match a
    case MarkFailed(k, _) => k == id
    case Finalize(k, _, _, _) => k == id
    case Reconcile(k, status, _, _, _) => k == id && Reconciles(status) && status != "paid"
    case _ => false
  }

  /** A paid session leaves PAID exactly by an accepted transaction of those kinds; never by a bind or
      a payment event, late or repeated. */
  lemma LeavesPaid(env: Env, s: Store, a: Action, id: Uuid)
    requires Inv(env, s) && Paid(s, id)
    ensures !Paid(Step(env, s, a).0, id) <==> Unpays(a, id) && Step(env, s, a).1.None?
  {
    hide Inv, CreatePending, MarkProviderFailed, FinalizeOrder, BindVerifiedPayment, ObservePaymentEvent,
        ReconcileCommit;
    match a
    case Create(r, k, now) => CreateKeepsPaid(env, s, r, k, now, id);
    case MarkFailed(k, now) => MarkFailedUnpays(s, k, now, id);
    case Finalize(k, p, telemetryId, now) => FinalizeUnpays(env, s, k, p, telemetryId, now, id);
    case Bind(k, paymentId, status, now) => BindKeepsPaid(env, s, k, paymentId, status, now, id);
    case Observe(e) => ObserveKeepsPaid(env, s, e, id);
    case Reconcile(k, status, attempts, hours, now) => ReconcileUnpays(s, k, status, attempts, hours, now, id);
  }

  lemma CreateKeepsPaid(env: Env, s: Store, r: NewSession, k: Uuid, now: int, id: Uuid)
    requires Paid(s, id)
    ensures Paid(CreatePending(env, s, r, k, now).0, id)
  {
  }

  lemma MarkFailedUnpays(s: Store, k: Uuid, now: int, id: Uuid)
    requires Paid(s, id)
    ensures !Paid(MarkProviderFailed(s, k, now).0, id) <==> k == id
    ensures MarkProviderFailed(s, k, now).1.None?
  {
  }

  lemma FinalizeUnpays(env: Env, s: Store, k: Uuid, p: ProviderOrder, telemetryId: Uuid, now: int, id: Uuid)
    requires Paid(s, id)
    ensures !Paid(FinalizeOrder(env, s, k, p, telemetryId, now).0, id) <==>
            k == id && FinalizeOrder(env, s, k, p, telemetryId, now).1.None?
  {
    hide Unindex, AttemptsOf, FirstSignals, Sign;
  }

  lemma BindKeepsPaid(env: Env, s: Store, k: Uuid, paymentId: string, status: string, now: int, id: Uuid)
    requires Inv(env, s) && Paid(s, id)
    ensures Paid(BindVerifiedPayment(env, s, k, paymentId, status, now).0, id)
  {
    assert OrderOk(id, s.orders[id]);
    BoundOk(s.orders[id], paymentId, status, now);
    hide Inv, BoundOrder, BindTelemetry;
  }

  lemma ReconcileUnpays(s: Store, k: Uuid, status: string, attempts: nat, hours: int, now: int, id: Uuid)
    requires Paid(s, id)
    ensures !Paid(ReconcileCommit(s, k, status, attempts, hours, now).0, id) <==> k == id && status != "paid"
    ensures ReconcileCommit(s, k, status, attempts, hours, now).1.None?
  {
    ReconciledOk(s.orders[id], status, attempts, hours, now);
    hide ReconciledOrder;
  }

  lemma ObserveKeepsPaid(env: Env, s: Store, e: PaymentEvent, id: Uuid)
    requires Inv(env, s) && Paid(s, id)
    ensures Paid(ObservePaymentEvent(env, s, e).0, id)
  {
    hide DeriveLifecycle, Normal, AttemptCount, ObservedOrder, ObservedTelemetry, SeenAttempt;
    assert OrderOk(id, s.orders[id]);
    if e.orderId.Some? && e.orderId.value in s.byOrder {
      var attempts := s.attempts[e.paymentId := SeenAttempt(s.attempts, s.orders[id], e.orderId.value, e)];
      ObservedOk(s.orders[id], e, AttemptCount(attempts, s.orders[id].sessionId));
    }
  }

  /** Over whole runs: a session paid at some point is still paid at the end unless one of those
      transactions came in between. */
  lemma {:induction false} PaidPersists(env: Env, s: Store, actions: seq<Action>, id: Uuid)
    requires Inv(env, s) && Paid(s, id) && forall a <- actions :: !Unpays(a, id)
    ensures Inv(env, Run(env, s, actions)) && Paid(Run(env, s, actions), id)
  {
    if actions == [] {
    } else {
      hide Inv, Step, Paid, Unpays;
      var n := |actions| - 1;
      assert actions[n] in actions;
      PaidPersists(env, s, actions[..n], id);
      StepKeepsInv(env, Run(env, s, actions[..n]), actions[n]);
      LeavesPaid(env, Run(env, s, actions[..n]), actions[n], id);
    }
  }

  /** A status fetched before the payment arrived and written after it undoes PAID: the commit keeps a
      paid session paid exactly when the fetched status was already "paid". */
  lemma StaleReconcile(env: Env, s: Store, id: Uuid, fetched: string, attempts: nat, hours: int, now: int)
    requires Inv(env, s) && Paid(s, id) && Reconciles(fetched)
    ensures Paid(Step(env, s, Reconcile(id, fetched, attempts, hours, now)).0, id) <==> fetched == "paid"
  {
    LeavesPaid(env, s, Reconcile(id, fetched, attempts, hours, now), id);
  }

  // ---------------------------------------------------------------- payment bindings

  predicate Moves(row: Order, e: PaymentEvent) {
    || row.lifecycle == PAID || Normal(Some(row.providerStatus)) == "paid"
    || Normal(Some(e.status)) in {"captured", "refunded", "authorized"}
  }

  /** The payment a payment event leaves on its session: it moves there exactly when the session is
      (or becomes) paid or the payment is authorized, and stays what it was otherwise. */
  lemma EventBinds(row: Order, e: PaymentEvent, n: nat)
    requires PaidAgrees(row)
    ensures var row' := ObservedOrder(row, e, n);
            row'.paymentId == if Moves(row, e) then Some(e.paymentId) else row.paymentId
  {
    NormalPaid();
    hide Normal;
  }

  /** The attempts table lets the event through: its payment is new, or known to this session and order. */
  predicate AttemptFits(attempts: map<string, Attempt>, id: Uuid, orderId: string, paymentId: string) {
    paymentId in attempts ==> attempts[paymentId].sessionId == id && attempts[paymentId].orderId == orderId
  }

  /** Any event that reaches a paid session, late, redelivered or of whatever status, is accepted exactly
      when the attempts table lets it through. It then takes over the session's payment, while telemetry
      keeps the payment it is bound to: row and telemetry agree afterwards exactly when telemetry was
      unbound or bound to the event's own payment. */
  lemma LateEventRebinds(env: Env, s: Store, id: Uuid, e: PaymentEvent)
    requires Inv(env, s) && Paid(s, id) && e.orderId.Some? && e.orderId == s.orders[id].orderId
    ensures s.orders[id].telemetryId.Some? && s.orders[id].telemetryId.value in s.telemetry
    ensures var (s', why) := ObservePaymentEvent(env, s, e);
            var t := s.orders[id].telemetryId.value;
            var bound := s.telemetry[t].signals.paymentId;
            && (why.None? <==> AttemptFits(s.attempts, id, e.orderId.value, e.paymentId))
            && (why.Some? ==> s' == s)
            && (why.None? ==>
                  && Paid(s', id) && s'.orders[id].paymentId == Some(e.paymentId) && t in s'.telemetry
                  && s'.telemetry[t].signals.paymentId
                       == (if FreeFor(bound, e.paymentId) then Some(e.paymentId) else bound)
                  && (s'.orders[id].paymentId == s'.telemetry[t].signals.paymentId <==> FreeFor(bound, e.paymentId)))
  {
    var row := s.orders[id];
    OneOrderOk(s.orders, id);
    assert s.byOrder[row.orderId.value] == id;
    var attempts := s.attempts[e.paymentId := SeenAttempt(s.attempts, row, e.orderId.value, e)];
    var n := AttemptCount(attempts, row.sessionId);
    EventBinds(row, e, n);
    ObservedOk(row, e, n);
    ObservedSame(row, e, n);
    hide ObservedOrder, AttemptCount, OrdersOk, IndexOk, TelemetryOk, AttemptsOk, SeenAttempt;
  }

  // ---------------------------------------------------------------- write-once data over whole runs

  /** Only an empty payment may be filled in. */
  predicate FilledIn(a: Signals, b: Signals) {
    a == b || (a.paymentId.None? && a.(paymentId := b.paymentId) == b)
  }

  ghost predicate TelemetryKept(a: map<Uuid, Telemetry>, b: map<Uuid, Telemetry>) {
    forall t <- a :: t in b && FilledIn(a[t].signals, b[t].signals)
  }

  predicate SameBinding(a: Attempt, b: Attempt) {
    a.sessionId == b.sessionId && a.orderId == b.orderId && a.accountId == b.accountId && a.firstSeenAt == b.firstSeenAt
  }

  /** A payment once seen stays with its session and its order. */
  ghost predicate AttemptsKept(a: map<string, Attempt>, b: map<string, Attempt>) {
    forall p <- a :: p in b && SameBinding(a[p], b[p])
  }

  ghost predicate Extends(a: Store, b: Store) {
    a.orders.Keys <= b.orders.Keys && TelemetryKept(a.telemetry, b.telemetry) && AttemptsKept(a.attempts, b.attempts)
  }

  lemma BindKeepsTelemetry(env: Env, telemetry: map<Uuid, Telemetry>, t: Uuid, paymentId: string)
    requires t in telemetry && FreeFor(telemetry[t].signals.paymentId, paymentId)
    ensures TelemetryKept(telemetry, telemetry[t := BindTelemetry(env, telemetry[t], paymentId)])
  {
  }

  lemma StepExtends(env: Env, s: Store, a: Action)
    ensures Extends(s, Step(env, s, a).0)
  {
    ExtendsSelf(s);
    hide ReconciledOrder, BoundOrder, BindTelemetry, TelemetryKept, AttemptsKept, ObservePaymentEvent;
    match a
    case Finalize(id, p, telemetryId, now) =>
      if FinalizeOrder(env, s, id, p, telemetryId, now).1.None? {
        NewTelemetry(s.telemetry, telemetryId, Sign(env, FirstSignals(s.orders[id], p.id.value, now)));
      }
    case Bind(id, paymentId, status, now) =>
      if BindVerifiedPayment(env, s, id, paymentId, status, now).1.None? {
        BindKeepsTelemetry(env, s.telemetry, s.orders[id].telemetryId.value, paymentId);
      }
    case Observe(e) => ObserveExtends(env, s, e);
    case _ =>
  }

  lemma ExtendsSelf(s: Store)
    ensures Extends(s, s)
  {
  }

  lemma NewTelemetry(telemetry: map<Uuid, Telemetry>, t: Uuid, row: Telemetry)
    requires t !in telemetry
    ensures TelemetryKept(telemetry, telemetry[t := row])
  {
  }

  lemma ObserveExtends(env: Env, s: Store, e: PaymentEvent)
    ensures Extends(s, ObservePaymentEvent(env, s, e).0)
  {
    hide BindTelemetry, ObservedOrder, DeriveLifecycle, AttemptCount;
    var s' := ObservePaymentEvent(env, s, e).0;
    if e.orderId.Some? && e.orderId.value in s.byOrder && s.byOrder[e.orderId.value] in s'.orders {
      var row' := s'.orders[s.byOrder[e.orderId.value]];
      if row'.telemetryId.Some? && row'.telemetryId.value in s.telemetry
         && FreeFor(s.telemetry[row'.telemetryId.value].signals.paymentId, e.paymentId) {
        BindKeepsTelemetry(env, s.telemetry, row'.telemetryId.value, e.paymentId);
      }
    }
  }

  /** Telemetry payments are write-once and payment attempts never change hands, over every run. */
  lemma {:induction false} RunExtends(env: Env, s: Store, actions: seq<Action>)
    ensures Extends(s, Run(env, s, actions))
  {
    if actions == [] {
    } else {
      var before := Run(env, s, actions[..|actions| - 1]);
      RunExtends(env, s, actions[..|actions| - 1]);
      StepExtends(env, before, actions[|actions| - 1]);
      hide Step;
    }
  }

  // ---------------------------------------------------------------- reconciliation

  /** The counters add up: every inspected session is updated or an error, every update is paid,
      attempted or open, and only unpaid ones are abandoned. */
  lemma {:induction false} CountersBalance(s: Store, rows: seq<Order>, provider: Provider, hours: int, now: int)
    requires forall row <- rows :: row.sessionId in s.orders
    ensures var c := ReconcileAll(s, rows, provider, hours, now).1;
            c.updated + c.errors == |rows| && c.updated == c.paid + c.attempted + c.open
                && c.abandoned <= c.attempted + c.open
  {
    if rows != [] {
      var n := |rows| - 1;
      CountersBalance(s, rows[..n], provider, hours, now);
      var answer := Fetched(provider, rows[n]);
      if answer.Some? {
        var before := ReconcileAll(s, rows[..n], provider, hours, now).0;
        ReconciledOk(before.orders[rows[n].sessionId], answer.value.status.value, AttemptsOf(answer.value), hours, now);
      }
      hide ReconciledOrder, Fetched;
    }
  }

  /** Without interference each selected session ends as its own fetched status says, and no other
      session changes. */
  lemma {:induction false} ReconcileMeaning(s: Store, rows: seq<Order>, provider: Provider, hours: int, now: int,
                                            id: Uuid)
    requires id in s.orders
    requires forall row <- rows :: row.sessionId in s.orders && s.orders[row.sessionId] == row
    requires forall i, j :: 0 <= i < j < |rows| ==> rows[i].sessionId != rows[j].sessionId
    ensures var row := s.orders[id];
            var answer := Fetched(provider, row);
            ReconcileAll(s, rows, provider, hours, now).0.orders[id]
            == if row in rows && row.sessionId == id && answer.Some?
               then ReconciledOrder(row, answer.value.status.value, AttemptsOf(answer.value), hours, now) else row
  {
    hide ReconciledOrder, Fetched, AttemptsOf;
    if rows != [] {
      var n := |rows| - 1;
      assert rows == rows[..n] + [rows[n]];
      ReconcileMeaning(s, rows[..n], provider, hours, now, id);
    }
  }
}
