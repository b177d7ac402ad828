/** Which session a payment belongs to: when a bind or an event gives it to a second one, and why calls
    guarded by the provider's own records never do. */
module CheckoutPayments {
  import opened Checkout
  import opened CheckoutRuns
  import opened Text
  import opened Wrappers

  predicate Carries(orders: map<Uuid, Order>, id: Uuid, paymentId: string) {
    id in orders && orders[id].paymentId == Some(paymentId)
  }

  predicate CarriedElsewhere(orders: map<Uuid, Order>, id: Uuid, paymentId: string) {
    exists k <- orders :: k != id && Carries(orders, k, paymentId)
  }

  // ---------------------------------------------------------------- unguarded calls

  /** The checks of a bind: its own row and its own telemetry, never the attempts or another row. */
  predicate BindAccepted(s: Store, id: Uuid, paymentId: string) {
    && id in s.orders && FreeFor(s.orders[id].paymentId, paymentId)
    && s.orders[id].telemetryId.Some? && s.orders[id].telemetryId.value in s.telemetry
    && FreeFor(s.telemetry[s.orders[id].telemetryId.value].signals.paymentId, paymentId)
  }

  lemma ElsewhereKept(orders: map<Uuid, Order>, id: Uuid, row: Order, paymentId: string)
    ensures CarriedElsewhere(orders[id := row], id, paymentId) <==> CarriedElsewhere(orders, id, paymentId)
  {
    if CarriedElsewhere(orders, id, paymentId) {
      var k :| k in orders && k != id && Carries(orders, k, paymentId);
      assert Carries(orders[id := row], k, paymentId);
    }
    if CarriedElsewhere(orders[id := row], id, paymentId) {
      var k :| k in orders[id := row] && k != id && Carries(orders[id := row], k, paymentId);
      assert Carries(orders, k, paymentId);
    }
  }

  /** A bind leaves its payment on two sessions exactly when its own checks pass and another session
      already carries the payment; what the attempts table says about the payment plays no part. */
  lemma BindShares(env: Env, s: Store, id: Uuid, paymentId: string, status: string, now: int)
    ensures var (s', why) := BindVerifiedPayment(env, s, id, paymentId, status, now);
            && (why.None? ==> Carries(s'.orders, id, paymentId))
            && (why.None? && CarriedElsewhere(s'.orders, id, paymentId)
                <==> BindAccepted(s, id, paymentId) && CarriedElsewhere(s.orders, id, paymentId))
  {
    hide DeriveLifecycle, CarriedElsewhere, BindTelemetry;
    if id in s.orders {
      ElsewhereKept(s.orders, id, BoundOrder(s.orders[id], paymentId, status, now), paymentId);
    }
  }

  /** A payment event brings its payment to a second session exactly when the attempts table lets it
      through, it moves the payment to its own session, and another session already carries it. */
  lemma EventShares(env: Env, s: Store, e: PaymentEvent, id: Uuid)
    requires Inv(env, s) && id in s.orders && e.orderId.Some? && e.orderId == s.orders[id].orderId
    requires !Carries(s.orders, id, e.paymentId)
    ensures var s' := ObservePaymentEvent(env, s, e).0;
            Carries(s'.orders, id, e.paymentId) && CarriedElsewhere(s'.orders, id, e.paymentId)
            <==> && AttemptFits(s.attempts, id, e.orderId.value, e.paymentId) && Moves(s.orders[id], e)
                 && CarriedElsewhere(s.orders, id, e.paymentId)
  {
    var row := s.orders[id];
    OneOrderOk(s.orders, id);
    assert s.byOrder[row.orderId.value] == id;
    var attempts := s.attempts[e.paymentId := SeenAttempt(s.attempts, row, e.orderId.value, e)];
    var n := AttemptCount(attempts, row.sessionId);
    EventBinds(row, e, n);
    ElsewhereKept(s.orders, id, ObservedOrder(row, e, n), e.paymentId);
    hide ObservedOrder, AttemptCount, SeenAttempt, Moves, CarriedElsewhere, Inv, ObservedTelemetry;
  }

  // ---------------------------------------------------------------- the caller's guard

  /** A payment as the provider describes it; a missing field is None. */
  datatype ProviderPayment = ProviderPayment(id: Option<string>, orderId: Option<string>, amount: Option<int>,
                                             currency: Option<string>, status: Option<string>)
  datatype Mismatch = IdMismatch | OrderIdMismatch | AmountMismatch | CurrencyMismatch | NotSuccessful

  /** Validation succeeds, with the payment's own status, exactly for a successful payment of this very
      order, amount and currency. */
  function ValidateAuthoritative(storedOrderId: string, storedAmount: int, storedCurrency: string, paymentId: string,
                                 payment: ProviderPayment): (r: Result<string, Mismatch>)
    ensures r.Success?
       <==> && payment.status in {Some("authorized"), Some("captured"), Some("refunded")}
            && payment.(status := None)
               == ProviderPayment(Some(paymentId), Some(storedOrderId), Some(storedAmount), Some(storedCurrency), None)
    ensures r.Success? ==> payment.status == Some(r.value)
  {
    if payment.id != Some(paymentId) then Failure(IdMismatch)
    else if payment.orderId != Some(storedOrderId) then Failure(OrderIdMismatch)
    else if payment.amount != Some(storedAmount) then Failure(AmountMismatch)
    else if payment.currency != Some(storedCurrency) then Failure(CurrencyMismatch)
    else if payment.status.None? || payment.status.value !in {"authorized", "captured", "refunded"}
        then Failure(NotSuccessful)
    else Success(payment.status.value)
  }

  /** What never changes at the provider: the order each payment was made for, and the receipt each
      order was created with. */
  datatype World = World(home: string -> string, receipt: string -> string)

  predicate Vouched(w: World, payment: ProviderPayment) {
    payment.id.Some? && payment.orderId.Some? ==> payment.orderId.value == w.home(payment.id.value)
  }

  /** The session as read by the caller, and a payment record of the provider that validates against it. */
  ghost predicate Guarded(w: World, s: Store, id: Uuid, paymentId: string, status: string) {
    && id in s.orders && s.orders[id].orderId.Some?
    && exists payment :: Validates(w, s.orders[id], paymentId, payment, status)
  }

  predicate Validates(w: World, row: Order, paymentId: string, payment: ProviderPayment, status: string)
    requires row.orderId.Some?
  {
    && Vouched(w, payment)
    && ValidateAuthoritative(row.orderId.value, row.amount, row.currency, paymentId, payment) == Success(status)
  }

  /** Each bind was guarded, possibly some transactions earlier; orders and events are the provider's. */
  ghost predicate HonestAt(w: World, env: Env, actions: seq<Action>, i: nat)
    requires i < |actions|
  {
    match actions[i]
    case Finalize(_, p, _, _) => p.id.Some? && p.receipt.Some? ==> p.receipt.value == w.receipt(p.id.value)
    case Bind(id, paymentId, status, _) =>
      exists j :: 0 <= j <= i && Guarded(w, Run(env, EMPTY, actions[..j]), id, paymentId, status)
    case Observe(e) => e.orderId.Some? ==> e.orderId.value == w.home(e.paymentId)
    case _ => true
  }

  ghost predicate HonestRun(w: World, env: Env, actions: seq<Action>) {
    forall i :: 0 <= i < |actions| ==> HonestAt(w, env, actions, i)
  }

  // ---------------------------------------------------------------- receipts tell payments apart

  /** The session's order and payment, if any, lead to the session's own receipt. */
  predicate AtHome(w: World, row: Order) {
    && (row.orderId.Some? ==> w.receipt(row.orderId.value) == row.receipt)
    && (row.paymentId.Some? ==> w.receipt(w.home(row.paymentId.value)) == row.receipt)
  }

  ghost predicate AllAtHome(w: World, orders: map<Uuid, Order>) {
    && (forall id <- orders :: AtHome(w, orders[id]))
    && (forall a <- orders, b <- orders :: a != b ==> orders[a].receipt != orders[b].receipt)
  }

  /** Receipts are fixed when a session is created. */
  ghost predicate ReceiptsKept(a: map<Uuid, Order>, b: map<Uuid, Order>) {
    forall id <- a :: id in b && b[id].receipt == a[id].receipt
  }

  lemma RowReplaced(w: World, orders: map<Uuid, Order>, id: Uuid, row: Order)
    requires AllAtHome(w, orders) && id in orders && AtHome(w, row) && row.receipt == orders[id].receipt
    ensures AllAtHome(w, orders[id := row])
  {
    hide AtHome;
  }

  lemma FinalizeKeepsReceipts(env: Env, s: Store, id: Uuid, p: ProviderOrder, telemetryId: Uuid, now: int)
    ensures ReceiptsKept(s.orders, FinalizeOrder(env, s, id, p, telemetryId, now).0.orders)
  {
    hide Sign, Unindex, AttemptsOf, FirstSignals;
  }

  lemma BindKeepsReceipts(env: Env, s: Store, id: Uuid, paymentId: string, status: string, now: int)
    ensures ReceiptsKept(s.orders, BindVerifiedPayment(env, s, id, paymentId, status, now).0.orders)
  {
    hide DeriveLifecycle, BindTelemetry;
  }

  lemma ReconcileKeepsReceipts(s: Store, id: Uuid, status: string, attempts: nat, hours: int, now: int)
    ensures ReceiptsKept(s.orders, ReconcileCommit(s, id, status, attempts, hours, now).0.orders)
  {
    hide Lower;
  }

  lemma StepKeepsReceipts(env: Env, s: Store, a: Action)
    ensures ReceiptsKept(s.orders, Step(env, s, a).0.orders)
  {
    hide PendingOrder, FinalizeOrder, BindVerifiedPayment, ObservePaymentEvent, ReconcileCommit;
    match a
    case Finalize(id, p, telemetryId, now) => FinalizeKeepsReceipts(env, s, id, p, telemetryId, now);
    case Bind(id, paymentId, status, now) => BindKeepsReceipts(env, s, id, paymentId, status, now);
    case Observe(e) => ObserveKeepsReceipts(env, s, e);
    case Reconcile(id, status, attempts, hours, now) => ReconcileKeepsReceipts(s, id, status, attempts, hours, now);
    case _ =>
  }

  lemma ObserveKeepsReceipts(env: Env, s: Store, e: PaymentEvent)
    ensures ReceiptsKept(s.orders, ObservePaymentEvent(env, s, e).0.orders)
  {
    hide DeriveLifecycle, Normal, AttemptCount, SeenAttempt, ObservedTelemetry;
  }

  lemma {:induction false} RunKeepsReceipts(env: Env, s: Store, actions: seq<Action>, j: nat)
    requires j <= |actions|
    ensures ReceiptsKept(Run(env, s, actions[..j]).orders, Run(env, s, actions).orders)
    decreases |actions|
  {
    hide Step;
    if j == |actions| {
      assert actions[..j] == actions;
    } else {
      var n := |actions| - 1;
      assert actions[..n][..j] == actions[..j];
      RunKeepsReceipts(env, s, actions[..n], j);
      StepKeepsReceipts(env, Run(env, s, actions[..n]), actions[n]);
    }
  }

  /** A guard passed at any earlier point still speaks for the session's receipt. */
  lemma GuardSpeaks(w: World, env: Env, s: Store, now: Store, id: Uuid, paymentId: string, status: string)
    requires Guarded(w, s, id, paymentId, status) && AllAtHome(w, s.orders) && ReceiptsKept(s.orders, now.orders)
    ensures id in now.orders && w.receipt(w.home(paymentId)) == now.orders[id].receipt
  {
    var payment :| Validates(w, s.orders[id], paymentId, payment, status);
    assert AtHome(w, s.orders[id]);
  }

  lemma CreateAtHome(w: World, env: Env, s: Store, r: NewSession, id: Uuid, now: int)
    requires AllAtHome(w, s.orders)
    ensures AllAtHome(w, CreatePending(env, s, r, id, now).0.orders)
  {
    hide Receipt;
  }

  lemma FinalizeAtHome(w: World, env: Env, s: Store, id: Uuid, p: ProviderOrder, telemetryId: Uuid, now: int)
    requires AllAtHome(w, s.orders)
    requires p.id.Some? && p.receipt.Some? ==> p.receipt.value == w.receipt(p.id.value)
    ensures AllAtHome(w, FinalizeOrder(env, s, id, p, telemetryId, now).0.orders)
  {
    hide Sign, Unindex, AttemptsOf, FirstSignals;
    var step := FinalizeOrder(env, s, id, p, telemetryId, now);
    if step.1.None? {
      RowReplaced(w, s.orders, id, step.0.orders[id]);
    }
  }

  lemma BindAtHome(w: World, env: Env, s: Store, id: Uuid, paymentId: string, status: string, now: int)
    requires AllAtHome(w, s.orders) && id in s.orders && w.receipt(w.home(paymentId)) == s.orders[id].receipt
    ensures AllAtHome(w, BindVerifiedPayment(env, s, id, paymentId, status, now).0.orders)
  {
    hide DeriveLifecycle, BindTelemetry;
    RowReplaced(w, s.orders, id, BoundOrder(s.orders[id], paymentId, status, now));
  }

  lemma ObserveAtHome(w: World, env: Env, s: Store, e: PaymentEvent)
    requires Inv(env, s) && AllAtHome(w, s.orders)
    requires e.orderId.Some? ==> e.orderId.value == w.home(e.paymentId)
    ensures AllAtHome(w, ObservePaymentEvent(env, s, e).0.orders)
  {
    if e.orderId.Some? && e.orderId.value in s.byOrder {
      var id := s.byOrder[e.orderId.value];
      var row := s.orders[id];
      var n := AttemptCount(s.attempts[e.paymentId := SeenAttempt(s.attempts, row, e.orderId.value, e)], row.sessionId);
      EventAtHome(w, row, e, n);
      RowReplaced(w, s.orders, id, ObservedOrder(row, e, n));
    }
    hide ObservedOrder, ObservedTelemetry, AttemptCount, SeenAttempt, AtHome;
  }

  lemma EventAtHome(w: World, row: Order, e: PaymentEvent, n: nat)
    requires AtHome(w, row) && row.orderId == Some(w.home(e.paymentId))
    ensures AtHome(w, ObservedOrder(row, e, n)) && ObservedOrder(row, e, n).receipt == row.receipt
  {
    hide DeriveLifecycle, Normal;
  }

  lemma OthersAtHome(w: World, env: Env, s: Store, a: Action)
    requires AllAtHome(w, s.orders) && (a.MarkFailed? || a.Reconcile?)
    ensures AllAtHome(w, Step(env, s, a).0.orders)
  {
    hide Lower;
  }

  lemma {:induction false} RunAtHome(w: World, env: Env, actions: seq<Action>)
    requires HonestRun(w, env, actions)
    ensures AllAtHome(w, Run(env, EMPTY, actions).orders)
    decreases |actions|
  {
    hide AllAtHome, ReceiptsKept, Inv, Step, Guarded, CreatePending, FinalizeOrder, BindVerifiedPayment,
        ObservePaymentEvent;
    if actions == [] {
      NoneAtHome(w);
    } else {
      var n := |actions| - 1;
      HonestPrefix(w, env, actions, n);
      RunAtHome(w, env, actions[..n]);
      RunKeepsInv(env, actions[..n]);
      assert HonestAt(w, env, actions, n);
      StepAtHome(w, env, actions);
    }
  }

  lemma NoneAtHome(w: World)
    ensures AllAtHome(w, EMPTY.orders)
  {
  }

  lemma HonestPrefix(w: World, env: Env, actions: seq<Action>, n: nat)
    requires HonestRun(w, env, actions) && n <= |actions|
    ensures HonestRun(w, env, actions[..n])
  {
    forall i | 0 <= i < n ensures HonestAt(w, env, actions[..n], i) {
      assert HonestAt(w, env, actions, i);
      assert forall j :: 0 <= j <= i ==> actions[..n][..j] == actions[..j];
    }
    hide Guarded, Run;
  }

  /** The last step of an honest run. */
  lemma StepAtHome(w: World, env: Env, actions: seq<Action>)
    requires HonestRun(w, env, actions) && actions != []
    requires AllAtHome(w, Run(env, EMPTY, actions[..|actions| - 1]).orders)
             && Inv(env, Run(env, EMPTY, actions[..|actions| - 1]))
    ensures AllAtHome(w, Run(env, EMPTY, actions).orders)
    decreases |actions|, 0
  {
    hide AllAtHome, ReceiptsKept, Inv, Guarded, CreatePending, FinalizeOrder, BindVerifiedPayment, ObservePaymentEvent;
    hide MarkProviderFailed, ReconcileCommit;
    var n := |actions| - 1;
    var s := Run(env, EMPTY, actions[..n]);
    assert HonestAt(w, env, actions, n);
    match actions[n]
    case Create(r, id, now) => CreateAtHome(w, env, s, r, id, now);
    case Finalize(id, p, telemetryId, now) => FinalizeAtHome(w, env, s, id, p, telemetryId, now);
    case Bind(id, paymentId, status, now) =>
      var j :| 0 <= j <= n && Guarded(w, Run(env, EMPTY, actions[..j]), id, paymentId, status);
      assert actions[..n][..j] == actions[..j];
      HonestPrefix(w, env, actions, j);
      RunAtHome(w, env, actions[..j]);
      RunKeepsReceipts(env, EMPTY, actions[..n], j);
      GuardSpeaks(w, env, Run(env, EMPTY, actions[..j]), s, id, paymentId, status);
      BindAtHome(w, env, s, id, paymentId, status, now);
    case Observe(e) => ObserveAtHome(w, env, s, e);
    case _ => OthersAtHome(w, env, s, actions[n]);
  }

  /** Over every run whose binds were guarded, however long before, and whose orders and events are the
      provider's, no payment is ever on two sessions, re-finalized or not. */
  lemma GuardedRunsNeverShare(w: World, env: Env, actions: seq<Action>, id: Uuid, paymentId: string)
    requires HonestRun(w, env, actions)
    ensures var orders := Run(env, EMPTY, actions).orders;
            Carries(orders, id, paymentId) ==> !CarriedElsewhere(orders, id, paymentId)
  {
    var orders := Run(env, EMPTY, actions).orders;
    RunAtHome(w, env, actions);
    hide Run, HonestRun;
    if Carries(orders, id, paymentId) {
      forall k | Carries(orders, k, paymentId) ensures k == id {
        CarriersAreOne(w, orders, id, k, paymentId);
      }
    }
  }

  lemma CarriersAreOne(w: World, orders: map<Uuid, Order>, a: Uuid, b: Uuid, paymentId: string)
    requires AllAtHome(w, orders) && Carries(orders, a, paymentId) && Carries(orders, b, paymentId)
    ensures a == b
  {
    assert AtHome(w, orders[a]) && AtHome(w, orders[b]);
  }

  // ---------------------------------------------------------------- finalizing again

  /** Events of the order reach the session. */
  predicate Reached(s: Store, id: Uuid, orderId: string) {
    && orderId != "" && orderId in s.byOrder && s.byOrder[orderId] == id
    && id in s.orders && s.orders[id].sessionId == id && PaidAgrees(s.orders[id])
  }

  lemma EventReaches(env: Env, s: Store, e: PaymentEvent, id: Uuid)
    requires e.orderId.Some? && Reached(s, id, e.orderId.value)
    ensures var (s', why) := ObservePaymentEvent(env, s, e);
            && (why.None? <==> AttemptFits(s.attempts, id, e.orderId.value, e.paymentId))
            && (why.Some? ==> s' == s)
            && (why.None? ==>
                  && id in s'.orders
                  && s'.orders[id].paymentId
                     == if Moves(s.orders[id], e) then Some(e.paymentId) else s.orders[id].paymentId)
  {
    var attempts := s.attempts[e.paymentId := SeenAttempt(s.attempts, s.orders[id], e.orderId.value, e)];
    EventBinds(s.orders[id], e, AttemptCount(attempts, id));
    hide ObservedOrder, AttemptCount, SeenAttempt, Moves, ObservedTelemetry;
  }

  lemma FinalizedReached(env: Env, s: Store, id: Uuid, p: ProviderOrder, telemetryId: Uuid, now: int)
    requires Inv(env, s) && FinalizeOrder(env, s, id, p, telemetryId, now).1.None?
    ensures p.id.Some? && Reached(FinalizeOrder(env, s, id, p, telemetryId, now).0, id, p.id.value)
  {
    OneOrderOk(s.orders, id);
    hide Inv, Unindex, FirstSignals, Sign, AttemptsOf;
  }

  /** Finalizing a session again under another order id strands the payment it carries: the payment
      stays on the row, fresh telemetry does not know it, the guard refuses it, its own events no longer
      reach the session, and binds of every other payment are refused. Only an event of the new order
      dislodges it: one the attempts table lets through puts its own payment there when it moves it. */
  lemma RefinalizedStrandsPayment(w: World, env: Env, s: Store, id: Uuid, p: ProviderOrder, telemetryId: Uuid,
                                  now: int, paymentId: string)
    requires Inv(env, s) && Carries(s.orders, id, paymentId) && s.orders[id].orderId == Some(w.home(paymentId))
    requires FinalizeOrder(env, s, id, p, telemetryId, now).1.None? && p.id != Some(w.home(paymentId))
    ensures var s' := FinalizeOrder(env, s, id, p, telemetryId, now).0;
            && Carries(s'.orders, id, paymentId)
            && s'.orders[id].telemetryId == Some(telemetryId) && telemetryId in s'.telemetry
            && s'.telemetry[telemetryId].signals.paymentId.None?
            && (forall status :: !Guarded(w, s', id, paymentId, status))
            && (forall e: PaymentEvent :: e.orderId == Some(w.home(paymentId)) ==>
                  ObservePaymentEvent(env, s', e) == (s', None))
            && (forall q, status, at :: q != paymentId ==>
                  BindVerifiedPayment(env, s', id, q, status, at) == (s', Some(BoundToAnotherPayment)))
            && (forall e: PaymentEvent :: e.orderId == p.id ==>
                  var (s'', why) := ObservePaymentEvent(env, s', e);
                  && (why.None? <==> AttemptFits(s'.attempts, id, p.id.value, e.paymentId))
                  && (why.Some? ==> s'' == s')
                  && (why.None? ==>
                        && id in s''.orders
                        && s''.orders[id].paymentId
                           == Some(if Moves(s'.orders[id], e) then e.paymentId else paymentId)))
  {
    hide OrdersOk, TelemetryOk, LinksOk, AttemptsOk;
    var s' := FinalizeOrder(env, s, id, p, telemetryId, now).0;
    assert w.home(paymentId) !in s'.byOrder;
    FinalizedReached(env, s, id, p, telemetryId, now);
    forall e: PaymentEvent | e.orderId == p.id {
      EventReaches(env, s', e, id);
    }
    hide ObservePaymentEvent, Moves, AttemptFits;
  }
}
