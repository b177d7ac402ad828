/** What each checkout transaction does to a session, told field by field. */
module CheckoutMeaning {
  import opened Checkout
  import opened CheckoutRuns
  import opened Instants
  import opened Sequences
  import opened Text
  import opened Wrappers

  // ---------------------------------------------------------------- lifecycles

  /** What a payment status and an order status say together: money received first, then money reserved, then
      a failed attempt, then an attempt of unknown outcome. */
  lemma LifecycleExactly(payment: Option<string>, order: Option<string>)
    ensures var l, p, o := DeriveLifecycle(payment, order), Normal(payment), Normal(order);
            && (l == PAID <==> o == "paid" || p == "captured" || p == "refunded")
            && (l == AUTHORIZED <==> o != "paid" && p == "authorized")
            && (l == ATTEMPT_FAILED <==> o != "paid" && p == "failed")
            && (l == ATTEMPTED <==>
                  o == "attempted" && p != "captured" && p != "refunded" && p != "authorized" && p != "failed")
            && (l == OPEN <==>
                  && o != "paid" && o != "attempted"
                  && p != "captured" && p != "refunded" && p != "authorized" && p != "failed")
  {
    hide Normal;
  }

  // ---------------------------------------------------------------- reconciliation

  /** The session has reached its deadline: its own, or the given hours after it was created. */
  predicate Expired(row: Order, hours: int, now: int) {
    match row.expiresAt
    case Some(deadline) => deadline <= now
    case None => row.createdAt + hours * 3_600_000_000 <= now
  }

  /** Everything reconciliation may not touch. */
  predicate SameBeyondReconciliation(row: Order, row': Order) {
    && row'.sessionId == row.sessionId && row'.accountId == row.accountId && row'.orderId == row.orderId
    && row'.paymentId == row.paymentId && row'.amount == row.amount && row'.currency == row.currency
    && row'.receipt == row.receipt && row'.lastPaymentStatus == row.lastPaymentStatus && row'.device == row.device
    && row'.geo == row.geo && row'.clientEventAt == row.clientEventAt && row'.telemetryId == row.telemetryId
    && row'.authoritativeStatus == row.authoritativeStatus && row'.signatureVerifiedAt == row.signatureVerifiedAt
    && row'.webhookConfirmedAt == row.webhookConfirmedAt && row'.createdAt == row.createdAt
  }

  /** What a session becomes when the fetched order status is applied to it. */
  predicate ReconciledMeant(row: Order, row': Order, status: string, attempts: nat, hours: int, now: int) {
    && SameBeyondReconciliation(row, row')
    && row'.providerStatus == status && row'.providerAttempts == attempts
    && row'.reconciledAt == Some(now) && row'.updatedAt == now
    && (row'.lifecycle == PAID <==> status == "paid")
    && (row'.lifecycle == ABANDONED <==> status != "paid" && Expired(row, hours, now))
    && (row'.lifecycle == OPEN <==> status == "created" && !Expired(row, hours, now))
    && (row'.lifecycle == ATTEMPT_FAILED <==>
          && status == "attempted" && !Expired(row, hours, now)
          && row.lastPaymentStatus.Some? && Lower(row.lastPaymentStatus.value) == "failed")
    && (row'.lifecycle == ATTEMPTED <==>
          && status == "attempted" && !Expired(row, hours, now)
          && (row.lastPaymentStatus == None || Lower(row.lastPaymentStatus.value) != "failed"))
    && (row.expiresAt.Some? ==> row'.expiresAt == row.expiresAt)
    && (row.expiresAt.None? ==> row'.expiresAt == Some(row.createdAt + hours * 3_600_000_000))
    && (row.abandonedAt.Some? ==> row'.abandonedAt == row.abandonedAt)
    && (row.abandonedAt.None? ==> row'.abandonedAt == if row'.lifecycle == ABANDONED then Some(now) else None)
  }

  lemma NothingFailed()
    ensures Lower("") != "failed"
  {
  }

  lemma ReconciledExactly(row: Order, status: string, attempts: nat, hours: int, now: int)
    requires Reconciles(status)
    ensures ReconciledMeant(row, ReconciledOrder(row, status, attempts, hours, now), status, attempts, hours, now)
  {
    NothingFailed();
    hide Lower;
  }

  /** The write half: the session becomes what its fetched status means, and nothing else changes. */
  lemma ReconcileCommitExactly(s: Store, id: Uuid, status: string, attempts: nat, hours: int, now: int)
    requires Reconciles(status) && id in s.orders
    ensures var (s', why) := ReconcileCommit(s, id, status, attempts, hours, now);
            && why.None? && s' == s.(orders := s'.orders) && s'.orders.Keys == s.orders.Keys
            && ReconciledMeant(s.orders[id], s'.orders[id], status, attempts, hours, now)
            && forall k <- s.orders :: k != id ==> s'.orders[k] == s.orders[k]
  {
    hide ReconciledOrder, ReconciledMeant;
    ReconciledExactly(s.orders[id], status, attempts, hours, now);
  }

  /** Without interference each selected session becomes what its own fetched status means, a session whose
      fetch failed stays what it was, and so does every session not selected. */
  lemma ReconcileAllExactly(s: Store, rows: seq<Order>, provider: Provider, hours: int, now: int, id: Uuid)
    requires id in s.orders
    requires forall row <- rows :: row.sessionId in s.orders && s.orders[row.sessionId] == row
    requires forall i, j :: 0 <= i < j < |rows| ==> rows[i].sessionId != rows[j].sessionId
    ensures var row := s.orders[id];
            var row' := ReconcileAll(s, rows, provider, hours, now).0.orders[id];
            var answer := provider(row.orderId.GetOr(""));
            if row in rows && row.sessionId == id && answer.Some? && answer.value.status.Some?
               && answer.value.status.value in {"created", "attempted", "paid"}
            then
              ReconciledMeant(row, row', answer.value.status.value,
                              if answer.value.attempts.Some? && answer.value.attempts.value >= 0
                              then answer.value.attempts.value else 0, hours, now)
            else row' == row
  {
    hide ReconciledOrder, ReconciledMeant;
    ReconcileMeaning(s, rows, provider, hours, now, id);
    var row := s.orders[id];
    var answer := Fetched(provider, row);
    if answer.Some? {
      ReconciledExactly(row, answer.value.status.value, AttemptsOf(answer.value), hours, now);
    }
  }

  /** The provider's usable answer to a session, one of the three order statuses. */
  predicate Answers(provider: Provider, row: Order, status: string) {
    && provider(row.orderId.GetOr("")).Some? && provider(row.orderId.GetOr("")).value.status == Some(status)
    && (status == "created" || status == "attempted" || status == "paid")
  }

  /** The counters are numbers of selected sessions. */
  ghost predicate CountersMeant(rows: seq<Order>, provider: Provider, hours: int, now: int, c: ReconcileResult) {
    && c.paid == |set i: nat | i < |rows| && Answers(provider, rows[i], "paid")|
    && c.attempted == |set i: nat | i < |rows| && Answers(provider, rows[i], "attempted")|
    && c.open == |set i: nat | i < |rows| && Answers(provider, rows[i], "created")|
    && c.abandoned == |set i: nat | i < |rows| && Expired(rows[i], hours, now)
                                  && (Answers(provider, rows[i], "attempted") || Answers(provider, rows[i], "created"))|
    && c.updated == c.paid + c.attempted + c.open
    && c.errors == |rows| - c.updated
  }

  function HasStatus(provider: Provider, status: string): Order -> bool {
    (row: Order) => Answers(provider, row, status)
  }

  function Lapsed(provider: Provider, hours: int, now: int): Order -> bool {
    (row: Order) =>
      Expired(row, hours, now) && (Answers(provider, row, "attempted") || Answers(provider, row, "created"))
  }

  lemma FetchedAnswers(provider: Provider, row: Order)
    ensures Fetched(provider, row).Some? ==> Answers(provider, row, Fetched(provider, row).value.status.value)
    ensures forall status :: Answers(provider, row, status) ==>
              Fetched(provider, row).Some? && Fetched(provider, row).value.status == Some(status)
  {
  }

  function Bit(b: bool): nat {
    if b then 1 else 0
  }

  /** What one session adds to the counters. */
  ghost predicate Counted(provider: Provider, row: Order, hours: int, now: int, b: ReconcileResult, c: ReconcileResult)
  {
    && c.paid == b.paid + Bit(Answers(provider, row, "paid"))
    && c.attempted == b.attempted + Bit(Answers(provider, row, "attempted"))
    && c.open == b.open + Bit(Answers(provider, row, "created"))
    && c.abandoned == b.abandoned + Bit(Lapsed(provider, hours, now)(row))
  }

  lemma TallyCounts(provider: Provider, row: Order, hours: int, now: int, b: ReconcileResult)
    ensures var answer := Fetched(provider, row);
            Counted(provider, row, hours, now, b,
                    if answer.None? then Tally(b, None, false)
                    else Tally(b, answer.value.status,
                               ReconciledOrder(row, answer.value.status.value, AttemptsOf(answer.value), hours,
                                               now).lifecycle == ABANDONED))
  {
    hide ReconciledOrder, Fetched, Answers, Expired, AttemptsOf;
    FetchedAnswers(provider, row);
    var answer := Fetched(provider, row);
    if answer.Some? {
      ReconciledExactly(row, answer.value.status.value, AttemptsOf(answer.value), hours, now);
    }
  }

  lemma LastCounted(s: Store, rows: seq<Order>, row: Order, provider: Provider, hours: int, now: int)
    requires forall r <- rows + [row] :: r.sessionId in s.orders && s.orders[r.sessionId] == r
    requires forall i, j :: 0 <= i < j < |rows + [row]| ==> (rows + [row])[i].sessionId != (rows + [row])[j].sessionId
    ensures (forall r <- rows :: r.sessionId in s.orders) && forall r <- rows + [row] :: r.sessionId in s.orders
    ensures Counted(provider, row, hours, now, ReconcileAll(s, rows, provider, hours, now).1,
                    ReconcileAll(s, rows + [row], provider, hours, now).1)
  {
    hide ReconciledOrder, Fetched, Answers, Expired, ReconcileAll, AttemptsOf, Tally, Counted;
    var all := rows + [row];
    assert all[..|rows|] == rows && all[..|rows| + 1] == all && all[|rows|] == row && row in all;
    assert forall r <- rows :: r in all;
    ReconcileNext(s, all, |rows|, provider, hours, now);
    NotYetReconciled(s, rows, row, provider, hours, now);
    TallyCounts(provider, row, hours, now, ReconcileAll(s, rows, provider, hours, now).1);
  }

  lemma OneMore(rows: seq<Order>, row: Order)
    requires forall i, j :: 0 <= i < j < |rows + [row]| ==> (rows + [row])[i].sessionId != (rows + [row])[j].sessionId
    ensures forall i, j :: 0 <= i < j < |rows| ==> rows[i].sessionId != rows[j].sessionId
    ensures row !in rows && row in rows + [row] && forall r <- rows :: r in rows + [row]
  {
    var all := rows + [row];
    forall i, j | 0 <= i < j < |rows| ensures rows[i].sessionId != rows[j].sessionId {
      assert all[i] == rows[i] && all[j] == rows[j];
    }
    assert all[|rows|] == row;
    forall i | 0 <= i < |rows| ensures rows[i] != row {
      assert all[i] == rows[i];
    }
  }

  lemma NotYetReconciled(s: Store, rows: seq<Order>, row: Order, provider: Provider, hours: int, now: int)
    requires forall r <- rows + [row] :: r.sessionId in s.orders && s.orders[r.sessionId] == r
    requires forall i, j :: 0 <= i < j < |rows + [row]| ==> (rows + [row])[i].sessionId != (rows + [row])[j].sessionId
    ensures forall r <- rows :: r.sessionId in s.orders
    ensures row.sessionId in s.orders && s.orders[row.sessionId] == row
    ensures var s' := ReconcileAll(s, rows, provider, hours, now).0;
            row.sessionId in s'.orders && s'.orders[row.sessionId] == row
  {
    hide ReconciledOrder, Fetched, ReconcileAll, AttemptsOf;
    OneMore(rows, row);
    ReconcileMeaning(s, rows, provider, hours, now, row.sessionId);
  }

  lemma FilterBit(rows: seq<Order>, row: Order, p: Order -> bool)
    ensures |Filter(rows + [row], p)| == |Filter(rows, p)| + Bit(p(row))
  {
    FilterAppend(rows, row, p);
  }

  lemma {:induction false} CountersCounted(s: Store, rows: seq<Order>, provider: Provider, hours: int, now: int)
    requires forall row <- rows :: row.sessionId in s.orders && s.orders[row.sessionId] == row
    requires forall i, j :: 0 <= i < j < |rows| ==> rows[i].sessionId != rows[j].sessionId
    ensures var c := ReconcileAll(s, rows, provider, hours, now).1;
            && c.paid == |Filter(rows, HasStatus(provider, "paid"))|
            && c.attempted == |Filter(rows, HasStatus(provider, "attempted"))|
            && c.open == |Filter(rows, HasStatus(provider, "created"))|
            && c.abandoned == |Filter(rows, Lapsed(provider, hours, now))|
  {
    hide ReconcileAll, Filter, Answers, Expired, Lapsed, Bit;
    if rows == [] {
      ReconcileNone(s, provider, hours, now);
      FilterNone(rows, HasStatus(provider, "paid"));
      FilterNone(rows, HasStatus(provider, "attempted"));
      FilterNone(rows, HasStatus(provider, "created"));
      FilterNone(rows, Lapsed(provider, hours, now));
    } else {
      var n := |rows| - 1;
      var t, row := rows[..n], rows[n];
      assert rows == t + [row];
      CountersCounted(s, t, provider, hours, now);
      LastCounted(s, t, row, provider, hours, now);
      FilterBit(t, row, HasStatus(provider, "paid"));
      FilterBit(t, row, HasStatus(provider, "attempted"));
      FilterBit(t, row, HasStatus(provider, "created"));
      FilterBit(t, row, Lapsed(provider, hours, now));
    }
  }

  lemma CountersExactly(s: Store, rows: seq<Order>, provider: Provider, hours: int, now: int)
    requires forall row <- rows :: row.sessionId in s.orders && s.orders[row.sessionId] == row
    requires forall i, j :: 0 <= i < j < |rows| ==> rows[i].sessionId != rows[j].sessionId
    ensures CountersMeant(rows, provider, hours, now, ReconcileAll(s, rows, provider, hours, now).1)
  {
    hide ReconcileAll, Filter, Answers, Expired;
    CountersBalance(s, rows, provider, hours, now);
    CountersCounted(s, rows, provider, hours, now);
    FilterCount(rows, HasStatus(provider, "paid"), set i: nat | i < |rows| && Answers(provider, rows[i], "paid"));
    FilterCount(rows, HasStatus(provider, "attempted"),
                set i: nat | i < |rows| && Answers(provider, rows[i], "attempted"));
    FilterCount(rows, HasStatus(provider, "created"),
                set i: nat | i < |rows| && Answers(provider, rows[i], "created"));
    FilterCount(rows, Lapsed(provider, hours, now),
                set i: nat | i < |rows| && Expired(rows[i], hours, now)
                             && (Answers(provider, rows[i], "attempted") || Answers(provider, rows[i], "created")));
  }

  // ---------------------------------------------------------------- the other transactions

  /** Nothing but these sessions' rows differ. */
  ghost predicate OthersSame(s: Store, s': Store, id: Uuid) {
    s'.orders.Keys == s.orders.Keys + {id} && forall k <- s.orders :: k != id ==> s'.orders[k] == s.orders[k]
  }

  /** A session is created pending, with a day to be paid, unless the client's clock is more than five minutes
      ahead or its identifier or receipt is taken. */
  lemma CreatedExactly(env: Env, s: Store, r: NewSession, id: Uuid, now: int)
    ensures var (s', why) := CreatePending(env, s, r, id, now);
            var receipt := "rt-" + id[..if |id| < 24 then |id| else 24];
            && (why == Some(FutureClientTime) <==> r.clientEventAt.Some? && r.clientEventAt.value > now + 300_000_000)
            && (why.None? <==>
                  && !(r.clientEventAt.Some? && r.clientEventAt.value > now + 300_000_000)
                  && id !in s.orders && forall k <- s.orders :: s.orders[k].receipt != receipt)
            && (why.Some? ==> s' == s)
            && (why.None? ==>
                  && OthersSame(s, s', id) && s' == s.(orders := s'.orders)
                  && var row := s'.orders[id];
                  && row.sessionId == id && row.accountId == r.accountId && row.amount == r.amount
                  && row.currency == r.currency && row.receipt == receipt
                  && row.device == env.deviceHash(r.accountId, r.pseudonym) && row.geo == r.geo
                  && row.clientEventAt == r.clientEventAt
                  && row.lifecycle == PENDING_PROVIDER_ORDER && row.providerStatus == "PENDING_PROVIDER_ORDER"
                  && row.providerAttempts == 0 && row.expiresAt == Some(now + 24 * 3_600_000_000)
                  && row.createdAt == now && row.updatedAt == now
                  && row.orderId.None? && row.paymentId.None? && row.telemetryId.None? && row.lastPaymentStatus.None?
                  && row.authoritativeStatus.None? && row.signatureVerifiedAt.None? && row.webhookConfirmedAt.None?
                  && row.reconciledAt.None? && row.abandonedAt.None?)
  {
  }

  lemma MarkedFailedExactly(s: Store, id: Uuid, now: int)
    ensures var (s', why) := MarkProviderFailed(s, id, now);
            && why.None?
            && (id !in s.orders ==> s' == s)
            && (id in s.orders ==>
                  && OthersSame(s, s', id) && s' == s.(orders := s'.orders)
                  && s'.orders[id].lifecycle == PROVIDER_ORDER_FAILED
                  && s'.orders[id].providerStatus == "PROVIDER_ORDER_FAILED" && s'.orders[id].updatedAt == now
                  && s.orders[id] == s'.orders[id].(lifecycle := s.orders[id].lifecycle,
                                                    providerStatus := s.orders[id].providerStatus,
                                                    updatedAt := s.orders[id].updatedAt))
  {
  }

  /** The provider's order is the one that was asked for. */
  predicate OrderFits(row: Order, p: ProviderOrder) {
    p.amount == Some(row.amount) && p.currency == Some(row.currency) && p.receipt == Some(row.receipt)
  }

  /** A session is finalized exactly by a newly created order that fits it and is not another session's. It
      opens under that order with fresh telemetry of the session's own signals, not yet bound to a payment. */
  lemma FinalizedExactly(env: Env, s: Store, id: Uuid, p: ProviderOrder, telemetryId: Uuid, now: int)
    ensures var (s', why) := FinalizeOrder(env, s, id, p, telemetryId, now);
            && (why.None? <==>
                  && p.id.Some? && "order_" <= p.id.value && p.status == Some("created")
                  && id in s.orders && OrderFits(s.orders[id], p)
                  && telemetryId !in s.telemetry && (p.id.value in s.byOrder ==> s.byOrder[p.id.value] == id))
            && (why.Some? ==> s' == s)
            && (why.None? ==>
                  && OthersSame(s, s', id) && s'.attempts == s.attempts
                  && s'.orders[id].orderId == p.id && s'.orders[id].lifecycle == OPEN
                  && s'.orders[id].providerStatus == "created" && s'.orders[id].telemetryId == Some(telemetryId)
                  && s'.orders[id].reconciledAt == Some(now) && s'.orders[id].updatedAt == now
                  && s'.orders[id].providerAttempts
                     == (if p.attempts.Some? && p.attempts.value >= 0 then p.attempts.value else 0)
                  && s.orders[id] == s'.orders[id].(orderId := s.orders[id].orderId,
                                                    lifecycle := s.orders[id].lifecycle,
                                                    providerStatus := s.orders[id].providerStatus,
                                                    telemetryId := s.orders[id].telemetryId,
                                                    reconciledAt := s.orders[id].reconciledAt,
                                                    updatedAt := s.orders[id].updatedAt,
                                                    providerAttempts := s.orders[id].providerAttempts)
                  && p.id.value in s'.byOrder && s'.byOrder[p.id.value] == id
                  && (forall o <- s'.byOrder :: o != p.id.value ==>
                        o in s.byOrder && s'.byOrder[o] == s.byOrder[o] && Some(o) != s.orders[id].orderId)
                  && s'.telemetry.Keys == s.telemetry.Keys + {telemetryId}
                  && (forall k <- s.telemetry :: s'.telemetry[k] == s.telemetry[k])
                  && var t := s'.telemetry[telemetryId];
                  && t.payloadHash == env.digest(t.signals) && t.signals.paymentId.None?
                  && t.signals.orderId == p.id.value && t.signals.accountId == s.orders[id].accountId
                  && t.signals.device == s.orders[id].device && t.signals.geo == s.orders[id].geo
                  && t.signals.clientEventAt == s.orders[id].clientEventAt && t.signals.observedAt == now)
  {
  }

  /** What binding a payment may not touch. */
  predicate SameBeyondPayment(row: Order, row': Order) {
    && row'.sessionId == row.sessionId && row'.accountId == row.accountId && row'.orderId == row.orderId
    && row'.amount == row.amount && row'.currency == row.currency && row'.receipt == row.receipt
    && row'.device == row.device && row'.geo == row.geo && row'.clientEventAt == row.clientEventAt
    && row'.telemetryId == row.telemetryId && row'.reconciledAt == row.reconciledAt
    && row'.expiresAt == row.expiresAt && row'.abandonedAt == row.abandonedAt && row'.createdAt == row.createdAt
  }

  /** A payment can be bound where neither the session nor its telemetry is bound to another one. */
  predicate Bindable(s: Store, id: Uuid, paymentId: string) {
    && id in s.orders && (s.orders[id].paymentId == None || s.orders[id].paymentId == Some(paymentId))
    && s.orders[id].telemetryId.Some? && s.orders[id].telemetryId.value in s.telemetry
    && var bound := s.telemetry[s.orders[id].telemetryId.value].signals.paymentId;
       bound == None || bound == Some(paymentId)
  }

  lemma BoundExactly(env: Env, s: Store, id: Uuid, paymentId: string, status: string, now: int)
    ensures var (s', why) := BindVerifiedPayment(env, s, id, paymentId, status, now);
            && (why.None? <==> Bindable(s, id, paymentId))
            && (why.Some? ==> s' == s)
            && (why.None? ==>
                  && OthersSame(s, s', id) && s'.byOrder == s.byOrder && s'.attempts == s.attempts
                  && var row, row' := s.orders[id], s'.orders[id];
                  && SameBeyondPayment(row, row') && row'.webhookConfirmedAt == row.webhookConfirmedAt
                  && row'.paymentId == Some(paymentId) && row'.signatureVerifiedAt == Some(now)
                  && row'.authoritativeStatus == Some(status) && row'.lastPaymentStatus == Some(status)
                  && row'.updatedAt == now
                  && row'.providerAttempts == (if row.providerAttempts == 0 then 1 else row.providerAttempts)
                  && (row'.lifecycle == PAID <==>
                        Normal(Some(row.providerStatus)) == "paid" || Normal(Some(status)) in {"captured", "refunded"})
                  && row'.lifecycle == DeriveLifecycle(Some(status), Some(row.providerStatus))
                  && row'.providerStatus == (if row'.lifecycle == PAID then "paid" else row.providerStatus)
                  && var tid := row.telemetryId.value;
                  && s'.telemetry.Keys == s.telemetry.Keys
                  && (forall k <- s.telemetry :: k != tid ==> s'.telemetry[k] == s.telemetry[k])
                  && s'.telemetry[tid].signals.paymentId == Some(paymentId)
                  && s'.telemetry[tid].payloadHash == env.digest(s'.telemetry[tid].signals)
                  && s'.telemetry[tid].signals.(paymentId := None) == s.telemetry[tid].signals.(paymentId := None))
  {
    hide Normal, DeriveLifecycle, Sign;
    if id in s.orders {
      LifecycleExactly(Some(status), Some(s.orders[id].providerStatus));
      if s.orders[id].telemetryId.Some? && s.orders[id].telemetryId.value in s.telemetry {
        BoundTelemetry(env, s.telemetry[s.orders[id].telemetryId.value], paymentId);
      }
    }
  }

  lemma BoundTelemetry(env: Env, t: Telemetry, paymentId: string)
    ensures var t' := BindTelemetry(env, t, paymentId);
            && t'.signals.paymentId == Some(paymentId) && t'.payloadHash == env.digest(t'.signals)
            && t'.signals.(paymentId := None) == t.signals.(paymentId := None)
  {
  }

  /** What an observed payment event writes down about its payment. */
  predicate AttemptMeant(attempts: map<string, Attempt>, row: Order, orderId: string, e: PaymentEvent, a: Attempt) {
    && a.paymentId == (if e.paymentId in attempts then attempts[e.paymentId].paymentId else e.paymentId)
    && a.status == e.status && a.captured == e.captured && a.lastEventType == e.eventType
    && a.lastSourceEventId == e.sourceEventId && a.lastSeenAt == e.observedAt
    && (e.paymentId in attempts ==> SameBinding(attempts[e.paymentId], a))
    && (e.paymentId !in attempts ==>
          a.sessionId == row.sessionId && a.orderId == orderId && a.accountId == row.accountId
          && a.firstSeenAt == e.observedAt)
  }

  /** What an observed payment event makes of its session. */
  ghost predicate ObservedMeant(row: Order, row': Order, e: PaymentEvent, seen: nat) {
    && SameBeyondPayment(row, row') && row'.signatureVerifiedAt == row.signatureVerifiedAt
    && row'.authoritativeStatus == Some(e.status) && row'.lastPaymentStatus == Some(e.status)
    && row'.updatedAt == e.observedAt
    && row'.providerAttempts == (if row.providerAttempts < seen then seen else row.providerAttempts)
    && row'.lifecycle == DeriveLifecycle(Some(e.status), Some(row.providerStatus))
    && row'.providerStatus == (if row'.lifecycle == PAID then "paid" else row.providerStatus)
    && row'.webhookConfirmedAt == (if row'.lifecycle == PAID then Some(e.observedAt) else row.webhookConfirmedAt)
    && (row'.lifecycle == PAID || row'.lifecycle == AUTHORIZED ==> row'.paymentId == Some(e.paymentId))
    && (row'.lifecycle != PAID && row'.lifecycle != AUTHORIZED ==> row'.paymentId == row.paymentId)
  }

  lemma ObservedOrderExactly(row: Order, e: PaymentEvent, seen: nat)
    ensures ObservedMeant(row, ObservedOrder(row, e, seen), e, seen)
  {
    LifecycleExactly(Some(e.status), Some(row.providerStatus));
    hide Normal, DeriveLifecycle;
  }

  lemma AttemptExactly(attempts: map<string, Attempt>, row: Order, orderId: string, e: PaymentEvent)
    ensures AttemptMeant(attempts, row, orderId, e, SeenAttempt(attempts, row, orderId, e))
  {
  }

  /** Some session has the event's order. */
  predicate Heard(s: Store, e: PaymentEvent) {
    && e.orderId.Some? && e.orderId.value != "" && e.orderId.value in s.byOrder
    && s.byOrder[e.orderId.value] in s.orders
  }

  /** An event of an order no session has is ignored. Any other is accepted exactly when its payment is new or
      known to this session and order; it records the payment, moves the session on, and binds telemetry
      that is free for the payment once the session is paid. */
  lemma ObservedExactly(env: Env, s: Store, e: PaymentEvent)
    ensures var (s', why) := ObservePaymentEvent(env, s, e);
            && (why.Some? ==> s' == s)
            && (!Heard(s, e) ==> s' == s && why.None?)
            && (Heard(s, e) ==>
                  var id, orderId := s.byOrder[e.orderId.value], e.orderId.value;
                  var row := s.orders[id];
                  && (why.None? <==> AttemptFits(s.attempts, row.sessionId, orderId, e.paymentId))
                  && (why.None? ==>
                        && OthersSame(s, s', id) && s'.byOrder == s.byOrder
                        && s'.attempts.Keys == s.attempts.Keys + {e.paymentId}
                        && (forall p <- s.attempts :: p != e.paymentId ==> s'.attempts[p] == s.attempts[p])
                        && AttemptMeant(s.attempts, row, orderId, e, s'.attempts[e.paymentId])
                        && ObservedMeant(row, s'.orders[id], e,
                                         |set p | p in s'.attempts && s'.attempts[p].sessionId == row.sessionId|)
                        && TelemetryMeant(env, s.telemetry, s'.telemetry, s'.orders[id], e.paymentId)))
  {
    hide ObservedOrder, ObservedTelemetry, SeenAttempt, ObservedMeant, AttemptMeant, TelemetryMeant;
    if Heard(s, e) {
      var row, orderId := s.orders[s.byOrder[e.orderId.value]], e.orderId.value;
      AttemptExactly(s.attempts, row, orderId, e);
      var attempts := s.attempts[e.paymentId := SeenAttempt(s.attempts, row, orderId, e)];
      var seen := AttemptCount(attempts, row.sessionId);
      ObservedOrderExactly(row, e, seen);
      ObservedTelemetryExactly(env, s.telemetry, ObservedOrder(row, e, seen), e.paymentId);
    }
  }

  /** Telemetry of a paid session is bound to the payment when it is free for it; no other telemetry changes. */
  ghost predicate TelemetryMeant(env: Env, before: map<Uuid, Telemetry>, after: map<Uuid, Telemetry>, row: Order,
                                 paymentId: string)
  {
    && after.Keys == before.Keys
    && forall k <- before ::
         if row.lifecycle == PAID && row.telemetryId == Some(k)
            && (before[k].signals.paymentId == None || before[k].signals.paymentId == Some(paymentId))
         then
           && after[k].signals.paymentId == Some(paymentId) && after[k].payloadHash == env.digest(after[k].signals)
           && after[k].signals.(paymentId := None) == before[k].signals.(paymentId := None)
         else after[k] == before[k]
  }

  lemma ObservedTelemetryExactly(env: Env, before: map<Uuid, Telemetry>, row: Order, paymentId: string)
    ensures TelemetryMeant(env, before, ObservedTelemetry(env, before, row, paymentId), row, paymentId)
  {
    hide BindTelemetry;
    forall t: Telemetry {
      BoundTelemetry(env, t, paymentId);
    }
  }

  // ---------------------------------------------------------------- deadlines over whole runs

  /** A deadline and a time of abandonment, once set, stay. */
  ghost predicate DeadlinesKept(a: map<Uuid, Order>, b: map<Uuid, Order>) {
    forall id <- a ::
      && id in b && b[id].createdAt == a[id].createdAt
      && (a[id].expiresAt.Some? ==> b[id].expiresAt == a[id].expiresAt)
      && (a[id].abandonedAt.Some? ==> b[id].abandonedAt == a[id].abandonedAt)
  }

  lemma DeadlinesSame(a: map<Uuid, Order>)
    ensures DeadlinesKept(a, a)
  {
  }

  lemma OneDeadlineKept(s: Store, s': Store, id: Uuid)
    requires OthersSame(s, s', id)
    requires id in s.orders ==>
               && s'.orders[id].createdAt == s.orders[id].createdAt
               && (s.orders[id].expiresAt.Some? ==> s'.orders[id].expiresAt == s.orders[id].expiresAt)
               && (s.orders[id].abandonedAt.Some? ==> s'.orders[id].abandonedAt == s.orders[id].abandonedAt)
    ensures DeadlinesKept(s.orders, s'.orders)
  {
  }

  lemma ObserveKeepsDeadlines(env: Env, s: Store, e: PaymentEvent)
    ensures DeadlinesKept(s.orders, ObservePaymentEvent(env, s, e).0.orders)
  {
    hide ObservePaymentEvent, DeadlinesKept, AttemptFits, AttemptMeant, TelemetryMeant, OthersSame;
    DeadlinesSame(s.orders);
    ObservedExactly(env, s, e);
    var (s', why) := ObservePaymentEvent(env, s, e);
    if Heard(s, e) && why.None? {
      OneDeadlineKept(s, s', s.byOrder[e.orderId.value]);
    }
  }

  lemma ReconcileKeepsDeadlines(s: Store, id: Uuid, status: string, attempts: nat, hours: int, now: int)
    requires Reconciles(status)
    ensures DeadlinesKept(s.orders, ReconcileCommit(s, id, status, attempts, hours, now).0.orders)
  {
    hide DeadlinesKept, ReconciledOrder;
    DeadlinesSame(s.orders);
    if id in s.orders {
      ReconcileCommitExactly(s, id, status, attempts, hours, now);
      OneDeadlineKept(s, ReconcileCommit(s, id, status, attempts, hours, now).0, id);
    }
  }

  lemma StepKeepsDeadlines(env: Env, s: Store, a: Action)
    ensures DeadlinesKept(s.orders, Step(env, s, a).0.orders)
  {
    hide CreatePending, MarkProviderFailed, FinalizeOrder, BindVerifiedPayment, ObservePaymentEvent, ReconcileCommit,
        DeadlinesKept, OthersSame, DeriveLifecycle, Normal, Bindable, OrderFits;
    DeadlinesSame(s.orders);
    var s' := Step(env, s, a).0;
    match a
    case Create(r, id, now) =>
      CreatedExactly(env, s, r, id, now);
      if CreatePending(env, s, r, id, now).1.None? { OneDeadlineKept(s, s', id); }
    case MarkFailed(id, now) =>
      MarkedFailedExactly(s, id, now);
      if id in s.orders { OneDeadlineKept(s, s', id); }
    case Finalize(id, p, telemetryId, now) =>
      FinalizedExactly(env, s, id, p, telemetryId, now);
      if FinalizeOrder(env, s, id, p, telemetryId, now).1.None? { OneDeadlineKept(s, s', id); }
    case Bind(id, paymentId, status, now) =>
      BoundExactly(env, s, id, paymentId, status, now);
      if BindVerifiedPayment(env, s, id, paymentId, status, now).1.None? { OneDeadlineKept(s, s', id); }
    case Observe(e) => ObserveKeepsDeadlines(env, s, e);
    case Reconcile(id, status, attempts, hours, now) =>
      if Reconciles(status) { ReconcileKeepsDeadlines(s, id, status, attempts, hours, now); }
  }

  /** Over every run of every transaction, no deadline moves and no abandonment is forgotten. */
  lemma {:induction false} RunKeepsDeadlines(env: Env, s: Store, actions: seq<Action>)
    ensures DeadlinesKept(s.orders, Run(env, s, actions).orders)
  {
    hide Step;
    if actions != [] {
      var before := actions[..|actions| - 1];
      RunKeepsDeadlines(env, s, before);
      StepKeepsDeadlines(env, Run(env, s, before), actions[|actions| - 1]);
    }
  }

  // ---------------------------------------------------------------- selection

  /** A reconciled session comes up again exactly when it is unpaid and not expired, or paid without an attempt. */
  lemma SelectedAgain(row: Order, status: string, attempts: nat, hours: int, now: int)
    requires Reconciles(status) && row.orderId.Some?
    ensures Selectable(ReconciledOrder(row, status, attempts, hours, now))
       <==> if status == "paid" then attempts == 0 else !Expired(row, hours, now)
  {
    hide ReconciledOrder;
    ReconciledExactly(row, status, attempts, hours, now);
  }

  /** A session is first selected once it is finalized, and no longer once its order failed. */
  lemma SelectedFirst(env: Env, s: Store, r: NewSession, id: Uuid, p: ProviderOrder, telemetryId: Uuid, now: int)
    ensures CreatePending(env, s, r, id, now).1.None? ==> !Selectable(CreatePending(env, s, r, id, now).0.orders[id])
    ensures FinalizeOrder(env, s, id, p, telemetryId, now).1.None? ==>
              Selectable(FinalizeOrder(env, s, id, p, telemetryId, now).0.orders[id])
    ensures id in s.orders ==> !Selectable(MarkProviderFailed(s, id, now).0.orders[id])
  {
  }

  // ---------------------------------------------------------------- why a transaction is refused

  /** The faults of a finalization, the provider's answer first, then the session, then what is stored. */
  lemma FinalizeRefusedExactly(env: Env, s: Store, id: Uuid, p: ProviderOrder, telemetryId: Uuid, now: int)
    ensures var why := FinalizeOrder(env, s, id, p, telemetryId, now).1;
            var named := p.id.Some? && "order_" <= p.id.value;
            var answered := named && p.status == Some("created");
            var fits := answered && id in s.orders && OrderFits(s.orders[id], p);
            && (why == Some(InvalidOrderId) <==> !named)
            && (why == Some(NotCreated) <==> named && p.status != Some("created"))
            && (why == Some(SessionNotFound) <==> answered && id !in s.orders)
            && (why == Some(OrderMismatch) <==> answered && id in s.orders && !OrderFits(s.orders[id], p))
            && (why == Some(Conflict) <==>
                  && fits
                  && (telemetryId in s.telemetry || (p.id.value in s.byOrder && s.byOrder[p.id.value] != id)))
  {
    hide Sign, Unindex;
  }

  /** The faults of a bind: no session, another payment on it, no telemetry, another payment on that. */
  lemma BindRefusedExactly(env: Env, s: Store, id: Uuid, paymentId: string, status: string, now: int)
    ensures var why := BindVerifiedPayment(env, s, id, paymentId, status, now).1;
            if id !in s.orders then why == Some(SessionNotFound)
            else
              var row := s.orders[id];
              && (why == Some(BoundToAnotherPayment) <==> row.paymentId.Some? && row.paymentId != Some(paymentId))
              && (why == Some(NoTelemetry) <==>
                    (row.paymentId == None || row.paymentId == Some(paymentId)) && row.telemetryId.None?)
              && (why == Some(TelemetryMissing) ==> row.telemetryId.Some? && row.telemetryId.value !in s.telemetry)
              && (why == Some(TelemetryBoundToAnother) ==>
                    && row.telemetryId.Some? && row.telemetryId.value in s.telemetry
                    && var bound := s.telemetry[row.telemetryId.value].signals.paymentId;
                       bound.Some? && bound != Some(paymentId))
              && (why.Some? ==>
                    why.value in {BoundToAnotherPayment, NoTelemetry, TelemetryMissing, TelemetryBoundToAnother})
  {
    hide BoundOrder, BindTelemetry;
  }
}
