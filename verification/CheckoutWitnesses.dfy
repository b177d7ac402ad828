/** Short runs from an empty store in which a paid session is disturbed. */
module CheckoutWitnesses {
  import opened Checkout
  import opened CheckoutPayments
  import opened CheckoutRuns
  import opened Text
  import opened Wrappers

  function Opening(): Action {
    Create(NewSession("account", 1000, "INR", "device-pseudonym", "IN-DL", None), "s", 0)
  }

  function Finalizing(): Action {
    Finalize("s", ProviderOrder(Some("order_1"), Some("created"), Some(1000), Some("INR"), Some("rt-s"), Some(0)), "t",
        1)
  }

  function Paying(paymentId: string, status: string, at: int): Action {
    Observe(PaymentEvent("payment." + status, "event", Some("order_1"), paymentId, status, status == "captured", at))
  }

  lemma RunAppend(env: Env, s: Store, actions: seq<Action>, a: Action)
    ensures Run(env, s, actions + [a]) == Step(env, Run(env, s, actions), a).0
  {
    assert (actions + [a])[..|actions|] == actions;
    hide Step;
  }

  lemma RunTwo(env: Env, a: Action, b: Action)
    ensures Run(env, EMPTY, [a, b]) == Step(env, Step(env, EMPTY, a).0, b).0
  {
    RunAppend(env, EMPTY, [], a);
    assert [] + [a] == [a];
    RunAppend(env, EMPTY, [a], b);
    assert [a] + [b] == [a, b];
    hide Step;
  }

  /** The one session, finalized and unpaid, with unbound telemetry. */
  ghost predicate Ready(s: Store) {
    && "s" in s.orders && s.orders["s"].sessionId == "s" && s.orders["s"].orderId == Some("order_1")
    && s.orders["s"].paymentId.None? && s.orders["s"].providerStatus == "created"
    && s.orders["s"].telemetryId == Some("t") && "t" in s.telemetry && s.telemetry["t"].signals.paymentId.None?
    && s.byOrder == map["order_1" := "s"] && s.attempts == map[]
  }

  lemma Opened(env: Env)
    ensures var s := Step(env, EMPTY, Opening()).0;
            && s.orders.Keys == {"s"} && s.byOrder == map[] && s.telemetry == map[] && s.attempts == map[]
            && s.orders["s"].sessionId == "s" && s.orders["s"].orderId.None? && s.orders["s"].paymentId.None?
            && s.orders["s"].amount == 1000 && s.orders["s"].currency == "INR" && s.orders["s"].receipt == "rt-s"
  {
    assert "rt-" + "s" == "rt-s";
  }

  lemma FinalizedReady(env: Env)
    ensures Ready(Run(env, EMPTY, [Opening(), Finalizing()]))
  {
    hide Run, CreatePending;
    RunTwo(env, Opening(), Finalizing());
    Opened(env);
    assert "order_" <= "order_1";
  }

  /** An event that pays, or one that fails before any payment, on the ready session. */
  lemma Seen(env: Env, s: Store, paymentId: string, status: string, at: int)
    requires "s" in s.orders && s.orders["s"].sessionId == "s" && s.orders["s"].orderId == Some("order_1")
    requires s.byOrder == map["order_1" := "s"] && AttemptFits(s.attempts, "s", "order_1", paymentId)
    ensures var e := Paying(paymentId, status, at).event;
            var s' := Step(env, s, Paying(paymentId, status, at)).0;
            && (exists n :: s'.orders == s.orders["s" := ObservedOrder(s.orders["s"], e, n)])
            && s'.byOrder == s.byOrder && AttemptFits(s'.attempts, "s", "order_1", paymentId)
            && (forall p :: p != paymentId && AttemptFits(s.attempts, "s", "order_1", p)
                 ==> AttemptFits(s'.attempts, "s", "order_1", p))
  {
    var e := Paying(paymentId, status, at).event;
    var attempts := s.attempts[e.paymentId := SeenAttempt(s.attempts, s.orders["s"], "order_1", e)];
    var n := AttemptCount(attempts, "s");
    var s' := Step(env, s, Paying(paymentId, status, at)).0;
    hide ObservedOrder, AttemptCount, ObservedTelemetry;
    assert s'.orders == s.orders["s" := ObservedOrder(s.orders["s"], e, n)];
  }

  lemma NormalOf(word: string)
    requires IsLowerWord(word)
    ensures Normal(Some(word)) == word
  {
    NormalWord(word);
    hide Lower, Strip;
  }

  lemma Words()
    ensures Normal(Some("captured")) == "captured" && Normal(Some("failed")) == "failed"
            && Normal(Some("created")) == "created"
  {
    hide Lower, Strip, Normal;
    NormalOf("captured");
    NormalOf("failed");
    NormalOf("created");
  }

  /** A capture pays the ready session. */
  lemma Captured(row: Order, e: PaymentEvent, n: nat)
    requires e.status == "captured"
    ensures var row' := ObservedOrder(row, e, n);
            row'.lifecycle == PAID && row'.paymentId == Some(e.paymentId) && row'.sessionId == row.sessionId
                && row'.orderId == row.orderId
  {
    Words();
    hide Normal;
  }

  lemma FailedFirst(row: Order, e: PaymentEvent, n: nat)
    requires e.status == "failed" && row.providerStatus == "created"
    ensures var row' := ObservedOrder(row, e, n);
            row'.paymentId == row.paymentId && row'.sessionId == row.sessionId && row'.orderId == row.orderId
  {
    Words();
    hide Normal;
  }

  /** The order status was fetched before the capture and written after it: the session is no longer paid. */
  lemma PaidThenUndone(env: Env)
    ensures var run := [Opening(), Finalizing(), Paying("pay_1", "captured", 2), Reconcile("s", "created", 0, 24, 3)];
            Paid(Run(env, EMPTY, run[..3]), "s") && !Paid(Run(env, EMPTY, run), "s")
  {
    hide Run, Step;
    var run := [Opening(), Finalizing(), Paying("pay_1", "captured", 2), Reconcile("s", "created", 0, 24, 3)];
    FinalizedReady(env);
    var ready := Run(env, EMPTY, [Opening(), Finalizing()]);
    assert run[..3] == [Opening(), Finalizing()] + [run[2]];
    RunAppend(env, EMPTY, [Opening(), Finalizing()], run[2]);
    Seen(env, ready, "pay_1", "captured", 2);
    var n :| Run(env, EMPTY, run[..3]).orders == ready.orders["s" := ObservedOrder(ready.orders["s"], run[2].event, n)];
    Captured(ready.orders["s"], run[2].event, n);
    RunKeepsInv(env, run[..3]);
    assert run == run[..3] + [run[3]];
    RunAppend(env, EMPTY, run[..3], run[3]);
    StaleReconcile(env, Run(env, EMPTY, run[..3]), "s", "created", 0, 24, 3);
  }

  /** A first attempt fails, a second is captured, and the failure is delivered again: the paid session
      now carries the payment that failed. */
  lemma PaidThenRebound(env: Env)
    ensures var run := [Opening(), Finalizing(), Paying("pay_1", "failed", 2), Paying("pay_2", "captured", 3),
            Paying("pay_1", "failed", 4)];
            && Paid(Run(env, EMPTY, run[..4]), "s") && Run(env, EMPTY, run[..4]).orders["s"].paymentId == Some("pay_2")
            && Paid(Run(env, EMPTY, run), "s") && Run(env, EMPTY, run).orders["s"].paymentId == Some("pay_1")
  {
    hide Run, Step, ObservePaymentEvent, ObservedOrder, Inv;
    var start := [Opening(), Finalizing()];
    var first, second, again := Paying("pay_1", "failed", 2), Paying("pay_2", "captured", 3),
        Paying("pay_1", "failed", 4);
    var run := [Opening(), Finalizing(), first, second, again];
    FinalizedReady(env);
    var ready := Run(env, EMPTY, start);
    assert run[..3] == start + [first] && run[..4] == run[..3] + [second] && run == run[..4] + [again];
    RunAppend(env, EMPTY, start, first);
    Seen(env, ready, "pay_1", "failed", 2);
    var failed := Run(env, EMPTY, run[..3]);
    var n :| failed.orders == ready.orders["s" := ObservedOrder(ready.orders["s"], first.event, n)];
    FailedFirst(ready.orders["s"], first.event, n);
    RunAppend(env, EMPTY, run[..3], second);
    Seen(env, failed, "pay_2", "captured", 3);
    var paid := Run(env, EMPTY, run[..4]);
    var k :| paid.orders == failed.orders["s" := ObservedOrder(failed.orders["s"], second.event, k)];
    Captured(failed.orders["s"], second.event, k);
    RunKeepsInv(env, run[..4]);
    RunAppend(env, EMPTY, run[..4], again);
    LateEventRebinds(env, paid, "s", again.event);
    StepObserves(env, paid, again.event);
  }

  lemma StepObserves(env: Env, s: Store, e: PaymentEvent)
    ensures Step(env, s, Observe(e)) == ObservePaymentEvent(env, s, e)
  {
  }

  // ---------------------------------------------------------------- one payment on two sessions

  function OpeningSecond(): Action {
    Create(NewSession("account", 1000, "INR", "device-pseudonym", "IN-DL", None), "u", 2)
  }

  function FinalizingSecond(): Action {
    Finalize("u", ProviderOrder(Some("order_2"), Some("created"), Some(1000), Some("INR"), Some("rt-u"), Some(0)), "v",
        3)
  }

  /** The session is finalized, with its own telemetry, and nothing is bound to a payment. */
  predicate Unbound(s: Store, id: Uuid, telemetryId: Uuid) {
    && id in s.orders && s.orders[id].paymentId.None? && s.orders[id].telemetryId == Some(telemetryId)
    && telemetryId in s.telemetry && s.telemetry[telemetryId].signals.paymentId.None?
  }

  lemma OnlyFirst(env: Env)
    ensures var s := Run(env, EMPTY, [Opening(), Finalizing()]);
            Unbound(s, "s", "t") && s.orders.Keys == {"s"} && s.orders["s"].receipt == "rt-s"
                && s.byOrder.Keys == {"order_1"}
            && s.telemetry.Keys == {"t"}
  {
    hide Run, CreatePending;
    RunTwo(env, Opening(), Finalizing());
    Opened(env);
    assert "order_" <= "order_1";
  }

  lemma SecondOpened(env: Env, s: Store)
    requires Unbound(s, "s", "t") && s.orders.Keys == {"s"} && s.orders["s"].receipt == "rt-s"
    ensures var s' := Step(env, s, OpeningSecond()).0;
            && Unbound(s', "s", "t") && "u" in s'.orders && s'.byOrder == s.byOrder && s'.telemetry == s.telemetry
            && s'.orders["u"].paymentId.None? && s'.orders["u"].orderId.None?
            && s'.orders["u"].amount == 1000 && s'.orders["u"].currency == "INR" && s'.orders["u"].receipt == "rt-u"
  {
    assert "rt-" + "u" == "rt-u";
    assert "rt-u"[3] != "rt-s"[3];
  }

  lemma SecondFinalized(env: Env, s: Store)
    requires Unbound(s, "s", "t") && "u" in s.orders && s.byOrder.Keys == {"order_1"} && s.telemetry.Keys == {"t"}
    requires s.orders["u"].paymentId.None? && s.orders["u"].orderId.None?
    requires s.orders["u"].amount == 1000 && s.orders["u"].currency == "INR" && s.orders["u"].receipt == "rt-u"
    ensures var s' := Step(env, s, FinalizingSecond()).0;
            Unbound(s', "s", "t") && Unbound(s', "u", "v")
  {
    assert "order_" <= "order_2";
    assert "order_2"[6] != "order_1"[6];
    assert "u" != "s" && "v" != "t";
  }

  lemma BoundOne(env: Env, s: Store, id: Uuid, t: Uuid, other: Uuid, t': Uuid)
    requires Unbound(s, id, t) && id != other && t != t'
    ensures var s' := Step(env, s, Bind(id, "pay_1", "captured", 4)).0;
            && Carries(s'.orders, id, "pay_1")
            && (Unbound(s, other, t') ==> Unbound(s', other, t'))
            && (Carries(s.orders, other, "pay_1") ==> Carries(s'.orders, other, "pay_1"))
  {
    hide DeriveLifecycle, BindTelemetry;
  }

  /** Binds that skip the caller's guard: both sessions end up carrying the same payment. */
  lemma UnguardedBindsShare(env: Env)
    ensures var run := [Opening(), Finalizing(), OpeningSecond(), FinalizingSecond(),
                        Bind("s", "pay_1", "captured", 4), Bind("u", "pay_1", "captured", 4)];
            Carries(Run(env, EMPTY, run).orders, "s", "pay_1") && Carries(Run(env, EMPTY, run).orders, "u", "pay_1")
  {
    hide Run, Step, Unbound, Carries;
    var run := [Opening(), Finalizing(), OpeningSecond(), FinalizingSecond(),
                Bind("s", "pay_1", "captured", 4), Bind("u", "pay_1", "captured", 4)];
    assert run[..2] == [Opening(), Finalizing()];
    assert run[..3] == run[..2] + [run[2]] && run[..4] == run[..3] + [run[3]] && run[..5] == run[..4] + [run[4]]
        && run == run[..5] + [run[5]];
    OnlyFirst(env);
    RunAppend(env, EMPTY, run[..2], run[2]);
    SecondOpened(env, Run(env, EMPTY, run[..2]));
    RunAppend(env, EMPTY, run[..3], run[3]);
    SecondFinalized(env, Run(env, EMPTY, run[..3]));
    RunAppend(env, EMPTY, run[..4], run[4]);
    BoundOne(env, Run(env, EMPTY, run[..4]), "s", "t", "u", "v");
    RunAppend(env, EMPTY, run[..5], run[5]);
    BoundOne(env, Run(env, EMPTY, run[..5]), "u", "v", "s", "t");
  }
}
