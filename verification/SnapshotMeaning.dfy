/** What a point-in-time snapshot says of the rows it shows. */
module SnapshotMeaning {
  import opened Instants
  import opened Observations
  import opened Selection
  import opened Sequences
  import opened Timeline
  import opened Wrappers

  // ---------------------------------------------------------------- the rows

  /** With distinct knowledge times a list shows exactly the rows known at the cutoff whose event time is in
      the window and which no later known row of their entity replaces. */
  lemma ShownExactly<T(!new)>(rows: seq<Observed<T>>, o: Observed<T>, windowStart: int, asOf: int)
    requires DistinctKnowledgeTimes(Filter(rows, KnownAt(asOf)))
    ensures o in Windowed(rows, windowStart, asOf) <==>
            && o in rows && o.observedAt <= asOf
            && o.createdAt.Some? && windowStart <= o.createdAt.value <= asOf
            && !exists r :: r in rows && r.entity == o.entity && o.observedAt < r.observedAt <= asOf
  {
    SelectedExactly(rows, o, asOf);
    FilterMembers(LatestAsOf(rows, asOf), InEventWindow(windowStart, asOf));
    hide LatestAsOf, Filter, DistinctKnowledgeTimes;
  }

  // ---------------------------------------------------------------- the metrics

  /** The captured amounts, added up one payment after another. */
  ghost function Gross(payments: seq<Observed<PaymentFact>>): int {
    if payments == [] then 0
    else
      var last := payments[|payments| - 1].fact;
      Gross(payments[..|payments| - 1]) + if last.captured then last.amount else 0
  }

  ghost function Returned(payments: seq<Observed<PaymentFact>>): int {
    if payments == [] then 0
    else Returned(payments[..|payments| - 1]) + payments[|payments| - 1].fact.amountRefunded
  }

  /** The payments made by a method; "unknown" also stands for a missing or empty one. */
  ghost function ByMethod(payments: seq<Observed<PaymentFact>>, name: string): set<nat> {
    set i: nat | i < |payments|
              && var given := payments[i].fact.paymentMethod;
                 (name != "" && given == Some(name)) || (name == "unknown" && (given == None || given == Some("")))
  }

  /** Some shown row of the four lists carries the currency. */
  ghost predicate Carried(h: History, currency: string) {
    || (exists o :: o in h.payments && o.fact.currency == currency)
    || (exists o :: o in h.refunds && o.fact.currency == currency)
    || (exists o :: o in h.disputes && o.fact.currency == currency)
    || (exists o :: o in h.settlements && o.fact.currency == Some(currency))
  }

  ghost predicate MetricsMeant(h: History, unresolved: nat, m: Metrics) {
    && m.paymentCount == |h.payments|
    && m.capturedCount == |set i: nat | i < |h.payments| && h.payments[i].fact.captured|
    && m.failedCount == |set i: nat | i < |h.payments| && h.payments[i].fact.status == "failed"|
    && m.grossCaptured == Gross(h.payments)
    && m.amountRefunded == Returned(h.payments)
    && m.refundCount == |h.refunds|
    && m.processedRefundCount == |set i: nat | i < |h.refunds| && h.refunds[i].fact.status == "processed"|
    && m.disputeCount == |h.disputes|
    && m.openDisputeCount == |set i: nat | i < |h.disputes| && h.disputes[i].fact.status != "won"
                                           && h.disputes[i].fact.status != "lost"
                                           && h.disputes[i].fact.status != "closed"|
    && m.settlementCount == |h.settlements|
    && (forall name :: m.methods[name] == |ByMethod(h.payments, name)|)
    && (forall currency :: currency in m.currencies <==> currency != "" && Carried(h, currency))
    && m.unresolved == unresolved
  }

  lemma {:induction false} GrossIs(payments: seq<Observed<PaymentFact>>)
    ensures Total(Filter(payments, IsCaptured), AmountOf) == Gross(payments)
  {
    if payments != [] {
      var t, o := payments[..|payments| - 1], payments[|payments| - 1];
      assert payments == t + [o];
      GrossIs(t);
      FilterAppend(t, o, IsCaptured);
      if o.fact.captured {
        TotalAppend(Filter(t, IsCaptured), o, AmountOf);
      } else {
        assert Filter(t, IsCaptured) + [] == Filter(t, IsCaptured);
      }
      hide Filter, Total;
    }
  }

  lemma {:induction false} TotalAppend<T>(s: seq<T>, x: T, f: T -> int)
    ensures Total(s + [x], f) == Total(s, f) + f(x)
  {
    if s == [] {
      assert [] + [x] == [x] && [x][1..] == [];
      assert Total([x], f) == f(x) + Total([x][1..], f);
    } else {
      assert (s + [x])[1..] == s[1..] + [x] && (s + [x])[0] == s[0];
      TotalAppend(s[1..], x, f);
    }
  }

  lemma {:induction false} ReturnedIs(payments: seq<Observed<PaymentFact>>)
    ensures Total(payments, RefundedOf) == Returned(payments)
  {
    if payments != [] {
      var t, o := payments[..|payments| - 1], payments[|payments| - 1];
      assert payments == t + [o];
      ReturnedIs(t);
      TotalAppend(t, o, RefundedOf);
    }
  }

  function Named(name: string): string -> bool {
    (s: string) => s == name
  }

  lemma {:induction false} OccurrencesCounted(names: seq<string>, name: string)
    ensures multiset(names)[name] == |Filter(names, Named(name))|
  {
    if names != [] {
      OccurrencesCounted(names[1..], name);
      assert names == [names[0]] + names[1..];
    }
  }

  lemma MethodNamed(o: Observed<PaymentFact>, name: string)
    ensures MethodOf(o) == name <==>
            var given := o.fact.paymentMethod;
            (name != "" && given == Some(name)) || (name == "unknown" && (given == None || given == Some("")))
  {
  }

  lemma MethodsExactly(payments: seq<Observed<PaymentFact>>, name: string)
    ensures multiset(Map(payments, MethodOf))[name] == |ByMethod(payments, name)|
  {
    hide MethodOf, Filter;
    var names := Map(payments, MethodOf);
    OccurrencesCounted(names, name);
    forall i: nat ensures i in ByMethod(payments, name) <==> i < |names| && Named(name)(names[i]) {
      if i < |payments| {
        MethodNamed(payments[i], name);
      }
    }
    FilterCount(names, Named(name), ByMethod(payments, name));
  }

  lemma CountsExactly(h: History)
    ensures Count(h.payments, IsCaptured) == |set i: nat | i < |h.payments| && h.payments[i].fact.captured|
    ensures Count(h.payments, IsFailed) == |set i: nat | i < |h.payments| && h.payments[i].fact.status == "failed"|
    ensures Count(h.refunds, IsProcessed) == |set i: nat | i < |h.refunds| && h.refunds[i].fact.status == "processed"|
    ensures Count(h.disputes, IsOpenDispute)
            == |set i: nat | i < |h.disputes| && h.disputes[i].fact.status != "won"
                             && h.disputes[i].fact.status != "lost" && h.disputes[i].fact.status != "closed"|
  {
    hide Filter;
    FilterCount(h.payments, IsCaptured, set i: nat | i < |h.payments| && h.payments[i].fact.captured);
    FilterCount(h.payments, IsFailed, set i: nat | i < |h.payments| && h.payments[i].fact.status == "failed");
    FilterCount(h.refunds, IsProcessed, set i: nat | i < |h.refunds| && h.refunds[i].fact.status == "processed");
    FilterCount(h.disputes, IsOpenDispute,
                set i: nat | i < |h.disputes| && h.disputes[i].fact.status != "won"
                             && h.disputes[i].fact.status != "lost" && h.disputes[i].fact.status != "closed");
  }

  lemma CurrenciesExactly(h: History, currency: string)
    ensures currency in Currencies(h) <==> currency != "" && Carried(h, currency)
  {
  }

  lemma MetricsExactly(h: History, unresolved: nat)
    ensures MetricsMeant(h, unresolved, MetricsOf(h, unresolved))
  {
    hide Filter, Total, Gross, Returned, Currencies, Carried, ByMethod, Map;
    CountsExactly(h);
    GrossIs(h.payments);
    ReturnedIs(h.payments);
    forall name ensures multiset(Map(h.payments, MethodOf))[name] == |ByMethod(h.payments, name)| {
      MethodsExactly(h.payments, name);
    }
    forall currency ensures currency in Currencies(h) <==> currency != "" && Carried(h, currency) {
      CurrenciesExactly(h, currency);
    }
  }

  // ---------------------------------------------------------------- the issues

  ghost predicate Lacking<T>(rows: seq<Observed<T>>) {
    exists o :: o in rows && o.createdAt.None?
  }

  /** Some row's provider time is more than five minutes ahead of its knowledge time. */
  ghost predicate Ahead<T>(rows: seq<Observed<T>>) {
    exists o :: o in rows && o.createdAt.Some? && o.createdAt.value > o.observedAt + 300_000_000
  }

  /** When each issue is reported. */
  ghost predicate Reported(h: History, unresolved: nat, asOf: int, now: int, code: Code) {
    match code
    case UNRESOLVED_PIPELINE_EVENTS => unresolved > 0
    case MISSING_PROVIDER_EVENT_TIME =>
      Lacking(h.payments) || Lacking(h.refunds) || Lacking(h.disputes) || Lacking(h.settlements)
    case PROVIDER_TIMESTAMP_IN_FUTURE =>
      Ahead(h.payments) || Ahead(h.refunds) || Ahead(h.disputes) || Ahead(h.settlements)
    case REFUND_EXCEEDS_PAYMENT => exists o :: o in h.payments && o.fact.amountRefunded > o.fact.amount
    case MIXED_CURRENCIES => exists a, b :: a != "" && b != "" && a != b && Carried(h, a) && Carried(h, b)
    case UNVALIDATED_CURRENCY =>
      exists a :: a != "" && a != "INR" && Carried(h, a) && forall b :: b != "" && Carried(h, b) ==> b == a
    case NO_PAYMENT_HISTORY_IN_WINDOW => h.payments == []
    case AS_OF_IN_FUTURE => asOf > now + 300_000_000
  }

  function SeverityOf(code: Code): Severity {
    if code == NO_PAYMENT_HISTORY_IN_WINDOW || code == AS_OF_IN_FUTURE then WARNING else CRITICAL
  }

  lemma CountPositive<T>(s: seq<T>, p: T -> bool)
    ensures Count(s, p) > 0 <==> exists x :: x in s && p(x)
  {
    FilterMembers(s, p);
    hide Filter;
    if Count(s, p) > 0 {
      var kept := Filter(s, p);
      assert kept[0] in kept;
    }
  }

  lemma TimesExactly(h: History)
    ensures MissingTimes(h) > 0 <==>
            Lacking(h.payments) || Lacking(h.refunds) || Lacking(h.disputes) || Lacking(h.settlements)
    ensures ClockSkews(h) > 0 <==> Ahead(h.payments) || Ahead(h.refunds) || Ahead(h.disputes) || Ahead(h.settlements)
    ensures Count(h.payments, OverRefunded) > 0 <==>
            exists o :: o in h.payments && o.fact.amountRefunded > o.fact.amount
  {
    hide Count;
    CountPositive(h.payments, MissingTime);
    CountPositive(h.refunds, MissingTime);
    CountPositive(h.disputes, MissingTime);
    CountPositive(h.settlements, MissingTime);
    CountPositive(h.payments, ClockSkewed);
    CountPositive(h.refunds, ClockSkewed);
    CountPositive(h.disputes, ClockSkewed);
    CountPositive(h.settlements, ClockSkewed);
    CountPositive(h.payments, OverRefunded);
  }

  lemma SizesExactly(currencies: set<string>)
    ensures |currencies| > 1 <==> exists a, b :: a in currencies && b in currencies && a != b
    ensures |currencies| == 1 && currencies != {"INR"} <==>
            exists a :: a in currencies && a != "INR" && forall b :: b in currencies ==> b == a
  {
    if currencies != {} {
      var a :| a in currencies;
      var rest := currencies - {a};
      assert |currencies| == 1 + |rest|;
      if rest == {} {
        assert currencies == {a};
      } else {
        var b :| b in rest;
      }
    }
  }

  lemma CurrencyIssues(h: History)
    ensures |Currencies(h)| > 1 <==> exists a, b :: a != "" && b != "" && a != b && Carried(h, a) && Carried(h, b)
    ensures |Currencies(h)| == 1 && Currencies(h) != {"INR"} <==>
            exists a :: a != "" && a != "INR" && Carried(h, a) && forall b :: b != "" && Carried(h, b) ==> b == a
  {
    hide Currencies, Carried;
    forall c ensures c in Currencies(h) <==> c != "" && Carried(h, c) {
      CurrenciesExactly(h, c);
    }
    SizesExactly(Currencies(h));
  }

  lemma ChecksExactly(unresolved: bool, missing: bool, skewed: bool, overRefunded: bool, mixed: bool, unvalidated: bool,
                      noHistory: bool, future: bool, issue: Issue)
    ensures issue in Checks(unresolved, missing, skewed, overRefunded, mixed, unvalidated, noHistory, future) <==>
            && issue.severity == SeverityOf(issue.code)
            && match issue.code
               case UNRESOLVED_PIPELINE_EVENTS => unresolved
               case MISSING_PROVIDER_EVENT_TIME => missing
               case PROVIDER_TIMESTAMP_IN_FUTURE => skewed
               case REFUND_EXCEEDS_PAYMENT => overRefunded
               case MIXED_CURRENCIES => mixed
               case UNVALIDATED_CURRENCY => unvalidated
               case NO_PAYMENT_HISTORY_IN_WINDOW => noHistory
               case AS_OF_IN_FUTURE => future
  {
  }

  /** An issue is reported exactly when its condition holds of the shown rows, with its own severity. */
  lemma IssuesExactly(h: History, unresolved: nat, asOf: int, now: int, issue: Issue)
    ensures issue in Quality(h, unresolved, asOf, now).issues <==>
            issue.severity == SeverityOf(issue.code) && Reported(h, unresolved, asOf, now, issue.code)
  {
    TimesExactly(h);
    CurrencyIssues(h);
    ChecksExactly(unresolved > 0, MissingTimes(h) > 0, ClockSkews(h) > 0, Count(h.payments, OverRefunded) > 0,
                  |Currencies(h)| > 1, |Currencies(h)| == 1 && Currencies(h) != {"INR"},
                  h.payments == [], asOf > now + 5 * MINUTE, issue);
    hide Checks, Currencies, MissingTimes, ClockSkews, Count, Carried, Lacking, Ahead;
  }

  // ---------------------------------------------------------------- the snapshot

  /** Every snapshot that is built says what it should of the rows it shows, and is fit for automatic use
      exactly when no critical issue is reported of them. */
  lemma SnapshotExactly(h: History, unresolved: nat, asOf: int, lookbackHours: int, now: int)
    ensures var r := BuildSnapshot(h, unresolved, asOf, lookbackHours, now);
      && (r.Success? <==> 1 <= lookbackHours <= 720)
      && (r.Success? ==>
            && r.value.asOf == asOf && r.value.windowStart == asOf - lookbackHours * 3_600_000_000
            && MetricsMeant(r.value.rows, unresolved, r.value.metrics)
            && r.value.quality.criticalCount
               == |set i: nat | i < |r.value.quality.issues| && r.value.quality.issues[i].severity == CRITICAL|
            && (forall issue :: issue in r.value.quality.issues <==>
                  issue.severity == SeverityOf(issue.code)
                  && Reported(r.value.rows, unresolved, asOf, now, issue.code))
            && r.value.quality.warningCount
               == |set i: nat | i < |r.value.quality.issues| && r.value.quality.issues[i].severity == WARNING|
            && (r.value.firewallBlocked <==>
                  exists issue :: issue in r.value.quality.issues && issue.severity == CRITICAL)
            && (r.value.quality.status == BLOCKED <==> r.value.firewallBlocked)
            && (r.value.quality.status == PASS <==> r.value.quality.issues == []))
  {
    hide MetricsMeant, MetricsOf, Reported, Select, Issues;
    var r := BuildSnapshot(h, unresolved, asOf, lookbackHours, now);
    if r.Success? {
      var rows := r.value.rows;
      MetricsExactly(rows, unresolved);
      forall issue ensures issue in r.value.quality.issues <==>
          issue.severity == SeverityOf(issue.code) && Reported(rows, unresolved, asOf, now, issue.code)
      {
        IssuesExactly(rows, unresolved, asOf, now, issue);
      }
      var issues := r.value.quality.issues;
      CountPositive(issues, IsSeverity(CRITICAL));
      CountPositive(issues, IsSeverity(WARNING));
      assert issues != [] ==> issues[0] in issues && issues[0].severity in {CRITICAL, WARNING};
      FilterCount(issues, IsSeverity(WARNING), set i: nat | i < |issues| && issues[i].severity == WARNING);
      FilterCount(issues, IsSeverity(CRITICAL), set i: nat | i < |issues| && issues[i].severity == CRITICAL);
    }
  }

  /** The unresolved events of the store are those received in the window and neither processed nor skipped. */
  lemma UnresolvedExactly(events: seq<WebhookEvent>, windowStart: int, asOf: int)
    ensures Unresolved(events, windowStart, asOf)
         == |set i: nat | i < |events| && windowStart <= events[i].receivedAt <= asOf
                          && events[i].status != "PROCESSED" && events[i].status != "SKIPPED"|
  {
    FilterCount(events, Pending(windowStart, asOf),
                set i: nat | i < |events| && windowStart <= events[i].receivedAt <= asOf
                             && events[i].status != "PROCESSED" && events[i].status != "SKIPPED");
  }
}
