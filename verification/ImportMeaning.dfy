/** Which files an import accepts, what it stores of each row, and what a preview is told of a stored record. */
module ImportMeaning {
  import opened EventMeaning
  import opened BaselineBuilder
  import opened Features
  import opened HistoryTotal
  import opened LiveFeatures
  import opened Observations
  import opened OperatorHistory
  import opened RealMath
  import opened Sequences
  import opened Text
  import opened Wrappers

  // ---------------------------------------------------------------- coarse geographies

  /** A subdivision group: one to twelve capital letters or digits. */
  ghost predicate IsGroup(s: string) {
    1 <= |s| <= 12 && forall i :: 0 <= i < |s| ==> 'A' <= s[i] <= 'Z' || '0' <= s[i] <= '9'
  }

  /** Each group behind a dash. */
  ghost function Dashed(groups: seq<string>): string {
    if groups == [] then "" else "-" + groups[0] + Dashed(groups[1..])
  }

  ghost predicate IsSubdivision(s: string, groups: seq<string>) {
    s == Dashed(groups) && forall g <- groups :: IsGroup(g)
  }

  lemma {:induction false} RunIsGroup(s: string)
    ensures GeoRun(s) <= |s|
    ensures forall i :: 0 <= i < GeoRun(s) ==> IsGeoChar(s[i])
    ensures GeoRun(s) < |s| ==> !IsGeoChar(s[GeoRun(s)])
  {
    if s != "" && IsGeoChar(s[0]) {
      RunIsGroup(s[1..]);
    }
  }

  lemma {:induction false} TailSplits(s: string, n: nat)
    requires GeoTail(s, n)
    ensures exists groups :: |groups| <= n && IsSubdivision(s, groups)
    decreases n
  {
    hide IsSubdivision, IsGroup, GeoTail, GeoRun;
    if s == "" {
      NoGroups();
    } else {
      FirstGroup(s, n);
      var run := GeoRun(s[1..]);
      TailSplits(s[1 + run..], n - 1);
      var groups :| |groups| <= n - 1 && IsSubdivision(s[1 + run..], groups);
      GroupAdded(s[1..1 + run], s[1 + run..], groups);
      assert s == "-" + s[1..1 + run] + s[1 + run..];
      assert |[s[1..1 + run]] + groups| <= n;
    }
  }

  lemma NoGroups()
    ensures IsSubdivision("", [])
  {
  }

  lemma FirstGroup(s: string, n: nat)
    requires s != "" && GeoTail(s, n)
    ensures n > 0 && s[0] == '-' && GeoRun(s[1..]) <= |s| - 1
    ensures IsGroup(s[1..1 + GeoRun(s[1..])]) && GeoTail(s[1 + GeoRun(s[1..])..], n - 1)
  {
    RunIsGroup(s[1..]);
    hide GeoRun;
  }

  lemma GroupAdded(first: string, rest: string, groups: seq<string>)
    requires IsGroup(first) && IsSubdivision(rest, groups)
    ensures IsSubdivision("-" + first + rest, [first] + groups)
  {
    hide IsGroup;
    var all := [first] + groups;
    assert all[1..] == groups && all[0] == first;
  }

  lemma {:induction false} SubdivisionIsTail(s: string, groups: seq<string>, n: nat)
    requires |groups| <= n && IsSubdivision(s, groups)
    ensures GeoTail(s, n)
    decreases n
  {
    if groups != [] {
      var rest := Dashed(groups[1..]);
      SubdivisionIsTail(rest, groups[1..], n - 1);
      assert IsGroup(groups[0]) && s == "-" + groups[0] + rest;
      assert s[1..] == groups[0] + rest;
      assert rest == "" || rest[0] == '-';
      RunOfGroup(groups[0], rest);
      assert s[1 + |groups[0]|..] == rest;
    }
  }

  lemma {:induction false} RunOfGroup(group: string, rest: string)
    requires forall i :: 0 <= i < |group| ==> IsGeoChar(group[i])
    requires rest == "" || !IsGeoChar(rest[0])
    ensures GeoRun(group + rest) == |group|
  {
    if group == "" {
      assert group + rest == rest;
    } else {
      RunOfGroup(group[1..], rest);
      assert (group + rest)[1..] == group[1..] + rest;
    }
  }

  /** A geography is two capital letters and at most two groups, each behind a dash. */
  lemma GeoExactly(s: string)
    ensures IsGeo(s) <==> && |s| >= 2 && 'A' <= s[0] <= 'Z' && 'A' <= s[1] <= 'Z'
                          && exists groups :: |groups| <= 2 && IsSubdivision(s[2..], groups)
  {
    hide IsSubdivision, GeoTail;
    if IsGeo(s) {
      TailSplits(s[2..], 2);
    } else if |s| >= 2 {
      if groups :| |groups| <= 2 && IsSubdivision(s[2..], groups) {
        SubdivisionIsTail(s[2..], groups, 2);
      }
    }
  }

  // ---------------------------------------------------------------- the faults of a row

  /** How many of the four dispute fields a row gives. */
  ghost function DisputeFields(raw: RawRow): nat {
    (if Strip(raw.disputePhase) == "" then 0 else 1) + (if Strip(raw.disputeStatus) == "" then 0 else 1)
    + (if raw.disputeEventAt.Some? then 1 else 0) + if raw.disputeObservedAt.Some? then 1 else 0
  }

  ghost predicate Follows(observed: Option<int>, event: Option<int>) {
    observed.Some? && event.Some? ==> event.value <= observed.value
  }

  ghost predicate IsCode(s: string) {
    |s| == 3 && forall i :: 0 <= i < 3 ==> 'A' <= s[i] <= 'Z'
  }

  /** What is wrong with a row, each fault on its own; a file that is too long is no fault of its rows. */
  ghost predicate AtFault(raw: RawRow, seen: set<string>, problem: ImportProblem) {
    match problem
    case TooManyRows => false
    case BadTransactionId => !(1 <= |Strip(raw.transactionId)| <= 128)
    case DuplicateTransactionId => Strip(raw.transactionId) in seen
    case BadOrderId => !(1 <= |Strip(raw.orderId)| <= 128)
    case ObservedBeforeEvent => !(raw.eventAt <= raw.observedAt)
    case AmountNotPositive => !(raw.amount > 0)
    case BadCurrency => !IsCode(Upper(Strip(raw.currency)))
    case UnsupportedStatus => Lower(Strip(raw.status)) !in {"authorized", "captured", "refunded", "failed"}
    case BadMethod => !(1 <= |Lower(Strip(raw.paymentMethod))| <= 64)
    case BadDevice => !(16 <= |Strip(raw.devicePseudonym)| <= 256)
    case BadGeo => !IsGeo(Upper(Strip(raw.geo)))
    case RefundOutOfRange => !(0 <= raw.refundAmount <= raw.amount)
    case RefundTimesMissing => raw.refundAmount > 0 && !(raw.refundEventAt.Some? && raw.refundObservedAt.Some?)
    case RefundObservedBeforeEvent => !Follows(raw.refundObservedAt, raw.refundEventAt)
    case DisputeIncomplete => 0 < DisputeFields(raw) < 4
    case DisputeObservedBeforeEvent => !Follows(raw.disputeObservedAt, raw.disputeEventAt)
  }

  /** The order the faults are reported in. */
  ghost function Rank(problem: ImportProblem): nat {
    match problem
    case TooManyRows => 0
    case BadTransactionId => 1
    case DuplicateTransactionId => 2
    case BadOrderId => 3
    case ObservedBeforeEvent => 4
    case AmountNotPositive => 5
    case BadCurrency => 6
    case UnsupportedStatus => 7
    case BadMethod => 8
    case BadDevice => 9
    case BadGeo => 10
    case RefundOutOfRange => 11
    case RefundTimesMissing => 12
    case RefundObservedBeforeEvent => 13
    case DisputeIncomplete => 14
    case DisputeObservedBeforeEvent => 15
  }

  ghost predicate Faultless(raw: RawRow, seen: set<string>) {
    forall problem :: !AtFault(raw, seen, problem)
  }

  ghost predicate FirstFault(raw: RawRow, seen: set<string>, problem: ImportProblem) {
    AtFault(raw, seen, problem) && forall other :: Rank(other) < Rank(problem) ==> !AtFault(raw, seen, other)
  }

  lemma {:induction false} LowerLength(s: string)
    ensures |Lower(s)| == |s|
  {
    if s != "" {
      LowerLength(s[1..]);
    }
  }

  /** A row is reported with the first of its faults, and accepted exactly when it has none. */
  lemma RowExactly(raw: RawRow, seen: set<string>)
    ensures RowProblem(raw, seen).None? <==> Faultless(raw, seen)
    ensures RowProblem(raw, seen).Some? ==> FirstFault(raw, seen, RowProblem(raw, seen).value)
  {
    LowerLength(Strip(raw.disputePhase));
    LowerLength(Strip(raw.disputeStatus));
    hide Strip, Lower, Upper, IsGeo;
    assert IsCurrency(Upper(Strip(raw.currency))) <==> IsCode(Upper(Strip(raw.currency)));
    hide IsCurrency, IsCode;
    if RowProblem(raw, seen).None? {
      forall problem ensures !AtFault(raw, seen, problem) {
        assert Rank(problem) >= 0;
      }
    } else {
      assert AtFault(raw, seen, RowProblem(raw, seen).value);
    }
  }

  // ---------------------------------------------------------------- the file

  /** The ids of the rows above row `i`. */
  ghost function IdsAbove(rows: seq<RawRow>, i: nat): set<string>
    requires i <= |rows|
  {
    set j: nat | j < i :: Strip(rows[j].transactionId)
  }

  /** No row has a fault, seen below the rows before it. */
  ghost predicate Clean(rows: seq<RawRow>) {
    forall i :: 0 <= i < |rows| ==> Faultless(rows[i], IdsAbove(rows, i))
  }

  /** Why a file was refused: the row named is the first that is not clean, or the first past the limit. */
  ghost predicate RefusedFor(rows: seq<RawRow>, error: ImportError) {
    match error
    case NoRows => rows == []
    case RowRejected(number, problem) =>
      && 2 <= number < |rows| + 2 && number <= 10_002
      && Clean(rows[..number - 2])
      && if number == 10_002 then problem == TooManyRows
         else FirstFault(rows[number - 2], IdsAbove(rows, number - 2), problem)
  }

  /** Every field stored of a row. */
  ghost predicate Stored(raw: RawRow, account: string, hashDevice: (string, string) -> string, r: Record) {
    && r.transactionId == Strip(raw.transactionId) && r.orderId == Strip(raw.orderId)
    && r.eventAt == raw.eventAt && r.observedAt == raw.observedAt && r.amount == raw.amount
    && r.currency == Upper(Strip(raw.currency)) && r.status == Lower(Strip(raw.status))
    && r.paymentMethod == Lower(Strip(raw.paymentMethod)) && r.geo == Upper(Strip(raw.geo))
    && r.device == hashDevice(account, Strip(raw.devicePseudonym))
    && r.refundAmount == raw.refundAmount && r.refundEventAt == raw.refundEventAt
    && r.refundObservedAt == raw.refundObservedAt
    && r.disputePhase == (if Strip(raw.disputePhase) == "" then None else Some(Lower(Strip(raw.disputePhase))))
    && r.disputeStatus == (if Strip(raw.disputeStatus) == "" then None else Some(Lower(Strip(raw.disputeStatus))))
    && r.disputeEventAt == raw.disputeEventAt && r.disputeObservedAt == raw.disputeObservedAt
    && r.fraudLabel == raw.fraudLabel
  }

  lemma StoredExactly(raw: RawRow, account: string, hashDevice: (string, string) -> string)
    ensures Stored(raw, account, hashDevice, Normalize(raw, account, hashDevice))
  {
    hide Strip, Lower, Upper;
    LowerLength(Strip(raw.disputePhase));
    LowerLength(Strip(raw.disputeStatus));
  }

  lemma AboveOfPrefix(rows: seq<RawRow>, n: nat, i: nat)
    requires i <= n <= |rows|
    ensures IdsAbove(rows[..n], i) == IdsAbove(rows, i)
  {
    hide Strip;
    forall id ensures id in IdsAbove(rows[..n], i) <==> id in IdsAbove(rows, i) {
      if id in IdsAbove(rows, i) {
        var j: nat :| j < i && id == Strip(rows[j].transactionId);
        assert rows[..n][j] == rows[j];
      }
    }
  }

  lemma AboveGrows(rows: seq<RawRow>, n: nat)
    requires n < |rows|
    ensures IdsAbove(rows, n + 1) == IdsAbove(rows, n) + {Strip(rows[n].transactionId)}
  {
    hide Strip;
  }

  lemma CleanPrefix(rows: seq<RawRow>, n: nat)
    requires n < |rows| && Clean(rows[..n]) && Faultless(rows[n], IdsAbove(rows, n))
    ensures Clean(rows[..n + 1])
  {
    hide IdsAbove, Faultless;
    var longer := rows[..n + 1];
    forall i | 0 <= i < |longer| ensures Faultless(longer[i], IdsAbove(longer, i)) {
      AboveOfPrefix(rows, n + 1, i);
      if i < n {
        AboveOfPrefix(rows, n, i);
        assert rows[..n][i] == rows[i];
      }
    }
  }

  lemma IdsGrow(records: seq<Record>, r: Record)
    ensures Ids(records + [r]) == Ids(records) + {r.transactionId}
  {
  }

  /** The accepted rows of a file, read off the rows. */
  lemma {:induction false} AcceptedExactly(rows: seq<RawRow>, n: nat, account: string,
                                           hashDevice: (string, string) -> string)
    requires n <= |rows|
    ensures var r := Accepted(rows[..n], account, hashDevice);
      if r.Success? then
        && |r.value| == n <= MAX_IMPORT_ROWS && Clean(rows[..n]) && Ids(r.value) == IdsAbove(rows, n)
        && forall i :: 0 <= i < n ==> Stored(rows[i], account, hashDevice, r.value[i])
      else r.error.RowRejected? && r.error.rowNumber < n + 2 && RefusedFor(rows, r.error)
  {
    hide Normalize, RowProblem, Stored, Faultless, FirstFault, Ids, IdsAbove, Clean;
    if n == 0 {
      assert Ids([]) == IdsAbove(rows, 0) && Clean(rows[..0]) by {
        NothingAbove(rows);
      }
    } else {
      AcceptedExactly(rows, n - 1, account, hashDevice);
      var row := rows[n - 1];
      assert rows[..n][..n - 1] == rows[..n - 1] && rows[..n][n - 1] == row;
      var before := Accepted(rows[..n - 1], account, hashDevice);
      if before.Success? && n - 1 < MAX_IMPORT_ROWS {
        RowExactly(row, Ids(before.value));
        if RowProblem(row, Ids(before.value)).None? {
          CleanPrefix(rows, n - 1);
          StoredExactly(row, account, hashDevice);
          IdsGrow(before.value, Normalize(row, account, hashDevice));
          AboveGrows(rows, n - 1);
          SameId(row, account, hashDevice);
        }
      }
    }
  }

  lemma NothingAbove(rows: seq<RawRow>)
    ensures Ids([]) == IdsAbove(rows, 0) && Clean(rows[..0])
  {
  }

  lemma SameId(raw: RawRow, account: string, hashDevice: (string, string) -> string)
    ensures Normalize(raw, account, hashDevice).transactionId == Strip(raw.transactionId)
  {
    hide Strip, Lower, Upper;
  }

  /** A file is imported exactly when it has one to ten thousand rows and each is clean; the records are then
      the stored rows, one for each. A refused file names its first offending row and that row's first fault. */
  lemma ImportExactly(rows: seq<RawRow>, account: string, hashDevice: (string, string) -> string)
    ensures var r := Import(rows, account, hashDevice);
      && (r.Success? <==> 1 <= |rows| <= 10_000 && Clean(rows))
      && (r.Failure? ==> RefusedFor(rows, r.error))
      && (r.Success? ==>
            exists stored: seq<Record> ::
              && multiset(stored) == multiset(r.value) && |stored| == |rows|
              && forall i :: 0 <= i < |rows| ==> Stored(rows[i], account, hashDevice, stored[i]))
  {
    hide Stored, Faultless, FirstFault, Accepted, StableSort, IdsAbove;
    assert rows[..|rows|] == rows;
    AcceptedExactly(rows, |rows|, account, hashDevice);
    var accepted := Accepted(rows, account, hashDevice);
    if accepted.Success? {
      SortMultiset(accepted.value, RecordOrder);
    } else if accepted.error.rowNumber < 10_002 {
      var n := accepted.error.rowNumber - 2;
      assert !Clean(rows) by {
        FaultNotClean(rows, n, accepted.error.problem);
      }
    }
  }

  lemma FaultNotClean(rows: seq<RawRow>, n: nat, problem: ImportProblem)
    requires n < |rows| && FirstFault(rows[n], IdsAbove(rows, n), problem)
    ensures !Clean(rows)
  {
    hide AtFault, IdsAbove;
    assert AtFault(rows[n], IdsAbove(rows, n), problem);
  }

  // ---------------------------------------------------------------- what a preview is told

  /** The record of an id among those known by the cutoff. */
  function KnownAs(id: string, asOf: int): Record -> bool {
    (r: Record) => r.observedAt <= asOf && r.transactionId == id
  }

  lemma FilterOne<T>(x: T, p: T -> bool)
    ensures Filter([x], p) == if p(x) then [x] else []
  {
  }

  lemma FilterEmpty<T>(p: T -> bool)
    ensures Filter([], p) == []
  {
  }

  lemma ProcessedIsNormal()
    ensures Lower("processed") == "processed"
  {
    LowerOfWord("processed");
  }

  lemma RefundTold(r: Record, asOf: int, id: string)
    ensures Filter(RefundRows(r, asOf), ProcessedFor(id)) == if r.transactionId == id then RefundRows(r, asOf) else []
  {
    hide Lower, Filter;
    ProcessedIsNormal();
    FilterEmpty(ProcessedFor(id));
    var rows := RefundRows(r, asOf);
    if rows != [] {
      FilterOne(rows[0], ProcessedFor(id));
    }
  }

  lemma DisputeTold(r: Record, asOf: int, id: string)
    ensures Filter(DisputeRows(r, asOf), DisputedFor(id)) == if r.transactionId == id then DisputeRows(r, asOf) else []
  {
    hide Filter;
    FilterEmpty(DisputedFor(id));
    var rows := DisputeRows(r, asOf);
    if rows != [] {
      FilterOne(rows[0], DisputedFor(id));
    }
  }

  lemma TelemetryTold(r: Record, id: string)
    requires id != ""
    ensures Filter([TelemetryRow(r)], BoundTo(id)) == if r.transactionId == id then [TelemetryRow(r)] else []
  {
    hide Filter;
    FilterOne(TelemetryRow(r), BoundTo(id));
  }

  /** The gathered rows that carry an id are those of its one known record. */
  lemma {:induction false} GatheredOf(records: seq<Record>, asOf: int, id: string)
    requires UniqueIds(records) && Gather(records, asOf).Success? && id != ""
    ensures var s := Gather(records, asOf).value; var found := Filter(records, KnownAs(id, asOf));
      && |found| <= 1
      && Filter(s.refunds, ProcessedFor(id)) == (if found == [] then [] else RefundRows(found[0], asOf))
      && Filter(s.disputes, DisputedFor(id)) == (if found == [] then [] else DisputeRows(found[0], asOf))
      && Filter(s.telemetry, BoundTo(id)) == if found == [] then [] else [TelemetryRow(found[0])]
  {
    hide RefundRows, DisputeRows, TelemetryRow, PaymentRow, ProcessedFor, DisputedFor, BoundTo, Unparseable, Filter,
        UniqueIds;
    if records == [] {
      FilterEmpty(KnownAs(id, asOf));
      FilterEmpty(ProcessedFor(id));
      FilterEmpty(DisputedFor(id));
      FilterEmpty(BoundTo(id));
    } else {
      var t, r := records[..|records| - 1], records[|records| - 1];
      assert records == t + [r];
      OthersElsewhere(t, r, asOf);
      GatheredOf(t, asOf, id);
      FilterAppend(t, r, KnownAs(id, asOf));
      assert KnownAs(id, asOf)(r) <==> r.observedAt <= asOf && r.transactionId == id;
      var s := Gather(t, asOf).value;
      if r.observedAt <= asOf {
        FilterConcat(s.refunds, RefundRows(r, asOf), ProcessedFor(id));
        FilterConcat(s.disputes, DisputeRows(r, asOf), DisputedFor(id));
        FilterConcat(s.telemetry, [TelemetryRow(r)], BoundTo(id));
        RefundTold(r, asOf, id);
        DisputeTold(r, asOf, id);
        TelemetryTold(r, id);
      }
    }
  }

  lemma OthersElsewhere(t: seq<Record>, r: Record, asOf: int)
    requires UniqueIds(t + [r])
    ensures UniqueIds(t) && Filter(t, KnownAs(r.transactionId, asOf)) == []
  {
    var all := t + [r];
    forall x | x in t ensures x.transactionId != r.transactionId {
      var i :| 0 <= i < |t| && t[i] == x;
      assert all[i] == x && all[|t|] == r;
    }
    forall i, j | 0 <= i < j < |t| ensures t[i].transactionId != t[j].transactionId {
      assert all[i].transactionId != all[j].transactionId;
    }
    FilterNone(t, KnownAs(r.transactionId, asOf));
  }

  lemma {:induction false} OnlyRecord(records: seq<Record>, asOf: int, r: Record)
    requires UniqueIds(records) && r in records && r.observedAt <= asOf
    ensures Filter(records, KnownAs(r.transactionId, asOf)) == [r]
  {
    var t, last := records[..|records| - 1], records[|records| - 1];
    assert records == t + [last];
    OthersElsewhere(t, last, asOf);
    FilterAppend(t, last, KnownAs(r.transactionId, asOf));
    hide Filter, UniqueIds;
    if last != r {
      assert r in t;
      OnlyRecord(t, asOf, r);
      UniqueHere(records, r, last);
    }
  }

  lemma UniqueHere(records: seq<Record>, a: Record, b: Record)
    requires UniqueIds(records) && a in records && b in records && a != b
    ensures a.transactionId != b.transactionId
  {
    var i :| 0 <= i < |records| && records[i] == a;
    var j :| 0 <= j < |records| && records[j] == b;
    if i < j {
      assert records[i].transactionId != records[j].transactionId;
    } else {
      assert records[j].transactionId != records[i].transactionId;
    }
  }

  /** What a preview is told of a stored record: its own facts, refunded or charged back from when that
      happened provided it was known by the cutoff. */
  ghost predicate RecordTold(account: string, r: Record, asOf: int, e: Event) {
    && e.id == r.transactionId && e.merchant == Strip(account) && e.at == r.eventAt
    && e.amount * 100.0 == r.amount as real
    && e.device == Strip(r.device) && e.geo == Strip(r.geo)
    && (e.auth == FAILED <==> r.status == "failed")
    && e.refundAt == (if r.refundObservedAt.Some? && r.refundObservedAt.value <= asOf then r.refundEventAt else None)
    && e.chargebackAt
       == if r.disputeObservedAt.Some? && r.disputeObservedAt.value <= asOf then r.disputeEventAt else None
  }

  lemma OneTime<T(!new)>(o: Observed<T>, time: Option<int>)
    requires FirstTime([o], time)
    ensures time == Some(if o.createdAt.Some? then o.createdAt.value else o.observedAt)
  {
    assert forall x :: x in [o] ==> x == o;
  }

  lemma RefundTime(r: Record, asOf: int, time: Option<int>)
    requires !Unparseable(r, asOf) && FirstTime(RefundRows(r, asOf), time)
    ensures time == if r.refundObservedAt.Some? && r.refundObservedAt.value <= asOf then r.refundEventAt else None
  {
    hide FirstLeast;
    var rows := RefundRows(r, asOf);
    if rows != [] {
      OneTime(rows[0], time);
    }
  }

  lemma DisputeTime(r: Record, asOf: int, time: Option<int>)
    requires !Unparseable(r, asOf) && FirstTime(DisputeRows(r, asOf), time)
    ensures time == if r.disputeObservedAt.Some? && r.disputeObservedAt.value <= asOf then r.disputeEventAt else None
  {
    hide FirstLeast;
    var rows := DisputeRows(r, asOf);
    if rows != [] {
      OneTime(rows[0], time);
    }
  }

  lemma KnownParses(records: seq<Record>, asOf: int, r: Record)
    requires Gather(records, asOf).Success? && r in records && r.observedAt <= asOf
    ensures !Unparseable(r, asOf)
  {
    GatherExact(records, asOf);
    hide Gather, Unparseable;
  }

  /** Every imported record in INR that is known by the cutoff is told, and exactly as it was stored. */
  lemma RecordToldExactly(account: string, records: seq<Record>, asOf: int, r: Record)
    requires UniqueIds(records) && Gather(records, asOf).Success?
    requires r in records && r.observedAt <= asOf && ValidRecord(r) && r.currency == "INR"
    ensures var e := EventFor(account, PaymentRow(r, asOf), JoinsOf(Gather(records, asOf).value));
      e.Some? && RecordTold(account, r, asOf, e.value)
  {
    hide Gather, EventFor, JoinsOf, UniqueIds, Filter, FirstTime, RefundRows, DisputeRows, Unparseable, Strip, Lower,
        IsGeo, IsCurrency, RefundStatus, FirstLeast;
    var o, s := PaymentRow(r, asOf), Gather(records, asOf).value;
    KnownParses(records, asOf, r);
    OnlyRecord(records, asOf, r);
    GatheredOf(records, asOf, r.transactionId);
    NormalStatus(r.status);
    EventExactly(account, o, s);
    assert Joinable(o, s) == [TelemetryRow(r)];
    var e := EventFor(account, o, JoinsOf(s)).value;
    RefundTime(r, asOf, e.refundAt);
    DisputeTime(r, asOf, e.chargebackAt);
  }

  /** The payment row of a record at a cutoff: a refund counts only once it was observed. */
  lemma PaymentRowExactly(r: Record, asOf: int)
    ensures var o := PaymentRow(r, asOf);
      && o.entity == r.transactionId && o.observedAt == r.observedAt && o.createdAt == Some(r.eventAt)
      && o.fact.orderId == Some(r.orderId) && o.fact.status == r.status && o.fact.amount == r.amount
      && o.fact.currency == r.currency && o.fact.paymentMethod == r.paymentMethod
      && (o.fact.captured <==> r.status == "captured" || r.status == "refunded")
      && o.fact.amountRefunded
         == (if r.refundObservedAt.Some? && r.refundObservedAt.value <= asOf then r.refundAmount else 0)
      && (o.fact.refundStatus == Some("full") <==> 0 < o.fact.amountRefunded == r.amount)
      && (o.fact.refundStatus == Some("partial") <==> 0 < o.fact.amountRefunded != r.amount)
      && (o.fact.refundStatus == None <==> o.fact.amountRefunded <= 0)
  {
    assert "full" != "partial" by {
      assert |"full"| != |"partial"|;
    }
  }

  lemma {:induction false} TargetIs(records: seq<Record>, id: string)
    ensures FindTarget(records, id).None? <==> forall r <- records :: r.transactionId != id
    ensures FindTarget(records, id).Some? ==>
              FindTarget(records, id).value in records && FindTarget(records, id).value.transactionId == id
  {
    if records != [] {
      TargetIs(records[1..], id);
    }
  }

  /** A transaction is previewed as of the moment it was itself observed; only an unknown one is not found. */
  lemma PreviewedAtObservation(m: MathLib, account: string, records: seq<Record>, r: Record)
    requires UniqueIds(records) && r in records
    ensures var p := PreviewOf(m, account, records, r.transactionId);
      p != Failure(TransactionNotFound) && (p.Success? ==> p.value.asOf == r.observedAt)
    ensures forall id :: PreviewOf(m, account, records, id) == Failure(TransactionNotFound)
                         <==> forall x <- records :: x.transactionId != id
  {
    hide Gather, BuildPreview, UniqueIds, FindTarget;
    TargetIs(records, r.transactionId);
    var found := FindTarget(records, r.transactionId).value;
    if found != r {
      UniqueHere(records, found, r);
    }
    var sources := Gather(records, r.observedAt);
    if sources.Success? && BuildPreview(m, account, r.observedAt, sources.value).Success? {
      PreviewCutoff(m, account, r.observedAt, sources.value);
    }
    forall id ensures PreviewOf(m, account, records, id) == Failure(TransactionNotFound)
                      <==> forall x <- records :: x.transactionId != id
    {
      TargetIs(records, id);
      if FindTarget(records, id).Some? {
        GatherFails(m, account, records, id);
      }
    }
  }

  lemma PreviewCutoff(m: MathLib, account: string, asOf: int, s: Sources)
    requires BuildPreview(m, account, asOf, s).Success?
    ensures BuildPreview(m, account, asOf, s).value.asOf == asOf
  {
    PreviewExactly(m, account, asOf, s);
    hide BuildPreview, Selected, LatestRows, BuildBaseline, BuildFeatures, JoinsOf, Blocked;
  }

  lemma GatherFails(m: MathLib, account: string, records: seq<Record>, id: string)
    requires FindTarget(records, id).Some?
    ensures PreviewOf(m, account, records, id) != Failure(TransactionNotFound)
  {
    hide Gather, BuildPreview;
    GatherExact(records, FindTarget(records, id).value.observedAt);
  }

  // ---------------------------------------------------------------- the order of stored records

  /** Texts compare at their first difference, and a text comes before its extensions. */
  lemma {:induction false} TextLeExactly(a: string, b: string)
    ensures TextLe(a, b) <==>
            || a <= b
            || exists k: nat :: k < |a| && k < |b| && a[..k] == b[..k] && a[k] < b[k]
  {
    if a != "" && b != "" {
      TextLeExactly(a[1..], b[1..]);
      if k: nat :| k < |a| && k < |b| && a[..k] == b[..k] && a[k] < b[k] {
        if k > 0 {
          assert a[1..][..k - 1] == a[..k][1..] && b[1..][..k - 1] == b[..k][1..];
          assert a[1..][k - 1] < b[1..][k - 1];
        }
      }
      if a[0] == b[0] {
        if k: nat :| k < |a[1..]| && k < |b[1..]| && a[1..][..k] == b[1..][..k] && a[1..][k] < b[1..][k] {
          assert a[..k + 1] == [a[0]] + a[1..][..k] && b[..k + 1] == [b[0]] + b[1..][..k];
          assert a[k + 1] < b[k + 1];
        }
      } else if a[0] < b[0] {
        assert a[..0] == b[..0];
      }
    }
  }

  /** Imported records are in event order, and those of one instant in the order of their identifiers. */
  lemma ImportedInOrder(rows: seq<RawRow>, account: string, hashDevice: (string, string) -> string, i: nat, j: nat)
    requires IsDigest(hashDevice) && Import(rows, account, hashDevice).Success?
    requires i < j < |Import(rows, account, hashDevice).value|
    ensures var a, b := Import(rows, account, hashDevice).value[i], Import(rows, account, hashDevice).value[j];
      && a.eventAt <= b.eventAt
      && (a.eventAt == b.eventAt ==>
            || a.transactionId <= b.transactionId
            || exists k: nat :: k < |a.transactionId| && k < |b.transactionId|
                 && a.transactionId[..k] == b.transactionId[..k] && a.transactionId[k] < b.transactionId[k])
  {
    hide Import, TextLe, ValidRecord, UniqueIds;
    ImportSound(rows, account, hashDevice);
    var records := Import(rows, account, hashDevice).value;
    assert RecordOrder(records[i], records[j]);
    TextLeExactly(records[i].transactionId, records[j].transactionId);
  }
}
