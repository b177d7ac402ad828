/** What a successful import guarantees about its records, and the one way a preview of imported
    history can still fail: a refund observed without an event time. */
module HistoryTotal {
  import opened Features
  import opened Firewall
  import opened LiveFeatures
  import opened Observations
  import opened OperatorHistory
  import opened RealMath
  import opened Sequences
  import opened Text
  import opened Wrappers

  /** The device digest is 64 hexadecimal characters. */
  ghost predicate IsDigest(hashDevice: (string, string) -> string) {
    forall account, pseudonym :: |Strip(hashDevice(account, pseudonym))| == 64
  }

  /** What every stored record satisfies. */
  ghost predicate ValidRecord(r: Record) {
    && 1 <= |r.transactionId| <= 128 && Strip(r.transactionId) == r.transactionId
    && 1 <= |r.orderId| <= 128
    && r.eventAt <= r.observedAt
    && r.amount > 0
    && IsCurrency(r.currency)
    && r.status in {"authorized", "captured", "refunded", "failed"}
    && |Strip(r.device)| == 64
    && IsGeo(r.geo)
    && 0 <= r.refundAmount <= r.amount
    && (r.refundAmount > 0 ==> r.refundEventAt.Some? && r.refundObservedAt.Some?)
    && (r.refundEventAt.Some? && r.refundObservedAt.Some? ==> r.refundEventAt.value <= r.refundObservedAt.value)
    && (r.disputeObservedAt.Some? ==> r.disputeEventAt.Some? && r.disputeEventAt.value <= r.disputeObservedAt.value)
  }

  ghost predicate UniqueIds(records: seq<Record>) {
    forall i, j :: 0 <= i < j < |records| ==> records[i].transactionId != records[j].transactionId
  }

  lemma AcceptedRow(raw: RawRow, seen: set<string>, account: string, hashDevice: (string, string) -> string)
    requires RowProblem(raw, seen).None? && IsDigest(hashDevice)
    ensures ValidRecord(Normalize(raw, account, hashDevice))
    ensures Normalize(raw, account, hashDevice).transactionId !in seen
  {
    StripFacts(raw.transactionId);
    assert |Strip(hashDevice(account, Strip(raw.devicePseudonym)))| == 64;
    hide Strip, Lower, Upper, IsGeo, IsCurrency;
  }

  lemma {:induction false} AcceptedSound(rows: seq<RawRow>, account: string, hashDevice: (string, string) -> string)
    requires IsDigest(hashDevice)
    ensures var r := Accepted(rows, account, hashDevice);
      r.Success? ==> |r.value| == |rows| <= MAX_IMPORT_ROWS && UniqueIds(r.value) && forall x | x in r.value ::
          ValidRecord(x)
  {
    hide RowProblem, Normalize, ValidRecord, IsDigest;
    if rows != [] {
      AcceptedSound(rows[..|rows| - 1], account, hashDevice);
      var before := Accepted(rows[..|rows| - 1], account, hashDevice);
      if before.Success? && RowProblem(rows[|rows| - 1], Ids(before.value)).None? {
        AcceptedRow(rows[|rows| - 1], Ids(before.value), account, hashDevice);
        forall i | 0 <= i < |before.value| ensures before.value[i].transactionId in Ids(before.value) {
          assert before.value[i] in before.value;
        }
      }
    }
  }

  lemma UniqueUnderPermutation(a: seq<Record>, b: seq<Record>)
    requires multiset(a) == multiset(b) && UniqueIds(a)
    ensures UniqueIds(b)
  {
    SameMembers(a, b);
    forall i, j | 0 <= i < j < |b| ensures b[i].transactionId != b[j].transactionId {
      if b[i].transactionId == b[j].transactionId {
        assert b[i] in a && b[j] in a;
        var x :| 0 <= x < |a| && a[x] == b[i];
        var y :| 0 <= y < |a| && a[y] == b[j];
        assert x == y;
        DoubleOccurrence(b, i, j);
        OccursOnce(a, x);
      }
    }
  }

  lemma {:induction false} TextLeTotal(a: string, b: string)
    ensures TextLe(a, b) || TextLe(b, a)
  {
    if a != "" && b != "" && a[0] == b[0] {
      TextLeTotal(a[1..], b[1..]);
    }
  }

  lemma {:induction false} TextLeTransitive(a: string, b: string, c: string)
    requires TextLe(a, b) && TextLe(b, c)
    ensures TextLe(a, c)
  {
    if a != "" && a[0] == b[0] == c[0] {
      TextLeTransitive(a[1..], b[1..], c[1..]);
    }
  }

  lemma RecordOrderTotal()
    ensures TotalPreorder(RecordOrder)
  {
    hide TextLe;
    forall a: Record, b: Record ensures RecordOrder(a, b) || RecordOrder(b, a) {
      TextLeTotal(a.transactionId, b.transactionId);
    }
    forall a: Record, b: Record, c: Record | RecordOrder(a, b) && RecordOrder(b, c) ensures RecordOrder(a, c) {
      if a.eventAt == b.eventAt == c.eventAt {
        TextLeTransitive(a.transactionId, b.transactionId, c.transactionId);
      }
    }
  }

  /** A successful import keeps every row, in event order, with unique ids and only valid records. */
  lemma ImportSound(rows: seq<RawRow>, account: string, hashDevice: (string, string) -> string)
    requires IsDigest(hashDevice) && Import(rows, account, hashDevice).Success?
    ensures var records := Import(rows, account, hashDevice).value;
      && 0 < |records| == |rows| <= MAX_IMPORT_ROWS
      && UniqueIds(records) && Sorted(records, RecordOrder)
      && forall r | r in records :: ValidRecord(r)
  {
    AcceptedSound(rows, account, hashDevice);
    var accepted := Accepted(rows, account, hashDevice).value;
    SortMultiset(accepted, RecordOrder);
    SortMembers(accepted, RecordOrder);
    RecordOrderTotal();
    SortSorted(accepted, RecordOrder);
    hide Accepted, StableSort, ValidRecord, UniqueIds, Sorted, TotalPreorder;
    UniqueUnderPermutation(accepted, StableSort(accepted, RecordOrder));
  }

  // ---------------------------------------------------------------- gathering

  lemma {:induction false} GeoTailLength(s: string, groups: nat)
    requires GeoTail(s, groups)
    ensures |s| <= 13 * groups
    decreases groups
  {
    if s != "" {
      GeoRunWithin(s[1..]);
      GeoTailLength(s[1 + GeoRun(s[1..])..], groups - 1);
    }
  }

  lemma GeoFits(s: string)
    requires IsGeo(s)
    ensures 1 <= |Strip(s)| <= 64
  {
    GeoTailLength(s[2..], 2);
    StripFacts(s);
  }

  function PaymentAt(asOf: int): Record -> Observed<PaymentFact> {
    (r: Record) => PaymentRow(r, asOf)
  }

  /** Gathering fails exactly when a record known by the cutoff cannot be parsed; otherwise each known
      record contributes one payment row and one telemetry row, in order, and no other record any. */
  lemma {:induction false} GatherExact(records: seq<Record>, asOf: int)
    ensures Gather(records, asOf).Failure? <==> exists r | r in records :: r.observedAt <= asOf && Unparseable(r, asOf)
    ensures Gather(records, asOf).Failure? ==> Gather(records, asOf).error == MissingTimestamp
    ensures Gather(records, asOf).Success? ==>
              var known := Filter(records, ObservedBy(asOf));
              && Gather(records, asOf).value.payments == Map(known, PaymentAt(asOf))
              && Gather(records, asOf).value.telemetry == Map(known, TelemetryRow)
  {
    hide PaymentRow, TelemetryRow, RefundRows, DisputeRows, Unparseable, Filter, Map;
    if records == [] {
      GatherNothing(asOf);
    } else {
      var t, r := records[..|records| - 1], records[|records| - 1];
      assert records == t + [r];
      GatherExact(t, asOf);
      FilterAppend(t, r, ObservedBy(asOf));
      var known := Filter(t, ObservedBy(asOf));
      MapAppend(known, r, PaymentAt(asOf));
      MapAppend(known, r, TelemetryRow);
      assert known + [] == known;
    }
  }

  lemma GatherNothing(asOf: int)
    ensures Gather([], asOf).Success?
            && Gather([], asOf).value.payments == Map(Filter([], ObservedBy(asOf)), PaymentAt(asOf))
    ensures Gather([], asOf).value.telemetry == Map(Filter([], ObservedBy(asOf)), TelemetryRow)
  {
  }

  /** The rows of a gathering, traced back to their records. */
  lemma GatherMembers(records: seq<Record>, asOf: int)
    requires Gather(records, asOf).Success?
    ensures var s := Gather(records, asOf).value;
              && |s.payments| <= |records|
              && (forall o | o in s.payments ::
                    exists r | r in records :: o == PaymentRow(r, asOf) && TelemetryRow(r) in s.telemetry)
              && (forall t | t in s.telemetry :: exists r | r in records :: t == TelemetryRow(r))
  {
    GatherExact(records, asOf);
    FilterMembers(records, ObservedBy(asOf));
    FilterLength(records, ObservedBy(asOf));
    hide PaymentRow, TelemetryRow, Gather, Filter;
    var known := Filter(records, ObservedBy(asOf));
    var s := Gather(records, asOf).value;
    forall o | o in s.payments
      ensures exists r | r in records :: o == PaymentRow(r, asOf) && TelemetryRow(r) in s.telemetry
    {
      var i :| 0 <= i < |s.payments| && s.payments[i] == o;
      assert o == PaymentRow(known[i], asOf) && s.telemetry[i] == TelemetryRow(known[i]) && known[i] in records;
    }
    forall t | t in s.telemetry ensures exists r | r in records :: t == TelemetryRow(r) {
      var i :| 0 <= i < |s.telemetry| && s.telemetry[i] == t;
      assert t == TelemetryRow(known[i]) && known[i] in records;
    }
  }

  lemma FitRecord(r: Record, asOf: int)
    requires ValidRecord(r)
    ensures FitRow(PaymentRow(r, asOf)) && FitTelemetry(TelemetryRow(r))
  {
    GeoFits(r.geo);
    hide Strip, IsGeo, RefundStatus;
  }

  lemma FitGathered(account: string, records: seq<Record>, asOf: int)
    requires 1 <= |Strip(account)| <= 128
    requires forall r | r in records :: ValidRecord(r)
    requires Gather(records, asOf).Success?
    ensures FitSources(account, Gather(records, asOf).value)
    ensures |Gather(records, asOf).value.payments| <= |records|
  {
    GatherMembers(records, asOf);
    hide Gather, ValidRecord, FitRow, FitTelemetry, PaymentRow, TelemetryRow, Strip;
    var s := Gather(records, asOf).value;
    forall o | o in s.payments ensures FitRow(o) {
      var r :| r in records && o == PaymentRow(r, asOf);
      FitRecord(r, asOf);
    }
    forall t | t in s.telemetry ensures FitTelemetry(t) {
      var r :| r in records && t == TelemetryRow(r);
      FitRecord(r, asOf);
    }
  }

  /** A refund known by the cutoff that carries no event time; the import lets it through only when
      the refunded amount is zero. */
  ghost predicate DanglingRefund(r: Record, asOf: int) {
    r.observedAt <= asOf && RefundKnown(r, asOf) && r.refundEventAt.None?
  }

  lemma DanglingRefundIsZero(r: Record, asOf: int)
    requires ValidRecord(r) && DanglingRefund(r, asOf)
    ensures r.refundAmount == 0
  {
  }

  lemma UnparseableRecord(r: Record, asOf: int)
    requires ValidRecord(r)
    ensures r.observedAt <= asOf && Unparseable(r, asOf) <==> DanglingRefund(r, asOf)
  {
  }

  lemma GatherImported(records: seq<Record>, asOf: int)
    requires forall r | r in records :: ValidRecord(r)
    ensures Gather(records, asOf).Failure? <==> exists r | r in records :: DanglingRefund(r, asOf)
    ensures Gather(records, asOf).Failure? ==> Gather(records, asOf).error == MissingTimestamp
  {
    GatherExact(records, asOf);
    forall r | r in records ensures r.observedAt <= asOf && Unparseable(r, asOf) <==> DanglingRefund(r, asOf) {
      UnparseableRecord(r, asOf);
    }
    hide Gather, ValidRecord, Unparseable, DanglingRefund;
  }

  /** Preview of an imported dataset: it fails exactly when some record known at the cutoff has a
      refund observed without an event time. In every other case it returns a preview that carries a
      vector, inside every declared bound, exactly when no blocker is listed. The row limit of the
      import is what keeps the divergence feature non-negative. */
  lemma ImportedPreviewExact(m: MathLib, account: string, rows: seq<RawRow>, hashDevice: (string, string) -> string,
                             transactionId: string)
    requires Sound(m) && IsDigest(hashDevice) && 1 <= |Strip(account)| <= 128
    requires Import(rows, account, hashDevice).Success?
    requires FindTarget(Import(rows, account, hashDevice).value, transactionId).Some?
    ensures var records := Import(rows, account, hashDevice).value;
      var asOf := FindTarget(records, transactionId).value.observedAt;
      var p := PreviewOf(m, account, records, transactionId);
      && (p.Failure? <==> exists r | r in records :: DanglingRefund(r, asOf))
      && (p.Failure? ==> p.error == MissingTimestamp)
      && (p.Success? ==> (p.value.vector.Some? <==> p.value.blockers == []))
      && (p.Success? && p.value.vector.Some? ==> InBounds(p.value.vector.value))
  {
    ImportSound(rows, account, hashDevice);
    var records := Import(rows, account, hashDevice).value;
    var asOf := FindTarget(records, transactionId).value.observedAt;
    assert |records| < 1_000_000;
    hide Import, FindTarget, Gather, BuildPreview, ValidRecord, UniqueIds, Sorted, Strip, IsDigest, Sound, InBounds,
        DanglingRefund, Grounded, OneToOne;
    GatherImported(records, asOf);
    if Gather(records, asOf).Success? {
      FitGathered(account, records, asOf);
      SelectedInWindow(Gather(records, asOf).value.payments, asOf);
      FewSelected(Gather(records, asOf).value, asOf);
      FirewallTotal(m, account, asOf, Gather(records, asOf).value);
      FirewallExact(m, account, asOf, Gather(records, asOf).value);
    }
  }

  // ---------------------------------------------------------------- a row that cannot be previewed

  /** Refund amount 0, a refund observation time, no refund event time. */
  function DanglingRow(): RawRow {
    RawRow("txn", "order", 0, 5, 100, "INR", "captured", "card", "device-pseudonym", "IN", 0, None, Some(3), "", "",
        None, None, None)
  }

  lemma Unpadded(s: string)
    requires s != "" && !IsSpace(s[0]) && !IsSpace(s[|s| - 1])
    ensures Strip(s) == s
  {
    StripLeftFacts(s);
    StripRightFacts(s);
    hide StripLeft, StripRight;
  }

  lemma DanglingRowText()
    ensures var raw := DanglingRow();
      && Strip(raw.transactionId) == "txn" && Strip(raw.orderId) == "order" && Upper(Strip(raw.currency)) == "INR"
      && Lower(Strip(raw.status)) == "captured" && Lower(Strip(raw.paymentMethod)) == "card"
      && Strip(raw.devicePseudonym) == "device-pseudonym" && Upper(Strip(raw.geo)) == "IN"
      && Lower(Strip(raw.disputePhase)) == "" && Lower(Strip(raw.disputeStatus)) == ""
  {
    hide Strip, Upper;
    UpperWords();
    Unpadded("txn");
    Unpadded("order");
    Unpadded("INR");
    Unpadded("captured");
    Unpadded("card");
    Unpadded("device-pseudonym");
    Unpadded("IN");
    LowerOfWord("captured");
    LowerOfWord("card");
    EmptyText();
  }

  lemma UpperWords()
    ensures Upper("IN") == "IN" && Upper("INR") == "INR"
  {
  }

  lemma EmptyText()
    ensures Lower(Strip("")) == ""
  {
  }

  lemma DanglingRowAccepted(seen: set<string>)
    requires "txn" !in seen
    ensures RowProblem(DanglingRow(), seen).None?
  {
    DanglingRowText();
    hide Strip, Lower, Upper;
    assert GeoTail("", 2);
    assert "IN"[2..] == "";
  }

  lemma DanglingRecord(account: string, hashDevice: (string, string) -> string)
    ensures var record := Normalize(DanglingRow(), account, hashDevice);
      record.transactionId == "txn" && record.observedAt == 5 && Unparseable(record, 5)
  {
    DanglingRowText();
    hide Strip, Lower, Upper;
  }

  lemma ImportOne(raw: RawRow, account: string, hashDevice: (string, string) -> string)
    requires RowProblem(raw, {}).None?
    ensures Import([raw], account, hashDevice) == Success([Normalize(raw, account, hashDevice)])
  {
    hide RowProblem, Normalize;
    AcceptedOne(raw, account, hashDevice);
    SortOne(Normalize(raw, account, hashDevice));
  }

  lemma SortOne(r: Record)
    ensures StableSort([r], RecordOrder) == [r]
  {
  }

  lemma PreviewOne(m: MathLib, account: string, r: Record)
    requires Unparseable(r, r.observedAt)
    ensures PreviewOf(m, account, [r], r.transactionId) == Failure(MissingTimestamp)
  {
    hide BuildPreview, Unparseable, Gather;
    assert r in [r];
    GatherExact([r], r.observedAt);
  }

  /** A file of one such row is imported, and the preview of its transaction raises. */
  lemma DanglingRefundRaises(m: MathLib, account: string, hashDevice: (string, string) -> string)
    ensures Import([DanglingRow()], account, hashDevice).Success?
    ensures PreviewOf(m, account, Import([DanglingRow()], account, hashDevice).value, "txn")
            == Failure(MissingTimestamp)
  {
    hide Import, PreviewOf, RowProblem, Normalize, DanglingRow, Unparseable;
    DanglingRowAccepted({});
    ImportOne(DanglingRow(), account, hashDevice);
    DanglingRecord(account, hashDevice);
    PreviewOne(m, account, Normalize(DanglingRow(), account, hashDevice));
  }

  lemma AcceptedOne(raw: RawRow, account: string, hashDevice: (string, string) -> string)
    requires RowProblem(raw, {}).None?
    ensures Accepted([raw], account, hashDevice) == Success([Normalize(raw, account, hashDevice)])
  {
    hide RowProblem, Normalize;
    assert [raw][..0] == [];
    assert Accepted([], account, hashDevice) == Success([]);
    assert Ids([]) == {};
    var record := Normalize(raw, account, hashDevice);
    assert [] + [record] == [record];
    assert Accepted([raw][..|[raw]| - 1], account, hashDevice).value == [];
  }

  // ---------------------------------------------------------------- telemetry of imported rows

  lemma {:induction false} PaymentMapHas(rows: seq<Telemetry>, t: Telemetry)
    requires t in rows && t.paymentId.Some? && Truthy(t.paymentId.value)
    ensures t.paymentId.value in PaymentMap(rows)
  {
    var n := |rows| - 1;
    assert rows == rows[..n] + [rows[n]];
    if rows[n] != t {
      PaymentMapHas(rows[..n], t);
    }
  }

  /** Imported rows bring their own telemetry and only mapped statuses, so the one thing that can keep
      a selected row from becoming an event is a currency other than INR. */
  lemma ImportedRowTold(account: string, records: seq<Record>, asOf: int, o: Observed<PaymentFact>)
    requires forall r | r in records :: ValidRecord(r)
    requires Gather(records, asOf).Success? && o in Gather(records, asOf).value.payments
    ensures EventFor(account, o, JoinsOf(Gather(records, asOf).value)).Some? <==> o.fact.currency == "INR"
    ensures !Unmapped(o)
  {
    GatherMembers(records, asOf);
    hide Gather, JoinsOf, ValidRecord, MapAuthStatus, Strip, RefundStatus, TelemetryFor;
    var s := Gather(records, asOf).value;
    var r :| r in records && o == PaymentRow(r, asOf) && TelemetryRow(r) in s.telemetry;
    StatusMapped(r);
    OwnTelemetry(s, r, o);
  }

  lemma StatusMapped(r: Record)
    requires ValidRecord(r)
    ensures MapAuthStatus(r.status).Some?
  {
    NormalStatus(r.status);
    hide Lower, Strip, IsGeo;
  }

  lemma OwnTelemetry(s: Sources, r: Record, o: Observed<PaymentFact>)
    requires ValidRecord(r) && TelemetryRow(r) in s.telemetry && o.entity == r.transactionId
    ensures TelemetryFor(o, JoinsOf(s)).Some?
  {
    SortMembers(s.telemetry, TelemetryEarlier);
    PaymentMapHas(StableSort(s.telemetry, TelemetryEarlier), TelemetryRow(r));
    hide StableSort, FirstTimestamps, OrderMap, PaymentMap, Strip, IsGeo;
  }
}
