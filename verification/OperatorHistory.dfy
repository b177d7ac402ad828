/** Operator-supplied history: row validation on import, and the point-in-time preview of one
    transaction from everything observed up to its own observation time. */
module OperatorHistory {
  import opened LiveFeatures
  import opened Observations
  import opened RealMath
  import opened Sequences
  import opened Text
  import opened Wrappers

  const MAX_IMPORT_ROWS: nat := 10_000

  /** One CSV row with its numbers and instants already parsed. */
  datatype RawRow = RawRow(transactionId: string, orderId: string, eventAt: int, observedAt: int, amount: int,
                           currency: string, status: string, paymentMethod: string, devicePseudonym: string,
                           geo: string, refundAmount: int, refundEventAt: Option<int>, refundObservedAt: Option<int>,
                           disputePhase: string, disputeStatus: string, disputeEventAt: Option<int>,
                           disputeObservedAt: Option<int>, fraudLabel: Option<int>)

  /** One stored record. */
  datatype Record = Record(transactionId: string, orderId: string, eventAt: int, observedAt: int, amount: int,
                           currency: string, status: string, paymentMethod: string, device: string, geo: string,
                           refundAmount: int, refundEventAt: Option<int>, refundObservedAt: Option<int>,
                           disputePhase: Option<string>, disputeStatus: Option<string>,
                           disputeEventAt: Option<int>, disputeObservedAt: Option<int>, fraudLabel: Option<int>)

  datatype ImportProblem = TooManyRows | BadTransactionId | DuplicateTransactionId | BadOrderId | ObservedBeforeEvent
                         | AmountNotPositive | BadCurrency | UnsupportedStatus | BadMethod | BadDevice | BadGeo
                         | RefundOutOfRange | RefundTimesMissing | RefundObservedBeforeEvent
                         | DisputeIncomplete | DisputeObservedBeforeEvent
  datatype ImportError = RowRejected(rowNumber: nat, problem: ImportProblem) | NoRows

  // ---------------------------------------------------------------- text rules

  predicate IsUpper(c: char) { 'A' <= c <= 'Z' }
  predicate IsGeoChar(c: char) { 'A' <= c <= 'Z' || '0' <= c <= '9' }

  predicate IsCurrency(s: string) {
    |s| == 3 && IsUpper(s[0]) && IsUpper(s[1]) && IsUpper(s[2])
  }

  function GeoRun(s: string): nat {
    if s != "" && IsGeoChar(s[0]) then 1 + GeoRun(s[1..]) else 0
  }

  lemma {:induction false} GeoRunWithin(s: string)
    ensures GeoRun(s) <= |s|
  {
    if s != "" && IsGeoChar(s[0]) {
      GeoRunWithin(s[1..]);
    }
  }

  /** Up to `groups` further dash-separated groups of one to twelve characters. */
  predicate GeoTail(s: string, groups: nat)
    decreases groups
  {
    if s == "" then true
    else if groups == 0 || s[0] != '-' then false
    else
      GeoRunWithin(s[1..]);
      var run := GeoRun(s[1..]);
      1 <= run <= 12 && GeoTail(s[1 + run..], groups - 1)
  }

  /** Country, optionally followed by one or two subdivision groups. */
  predicate IsGeo(s: string) {
    |s| >= 2 && IsUpper(s[0]) && IsUpper(s[1]) && GeoTail(s[2..], 2)
  }

  // ---------------------------------------------------------------- row validation

  /** The order the checks are made in; the first that fails rejects the file. */
  function RowProblem(raw: RawRow, seen: set<string>): Option<ImportProblem> {
    var id, orderId := Strip(raw.transactionId), Strip(raw.orderId);
    var disputePhase, disputeStatus := Lower(Strip(raw.disputePhase)), Lower(Strip(raw.disputeStatus));
    var anyDispute := Truthy(disputePhase) || Truthy(disputeStatus) || raw.disputeEventAt.Some?
        || raw.disputeObservedAt.Some?;
    var allDispute := Truthy(disputePhase) && Truthy(disputeStatus) && raw.disputeEventAt.Some?
        && raw.disputeObservedAt.Some?;
    if id == "" || |id| > 128 then Some(BadTransactionId)
    else if id in seen then Some(DuplicateTransactionId)
    else if orderId == "" || |orderId| > 128 then Some(BadOrderId)
    else if raw.observedAt < raw.eventAt then Some(ObservedBeforeEvent)
    else if raw.amount <= 0 then Some(AmountNotPositive)
    else if !IsCurrency(Upper(Strip(raw.currency))) then Some(BadCurrency)
    else if Lower(Strip(raw.status)) !in {"authorized", "captured", "refunded", "failed"} then Some(UnsupportedStatus)
    else if Lower(Strip(raw.paymentMethod)) == "" || |Lower(Strip(raw.paymentMethod))| > 64 then Some(BadMethod)
    else if |Strip(raw.devicePseudonym)| < 16 || |Strip(raw.devicePseudonym)| > 256 then Some(BadDevice)
    else if !IsGeo(Upper(Strip(raw.geo))) then Some(BadGeo)
    else if raw.refundAmount < 0 || raw.refundAmount > raw.amount then Some(RefundOutOfRange)
    else if raw.refundAmount > 0 && (raw.refundEventAt.None? || raw.refundObservedAt.None?)
        then Some(RefundTimesMissing)
    else if raw.refundEventAt.Some? && raw.refundObservedAt.Some?
        && raw.refundObservedAt.value < raw.refundEventAt.value
    then Some(RefundObservedBeforeEvent)
    else if anyDispute && !allDispute then Some(DisputeIncomplete)
    else if allDispute && raw.disputeObservedAt.value < raw.disputeEventAt.value then Some(DisputeObservedBeforeEvent)
    else None
  }

  function Optional(s: string): Option<string> {
    if Truthy(s) then Some(s) else None
  }

  function Normalize(raw: RawRow, account: string, hashDevice: (string, string) -> string): Record {
    Record(Strip(raw.transactionId), Strip(raw.orderId), raw.eventAt, raw.observedAt, raw.amount,
           Upper(Strip(raw.currency)), Lower(Strip(raw.status)), Lower(Strip(raw.paymentMethod)),
           hashDevice(account, Strip(raw.devicePseudonym)), Upper(Strip(raw.geo)),
           raw.refundAmount, raw.refundEventAt, raw.refundObservedAt,
           Optional(Lower(Strip(raw.disputePhase))), Optional(Lower(Strip(raw.disputeStatus))),
           raw.disputeEventAt, raw.disputeObservedAt, raw.fraudLabel)
  }

  function Ids(records: seq<Record>): set<string> {
    set r | r in records :: r.transactionId
  }

  /** Records accepted from the first rows, or the first rejection. Data rows are numbered from 2. */
  function Accepted(rows: seq<RawRow>, account: string, hashDevice: (string, string) -> string)
    : Result<seq<Record>, ImportError>
  {
    if rows == [] then Success([])
    else
      var n := |rows| - 1;
      var records :- Accepted(rows[..n], account, hashDevice);
      if |records| >= MAX_IMPORT_ROWS then Failure(RowRejected(n + 2, TooManyRows))
      else
        var problem := RowProblem(rows[n], Ids(records));
        if problem.Some? then Failure(RowRejected(n + 2, problem.value))
        else Success(records + [Normalize(rows[n], account, hashDevice)])
  }

  /** Lexicographic order of texts. */
  predicate TextLe(a: string, b: string) {
    a == "" || (b != "" && (a[0] < b[0] || (a[0] == b[0] && TextLe(a[1..], b[1..]))))
  }

  predicate RecordOrder(a: Record, b: Record) {
    a.eventAt < b.eventAt || (a.eventAt == b.eventAt && TextLe(a.transactionId, b.transactionId))
  }

  function Import(rows: seq<RawRow>, account: string, hashDevice: (string, string) -> string)
    : Result<seq<Record>, ImportError>
  {
    var records :- Accepted(rows, account, hashDevice);
    if records == [] then Failure(NoRows) else Success(StableSort(records, RecordOrder))
  }

  predicate LabelledFraud(raw: RawRow) {
    raw.fraudLabel == Some(1)
  }

  lemma NoLabels(rows: seq<RawRow>)
    ensures Filter(rows[..0], LabelledFraud) == []
  {
  }

  lemma LabelsAppend(rows: seq<RawRow>, n: nat)
    requires n < |rows|
    ensures |Filter(rows[..n + 1], LabelledFraud)| == |Filter(rows[..n], LabelledFraud)| + if LabelledFraud(rows[n])
            then 1 else 0
  {
    assert rows[..n + 1] == rows[..n] + [rows[n]];
    FilterAppend(rows[..n], rows[n], LabelledFraud);
  }

  /** The import loop, with the count of fraud labels the manifest reports. */
  method ImportRows(rows: seq<RawRow>, account: string, hashDevice: (string, string) -> string)
    returns (r: Result<seq<Record>, ImportError>, fraudCount: nat)
    ensures r == Import(rows, account, hashDevice)
    ensures r.Success? ==> fraudCount == |Filter(rows, LabelledFraud)|
  {
    hide RowProblem, Normalize, StableSort, Filter;
    NoLabels(rows);
    var records: seq<Record> := [];
    var seen: set<string> := {};
    fraudCount := 0;
    for n := 0 to |rows|
      invariant fraudCount == |Filter(rows[..n], LabelledFraud)|
      invariant Accepted(rows[..n], account, hashDevice) == Success(records)
      invariant seen == Ids(records)
    {
      assert rows[..n + 1][..n] == rows[..n];
      if |records| >= MAX_IMPORT_ROWS {
        Rejected(rows, n + 1, account, hashDevice);
        return Failure(RowRejected(n + 2, TooManyRows)), fraudCount;
      }
      var problem := RowProblem(rows[n], seen);
      if problem.Some? {
        Rejected(rows, n + 1, account, hashDevice);
        return Failure(RowRejected(n + 2, problem.value)), fraudCount;
      }
      LabelsAppend(rows, n);
      fraudCount := fraudCount + if rows[n].fraudLabel == Some(1) then 1 else 0;
      var record := Normalize(rows[n], account, hashDevice);
      seen := seen + {record.transactionId};
      records := records + [record];
    }
    assert rows[..|rows|] == rows;
    if records == [] {
      return Failure(NoRows), fraudCount;
    }
    r := Success(StableSort(records, RecordOrder));
  }

  /** The first rejection is final. */
  lemma {:induction false} Rejected(rows: seq<RawRow>, k: nat, account: string, hashDevice: (string, string) -> string)
    requires k <= |rows| && Accepted(rows[..k], account, hashDevice).Failure?
    ensures Accepted(rows, account, hashDevice) == Accepted(rows[..k], account, hashDevice)
    decreases |rows| - k
  {
    if k == |rows| {
      assert rows[..k] == rows;
    } else {
      assert rows[..k + 1][..k] == rows[..k];
      Rejected(rows, k + 1, account, hashDevice);
    }
  }

  // ---------------------------------------------------------------- the preview

  datatype PreviewError = TransactionNotFound | MissingTimestamp | Live(e: LiveError)

  function ObservedBy(asOf: int): Record -> bool {
    (r: Record) => r.observedAt <= asOf
  }

  predicate RefundKnown(r: Record, asOf: int) {
    r.refundObservedAt.Some? && r.refundObservedAt.value <= asOf
  }

  predicate DisputeKnown(r: Record, asOf: int) {
    r.disputeObservedAt.Some? && r.disputeObservedAt.value <= asOf
  }

  function RefundStatus(amount: int, refunded: int): Option<string> {
    if refunded == amount && refunded > 0 then Some("full") else if refunded > 0 then Some("partial") else None
  }

  function PaymentRow(r: Record, asOf: int): Observed<PaymentFact> {
    var refunded := if RefundKnown(r, asOf) then r.refundAmount else 0;
    Observed(r.transactionId, r.observedAt, Some(r.eventAt),
             PaymentFact(Some(r.orderId), r.status, r.amount, r.currency, r.paymentMethod,
                         r.status in {"captured", "refunded"}, refunded, RefundStatus(r.amount, refunded)))
  }

  function TelemetryRow(r: Record): Telemetry {
    Telemetry(r.orderId, Some(r.transactionId), r.device, r.geo, r.observedAt)
  }

  function RefundRows(r: Record, asOf: int): seq<Observed<RefundFact>> {
    if RefundKnown(r, asOf) && r.refundEventAt.Some?
    then [Observed("hist_refund_" + r.transactionId, r.refundObservedAt.value, r.refundEventAt,
                   RefundFact(r.transactionId, "processed"))]
    else []
  }

  function DisputeRows(r: Record, asOf: int): seq<Observed<DisputeFact>> {
    if DisputeKnown(r, asOf) && r.disputeEventAt.Some?
    then [Observed("hist_dispute_" + r.transactionId, r.disputeObservedAt.value, r.disputeEventAt,
                   DisputeFact(r.transactionId, r.disputeStatus.GetOr(""), r.disputePhase.GetOr("")))]
    else []
  }

  /** A known refund or dispute without an event time cannot be parsed. */
  predicate Unparseable(r: Record, asOf: int) {
    (RefundKnown(r, asOf) && r.refundEventAt.None?) || (DisputeKnown(r, asOf) && r.disputeEventAt.None?)
  }

  function Gather(records: seq<Record>, asOf: int): Result<Sources, PreviewError> {
    if records == [] then Success(Sources([], [], [], [], map[]))
    else
      var r := records[|records| - 1];
      var s :- Gather(records[..|records| - 1], asOf);
      if r.observedAt > asOf then Success(s)
      else if Unparseable(r, asOf) then Failure(MissingTimestamp)
      else Success(Sources(s.payments + [PaymentRow(r, asOf)], s.refunds + RefundRows(r, asOf),
                           s.disputes + DisputeRows(r, asOf), s.telemetry + [TelemetryRow(r)],
                           s.orderByPayment[r.transactionId := Some(r.orderId)]))
  }

  function FindTarget(records: seq<Record>, transactionId: string): Option<Record> {
    if records == [] then None
    else if records[0].transactionId == transactionId then Some(records[0])
    else FindTarget(records[1..], transactionId)
  }

  function PreviewAt(m: MathLib, account: string, records: seq<Record>, asOf: int): Result<Preview, PreviewError> {
    var sources :- Gather(records, asOf);
    var preview := BuildPreview(m, account, asOf, sources);
    if preview.Failure? then Failure(Live(preview.error)) else Success(preview.value)
  }

  function PreviewOf(m: MathLib, account: string, records: seq<Record>, transactionId: string)
    : Result<Preview, PreviewError>
  {
    var target := FindTarget(records, transactionId);
    if target.None? then Failure(TransactionNotFound) else PreviewAt(m, account, records, target.value.observedAt)
  }

  method PreviewTransaction(m: MathLib, account: string, records: seq<Record>, transactionId: string)
    returns (p: Result<Preview, PreviewError>)
    ensures p == PreviewOf(m, account, records, transactionId)
  {
    hide BuildPreview, PaymentRow, TelemetryRow, RefundStatus;
    var target := FindTarget(records, transactionId);
    if target.None? {
      return Failure(TransactionNotFound);
    }
    var asOf := target.value.observedAt;
    var paymentRows: seq<Observed<PaymentFact>> := [];
    var telemetryRows: seq<Telemetry> := [];
    var refundRows: seq<Observed<RefundFact>> := [];
    var disputeRows: seq<Observed<DisputeFact>> := [];
    var orderByPayment: map<string, Option<string>> := map[];
    for k := 0 to |records|
      invariant Gather(records[..k], asOf)
                == Success(Sources(paymentRows, refundRows, disputeRows, telemetryRows, orderByPayment))
    {
      var row := records[k];
      assert records[..k + 1][..k] == records[..k];
      if row.observedAt > asOf {
        continue;
      }
      if Unparseable(row, asOf) {
        GatherStuck(records, k + 1, asOf);
        return Failure(MissingTimestamp);
      }
      paymentRows := paymentRows + [PaymentRow(row, asOf)];
      telemetryRows := telemetryRows + [TelemetryRow(row)];
      orderByPayment := orderByPayment[row.transactionId := Some(row.orderId)];
      refundRows := refundRows + RefundRows(row, asOf);
      disputeRows := disputeRows + DisputeRows(row, asOf);
    }
    assert records[..|records|] == records;
    var preview := MakePreview(m, account, asOf,
        Sources(paymentRows, refundRows, disputeRows, telemetryRows, orderByPayment));
    p := if preview.Failure? then Failure(Live(preview.error)) else Success(preview.value);
  }

  lemma {:induction false} GatherStuck(records: seq<Record>, k: nat, asOf: int)
    requires k <= |records| && Gather(records[..k], asOf) == Failure(MissingTimestamp)
    ensures Gather(records, asOf) == Failure(MissingTimestamp)
    decreases |records| - k
  {
    if k == |records| {
      assert records[..k] == records;
    } else {
      assert records[..k + 1][..k] == records[..k];
      GatherStuck(records, k + 1, asOf);
    }
  }
}
