/** The audit trail the row-based repository leaves: one valid chain per case, mirrored in the outbox,
    and pointed at by every decision and review it was written for. */
module SqlAudit {
  import opened HoldDomain
  import opened Sequences
  import opened SqlRepository
  import opened Wrappers
  import Audit

  function RowsOf(audit: seq<AuditRow>, id: Uuid): seq<AuditRow> {
    Filter(audit, RowFor(id))
  }

  function Payload(row: AuditRow): Audit.Record { row.payload }

  function Records(audit: seq<AuditRow>, id: Uuid): seq<Audit.Record> {
    Map(RowsOf(audit, id), Payload)
  }

  // ---------------------------------------------------------------- one chain per case

  /** The rows are numbered 1..k and their columns repeat what their payload says. */
  ghost predicate Numbered(rows: seq<AuditRow>) {
    forall i :: 0 <= i < |rows| ==> rows[i].sequenceNo == i + 1 && rows[i] == RowOf(rows[i].payload)
  }

  ghost predicate CaseChain(h: Audit.Hasher, audit: seq<AuditRow>, id: Uuid) {
    Numbered(RowsOf(audit, id)) && Audit.Chained(h, Records(audit, id))
  }

  /** Numbered rows make the row with the highest number the one inserted last. */
  lemma {:induction false} LatestIsLast(audit: seq<AuditRow>, id: Uuid)
    requires Numbered(RowsOf(audit, id))
    ensures Latest(audit, RowFor(id), SequenceNo)
         == if RowsOf(audit, id) == [] then None else Some(RowsOf(audit, id)[|RowsOf(audit, id)| - 1])
  {
    if audit != [] {
      var n := |audit| - 1;
      assert audit == audit[..n] + [audit[n]];
      FilterAppend(audit[..n], audit[n], RowFor(id));
      var before, rows := RowsOf(audit[..n], id), RowsOf(audit, id);
      assert forall i :: 0 <= i < |before| ==> before[i] == rows[i];
      LatestIsLast(audit[..n], id);
    }
  }

  lemma NextOfChain(h: Audit.Hasher, audit: seq<AuditRow>, id: Uuid)
    requires CaseChain(h, audit, id)
    ensures NextSequence(audit, id) == |RowsOf(audit, id)| + 1
    ensures PreviousHash(audit, id) == Audit.Head(Records(audit, id))
  {
    LatestIsLast(audit, id);
  }

  /** The stored hashes always have the length the hash function insists on. */
  lemma GuardNeverFires(env: Env, audit: seq<AuditRow>, event: Audit.Event)
    requires Audit.DigestLength(env.hasher) && CaseChain(env.hasher, audit, event.caseId)
    ensures Audit.HashEvent(env.hasher, event, PreviousHash(audit, event.caseId))
            == Success(Chain(env, audit, event).recordHash)
  {
    NextOfChain(env.hasher, audit, event.caseId);
    Audit.HeadLength(env.hasher, Records(audit, event.caseId));
  }

  /** Appending the next record of one case extends that case's chain and no other. */
  lemma ChainGrows(env: Env, audit: seq<AuditRow>, event: Audit.Event, id: Uuid)
    requires CaseChain(env.hasher, audit, id) && CaseChain(env.hasher, audit, event.caseId)
    requires event.sequenceNo == NextSequence(audit, event.caseId)
    ensures CaseChain(env.hasher, audit + [RowOf(Chain(env, audit, event))], id)
    ensures Records(audit + [RowOf(Chain(env, audit, event))], id)
         == if id == event.caseId then Records(audit, id) + [Chain(env, audit, event)] else Records(audit, id)
  {
    hide Filter, Numbered, Audit.Chained, NextSequence, PreviousHash, Audit.Head, Map;
    var record := Chain(env, audit, event);
    FilterAppend(audit, RowOf(record), RowFor(id));
    NextOfChain(env.hasher, audit, event.caseId);
    if id == event.caseId {
      CaseNumberedAppend(RowsOf(audit, id), record);
      MapAppend(RowsOf(audit, id), RowOf(record), Payload);
      Audit.ChainedAppend(env.hasher, Records(audit, id), record);
    } else {
      assert RowsOf(audit, id) + [] == RowsOf(audit, id);
    }
  }

  lemma CaseNumberedAppend(rows: seq<AuditRow>, record: Audit.Record)
    requires Numbered(rows) && record.event.sequenceNo == |rows| + 1
    ensures Numbered(rows + [RowOf(record)])
  {
  }

  // ---------------------------------------------------------------- what the trail says

  predicate IsKind(record: Audit.Record, kind: string) {
    "event_type" in record.event.rest && record.event.rest["event_type"] == kind
  }

  function OfKind(kind: string): AuditRow -> bool {
    (row: AuditRow) => IsKind(row.payload, kind)
  }

  /** A case and the hash of one of its audit rows. */
  datatype Stamp = Stamp(caseId: Uuid, hash: string)

  function RowStamp(row: AuditRow): Stamp { Stamp(row.caseId, row.recordHash) }
  function DecisionStamp(d: DecisionResponse): Stamp { Stamp(d.holdId, d.auditHeadHash) }
  function ReviewStamp(r: ReviewRecord): Stamp { Stamp(r.holdId, r.auditHeadHash) }

  /** Decisions correspond one for one and in order to the decision rows, reviews to the review rows,
      each carrying its own row's hash, and there are no other rows. */
  ghost predicate Stamped(audit: seq<AuditRow>, decisions: seq<DecisionResponse>, reviews: seq<ReviewRecord>) {
    && Map(decisions, DecisionStamp) == Map(Filter(audit, OfKind(DECISION_KIND)), RowStamp)
    && Map(reviews, ReviewStamp) == Map(Filter(audit, OfKind(REVIEW_KIND)), RowStamp)
    && forall row <- audit :: IsKind(row.payload, DECISION_KIND) || IsKind(row.payload, REVIEW_KIND)
  }

  /** The outbox holds the audit records, one for one and in order, under the topic of their kind. */
  ghost predicate Mirrored(audit: seq<AuditRow>, outbox: seq<OutboxRow>) {
    && |audit| == |outbox|
    && forall i :: 0 <= i < |audit| ==>
         && outbox[i].payload == audit[i].payload
         && outbox[i].topic == if IsKind(audit[i].payload, DECISION_KIND) then DECISION_TOPIC else REVIEW_TOPIC
  }

  ghost predicate TrailOk(env: Env, t: Tables) {
    && (forall id :: CaseChain(env.hasher, t.audit, id))
    && Mirrored(t.audit, t.outbox)
    && Stamped(t.audit, t.decisions, t.reviews)
  }

  predicate Audited(c: Call) {
    c.SaveDecision? ==> c.audit.Some?
  }

  // ---------------------------------------------------------------- every step keeps it

  lemma EventKind(env: Env, audit: seq<AuditRow>, id: Uuid, n: int, eventId: Uuid, traceId: string, kind: string,
                  now: int, payload: string)
    ensures var event := AuditEvent(env, id, n, eventId, traceId, kind, now, payload);
            && event.caseId == id && event.sequenceNo == n && IsKind(Chain(env, audit, event), kind)
            && RowOf(Chain(env, audit, event)).caseId == id
            && RowOf(Chain(env, audit, event)).recordHash == Chain(env, audit, event).recordHash
            && RowOf(Chain(env, audit, event)).payload == Chain(env, audit, event)
  {
  }

  lemma OtherKind(record: Audit.Record)
    ensures !(IsKind(record, REVIEW_KIND) && IsKind(record, DECISION_KIND))
  {
  }

  lemma RowsAppended(audit: seq<AuditRow>, row: AuditRow, kind: string)
    ensures Map(Filter(audit + [row], OfKind(kind)), RowStamp)
         == Map(Filter(audit, OfKind(kind)), RowStamp) + if IsKind(row.payload, kind) then [RowStamp(row)] else []
  {
    hide Filter, IsKind, RowStamp;
    FilterAppend(audit, row, OfKind(kind));
    MapAppend(Filter(audit, OfKind(kind)), row, RowStamp);
    assert Filter(audit, OfKind(kind)) + [] == Filter(audit, OfKind(kind));
  }

  lemma DecisionWritten(audit: seq<AuditRow>, row: AuditRow, decisions: seq<DecisionResponse>, d: DecisionResponse,
                        reviews: seq<ReviewRecord>)
    requires Stamped(audit, decisions, reviews)
    requires RowStamp(row) == DecisionStamp(d) && IsKind(row.payload, DECISION_KIND)
             && !IsKind(row.payload, REVIEW_KIND)
    ensures Stamped(audit + [row], decisions + [d], reviews)
  {
    hide IsKind, Filter, Map, RowStamp, DecisionStamp;
    RowsAppended(audit, row, DECISION_KIND);
    RowsAppended(audit, row, REVIEW_KIND);
    MapAppend(decisions, d, DecisionStamp);
  }

  lemma ReviewWritten(audit: seq<AuditRow>, row: AuditRow, decisions: seq<DecisionResponse>,
                      reviews: seq<ReviewRecord>, r: ReviewRecord)
    requires Stamped(audit, decisions, reviews)
    requires RowStamp(row) == ReviewStamp(r) && IsKind(row.payload, REVIEW_KIND) && !IsKind(row.payload, DECISION_KIND)
    ensures Stamped(audit + [row], decisions, reviews + [r])
  {
    hide IsKind, Filter, Map, RowStamp, ReviewStamp;
    RowsAppended(audit, row, DECISION_KIND);
    RowsAppended(audit, row, REVIEW_KIND);
    MapAppend(reviews, r, ReviewStamp);
  }

  lemma MirrorGrows(audit: seq<AuditRow>, outbox: seq<OutboxRow>, record: Audit.Record, topic: string)
    requires Mirrored(audit, outbox) && topic == if IsKind(record, DECISION_KIND) then DECISION_TOPIC else REVIEW_TOPIC
    ensures Mirrored(audit + [RowOf(record)], outbox + [OutboxRow(topic, record)])
  {
    hide IsKind;
  }

  lemma SaveDecisionKeepsTrail(env: Env, t: Tables, decision: DecisionResponse, note: AuditNote, now: int)
    requires TrailOk(env, t)
    ensures TrailOk(env, SaveDecisionStep(env, t, decision, Some(note), now).0)
  {
    hide CaseChain, Mirrored, Stamped, RowOf, Update, First, Latest, IsKind, Chain, AuditEvent, NextSequence;
    var step := SaveDecisionStep(env, t, decision, Some(note), now);
    if step.1.Persisted? {
      var id := decision.holdId;
      var n := NextSequence(t.audit, id);
      var event := AuditEvent(env, id, n, note.eventId, note.traceId, DECISION_KIND, now, note.payload);
      var record := Chain(env, t.audit, event);
      EventKind(env, t.audit, id, n, note.eventId, note.traceId, DECISION_KIND, now, note.payload);
      forall k ensures CaseChain(env.hasher, step.0.audit, k) { ChainGrows(env, t.audit, event, k); }
      MirrorGrows(t.audit, t.outbox, record, DECISION_TOPIC);
      OtherKind(record);
      DecisionWritten(t.audit, RowOf(record), t.decisions, step.1.decision, t.reviews);
    }
  }

  lemma RecordReviewKeepsTrail(env: Env, t: Tables, id: Uuid, s: Review, analystId: string, newId: Uuid, eventId: Uuid,
                               now: int)
    requires TrailOk(env, t)
    ensures TrailOk(env, RecordReviewStep(env, t, id, s, analystId, newId, eventId, now).0)
  {
    hide CaseChain, Mirrored, Stamped, RowOf, Update, First, Latest, IsKind, Chain, AuditEvent, NextSequence;
    hide ReviewRefusal, TrainingLabel, StateAfterReview;
    var step := RecordReviewStep(env, t, id, s, analystId, newId, eventId, now);
    if step.1.Reviewed? && step.1.isNew {
      var n := NextSequence(t.audit, id);
      var payload := env.noteText(ReviewNote(newId, analystId, s, DecisionOf(t, id).value.decision));
      var event := AuditEvent(env, id, n, eventId, "analyst-" + Hex(newId), REVIEW_KIND, now, payload);
      var record := Chain(env, t.audit, event);
      EventKind(env, t.audit, id, n, eventId, "analyst-" + Hex(newId), REVIEW_KIND, now, payload);
      forall k ensures CaseChain(env.hasher, step.0.audit, k) { ChainGrows(env, t.audit, event, k); }
      OtherKind(record);
      MirrorGrows(t.audit, t.outbox, record, REVIEW_TOPIC);
      ReviewWritten(t.audit, RowOf(record), t.decisions, t.reviews, step.1.review);
    }
  }

  lemma StepKeepsTrail(env: Env, t: Tables, c: Call)
    requires TrailOk(env, t) && Audited(c)
    ensures TrailOk(env, CallStep(env, t, c).0)
  {
    hide CaseChain, Mirrored, Stamped, SaveDecisionStep, RecordReviewStep, First, MakeEvidence, Update;
    match c
    case SaveDecision(decision, audit, now) => SaveDecisionKeepsTrail(env, t, decision, audit.value, now);
    case RecordReview(id, s, analystId, newId, eventId, now) =>
        RecordReviewKeepsTrail(env, t, id, s, analystId, newId, eventId, now);
    case _ =>
  }

  /** After any run of audited calls each case's rows are a valid chain from genesis numbered 1..k,
      the outbox holds the same records one for one, and decisions and reviews correspond to rows. */
  lemma {:induction false} RunKeepsTrail(env: Env, cs: seq<Call>)
    requires forall c <- cs :: Audited(c)
    ensures TrailOk(env, Run(env, EMPTY, cs))
  {
    if cs == [] {
    } else {
      hide TrailOk, CallStep;
      RunKeepsTrail(env, cs[..|cs| - 1]);
      StepKeepsTrail(env, Run(env, EMPTY, cs[..|cs| - 1]), cs[|cs| - 1]);
    }
  }

  /** Each case is tamper-evident: two databases that both hold valid trails and agree on how many
      records a case has and on its last hash hold the same records of that case. */
  lemma CaseTamperEvident(env: Env, a: seq<AuditRow>, b: seq<AuditRow>, id: Uuid)
    requires Audit.Injective(env.hasher) && CaseChain(env.hasher, a, id) && CaseChain(env.hasher, b, id)
    requires |RowsOf(a, id)| == |RowsOf(b, id)| && PreviousHash(a, id) == PreviousHash(b, id)
    ensures RowsOf(a, id) == RowsOf(b, id)
  {
    NextOfChain(env.hasher, a, id);
    NextOfChain(env.hasher, b, id);
    Audit.SameHeadSameLedger(env.hasher, Records(a, id), Records(b, id));
    forall i | 0 <= i < |RowsOf(a, id)| ensures RowsOf(a, id)[i] == RowsOf(b, id)[i] {
      assert Records(a, id)[i] == RowsOf(a, id)[i].payload && Records(b, id)[i] == RowsOf(b, id)[i].payload;
    }
  }
}
