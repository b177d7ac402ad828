/** The row-based hold repository: the latest decision is found by time, each case's audit records are
    chained, and every audit record is also put in the outbox. A committed transaction is one step. */
module SqlRepository {
  import opened HoldDomain
  import opened Sequences
  import opened Wrappers
  import Audit

  datatype AuditRow = AuditRow(caseId: Uuid, sequenceNo: int, previousHash: string, recordHash: string,
                               payload: Audit.Record)
  datatype OutboxRow = OutboxRow(topic: string, payload: Audit.Record)

  datatype Tables = Tables(cases: seq<HoldCase>, decisions: seq<DecisionResponse>, evidence: seq<EvidenceRecord>,
                           reviews: seq<ReviewRecord>, audit: seq<AuditRow>, outbox: seq<OutboxRow>)

  const EMPTY := Tables([], [], [], [], [], [])

  /** What the audit record of a review says about it. */
  datatype ReviewNote = ReviewNote(reviewId: Uuid, analystId: string, submission: Review, recommendation: Decision)

  /** The digest, and the text forms the model does not look into. */
  datatype Env = Env(hasher: Audit.Hasher, timeText: int -> string, noteText: ReviewNote -> string)

  // ---------------------------------------------------------------- queries

  /** SELECT ... WHERE: the first row that matches. */
  function First<T>(rows: seq<T>, where: T -> bool): Option<T> {
    if rows == [] then None
    else
      var n := |rows| - 1;
      var found := First(rows[..n], where);
      if found.Some? then found else if where(rows[n]) then Some(rows[n]) else None
  }

  /** SELECT ... WHERE ... ORDER BY rank DESC LIMIT 1; among equal ranks the row inserted first. */
  function Latest<T>(rows: seq<T>, where: T -> bool, rank: T -> int): Option<T> {
    if rows == [] then None
    else
      var n := |rows| - 1;
      var best := Latest(rows[..n], where, rank);
      if where(rows[n]) && (best.None? || rank(best.value) < rank(rows[n])) then Some(rows[n]) else best
  }

  lemma FirstOfNone<T>(where: T -> bool)
    ensures First([], where) == None
  {
  }

  lemma LatestOfNone<T>(where: T -> bool, rank: T -> int)
    ensures Latest([], where, rank) == None
  {
  }

  lemma FirstAppend<T>(rows: seq<T>, x: T, where: T -> bool)
    ensures First(rows + [x], where)
         == if First(rows, where).Some? then First(rows, where) else if where(x) then Some(x) else None
  {
    assert (rows + [x])[..|rows|] == rows;
  }

  lemma LatestAppend<T>(rows: seq<T>, x: T, where: T -> bool, rank: T -> int)
    ensures var best := Latest(rows, where, rank);
            Latest(rows + [x], where, rank)
            == if where(x) && (best.None? || rank(best.value) < rank(x)) then Some(x) else best
  {
    assert (rows + [x])[..|rows|] == rows;
  }

  /** The latest row is a matching row no other matching row outranks. */
  lemma {:induction false} LatestMeaning<T>(rows: seq<T>, where: T -> bool, rank: T -> int)
    ensures Latest(rows, where, rank).None? ==> forall x <- rows :: !where(x)
    ensures var best := Latest(rows, where, rank);
            best.Some? ==>
              && best.value in rows && where(best.value)
              && forall x <- rows :: where(x) ==> rank(x) <= rank(best.value)
  {
    if rows != [] {
      var n := |rows| - 1;
      LatestMeaning(rows[..n], where, rank);
      assert rows == rows[..n] + [rows[n]];
    }
  }

  function ForHold(id: Uuid): HoldCase -> bool { (c: HoldCase) => c.holdId == id }
  function ForRequest(r: Uuid): HoldCase -> bool { (c: HoldCase) => c.request.requestId == r }
  function DecisionFor(id: Uuid): DecisionResponse -> bool { (d: DecisionResponse) => d.holdId == id }
  function EvidenceFor(id: Uuid): EvidenceRecord -> bool { (e: EvidenceRecord) => e.holdId == id }
  function EvidenceRequest(r: Uuid): EvidenceRecord -> bool { (e: EvidenceRecord) => e.submission.requestId == r }
  function EvidenceId(id: Uuid): EvidenceRecord -> bool { (e: EvidenceRecord) => e.evidenceId == id }
  function ReviewFor(id: Uuid): ReviewRecord -> bool { (r: ReviewRecord) => r.holdId == id }
  function ReviewRequest(q: Uuid): ReviewRecord -> bool { (r: ReviewRecord) => r.submission.requestId == q }
  function RowFor(id: Uuid): AuditRow -> bool { (r: AuditRow) => r.caseId == id }
  function CreatedAt(d: DecisionResponse): int { d.createdAt }
  function SequenceNo(r: AuditRow): int { r.sequenceNo }

  function CaseOf(t: Tables, id: Uuid): Option<HoldCase> { First(t.cases, ForHold(id)) }
  function DecisionOf(t: Tables, id: Uuid): Option<DecisionResponse> { Latest(t.decisions, DecisionFor(id), CreatedAt) }

  /** UPDATE hold_cases SET ... WHERE hold_id = hold.holdId. */
  function Update(cases: seq<HoldCase>, hold: HoldCase): (r: seq<HoldCase>)
    ensures |r| == |cases|
    ensures forall i :: 0 <= i < |cases| ==> r[i] == if cases[i].holdId == hold.holdId then hold else cases[i]
  {
    Map(cases, (c: HoldCase) => if c.holdId == hold.holdId then hold else c)
  }

  // ---------------------------------------------------------------- audit records

  function PreviousHash(audit: seq<AuditRow>, id: Uuid): string {
    var latest := Latest(audit, RowFor(id), SequenceNo);
    if latest.Some? then latest.value.recordHash else Audit.GENESIS_HASH
  }

  function NextSequence(audit: seq<AuditRow>, id: Uuid): int {
    var latest := Latest(audit, RowFor(id), SequenceNo);
    if latest.Some? then latest.value.sequenceNo + 1 else 1
  }

  function AuditEvent(env: Env, id: Uuid, sequenceNo: int, eventId: Uuid, traceId: string, kind: string, now: int,
                      payload: string): Audit.Event
  {
    Audit.Event("2.0", id, sequenceNo,
                map["event_id" := eventId, "trace_id" := traceId, "event_type" := kind,
                    "timestamp" := env.timeText(now), "payload" := payload])
  }

  function Chain(env: Env, audit: seq<AuditRow>, event: Audit.Event): Audit.Record {
    var previous := PreviousHash(audit, event.caseId);
    Audit.Record(event, previous, env.hasher.digest(event, previous))
  }

  function RowOf(record: Audit.Record): AuditRow {
    AuditRow(record.event.caseId, record.event.sequenceNo, record.previousHash, record.recordHash, record)
  }

  const DECISION_KIND := "RISK_DECISION"
  const REVIEW_KIND := "ANALYST_OUTCOME_RECORDED"
  const DECISION_TOPIC := "razortrust.audit.risk-decision"
  const REVIEW_TOPIC := "razortrust.audit.analyst-outcome"

  function DecisionRecord(env: Env, t: Tables, id: Uuid, note: AuditNote, now: int): Audit.Record {
    Chain(env, t.audit, AuditEvent(env, id, NextSequence(t.audit, id), note.eventId, note.traceId, DECISION_KIND, now,
        note.payload))
  }

  function AuditedReview(env: Env, t: Tables, id: Uuid, s: Review, analystId: string, newId: Uuid, eventId: Uuid,
                         recommendation: Decision, now: int): Audit.Record
  {
    var payload := env.noteText(ReviewNote(newId, analystId, s, recommendation));
    Chain(env, t.audit,
          AuditEvent(env, id, NextSequence(t.audit, id), eventId, "analyst-" + Hex(newId), REVIEW_KIND, now, payload))
  }

  lemma AuditedReviewIs(env: Env, t: Tables, id: Uuid, s: Review, analystId: string, newId: Uuid, eventId: Uuid,
                        recommendation: Decision, now: int)
    ensures var event := AuditEvent(env, id, NextSequence(t.audit, id), eventId, "analyst-" + Hex(newId), REVIEW_KIND,
                                    now, env.noteText(ReviewNote(newId, analystId, s, recommendation)));
            && event.caseId == id
            && AuditedReview(env, t, id, s, analystId, newId, eventId, recommendation, now)
               == Audit.Record(event, PreviousHash(t.audit, id), env.hasher.digest(event, PreviousHash(t.audit, id)))
  {
  }

  // ---------------------------------------------------------------- the calls as steps

  function Fail(t: Tables, reason: Reason): (Tables, Reply) {
    (t, Rejected(InvalidTransition(reason)))
  }

  function CreateStep(t: Tables, request: HoldCreate, newId: Uuid, now: int): (Tables, Reply) {
    var existing := First(t.cases, ForRequest(request.requestId));
    if existing.Some? then (t, Created(existing.value, false))
    else if CaseOf(t, newId).Some? then (t, Rejected(Conflict))
    else
      var hold := HoldCase(newId, request, OPEN, 0, now, now);
      (t.(cases := t.cases + [hold]), Created(hold, true))
  }

  function SaveDecisionStep(env: Env, t: Tables, decision: DecisionResponse, audit: Option<AuditNote>,
                            now: int): (Tables, Reply)
  {
    var hold := CaseOf(t, decision.holdId);
    if hold.None? then (t, Rejected(HoldNotFound))
    else
      var state := StateForDecision(decision.decision, hold.value.evidenceRound);
      if state.Failure? then (t, Rejected(state.error))
      else
        var hold' := hold.value.(state := state.value, updatedAt := now);
        var t' := t.(cases := Update(t.cases, hold'));
        match audit
        case None => (t'.(decisions := t.decisions + [decision]), Saved(hold'))
        case Some(note) =>
          var record := DecisionRecord(env, t, decision.holdId, note, now);
          var persisted := decision.(auditHeadHash := record.recordHash);
          (t'.(decisions := t.decisions + [persisted], audit := t.audit + [RowOf(record)],
               outbox := t.outbox + [OutboxRow(DECISION_TOPIC, record)]), Persisted(persisted))
  }

  function SubmitEvidenceStep(t: Tables, id: Uuid, s: EvidenceInput, newId: Uuid, now: int): (Tables, Reply) {
    var existing := First(t.evidence, EvidenceRequest(s.requestId));
    if existing.Some? then
      if existing.value.holdId != id then Fail(t, ForeignEvidenceRequest) else (t, Evidence(existing.value, false))
    else
      var hold := CaseOf(t, id);
      if hold.None? then (t, Rejected(HoldNotFound))
      else if hold.value.state != AWAITING_EVIDENCE || hold.value.evidenceRound != 0 then Fail(t, EvidenceNotAccepted)
      else if First(t.evidence, EvidenceFor(id)).Some? || First(t.evidence, EvidenceId(newId)).Some? then
        Fail(t, EvidenceAlreadySubmitted)
      else
        var evidence := MakeEvidence(newId, hold.value, s, now);
        var hold' := hold.value.(evidenceRound := 1, state := EVIDENCE_SUBMITTED, updatedAt := now);
        (t.(cases := Update(t.cases, hold'), evidence := t.evidence + [evidence]), Evidence(evidence, true))
  }

  function RecordReviewStep(env: Env, t: Tables, id: Uuid, s: Review, analystId: string, newId: Uuid, eventId: Uuid,
                            now: int)
    : (Tables, Reply)
  {
    var existing := First(t.reviews, ReviewRequest(s.requestId));
    if existing.Some? then
      if existing.value.holdId != id then Fail(t, ForeignReviewRequest) else (t, Reviewed(existing.value, false))
    else
      var hold := CaseOf(t, id);
      if hold.None? then (t, Rejected(HoldNotFound))
      else if !Reviewable(hold.value.state) then Fail(t, NotReviewable)
      else
        var decision := DecisionOf(t, id);
        if decision.None? then Fail(t, NoRecommendation)
        else
          var refusal := ReviewRefusal(s, decision.value.decision, hold.value.evidenceRound);
          if refusal.Some? then Fail(t, refusal.value)
          else
            var record := AuditedReview(env, t, id, s, analystId, newId, eventId, decision.value.decision, now);
            var review := ReviewRecord(newId, id, analystId, s, TrainingLabel(s), record.recordHash, now);
            var hold' := hold.value.(state := StateAfterReview(s), updatedAt := now);
            (t.(cases := Update(t.cases, hold'), reviews := t.reviews + [review], audit := t.audit + [RowOf(record)],
                outbox := t.outbox + [OutboxRow(REVIEW_TOPIC, record)]), Reviewed(review, true))
  }

  function CallStep(env: Env, t: Tables, c: Call): (Tables, Reply) {
    match c
    case Create(request, newId, now) => CreateStep(t, request, newId, now)
    case SaveDecision(decision, audit, now) => SaveDecisionStep(env, t, decision, audit, now)
    case SubmitEvidence(id, s, newId, now) => SubmitEvidenceStep(t, id, s, newId, now)
    case RecordReview(id, s, analystId, newId, eventId, now) =>
        RecordReviewStep(env, t, id, s, analystId, newId, eventId, now)
  }

  function Run(env: Env, t: Tables, cs: seq<Call>): Tables {
    if cs == [] then t else CallStep(env, Run(env, t, cs[..|cs| - 1]), cs[|cs| - 1]).0
  }

  // ---------------------------------------------------------------- the class

  class SqlHoldRepository {
    const env: Env
    var cases: seq<HoldCase>
    var decisions: seq<DecisionResponse>
    var evidence: seq<EvidenceRecord>
    var reviews: seq<ReviewRecord>
    var audit: seq<AuditRow>
    var outbox: seq<OutboxRow>

    ghost function Contents(): Tables
      reads this
    {
      Tables(cases, decisions, evidence, reviews, audit, outbox)
    }

    constructor (env: Env)
      ensures this.env == env && Contents() == EMPTY
    {
      this.env := env;
      cases, decisions, evidence, reviews, audit, outbox := [], [], [], [], [], [];
    }

    method Create(request: HoldCreate, newId: Uuid, now: int) returns (reply: Reply)
      modifies this
      ensures (Contents(), reply) == CreateStep(old(Contents()), request, newId, now)
    {
      var existing := First(cases, ForRequest(request.requestId));
      if existing.Some? { return Created(existing.value, false); }
      if First(cases, ForHold(newId)).Some? { return Rejected(Conflict); }
      var row := HoldCase(newId, request, OPEN, 0, now, now);
      cases := cases + [row];
      reply := Created(row, true);
    }

    method SaveDecision(decision: DecisionResponse, now: int) returns (reply: Reply)
      modifies this
      ensures (Contents(), reply) == SaveDecisionStep(env, old(Contents()), decision, None, now)
    {
      var found := First(cases, ForHold(decision.holdId));
      if found.None? { return Rejected(HoldNotFound); }
      var hold := found.value;
      var state := StateForDecision(decision.decision, hold.evidenceRound);
      if state.Failure? { return Rejected(state.error); }
      hold := hold.(state := state.value, updatedAt := now);
      decisions := decisions + [decision];
      cases := Update(cases, hold);
      reply := Saved(hold);
    }

    method SaveDecisionAndAudit(decision: DecisionResponse, note: AuditNote, now: int) returns (reply: Reply)
      modifies this
      ensures (Contents(), reply) == SaveDecisionStep(env, old(Contents()), decision, Some(note), now)
    {
      var found := First(cases, ForHold(decision.holdId));
      if found.None? { return Rejected(HoldNotFound); }
      var hold := found.value;
      var latest := Latest(audit, RowFor(decision.holdId), SequenceNo);
      var previousHash := if latest.Some? then latest.value.recordHash else Audit.GENESIS_HASH;
      var sequenceNo := if latest.Some? then latest.value.sequenceNo + 1 else 1;
      var event := AuditEvent(env, decision.holdId, sequenceNo, note.eventId, note.traceId, DECISION_KIND, now,
          note.payload);
      var recordHash := env.hasher.digest(event, previousHash);
      var persisted := decision.(auditHeadHash := recordHash);
      var record := Audit.Record(event, previousHash, recordHash);
      var state := StateForDecision(decision.decision, hold.evidenceRound);
      if state.Failure? { return Rejected(state.error); }
      hold := hold.(state := state.value, updatedAt := now);
      decisions := decisions + [persisted];
      audit := audit + [RowOf(record)];
      outbox := outbox + [OutboxRow(DECISION_TOPIC, record)];
      cases := Update(cases, hold);
      reply := Persisted(persisted);
    }

    method SubmitEvidence(holdId: Uuid, submission: EvidenceInput, newId: Uuid, now: int) returns (reply: Reply)
      modifies this
      ensures (Contents(), reply) == SubmitEvidenceStep(old(Contents()), holdId, submission, newId, now)
    {
      var existing := First(evidence, EvidenceRequest(submission.requestId));
      if existing.Some? {
        if existing.value.holdId != holdId { return Rejected(InvalidTransition(ForeignEvidenceRequest)); }
        return Evidence(existing.value, false);
      }
      var found := First(cases, ForHold(holdId));
      if found.None? { return Rejected(HoldNotFound); }
      var hold := found.value;
      if hold.state != AWAITING_EVIDENCE || hold.evidenceRound != 0 {
        return Rejected(InvalidTransition(EvidenceNotAccepted));
      }
      var record := MakeEvidence(newId, hold, submission, now);
      hold := hold.(evidenceRound := 1, state := EVIDENCE_SUBMITTED, updatedAt := now);
      // The commit fails on the unique constraints of hold_id and evidence_id.
      if First(evidence, EvidenceFor(holdId)).Some? || First(evidence, EvidenceId(newId)).Some? {
        return Rejected(InvalidTransition(EvidenceAlreadySubmitted));
      }
      evidence := evidence + [record];
      cases := Update(cases, hold);
      reply := Evidence(record, true);
    }

    method RecordAnalystReview(holdId: Uuid, submission: Review, analystId: string, newId: Uuid, eventId: Uuid,
                               now: int)
      returns (reply: Reply)
      modifies this
      ensures (Contents(), reply) == RecordReviewStep(env, old(Contents()), holdId, submission, analystId, newId,
              eventId, now)
    {
      hide First, Latest, RowOf, Update, StateAfterReview, ReviewRefusal, AuditEvent, AuditedReview;
      var existing := First(reviews, ReviewRequest(submission.requestId));
      if existing.Some? {
        if existing.value.holdId != holdId { return Rejected(InvalidTransition(ForeignReviewRequest)); }
        return Reviewed(existing.value, false);
      }
      var found := First(cases, ForHold(holdId));
      if found.None? { return Rejected(HoldNotFound); }
      var hold := found.value;
      if hold.state != HUMAN_REVIEW
          && hold.state != AWAITING_EVIDENCE { return Rejected(InvalidTransition(NotReviewable)); }
      var latest := Latest(audit, RowFor(holdId), SequenceNo);
      var previousHash := if latest.Some? then latest.value.recordHash else Audit.GENESIS_HASH;
      var sequenceNo := if latest.Some? then latest.value.sequenceNo + 1 else 1;
      var modelDecision := Latest(decisions, DecisionFor(holdId), CreatedAt);
      if modelDecision.None? { return Rejected(InvalidTransition(NoRecommendation)); }
      var recommendation := modelDecision.value.decision;
      var decision := ResolvedDecision(submission);
      var refusal := RefuseReview(submission, recommendation, hold.evidenceRound);
      if refusal.Some? { return Rejected(InvalidTransition(refusal.value)); }
      var trainingLabel := UNRESOLVED;
      if submission.outcome == Some(FRAUD_CONFIRMED) {
        trainingLabel := RISKY;
      } else if decision == RELEASE {
        trainingLabel := LEGITIMATE;
      }
      assert trainingLabel == TrainingLabel(submission);
      var payload := env.noteText(ReviewNote(newId, analystId, submission, recommendation));
      var event := AuditEvent(env, holdId, sequenceNo, eventId, "analyst-" + Hex(newId), REVIEW_KIND, now, payload);
      var recordHash := env.hasher.digest(event, previousHash);
      var record := Audit.Record(event, previousHash, recordHash);
      AuditedReviewIs(env, Contents(), holdId, submission, analystId, newId, eventId, recommendation, now);
      var review := ReviewRecord(newId, holdId, analystId, submission, trainingLabel, recordHash, now);
      hold := SettleReview(hold, submission, now);
      reviews := reviews + [review];
      audit := audit + [RowOf(record)];
      outbox := outbox + [OutboxRow(REVIEW_TOPIC, record)];
      cases := Update(cases, hold);
      reply := Reviewed(review, true);
    }
  }
}
