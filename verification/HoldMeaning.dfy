/** After any run, everything stored of a hold is read off the calls that were accepted for it, and every
    audit row off the call it was written for. */
module HoldMeaning {
  import opened HoldDomain
  import opened HoldRuns
  import opened MemoryRepository
  import opened Sequences
  import opened Wrappers
  import Audit
  import Sql = SqlRepository

  // ---------------------------------------------------------------- the history of a hold

  /** The call changed something: it was carried out and is no replay. */
  predicate Accepted(reply: Reply) {
    match reply
    case Created(_, isNew) => isNew
    case Evidence(_, isNew) => isNew
    case Reviewed(_, isNew) => isNew
    case Rejected(_) => false
    case _ => true
  }

  function HoldOf(c: Call): Uuid {
    match c
    case Create(_, newId, _) => newId
    case SaveDecision(decision, _, _) => decision.holdId
    case SubmitEvidence(id, _, _, _) => id
    case RecordReview(id, _, _, _, _, _) => id
  }

  /** The calls of a run that were accepted for a hold. */
  ghost function History(cs: seq<Command>, id: Uuid): seq<Call> {
    if cs == [] then []
    else
      var c := cs[|cs| - 1];
      var before := History(cs[..|cs| - 1], id);
      var reply := Step(Run(EMPTY, cs[..|cs| - 1]), c).1;
      if c.Do? && HoldOf(c.call) == id && Accepted(reply) then before + [c.call] else before
  }

  predicate IsDecision(c: Call) { c.SaveDecision? }
  predicate IsEvidence(c: Call) { c.SubmitEvidence? }
  predicate IsReview(c: Call) { c.RecordReview? }

  /** The state the last accepted call leaves. */
  ghost predicate StateMeant(state: State, last: Call) {
    match last
    case Create(_, _, _) => state == OPEN
    case SaveDecision(decision, _, _) =>
      state == if decision.decision == EVIDENCE_NEEDED then AWAITING_EVIDENCE else HUMAN_REVIEW
    case SubmitEvidence(_, _, _, _) => state == EVIDENCE_SUBMITTED
    case RecordReview(_, s, _, _, _, _) =>
      && (state == RESOLVED <==>
            || s.outcome == Some(CLEARED) || s.action == Some(APPROVE_RELEASE)
            || (s.action == Some(OVERRIDE_AI) && s.authorizedDecision == Some(RELEASE)))
      && (state == DENIED <==>
            || s.outcome == Some(FRAUD_CONFIRMED)
            || (s.action == Some(OVERRIDE_AI) && s.authorizedDecision == Some(ESCALATE)))
      && (state == HUMAN_REVIEW <==> s.outcome == Some(CONTINUE_HOLD) || s.action == Some(ESCALATE_CASE))
      && (state == AWAITING_EVIDENCE <==>
            || s.action == Some(REQUEST_EVIDENCE)
            || (s.action == Some(OVERRIDE_AI) && s.authorizedDecision == Some(EVIDENCE_NEEDED)))
  }

  /** The hold itself: who asked for it and when, the state and time of its last call, one round per evidence. */
  ghost predicate CaseMeant(hold: HoldCase, id: Uuid, h: seq<Call>)
    requires h != []
  {
    var last := h[|h| - 1];
    && h[0].Create? && hold.holdId == id && hold.request == h[0].request && hold.createdAt == h[0].now
    && hold.updatedAt == last.now && StateMeant(hold.state, last)
    && hold.evidenceRound == |Filter(h, IsEvidence)|
  }

  ghost predicate DecisionMeant(decision: Option<DecisionResponse>, calls: seq<Call>) {
    if calls == [] then decision == None
    else
      var last := calls[|calls| - 1];
      last.SaveDecision? && decision == Some(last.decision)
  }

  ghost predicate EvidenceMeant(e: Option<EvidenceRecord>, id: Uuid, request: HoldCreate, calls: seq<Call>) {
    if calls == [] then e == None
    else
      && |calls| == 1 && calls[0].SubmitEvidence? && e.Some?
      && e.value.evidenceId == calls[0].newId && e.value.holdId == id && e.value.submission == calls[0].evidence
      && e.value.createdAt == calls[0].now
      && e.value.recencyHours * 3_600_000_000.0
         == (calls[0].evidence.submittedAt - calls[0].evidence.observedAt) as real
      && (e.value.typeMatch <==>
            || ExpectedEvidence(request.reasonCode).None?
            || ExpectedEvidence(request.reasonCode) == Some(calls[0].evidence.kind))
  }

  ghost predicate ReviewMeant(r: ReviewRecord, id: Uuid, c: Call) {
    && c.RecordReview? && r.reviewId == c.newId && r.holdId == id && r.analystId == c.analystId
    && r.submission == c.review && r.createdAt == c.now
    && (r.trainingLabel == RISKY <==> c.review.outcome == Some(FRAUD_CONFIRMED))
    && (r.trainingLabel == LEGITIMATE <==>
          || c.review.outcome == Some(CLEARED) || c.review.action == Some(APPROVE_RELEASE)
          || (c.review.action == Some(OVERRIDE_AI) && c.review.authorizedDecision == Some(RELEASE)))
  }

  ghost predicate ReviewsMeant(list: seq<ReviewRecord>, id: Uuid, calls: seq<Call>) {
    |list| == |calls| && forall i :: 0 <= i < |list| ==> ReviewMeant(list[i], id, calls[i])
  }

  /** What is stored of a hold, given the calls accepted for it. */
  ghost predicate Told(hold: Option<HoldCase>, decision: Option<DecisionResponse>, evidence: Option<EvidenceRecord>,
                       reviews: seq<ReviewRecord>, id: Uuid, h: seq<Call>)
  {
    && (hold.Some? <==> h != [])
    && (hold.Some? ==>
          && CaseMeant(hold.value, id, h)
          && EvidenceMeant(evidence, id, hold.value.request, Filter(h, IsEvidence)))
    && (hold.None? ==> evidence == None)
    && DecisionMeant(decision, Filter(h, IsDecision))
    && ReviewsMeant(reviews, id, Filter(h, IsReview))
  }

  ghost predicate Recorded(m: Memory, id: Uuid, h: seq<Call>) {
    Told(Lookup(m.cases, id), Lookup(m.decisions, id), Lookup(m.evidence, id), ReviewsOf(m, id), id, h)
  }

  // ---------------------------------------------------------------- every accepted call adds to the record

  lemma HistoryGrows(h: seq<Call>, c: Call)
    ensures var calls := Filter(h, IsDecision);
            Filter(h + [c], IsDecision) == if c.SaveDecision? then calls + [c] else calls
    ensures var calls := Filter(h, IsEvidence);
            Filter(h + [c], IsEvidence) == if c.SubmitEvidence? then calls + [c] else calls
    ensures var calls := Filter(h, IsReview);
            Filter(h + [c], IsReview) == if c.RecordReview? then calls + [c] else calls
  {
    FilterAppend(h, c, IsDecision);
    FilterAppend(h, c, IsEvidence);
    FilterAppend(h, c, IsReview);
    hide Filter;
    assert Filter(h, IsDecision) + [] == Filter(h, IsDecision);
    assert Filter(h, IsEvidence) + [] == Filter(h, IsEvidence);
    assert Filter(h, IsReview) + [] == Filter(h, IsReview);
  }

  lemma NothingTold(id: Uuid)
    ensures Told(None, None, None, [], id, [])
  {
  }

  lemma CreateTold(request: HoldCreate, id: Uuid, now: int)
    ensures Told(Some(HoldCase(id, request, OPEN, 0, now, now)), None, None, [], id, [Create(request, id, now)])
  {
  }

  lemma SaveTold(hold: HoldCase, d: Option<DecisionResponse>, e: Option<EvidenceRecord>, reviews: seq<ReviewRecord>,
                 id: Uuid, h: seq<Call>, decision: DecisionResponse, audit: Option<AuditNote>, now: int, state: State)
    requires Told(Some(hold), d, e, reviews, id, h)
    requires StateForDecision(decision.decision, hold.evidenceRound) == Success(state)
    ensures Told(Some(hold.(state := state, updatedAt := now)), Some(decision), e, reviews, id,
                 h + [SaveDecision(decision, audit, now)])
  {
    hide Filter, EvidenceMeant, ReviewsMeant;
    HistoryGrows(h, SaveDecision(decision, audit, now));
  }

  lemma SubmitTold(hold: HoldCase, d: Option<DecisionResponse>, e: Option<EvidenceRecord>, reviews: seq<ReviewRecord>,
                   id: Uuid, h: seq<Call>, s: EvidenceInput, newId: Uuid, now: int)
    requires Told(Some(hold), d, e, reviews, id, h) && hold.evidenceRound == 0
    ensures Told(Some(hold.(evidenceRound := 1, state := EVIDENCE_SUBMITTED, updatedAt := now)), d,
                 Some(MakeEvidence(newId, hold, s, now)), reviews, id, h + [SubmitEvidence(id, s, newId, now)])
  {
    hide Filter, DecisionMeant, ReviewsMeant, ExpectedEvidence;
    HistoryGrows(h, SubmitEvidence(id, s, newId, now));
    EvidenceExactly(newId, hold, s, now);
  }

  lemma ReviewTold(hold: HoldCase, d: Option<DecisionResponse>, e: Option<EvidenceRecord>, reviews: seq<ReviewRecord>,
                   id: Uuid, h: seq<Call>, s: Review, analystId: string, newId: Uuid, eventId: Uuid, now: int)
    requires Told(Some(hold), d, e, reviews, id, h)
    ensures Told(Some(hold.(state := StateAfterReview(s), updatedAt := now)), d, e,
                 reviews + [ReviewRecord(newId, id, analystId, s, TrainingLabel(s), NO_HASH, now)], id,
                 h + [RecordReview(id, s, analystId, newId, eventId, now)])
  {
    hide Filter, DecisionMeant, EvidenceMeant, StateAfterReview, TrainingLabel;
    HistoryGrows(h, RecordReview(id, s, analystId, newId, eventId, now));
    LabelExactly(s);
    ReviewState(s, RecordReview(id, s, analystId, newId, eventId, now));
  }

  lemma ReviewState(s: Review, c: Call)
    requires c.RecordReview? && c.review == s
    ensures StateMeant(StateAfterReview(s), c)
  {
  }

  // ---------------------------------------------------------------- every call keeps the record

  lemma CreateRecords(m: Memory, request: HoldCreate, newId: Uuid, now: int, id: Uuid, h: seq<Call>)
    requires Inv(m) && newId !in m.cases && Recorded(m, id, h)
    ensures var (n, reply) := CreateStep(m, request, newId, now);
            Recorded(n, id, if newId == id && Accepted(reply) then h + [Create(request, newId, now)] else h)
  {
    hide CaseMeant, EvidenceMeant, DecisionMeant, ReviewsMeant, Filter, Inv;
    if newId == id {
      NewHasNothing(m, newId);
      assert [] + [Create(request, id, now)] == [Create(request, id, now)];
      CreateTold(request, id, now);
    }
  }

  lemma SaveRecords(m: Memory, d: DecisionResponse, audit: Option<AuditNote>, now: int, id: Uuid, h: seq<Call>)
    requires Recorded(m, id, h)
    ensures var (n, reply) := SaveDecisionStep(m, d, now);
            Recorded(n, id, if d.holdId == id && Accepted(reply) then h + [SaveDecision(d, audit, now)] else h)
  {
    hide Told, ReviewsOf, StateForDecision;
    SameReviews(m, SaveDecisionStep(m, d, now).0, id);
    var (n, reply) := SaveDecisionStep(m, d, now);
    if d.holdId == id && Accepted(reply) {
      SaveTold(m.cases[id], Lookup(m.decisions, id), Lookup(m.evidence, id), ReviewsOf(m, id), id, h, d, audit, now,
               StateForDecision(d.decision, m.cases[id].evidenceRound).value);
    } else {
      SaveElsewhere(m, d, now, id);
    }
  }

  lemma SaveElsewhere(m: Memory, d: DecisionResponse, now: int, id: Uuid)
    requires d.holdId == id ==> !Accepted(SaveDecisionStep(m, d, now).1)
    ensures var n := SaveDecisionStep(m, d, now).0;
            && Lookup(n.cases, id) == Lookup(m.cases, id) && Lookup(n.decisions, id) == Lookup(m.decisions, id)
            && n.evidence == m.evidence
  {
    hide StateForDecision;
  }

  lemma SameReviews(m: Memory, n: Memory, id: Uuid)
    requires n.reviews == m.reviews
    ensures ReviewsOf(n, id) == ReviewsOf(m, id)
  {
  }

  lemma SubmitRecords(m: Memory, hold: Uuid, s: EvidenceInput, newId: Uuid, now: int, id: Uuid, h: seq<Call>)
    requires Recorded(m, id, h)
    ensures var (n, reply) := SubmitEvidenceStep(m, hold, s, newId, now);
            Recorded(n, id, if hold == id && Accepted(reply) then h + [SubmitEvidence(hold, s, newId, now)] else h)
  {
    hide Told, MakeEvidence, ReviewsOf;
    SameReviews(m, SubmitEvidenceStep(m, hold, s, newId, now).0, id);
    if hold == id && Accepted(SubmitEvidenceStep(m, hold, s, newId, now).1) {
      SubmitTold(m.cases[id], Lookup(m.decisions, id), Lookup(m.evidence, id), ReviewsOf(m, id), id, h, s, newId, now);
    } else {
      SubmitElsewhere(m, hold, s, newId, now, id);
    }
  }

  lemma SubmitElsewhere(m: Memory, hold: Uuid, s: EvidenceInput, newId: Uuid, now: int, id: Uuid)
    requires hold == id ==> !Accepted(SubmitEvidenceStep(m, hold, s, newId, now).1)
    ensures var n := SubmitEvidenceStep(m, hold, s, newId, now).0;
            && Lookup(n.cases, id) == Lookup(m.cases, id) && Lookup(n.evidence, id) == Lookup(m.evidence, id)
            && n.decisions == m.decisions
  {
    hide MakeEvidence;
  }

  lemma ReviewRecords(m: Memory, hold: Uuid, s: Review, analystId: string, newId: Uuid, eventId: Uuid, now: int,
                      id: Uuid, h: seq<Call>)
    requires Recorded(m, id, h)
    ensures var (n, reply) := RecordReviewStep(m, hold, s, analystId, newId, now);
            var c := RecordReview(hold, s, analystId, newId, eventId, now);
            Recorded(n, id, if hold == id && Accepted(reply) then h + [c] else h)
  {
    hide Told, ReviewRefusal, StateAfterReview, TrainingLabel;
    if hold == id && Accepted(RecordReviewStep(m, hold, s, analystId, newId, now).1) {
      ReviewTold(m.cases[id], Lookup(m.decisions, id), Lookup(m.evidence, id), ReviewsOf(m, id), id, h, s, analystId,
                 newId, eventId, now);
    }
  }

  lemma StampRecords(m: Memory, hold: Uuid, hash: string, id: Uuid, h: seq<Call>)
    requires Recorded(m, id, h)
    ensures Recorded(StampReviewStep(m, hold, hash).0, id, h)
  {
    hide CaseMeant, EvidenceMeant, DecisionMeant, Filter;
  }

  lemma StepRecords(m: Memory, c: Command, id: Uuid, h: seq<Call>)
    requires Inv(m) && Fresh(m, c) && Recorded(m, id, h)
    ensures Recorded(Step(m, c).0, id,
                     if c.Do? && HoldOf(c.call) == id && Accepted(Step(m, c).1) then h + [c.call] else h)
  {
    hide Inv, Recorded, CreateStep, SaveDecisionStep, SubmitEvidenceStep, RecordReviewStep, StampReviewStep, Accepted;
    match c
    case Do(Create(request, newId, now)) => CreateRecords(m, request, newId, now, id, h);
    case Do(SaveDecision(decision, audit, now)) => SaveRecords(m, decision, audit, now, id, h);
    case Do(SubmitEvidence(hold, s, newId, now)) => SubmitRecords(m, hold, s, newId, now, id, h);
    case Do(RecordReview(hold, s, analystId, newId, eventId, now)) =>
      ReviewRecords(m, hold, s, analystId, newId, eventId, now, id, h);
    case Stamp(hold, hash) => StampRecords(m, hold, hash, id, h);
  }

  /** Every stored hold, decision, evidence and review is what the accepted calls of the run say it is. */
  lemma {:induction false} RunRecords(cs: seq<Command>, id: Uuid)
    requires Legal(EMPTY, cs)
    ensures Recorded(Run(EMPTY, cs), id, History(cs, id))
  {
    hide Recorded, Step, Fresh, Inv, Accepted;
    if cs == [] {
      NothingRecorded(id);
    } else {
      var before := cs[..|cs| - 1];
      RunRecords(before, id);
      EmptyInv();
      RunKeepsInv(EMPTY, before);
      StepRecords(Run(EMPTY, before), cs[|cs| - 1], id, History(before, id));
    }
  }

  lemma NothingRecorded(id: Uuid)
    ensures Recorded(EMPTY, id, [])
  {
    hide Told;
    NothingTold(id);
  }

  // ---------------------------------------------------------------- what is written to the audit trail

  /** What an audit row says of the call it was written for. */
  ghost predicate Says(row: Sql.AuditRow, id: Uuid, eventId: Uuid, traceId: string, kind: string, time: string,
                       payload: string)
  {
    var event := row.payload.event;
    && row.caseId == id && event.caseId == id && event.schemaVersion == "2.0"
    && event.rest.Keys == {"event_id", "trace_id", "event_type", "timestamp", "payload"}
    && event.rest["event_id"] == eventId && event.rest["trace_id"] == traceId && event.rest["event_type"] == kind
    && event.rest["timestamp"] == time && event.rest["payload"] == payload
  }

  lemma EventSays(env: Sql.Env, audit: seq<Sql.AuditRow>, id: Uuid, n: int, eventId: Uuid, traceId: string,
                  kind: string, now: int, payload: string)
    ensures var event := Sql.AuditEvent(env, id, n, eventId, traceId, kind, now, payload);
            && Says(Sql.RowOf(Sql.Chain(env, audit, event)), id, eventId, traceId, kind, env.timeText(now), payload)
            && Sql.RowOf(Sql.Chain(env, audit, event)).recordHash == Sql.Chain(env, audit, event).recordHash
  {
    hide Sql.PreviousHash;
  }

  /** An audited decision adds one row that says so; the stored decision differs from the submitted one only
      by carrying the row's hash. */
  lemma DecisionSays(env: Sql.Env, t: Sql.Tables, d: DecisionResponse, note: AuditNote, now: int)
    ensures var (t', reply) := Sql.SaveDecisionStep(env, t, d, Some(note), now);
            if reply.Persisted? then
              && |t'.audit| == |t.audit| + 1 && t'.audit[..|t.audit|] == t.audit
              && var row := t'.audit[|t.audit|];
              && Says(row, d.holdId, note.eventId, note.traceId, "RISK_DECISION", env.timeText(now), note.payload)
              && reply.decision.auditHeadHash == row.recordHash
              && reply.decision.(auditHeadHash := d.auditHeadHash) == d
              && t'.decisions == t.decisions + [reply.decision]
            else t' == t
  {
    hide Sql.Chain, Sql.AuditEvent, Sql.RowOf, Says, Sql.NextSequence, Sql.Update, Sql.First, StateForDecision;
    EventSays(env, t.audit, d.holdId, Sql.NextSequence(t.audit, d.holdId), note.eventId, note.traceId,
              "RISK_DECISION", now, note.payload);
  }

  /** An accepted review adds one row that says so, with the recommendation it was made against. */
  lemma ReviewSays(env: Sql.Env, t: Sql.Tables, id: Uuid, s: Review, analystId: string, newId: Uuid, eventId: Uuid,
                   now: int)
    ensures var (t', reply) := Sql.RecordReviewStep(env, t, id, s, analystId, newId, eventId, now);
            if Accepted(reply) then
              && reply.Reviewed? && |t'.audit| == |t.audit| + 1 && t'.audit[..|t.audit|] == t.audit
              && Sql.DecisionOf(t, id).Some?
              && var row := t'.audit[|t.audit|];
              && Says(row, id, eventId, "analyst-" + Hex(newId), "ANALYST_OUTCOME_RECORDED", env.timeText(now),
                      env.noteText(Sql.ReviewNote(newId, analystId, s, Sql.DecisionOf(t, id).value.decision)))
              && reply.review.auditHeadHash == row.recordHash
              && t'.reviews == t.reviews + [reply.review]
            else t' == t
  {
    hide Sql.Chain, Sql.AuditEvent, Sql.RowOf, Says, Sql.NextSequence, Sql.Update, Sql.First, Sql.Latest, ReviewRefusal,
        StateAfterReview, TrainingLabel;
    if Sql.DecisionOf(t, id).Some? {
      EventSays(env, t.audit, id, Sql.NextSequence(t.audit, id), eventId, "analyst-" + Hex(newId),
                "ANALYST_OUTCOME_RECORDED", now,
                env.noteText(Sql.ReviewNote(newId, analystId, s, Sql.DecisionOf(t, id).value.decision)));
    }
  }

  // ---------------------------------------------------------------- why a call is refused

  /** The requests a hold was asked by, or that its evidence or reviews carry. */
  ghost predicate UsedElsewhere(index: map<Uuid, Uuid>, request: Uuid, id: Uuid) {
    request in index && index[request] != id
  }

  /** In a consistent state a call fails only for these reasons: an unknown hold, a request identifier of
      another hold, a second evidence round, a hold not in the state the call needs, or a review the rules
      for reviews refuse. A refused call changes nothing. */
  lemma RefusedExactly(m: Memory, c: Call)
    requires Inv(m)
    ensures var (n, reply) := CallStep(m, c); var id := HoldOf(c);
      && (reply.Rejected? ==> n == m)
      && (reply == Rejected(HoldNotFound) <==>
            match c
            case Create(_, _, _) => false
            case SaveDecision(_, _, _) => id !in m.cases
            case SubmitEvidence(_, s, _, _) => s.requestId !in m.evidenceRequestIndex && id !in m.cases
            case RecordReview(_, s, _, _, _, _) => s.requestId !in m.reviewRequestIndex && id !in m.cases)
      && (reply == Rejected(InvalidTransition(ForeignEvidenceRequest)) <==>
            c.SubmitEvidence? && UsedElsewhere(m.evidenceRequestIndex, c.evidence.requestId, id))
      && (reply == Rejected(InvalidTransition(ForeignReviewRequest)) <==>
            c.RecordReview? && UsedElsewhere(m.reviewRequestIndex, c.review.requestId, id))
      && (reply == Rejected(InvalidTransition(EvidenceNotAccepted)) <==>
            && c.SubmitEvidence? && c.evidence.requestId !in m.evidenceRequestIndex
            && id in m.cases && m.cases[id].state != AWAITING_EVIDENCE)
      && (reply == Rejected(InvalidTransition(NotReviewable)) <==>
            && c.RecordReview? && c.review.requestId !in m.reviewRequestIndex
            && id in m.cases && m.cases[id].state != HUMAN_REVIEW && m.cases[id].state != AWAITING_EVIDENCE)
      && (reply == Rejected(InvalidTransition(SecondEvidenceRound)) && c.SaveDecision? <==>
            && c.SaveDecision? && id in m.cases
            && c.decision.decision == EVIDENCE_NEEDED && m.cases[id].evidenceRound == 1)
  {
    hide Inv, ReviewRefusal, StateAfterReview, TrainingLabel, MakeEvidence;
    AwaitsBefore(m, HoldOf(c));
    LookupsFound(m, Do(c));
    if c.RecordReview? && HoldOf(c) in m.decisions && HoldOf(c) in m.cases {
      RefusalExactly(c.review, m.decisions[HoldOf(c)].decision, m.cases[HoldOf(c)].evidenceRound);
    }
  }

  lemma AwaitsBefore(m: Memory, id: Uuid)
    requires Inv(m)
    ensures id in m.cases && m.cases[id].state == AWAITING_EVIDENCE ==> m.cases[id].evidenceRound == 0
  {
    assert LifecycleAt(m, id);
  }
}
