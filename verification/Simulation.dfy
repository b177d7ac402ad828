/** The row-based repository behaves as the dictionary-based one: every query gives the same answer,
    every call the same reply, up to the audit hashes only the rows carry. */
module Simulation {
  import opened HoldDomain
  import opened MemoryRepository
  import opened Sequences
  import opened Wrappers
  import Sql = SqlRepository

  /** Lookup through an index. */
  function Via<V>(m: map<Uuid, V>, index: map<Uuid, Uuid>, k: Uuid): Option<V> {
    if k in index then Lookup(m, index[k]) else None
  }

  // ---------------------------------------------------------------- equality up to audit hashes

  predicate SameDecision(a: Option<DecisionResponse>, b: Option<DecisionResponse>) {
    if a.Some? && b.Some? then a.value.(auditHeadHash := b.value.auditHeadHash) == b.value else a.None? && b.None?
  }

  predicate SameStored(a: Option<ReviewRecord>, b: Option<ReviewRecord>) {
    if a.Some? && b.Some? then SameReview(a.value, b.value) else a.None? && b.None?
  }

  predicate SameReviews(a: seq<ReviewRecord>, b: seq<ReviewRecord>) {
    |a| == |b| && forall i :: 0 <= i < |a| ==> SameReview(a[i], b[i])
  }

  /** The replies agree; an audited decision is answered with the decision instead of the hold. */
  predicate SameReply(c: Call, a: Reply, b: Reply) {
    match (a, b)
    case (Saved(hold), Persisted(decision)) => c.SaveDecision? && c.audit.Some?
        && SameDecision(Some(decision), Some(c.decision))
    case (Reviewed(r, isNew), Reviewed(r', isNew')) => isNew == isNew' && SameReview(r', r)
    case _ => a == b
  }

  // ---------------------------------------------------------------- the relation

  ghost predicate OneRowPerHold(rows: seq<HoldCase>) {
    forall c <- rows :: Sql.First(rows, Sql.ForHold(c.holdId)) == Some(c)
  }

  ghost predicate CasesAgree(cases: map<Uuid, HoldCase>, index: map<Uuid, Uuid>, rows: seq<HoldCase>) {
    && (forall id :: Sql.First(rows, Sql.ForHold(id)) == Lookup(cases, id))
    && (forall r :: Sql.First(rows, Sql.ForRequest(r)) == Via(cases, index, r))
    && OneRowPerHold(rows)
  }

  ghost predicate DecisionsAgree(decisions: map<Uuid, DecisionResponse>, rows: seq<DecisionResponse>) {
    forall id :: SameDecision(Sql.Latest(rows, Sql.DecisionFor(id), Sql.CreatedAt), Lookup(decisions, id))
  }

  ghost predicate EvidenceAgrees(evidence: map<Uuid, EvidenceRecord>, index: map<Uuid, Uuid>,
                                 rows: seq<EvidenceRecord>)
  {
    && (forall id :: Sql.First(rows, Sql.EvidenceFor(id)) == Lookup(evidence, id))
    && (forall r :: Sql.First(rows, Sql.EvidenceRequest(r)) == Via(evidence, index, r))
  }

  ghost predicate ReviewsAgree(lists: map<Uuid, seq<ReviewRecord>>, byRequest: map<Uuid, ReviewRecord>,
                               rows: seq<ReviewRecord>)
  {
    && (forall q :: SameStored(Sql.First(rows, Sql.ReviewRequest(q)), Lookup(byRequest, q)))
    && (forall id :: SameReviews(Filter(rows, Sql.ReviewFor(id)), ListOf(lists, id)))
  }

  ghost predicate Related(m: Memory, t: Sql.Tables) {
    && CasesAgree(m.cases, m.requestIndex, t.cases)
    && DecisionsAgree(m.decisions, t.decisions)
    && EvidenceAgrees(m.evidence, m.evidenceRequestIndex, t.evidence)
    && ReviewsAgree(m.reviews, m.reviewsByRequest, t.reviews)
  }

  /** New identifiers are unused, and a hold's decisions are saved in strictly increasing time. */
  predicate Admissible(t: Sql.Tables, c: Call) {
    match c
    case Create(_, newId, _) => Sql.CaseOf(t, newId).None?
    case SaveDecision(decision, _, _) =>
      Sql.DecisionOf(t, decision.holdId).None?
          || Sql.DecisionOf(t, decision.holdId).value.createdAt < decision.createdAt
    case SubmitEvidence(_, _, newId, _) => Sql.First(t.evidence, Sql.EvidenceId(newId)).None?
    case RecordReview(_, _, _, _, _, _) => true
  }

  // ---------------------------------------------------------------- rows updated in place

  lemma {:induction false} FirstUpdated(rows: seq<HoldCase>, hold: HoldCase, id: Uuid)
    ensures Sql.First(Sql.Update(rows, hold), Sql.ForHold(id))
         == if id == hold.holdId && Sql.First(rows, Sql.ForHold(id)).Some? then Some(hold)
             else Sql.First(rows, Sql.ForHold(id))
  {
    hide Sql.First, Sql.Update;
    if rows == [] {
      Sql.FirstOfNone(Sql.ForHold(id));
    } else {
      var t, c := rows[..|rows| - 1], rows[|rows| - 1];
      assert rows == t + [c];
      FirstUpdated(t, hold, id);
      UpdateStep(t, c, hold);
      Sql.FirstAppend(t, c, Sql.ForHold(id));
      Sql.FirstAppend(Sql.Update(t, hold), if c.holdId == hold.holdId then hold else c, Sql.ForHold(id));
    }
  }

  lemma UpdateStep(rows: seq<HoldCase>, c: HoldCase, hold: HoldCase)
    ensures Sql.Update(rows + [c], hold) == Sql.Update(rows, hold) + [if c.holdId == hold.holdId then hold else c]
  {
    hide Sql.Update;
  }

  lemma {:induction false} FirstRequestUpdated(rows: seq<HoldCase>, hold: HoldCase, r: Uuid)
    requires forall c <- rows :: c.holdId == hold.holdId ==> c.request == hold.request
    ensures var before := Sql.First(rows, Sql.ForRequest(r));
            Sql.First(Sql.Update(rows, hold), Sql.ForRequest(r))
            == if before.Some? && before.value.holdId == hold.holdId then Some(hold) else before
  {
    hide Sql.First, Sql.Update;
    if rows == [] {
      Sql.FirstOfNone(Sql.ForRequest(r));
    } else {
      var t, c := rows[..|rows| - 1], rows[|rows| - 1];
      assert rows == t + [c];
      FirstRequestUpdated(t, hold, r);
      UpdateStep(t, c, hold);
      Sql.FirstAppend(t, c, Sql.ForRequest(r));
      Sql.FirstAppend(Sql.Update(t, hold), if c.holdId == hold.holdId then hold else c, Sql.ForRequest(r));
    }
  }

  lemma CaseInserted(cases: map<Uuid, HoldCase>, index: map<Uuid, Uuid>, rows: seq<HoldCase>, hold: HoldCase)
    requires CasesOk(cases, index) && CasesAgree(cases, index, rows) && hold.holdId !in cases
             && hold.request.requestId !in index
    ensures CasesAgree(cases[hold.holdId := hold], index[hold.request.requestId := hold.holdId], rows + [hold])
  {
    hide Sql.First;
    forall id ensures Sql.First(rows + [hold], Sql.ForHold(id)) == Lookup(cases[hold.holdId := hold], id) {
      Sql.FirstAppend(rows, hold, Sql.ForHold(id));
    }
    forall r ensures Sql.First(rows + [hold], Sql.ForRequest(r))
                  == Via(cases[hold.holdId := hold], index[hold.request.requestId := hold.holdId], r) {
      Sql.FirstAppend(rows, hold, Sql.ForRequest(r));
    }
  }

  lemma CaseUpdated(cases: map<Uuid, HoldCase>, index: map<Uuid, Uuid>, rows: seq<HoldCase>, hold: HoldCase)
    requires CasesOk(cases, index) && CasesAgree(cases, index, rows)
    requires hold.holdId in cases && hold.request == cases[hold.holdId].request
    ensures CasesAgree(cases[hold.holdId := hold], index, Sql.Update(rows, hold))
  {
    hide Sql.First;
    forall c <- rows | c.holdId == hold.holdId ensures c.request == hold.request {
      assert Sql.First(rows, Sql.ForHold(c.holdId)) == Some(c);
    }
    forall id ensures Sql.First(Sql.Update(rows, hold), Sql.ForHold(id)) == Lookup(cases[hold.holdId := hold], id) {
      FirstUpdated(rows, hold, id);
    }
    forall r ensures Sql.First(Sql.Update(rows, hold), Sql.ForRequest(r)) == Via(cases[hold.holdId := hold], index, r) {
      FirstRequestUpdated(rows, hold, r);
    }
    forall c <- Sql.Update(rows, hold) ensures Sql.First(Sql.Update(rows, hold), Sql.ForHold(c.holdId)) == Some(c) {
      FirstUpdated(rows, hold, c.holdId);
    }
  }

  // ---------------------------------------------------------------- rows appended

  lemma DecisionAdded(decisions: map<Uuid, DecisionResponse>, rows: seq<DecisionResponse>, mine: DecisionResponse,
                      row: DecisionResponse)
    requires DecisionsAgree(decisions, rows) && SameDecision(Some(row), Some(mine))
    requires var latest := Sql.Latest(rows, Sql.DecisionFor(row.holdId), Sql.CreatedAt);
             latest.None? || latest.value.createdAt < row.createdAt
    ensures DecisionsAgree(decisions[mine.holdId := mine], rows + [row])
  {
    hide Sql.Latest;
    forall id ensures SameDecision(Sql.Latest(rows + [row], Sql.DecisionFor(id), Sql.CreatedAt),
        Lookup(decisions[mine.holdId := mine], id)) {
      Sql.LatestAppend(rows, row, Sql.DecisionFor(id), Sql.CreatedAt);
    }
  }

  lemma EvidenceInserted(evidence: map<Uuid, EvidenceRecord>, index: map<Uuid, Uuid>, rows: seq<EvidenceRecord>,
                         e: EvidenceRecord)
    requires EvidenceAgrees(evidence, index, rows) && e.holdId !in evidence && e.submission.requestId !in index
    requires forall r <- index :: index[r] in evidence
    ensures EvidenceAgrees(evidence[e.holdId := e], index[e.submission.requestId := e.holdId], rows + [e])
  {
    hide Sql.First;
    forall id ensures Sql.First(rows + [e], Sql.EvidenceFor(id)) == Lookup(evidence[e.holdId := e], id) {
      Sql.FirstAppend(rows, e, Sql.EvidenceFor(id));
    }
    forall r ensures Sql.First(rows + [e], Sql.EvidenceRequest(r))
                  == Via(evidence[e.holdId := e], index[e.submission.requestId := e.holdId], r) {
      Sql.FirstAppend(rows, e, Sql.EvidenceRequest(r));
    }
  }

  lemma ReviewInserted(lists: map<Uuid, seq<ReviewRecord>>, byRequest: map<Uuid, ReviewRecord>, rows: seq<ReviewRecord>,
                       mine: ReviewRecord, row: ReviewRecord)
    requires ReviewsAgree(lists, byRequest, rows) && SameReview(row, mine) && mine.submission.requestId !in byRequest
    ensures ReviewsAgree(lists[mine.holdId := ListOf(lists, mine.holdId) + [mine]],
            byRequest[mine.submission.requestId := mine], rows + [row])
  {
    hide Sql.First, Filter;
    var lists' := lists[mine.holdId := ListOf(lists, mine.holdId) + [mine]];
    forall q ensures SameStored(Sql.First(rows + [row], Sql.ReviewRequest(q)),
        Lookup(byRequest[mine.submission.requestId := mine], q)) {
      Sql.FirstAppend(rows, row, Sql.ReviewRequest(q));
    }
    forall id ensures SameReviews(Filter(rows + [row], Sql.ReviewFor(id)), ListOf(lists', id)) {
      FilterAppend(rows, row, Sql.ReviewFor(id));
    }
  }

  // ---------------------------------------------------------------- one call

  lemma CreateSimulates(m: Memory, t: Sql.Tables, request: HoldCreate, newId: Uuid, now: int)
    requires Inv(m) && Related(m, t) && Sql.CaseOf(t, newId).None?
    ensures var a, b := CreateStep(m, request, newId, now), Sql.CreateStep(t, request, newId, now);
            Related(a.0, b.0) && a.1 == b.1
  {
    hide Sql.First, DecisionsAgree, EvidenceAgrees, ReviewsAgree, OneRowPerHold, EvidenceOk, ReviewsOk, DecisionsOk,
      LifecycleAt;
    assert Sql.First(t.cases, Sql.ForRequest(request.requestId)) == Via(m.cases, m.requestIndex, request.requestId);
    assert Sql.CaseOf(t, newId) == Lookup(m.cases, newId);
    if request.requestId !in m.requestIndex {
      CaseInserted(m.cases, m.requestIndex, t.cases, HoldCase(newId, request, OPEN, 0, now, now));
    }
  }

  lemma SaveDecisionSimulates(env: Sql.Env, m: Memory, t: Sql.Tables, decision: DecisionResponse,
                              audit: Option<AuditNote>, now: int)
    requires Inv(m) && Related(m, t) && Admissible(t, SaveDecision(decision, audit, now))
    ensures var a, b := SaveDecisionStep(m, decision, now), Sql.SaveDecisionStep(env, t, decision, audit, now);
            Related(a.0, b.0) && SameReply(SaveDecision(decision, audit, now), a.1, b.1)
  {
    hide Sql.First, Sql.Latest, Sql.Update, CasesAgree, DecisionsAgree, EvidenceAgrees, ReviewsAgree, CasesOk,
      EvidenceOk, ReviewsOk, DecisionsOk,
      LifecycleAt, Sql.DecisionRecord;
    var id := decision.holdId;
    CaseFound(m, t, id);
    var b := Sql.SaveDecisionStep(env, t, decision, audit, now);
    if SaveDecisionStep(m, decision, now).1.Saved? {
      CaseUpdated(m.cases, m.requestIndex, t.cases, SaveDecisionStep(m, decision, now).1.hold);
      var row := if audit.Some?
          then decision.(auditHeadHash := Sql.DecisionRecord(env, t, id, audit.value, now).recordHash) else decision;
      DecisionAdded(m.decisions, t.decisions, decision, row);
    }
  }

  lemma CaseFound(m: Memory, t: Sql.Tables, id: Uuid)
    requires Inv(m) && Related(m, t)
    ensures Sql.CaseOf(t, id) == Lookup(m.cases, id)
    ensures id in m.cases ==> m.cases[id].holdId == id
    ensures SameDecision(Sql.DecisionOf(t, id), Lookup(m.decisions, id))
  {
    hide Sql.First, Sql.Latest, EvidenceAgrees, ReviewsAgree, OneRowPerHold, EvidenceOk, ReviewsOk, DecisionsOk,
        LifecycleAt;
  }

  /** What both repositories decide about a submission, from what they find stored. */
  datatype Verdict<R> = Replay(record: R) | Refuse(error: HoldError) | Accept

  function EvidenceVerdict(existing: Option<EvidenceRecord>, hold: Option<HoldCase>,
                           id: Uuid): Verdict<EvidenceRecord>
  {
    if existing.Some? then
      if existing.value.holdId != id then Refuse(InvalidTransition(ForeignEvidenceRequest)) else Replay(existing.value)
    else if hold.None? then Refuse(HoldNotFound)
    else if hold.value.state != AWAITING_EVIDENCE || hold.value.evidenceRound != 0
        then Refuse(InvalidTransition(EvidenceNotAccepted))
    else Accept
  }

  lemma MemoryEvidence(m: Memory, id: Uuid, s: EvidenceInput, newId: Uuid, now: int)
    requires forall q <- m.evidenceRequestIndex ::
               var owner := m.evidenceRequestIndex[q];
               owner in m.evidence && m.evidence[owner].holdId == owner
    ensures var v := EvidenceVerdict(Via(m.evidence, m.evidenceRequestIndex, s.requestId), Lookup(m.cases, id), id);
            var step := SubmitEvidenceStep(m, id, s, newId, now);
            && (v.Replay? ==> step == (m, Evidence(v.record, false)))
            && (v.Refuse? ==> step == (m, Rejected(v.error)))
            && (v.Accept? ==>
                  && id in m.cases && s.requestId !in m.evidenceRequestIndex && m.cases[id].evidenceRound == 0
                  && step.1 == Evidence(MakeEvidence(newId, m.cases[id], s, now), true)
                  && step.0 == m.(cases := m.cases[id := m.cases[id].(evidenceRound := 1, state := EVIDENCE_SUBMITTED,
                       updatedAt := now)],
                                  evidence := m.evidence[id := step.1.evidence],
                                  evidenceRequestIndex := m.evidenceRequestIndex[s.requestId := id]))
  {
    hide MakeEvidence;
  }

  lemma SqlEvidence(t: Sql.Tables, id: Uuid, s: EvidenceInput, newId: Uuid, now: int)
    ensures var v := EvidenceVerdict(Sql.First(t.evidence, Sql.EvidenceRequest(s.requestId)), Sql.CaseOf(t, id), id);
            var step := Sql.SubmitEvidenceStep(t, id, s, newId, now);
            && (v.Replay? ==> step == (t, Evidence(v.record, false)))
            && (v.Refuse? ==> step == (t, Rejected(v.error)))
            && (v.Accept? && Sql.First(t.evidence, Sql.EvidenceFor(id)).None?
                 && Sql.First(t.evidence, Sql.EvidenceId(newId)).None? ==>
                  && Sql.CaseOf(t, id).Some?
                  && step.1 == Evidence(MakeEvidence(newId, Sql.CaseOf(t, id).value, s, now), true)
                  && var hold := Sql.CaseOf(t, id).value.(evidenceRound := 1, state := EVIDENCE_SUBMITTED,
                       updatedAt := now);
                  step.0 == t.(cases := Sql.Update(t.cases, hold), evidence := t.evidence + [step.1.evidence]))
  {
    hide MakeEvidence, Sql.First, Sql.CaseOf, Sql.Update;
  }

  lemma SubmitEvidenceSimulates(m: Memory, t: Sql.Tables, id: Uuid, s: EvidenceInput, newId: Uuid, now: int)
    requires Inv(m) && Related(m, t) && Admissible(t, SubmitEvidence(id, s, newId, now))
    ensures var a, b := SubmitEvidenceStep(m, id, s, newId, now), Sql.SubmitEvidenceStep(t, id, s, newId, now);
            Related(a.0, b.0) && a.1 == b.1
  {
    hide Sql.First, Sql.Latest, Sql.Update, Sql.CaseOf, Sql.DecisionOf, CasesAgree, DecisionsAgree, EvidenceAgrees,
      ReviewsAgree;
    hide CasesOk, EvidenceOk, ReviewsOk, DecisionsOk, LifecycleAt, MakeEvidence, SubmitEvidenceStep,
        Sql.SubmitEvidenceStep;
    CaseFound(m, t, id);
    EvidenceFound(m, t, id, s.requestId);
    MemoryEvidence(m, id, s, newId, now);
    SqlEvidence(t, id, s, newId, now);
    var a := SubmitEvidenceStep(m, id, s, newId, now);
    if a.1.Evidence? && a.1.isNew {
      CaseUpdated(m.cases, m.requestIndex, t.cases, a.0.cases[id]);
      EvidenceInserted(m.evidence, m.evidenceRequestIndex, t.evidence, a.1.evidence);
    }
  }

  lemma EvidenceFound(m: Memory, t: Sql.Tables, id: Uuid, r: Uuid)
    requires Inv(m) && Related(m, t)
    ensures Sql.First(t.evidence, Sql.EvidenceFor(id)) == Lookup(m.evidence, id)
    ensures Sql.First(t.evidence, Sql.EvidenceRequest(r)) == Via(m.evidence, m.evidenceRequestIndex, r)
    ensures forall q <- m.evidenceRequestIndex ::
              var owner := m.evidenceRequestIndex[q];
              owner in m.evidence && m.evidence[owner].holdId == owner
    ensures id in m.cases && m.cases[id].evidenceRound == 0 ==> id !in m.evidence
  {
    assert LifecycleAt(m, id);
    hide Sql.First, CasesAgree, DecisionsAgree, ReviewsAgree, CasesOk, ReviewsOk, DecisionsOk;
  }

  function ReviewVerdict(existing: Option<ReviewRecord>, hold: Option<HoldCase>, decision: Option<DecisionResponse>,
                         id: Uuid, s: Review): Verdict<ReviewRecord>
  {
    if existing.Some? then
      if existing.value.holdId != id then Refuse(InvalidTransition(ForeignReviewRequest)) else Replay(existing.value)
    else if hold.None? then Refuse(HoldNotFound)
    else if !Reviewable(hold.value.state) then Refuse(InvalidTransition(NotReviewable))
    else if decision.None? then Refuse(InvalidTransition(NoRecommendation))
    else
      match ReviewRefusal(s, decision.value.decision, hold.value.evidenceRound)
      case Some(reason) => Refuse(InvalidTransition(reason))
      case None => Accept
  }

  lemma MemoryVerdict(m: Memory, id: Uuid, s: Review, analystId: string, newId: Uuid, now: int)
    requires s.requestId in m.reviewRequestIndex <==> s.requestId in m.reviewsByRequest
    requires s.requestId in m.reviewsByRequest ==>
               m.reviewRequestIndex[s.requestId] == m.reviewsByRequest[s.requestId].holdId
    requires id in m.cases && Reviewable(m.cases[id].state) ==> id in m.decisions
    ensures var v := ReviewVerdict(Lookup(m.reviewsByRequest, s.requestId), Lookup(m.cases, id),
            Lookup(m.decisions, id), id, s);
            var step := RecordReviewStep(m, id, s, analystId, newId, now);
            && (v.Replay? ==> step == (m, Reviewed(v.record, false)))
            && (v.Refuse? ==> step == (m, Rejected(v.error)))
            && (v.Accept? ==>
                  var mine := ReviewRecord(newId, id, analystId, s, TrainingLabel(s), NO_HASH, now);
                  && id in m.cases && s.requestId !in m.reviewsByRequest
                  && step.1 == Reviewed(mine, true)
                  && step.0 == m.(cases := m.cases[id := m.cases[id].(state := StateAfterReview(s), updatedAt := now)],
                                  reviews := m.reviews[id := ListOf(m.reviews, id) + [mine]],
                                  reviewsByRequest := m.reviewsByRequest[s.requestId := mine],
                                  reviewRequestIndex := m.reviewRequestIndex[s.requestId := id]))
  {
    hide TrainingLabel, StateAfterReview, ReviewRefusal, ListOf;
  }

  lemma SqlVerdict(env: Sql.Env, t: Sql.Tables, id: Uuid, s: Review, analystId: string, newId: Uuid, eventId: Uuid,
                   now: int)
    ensures var v := ReviewVerdict(Sql.First(t.reviews, Sql.ReviewRequest(s.requestId)), Sql.CaseOf(t, id),
            Sql.DecisionOf(t, id), id, s);
            var step := Sql.RecordReviewStep(env, t, id, s, analystId, newId, eventId, now);
            && (v.Replay? ==> step == (t, Reviewed(v.record, false)))
            && (v.Refuse? ==> step == (t, Rejected(v.error)))
            && (v.Accept? ==>
                  && step.1.Reviewed? && step.1.isNew
                  && step.1.review == ReviewRecord(newId, id, analystId, s, TrainingLabel(s),
                       step.1.review.auditHeadHash, now)
                  && Sql.CaseOf(t, id).Some?
                  && step.0.cases == Sql.Update(t.cases,
                       Sql.CaseOf(t, id).value.(state := StateAfterReview(s), updatedAt := now))
                  && step.0.reviews == t.reviews + [step.1.review]
                  && step.0.decisions == t.decisions && step.0.evidence == t.evidence)
  {
    hide Sql.First, Sql.Latest, Sql.Update, Sql.CaseOf, Sql.DecisionOf, Sql.RowOf, Sql.AuditedReview, TrainingLabel,
      StateAfterReview, ReviewRefusal;
  }

  lemma RecordReviewSimulates(env: Sql.Env, m: Memory, t: Sql.Tables, id: Uuid, s: Review, analystId: string,
                              newId: Uuid, eventId: Uuid, now: int)
    requires Inv(m) && Related(m, t)
    ensures var a, b := RecordReviewStep(m, id, s, analystId, newId, now),
            Sql.RecordReviewStep(env, t, id, s, analystId, newId, eventId, now);
            Related(a.0, b.0) && SameReply(RecordReview(id, s, analystId, newId, eventId, now), a.1, b.1)
  {
    hide Sql.First, Sql.Latest, Sql.Update, Sql.CaseOf, Sql.DecisionOf, CasesAgree, DecisionsAgree, EvidenceAgrees,
      ReviewsAgree;
    hide CasesOk, EvidenceOk, ReviewsOk, DecisionsOk, LifecycleAt, TrainingLabel, StateAfterReview, ReviewRefusal,
        ListOf;
    hide RecordReviewStep, Sql.RecordReviewStep;
    CaseFound(m, t, id);
    ReviewFound(m, t, id, s.requestId);
    MemoryVerdict(m, id, s, analystId, newId, now);
    SqlVerdict(env, t, id, s, analystId, newId, eventId, now);
    var a, b := RecordReviewStep(m, id, s, analystId, newId, now),
        Sql.RecordReviewStep(env, t, id, s, analystId, newId, eventId, now);
    if a.1.Reviewed? && a.1.isNew {
      CaseUpdated(m.cases, m.requestIndex, t.cases, a.0.cases[id]);
      ReviewInserted(m.reviews, m.reviewsByRequest, t.reviews, a.1.review, b.1.review);
    }
  }

  lemma ReviewFound(m: Memory, t: Sql.Tables, id: Uuid, q: Uuid)
    requires Inv(m) && Related(m, t)
    ensures SameStored(Sql.First(t.reviews, Sql.ReviewRequest(q)), Lookup(m.reviewsByRequest, q))
    ensures q in m.reviewRequestIndex <==> q in m.reviewsByRequest
    ensures q in m.reviewsByRequest ==> m.reviewRequestIndex[q] == m.reviewsByRequest[q].holdId
    ensures id in m.cases && Reviewable(m.cases[id].state) ==> id in m.decisions
  {
    assert LifecycleAt(m, id);
    assert q in m.reviewsByRequest ==> Listed(q, m.reviewsByRequest[q], m.reviews, m.reviewRequestIndex);
    hide Sql.First, CasesAgree, DecisionsAgree, EvidenceAgrees, CasesOk, DecisionsOk, EvidenceOk, ListOk;
  }

  /** Every call does the same thing to both repositories and gives the same reply. */
  lemma StepSimulates(env: Sql.Env, m: Memory, t: Sql.Tables, c: Call)
    requires Inv(m) && Related(m, t) && Admissible(t, c)
    ensures Related(CallStep(m, c).0, Sql.CallStep(env, t, c).0)
    ensures SameReply(c, CallStep(m, c).1, Sql.CallStep(env, t, c).1)
    ensures FreshId(m, c)
  {
    hide Inv, Related, CreateStep, SaveDecisionStep, SubmitEvidenceStep, RecordReviewStep;
    hide Sql.CreateStep, Sql.SaveDecisionStep, Sql.SubmitEvidenceStep, Sql.RecordReviewStep, Sql.CaseOf;
    match c
    case Create(request, newId, now) =>
      CaseFound(m, t, newId);
      CreateSimulates(m, t, request, newId, now);
    case SaveDecision(decision, audit, now) => SaveDecisionSimulates(env, m, t, decision, audit, now);
    case SubmitEvidence(id, s, newId, now) => SubmitEvidenceSimulates(m, t, id, s, newId, now);
    case RecordReview(id, s, analystId, newId, eventId, now) =>
        RecordReviewSimulates(env, m, t, id, s, analystId, newId, eventId, now);
  }

  // ---------------------------------------------------------------- whole runs

  function MemoryRun(m: Memory, cs: seq<Call>): Memory {
    if cs == [] then m else CallStep(MemoryRun(m, cs[..|cs| - 1]), cs[|cs| - 1]).0
  }

  predicate AdmissibleRun(env: Sql.Env, cs: seq<Call>) {
    cs == [] || (AdmissibleRun(env, cs[..|cs| - 1])
        && Admissible(Sql.Run(env, Sql.EMPTY, cs[..|cs| - 1]), cs[|cs| - 1]))
  }

  /** For every sequence of calls, both repositories end in states all of whose queries agree. */
  lemma {:induction false} RunsSimulate(env: Sql.Env, cs: seq<Call>)
    requires AdmissibleRun(env, cs)
    ensures Inv(MemoryRun(EMPTY, cs)) && Related(MemoryRun(EMPTY, cs), Sql.Run(env, Sql.EMPTY, cs))
  {
    if cs == [] {
      EmptyRelated();
    } else {
      var before := cs[..|cs| - 1];
      RunsSimulate(env, before);
      RunStep(env, MemoryRun(EMPTY, before), Sql.Run(env, Sql.EMPTY, before), cs[|cs| - 1]);
    }
  }

  lemma RunStep(env: Sql.Env, m: Memory, t: Sql.Tables, c: Call)
    requires Inv(m) && Related(m, t) && Admissible(t, c)
    ensures Inv(CallStep(m, c).0) && Related(CallStep(m, c).0, Sql.CallStep(env, t, c).0)
  {
    StepSimulates(env, m, t, c);
    CallKeepsInv(m, c);
  }

  lemma CallKeepsInv(m: Memory, c: Call)
    requires Inv(m) && FreshId(m, c)
    ensures Inv(CallStep(m, c).0)
  {
    hide Inv, CreateStep, SaveDecisionStep, SubmitEvidenceStep, RecordReviewStep;
    match c
    case Create(request, newId, now) => CreateKeepsInv(m, request, newId, now);
    case SaveDecision(decision, _, now) => SaveDecisionKeepsInv(m, decision, now);
    case SubmitEvidence(id, s, newId, now) => SubmitEvidenceKeepsInv(m, id, s, newId, now);
    case RecordReview(id, s, analystId, newId, _, now) => RecordReviewKeepsInv(m, id, s, analystId, newId, now);
  }

  lemma EmptyRelated()
    ensures Inv(EMPTY) && Related(EMPTY, Sql.EMPTY)
  {
  }

  /** ... and gave the same replies on the way. */
  lemma RepliesAgree(env: Sql.Env, cs: seq<Call>, k: nat)
    requires k < |cs| && AdmissibleRun(env, cs)
    ensures SameReply(cs[k], CallStep(MemoryRun(EMPTY, cs[..k]), cs[k]).1,
            Sql.CallStep(env, Sql.Run(env, Sql.EMPTY, cs[..k]), cs[k]).1)
  {
    hide CallStep, Sql.CallStep, Inv, Related, Admissible;
    AdmissiblePrefix(env, cs, k + 1);
    assert cs[..k + 1][..k] == cs[..k];
    RunsSimulate(env, cs[..k]);
    StepSimulates(env, MemoryRun(EMPTY, cs[..k]), Sql.Run(env, Sql.EMPTY, cs[..k]), cs[k]);
  }

  lemma {:induction false} AdmissiblePrefix(env: Sql.Env, cs: seq<Call>, k: nat)
    requires k <= |cs| && AdmissibleRun(env, cs)
    ensures AdmissibleRun(env, cs[..k])
  {
    if k == |cs| {
      assert cs[..k] == cs;
    } else {
      AdmissiblePrefix(env, cs[..|cs| - 1], k);
      assert cs[..|cs| - 1][..k] == cs[..k];
    }
  }

  // ---------------------------------------------------------------- why the timestamps matter

  /** Of decisions with different times: after saving one the two repositories hold the same current
      decision exactly when the most recent stored one is older, and the next review reads the same
      verdict in both exactly when it is older or has the same verdict. */
  lemma TimestampsMatter(decisions: map<Uuid, DecisionResponse>, rows: seq<DecisionResponse>, d: DecisionResponse)
    requires DecisionsAgree(decisions, rows)
    requires forall row <- rows :: row.holdId == d.holdId ==> row.createdAt != d.createdAt
    ensures var latest := Sql.Latest(rows, Sql.DecisionFor(d.holdId), Sql.CreatedAt);
            var current := Sql.Latest(rows + [d], Sql.DecisionFor(d.holdId), Sql.CreatedAt);
            && (DecisionsAgree(decisions[d.holdId := d], rows + [d])
                <==> latest.None? || latest.value.createdAt < d.createdAt)
            && current.Some?
            && (current.value.decision == d.decision
                <==> latest.None? || latest.value.createdAt < d.createdAt || latest.value.decision == d.decision)
  {
    hide Sql.Latest;
    var latest := Sql.Latest(rows, Sql.DecisionFor(d.holdId), Sql.CreatedAt);
    Sql.LatestMeaning(rows, Sql.DecisionFor(d.holdId), Sql.CreatedAt);
    Sql.LatestAppend(rows, d, Sql.DecisionFor(d.holdId), Sql.CreatedAt);
    assert Lookup(decisions[d.holdId := d], d.holdId) == Some(d);
    forall id | id != d.holdId
      ensures SameDecision(Sql.Latest(rows + [d], Sql.DecisionFor(id), Sql.CreatedAt),
              Lookup(decisions[d.holdId := d], id)) {
      Sql.LatestAppend(rows, d, Sql.DecisionFor(id), Sql.CreatedAt);
    }
  }

  lemma RunThree(env: Sql.Env, a: Call, b: Call, c: Call)
    ensures MemoryRun(EMPTY, [a, b, c]) == CallStep(CallStep(CallStep(EMPTY, a).0, b).0, c).0
    ensures Sql.Run(env, Sql.EMPTY, [a, b, c])
         == Sql.CallStep(env, Sql.CallStep(env, Sql.CallStep(env, Sql.EMPTY, a).0, b).0, c).0
  {
    hide CallStep, Sql.CallStep, MemoryRun, Sql.Run;
    RunNone(env);
    RunsAppend(env, [], a);
    assert [] + [a] == [a];
    RunsAppend(env, [a], b);
    assert [a] + [b] == [a, b];
    RunsAppend(env, [a, b], c);
    assert [a, b] + [c] == [a, b, c];
  }

  lemma RunsAppend(env: Sql.Env, cs: seq<Call>, c: Call)
    ensures MemoryRun(EMPTY, cs + [c]) == CallStep(MemoryRun(EMPTY, cs), c).0
    ensures Sql.Run(env, Sql.EMPTY, cs + [c]) == Sql.CallStep(env, Sql.Run(env, Sql.EMPTY, cs), c).0
  {
    hide CallStep, Sql.CallStep;
    assert (cs + [c])[..|cs|] == cs;
  }

  lemma RunNone(env: Sql.Env)
    ensures MemoryRun(EMPTY, []) == EMPTY && Sql.Run(env, Sql.EMPTY, []) == Sql.EMPTY
  {
  }

  function Opening(): Call {
    Create(HoldCreate("request", "merchant", "event", 0, None), "hold", 0)
  }

  function Deciding(decision: Decision, at: int): Call {
    SaveDecision(DecisionResponse("hold", decision, at, "", NO_HASH), None, at)
  }

  function Approving(): Call {
    RecordReview("hold", ReviewSubmission("review", None, Some(APPROVE_RELEASE), None, "", 5), "analyst", "r", "e", 5)
  }

  /** A release saved with the later timestamp, then an escalation with the earlier one: the dictionaries
      hold the escalation, the rows still say release, and only the rows accept an approval. */
  lemma OutOfOrderDecisionsDiverge(env: Sql.Env)
    ensures var calls := [Opening(), Deciding(RELEASE, 2), Deciding(ESCALATE, 1)];
            var m, t := MemoryRun(EMPTY, calls), Sql.Run(env, Sql.EMPTY, calls);
            && "hold" in m.decisions && m.decisions["hold"].decision == ESCALATE
            && Sql.DecisionOf(t, "hold").Some? && Sql.DecisionOf(t, "hold").value.decision == RELEASE
            && CallStep(m, Approving()).1 == Rejected(InvalidTransition(UseOverride))
            && Sql.CallStep(env, t, Approving()).1.Reviewed?
  {
    hide MemoryRun, Sql.Run, CallStep, Sql.CallStep, Opening, Deciding, Approving, Sql.CaseOf, Sql.DecisionOf;
    RunThree(env, Opening(), Deciding(RELEASE, 2), Deciding(ESCALATE, 1));
    MemoryDecided();
    RowsDecided(env);
    MemoryRefuses(MemoryRun(EMPTY, [Opening(), Deciding(RELEASE, 2), Deciding(ESCALATE, 1)]));
    RowsApprove(env, Sql.Run(env, Sql.EMPTY, [Opening(), Deciding(RELEASE, 2), Deciding(ESCALATE, 1)]));
  }

  lemma MemoryDecided()
    ensures var m := CallStep(CallStep(CallStep(EMPTY, Opening()).0, Deciding(RELEASE, 2)).0, Deciding(ESCALATE, 1)).0;
            && "hold" in m.decisions && m.decisions["hold"].decision == ESCALATE
            && "hold" in m.cases && m.cases["hold"].state == HUMAN_REVIEW && m.reviewRequestIndex == map[]
  {
  }

  lemma MemoryRefuses(m: Memory)
    requires "hold" in m.decisions && m.decisions["hold"].decision == ESCALATE
    requires "hold" in m.cases && m.cases["hold"].state == HUMAN_REVIEW && m.reviewRequestIndex == map[]
    ensures CallStep(m, Approving()).1 == Rejected(InvalidTransition(UseOverride))
  {
    hide TrainingLabel, StateAfterReview, ListOf;
  }

  lemma RowsDecided(env: Sql.Env)
    ensures var t := Sql.CallStep(env,
                                  Sql.CallStep(env, Sql.CallStep(env, Sql.EMPTY, Opening()).0, Deciding(RELEASE, 2)).0,
                                  Deciding(ESCALATE, 1)).0;
            && Sql.CaseOf(t, "hold").Some? && Sql.CaseOf(t, "hold").value.state == HUMAN_REVIEW
            && Sql.DecisionOf(t, "hold").Some? && Sql.DecisionOf(t, "hold").value.decision == RELEASE
            && t.reviews == []
  {
    hide Sql.First, Sql.Latest, Sql.Update, Sql.DecisionRecord;
    var hold := HoldCase("hold", Opening().request, OPEN, 0, 0, 0);
    Sql.FirstOfNone(Sql.ForRequest("request"));
    Sql.FirstOfNone(Sql.ForHold("hold"));
    assert [] + [hold] == [hold];
    Sql.FirstAppend([], hold, Sql.ForHold("hold"));
    var reviewed := hold.(state := HUMAN_REVIEW, updatedAt := 2);
    FirstUpdated([hold], reviewed, "hold");
    assert Sql.Update([hold], reviewed) == [reviewed];
    FirstUpdated([reviewed], reviewed.(updatedAt := 1), "hold");
    var first, second := Deciding(RELEASE, 2).decision, Deciding(ESCALATE, 1).decision;
    Sql.LatestOfNone(Sql.DecisionFor("hold"), Sql.CreatedAt);
    Sql.LatestAppend([], first, Sql.DecisionFor("hold"), Sql.CreatedAt);
    Sql.LatestAppend([] + [first], second, Sql.DecisionFor("hold"), Sql.CreatedAt);
  }

  lemma RowsApprove(env: Sql.Env, t: Sql.Tables)
    requires Sql.CaseOf(t, "hold").Some? && Sql.CaseOf(t, "hold").value.state == HUMAN_REVIEW && t.reviews == []
    requires Sql.DecisionOf(t, "hold").Some? && Sql.DecisionOf(t, "hold").value.decision == RELEASE
    ensures Sql.CallStep(env, t, Approving()).1.Reviewed?
  {
    hide Sql.First, Sql.Latest, Sql.Update, Sql.AuditedReview, Sql.RowOf, TrainingLabel, StateAfterReview;
    Sql.FirstOfNone(Sql.ReviewRequest("review"));
  }
}
