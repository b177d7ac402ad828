/** The dictionary-based hold repository: ten calls over in-place dictionaries, as a class, and the
    same calls as steps of a state machine whose runs the lemmas are about. */
module MemoryRepository {
  import opened HoldDomain
  import opened Wrappers

  const NO_HASH := "0000000000000000000000000000000000000000000000000000000000000000"

  datatype Memory = Memory(cases: map<Uuid, HoldCase>, requestIndex: map<Uuid, Uuid>,
                           decisions: map<Uuid, DecisionResponse>,
                           evidence: map<Uuid, EvidenceRecord>, evidenceRequestIndex: map<Uuid, Uuid>,
                           reviews: map<Uuid, seq<ReviewRecord>>, reviewsByRequest: map<Uuid, ReviewRecord>,
                           reviewRequestIndex: map<Uuid, Uuid>)

  const EMPTY := Memory(map[], map[], map[], map[], map[], map[], map[], map[])

  // ---------------------------------------------------------------- the calls as steps

  function Fail(m: Memory, reason: Reason): (Memory, Reply) {
    (m, Rejected(InvalidTransition(reason)))
  }

  function CreateStep(m: Memory, request: HoldCreate, newId: Uuid, now: int): (Memory, Reply) {
    if request.requestId in m.requestIndex then
      var existing := m.requestIndex[request.requestId];
      if existing in m.cases then (m, Created(m.cases[existing], false)) else (m, Rejected(LookupFailure))
    else
      var hold := HoldCase(newId, request, OPEN, 0, now, now);
      (m.(cases := m.cases[newId := hold], requestIndex := m.requestIndex[request.requestId := newId]),
          Created(hold, true))
  }

  function SaveDecisionStep(m: Memory, decision: DecisionResponse, now: int): (Memory, Reply) {
    var id := decision.holdId;
    if id !in m.cases then (m, Rejected(HoldNotFound))
    else
      var state := StateForDecision(decision.decision, m.cases[id].evidenceRound);
      if state.Failure? then (m, Rejected(state.error))
      else
        var hold := m.cases[id].(state := state.value, updatedAt := now);
        (m.(cases := m.cases[id := hold], decisions := m.decisions[id := decision]), Saved(hold))
  }

  function SubmitEvidenceStep(m: Memory, id: Uuid, s: EvidenceInput, newId: Uuid, now: int): (Memory, Reply) {
    if s.requestId in m.evidenceRequestIndex then
      if m.evidenceRequestIndex[s.requestId] != id then Fail(m, ForeignEvidenceRequest)
      else if id in m.evidence then (m, Evidence(m.evidence[id], false))
      else (m, Rejected(LookupFailure))
    else if id !in m.cases then (m, Rejected(HoldNotFound))
    else if m.cases[id].state != AWAITING_EVIDENCE || m.cases[id].evidenceRound != 0 then Fail(m, EvidenceNotAccepted)
    else
      var evidence := MakeEvidence(newId, m.cases[id], s, now);
      var hold := m.cases[id].(evidenceRound := 1, state := EVIDENCE_SUBMITTED, updatedAt := now);
      (m.(cases := m.cases[id := hold], evidence := m.evidence[id := evidence],
          evidenceRequestIndex := m.evidenceRequestIndex[s.requestId := id]), Evidence(evidence, true))
  }

  function ReviewsOf(m: Memory, id: Uuid): seq<ReviewRecord> {
    ListOf(m.reviews, id)
  }

  function ListOf(reviews: map<Uuid, seq<ReviewRecord>>, id: Uuid): seq<ReviewRecord> {
    if id in reviews then reviews[id] else []
  }

  function RecordReviewStep(m: Memory, id: Uuid, s: Review, analystId: string, newId: Uuid, now: int): (Memory, Reply) {
    if s.requestId in m.reviewRequestIndex then
      if m.reviewRequestIndex[s.requestId] != id then Fail(m, ForeignReviewRequest)
      else if s.requestId in m.reviewsByRequest then (m, Reviewed(m.reviewsByRequest[s.requestId], false))
      else (m, Rejected(LookupFailure))
    else if id !in m.cases then (m, Rejected(HoldNotFound))
    else if !Reviewable(m.cases[id].state) then Fail(m, NotReviewable)
    else if id !in m.decisions then (m, Rejected(LookupFailure))
    else
      var refusal := ReviewRefusal(s, m.decisions[id].decision, m.cases[id].evidenceRound);
      if refusal.Some? then Fail(m, refusal.value)
      else
        var record := ReviewRecord(newId, id, analystId, s, TrainingLabel(s), NO_HASH, now);
        var hold := m.cases[id].(state := StateAfterReview(s), updatedAt := now);
        (m.(cases := m.cases[id := hold], reviews := m.reviews[id := ReviewsOf(m, id) + [record]],
            reviewsByRequest := m.reviewsByRequest[s.requestId := record],
            reviewRequestIndex := m.reviewRequestIndex[s.requestId := id]), Reviewed(record, true))
  }

  /** Stamps the audit head on the hold's latest review, in the list and in the request index. */
  function StampReviewStep(m: Memory, id: Uuid, hash: string): (Memory, Reply) {
    if id !in m.reviews then Fail(m, NoReview)
    else if m.reviews[id] == [] then (m, Rejected(LookupFailure))
    else
      var last := |m.reviews[id]| - 1;
      var review := m.reviews[id][last].(auditHeadHash := hash);
      (m.(reviews := m.reviews[id := m.reviews[id][last := review]],
          reviewsByRequest := m.reviewsByRequest[review.submission.requestId := review]), Reviewed(review, false))
  }

  function CallStep(m: Memory, c: Call): (Memory, Reply) {
    match c
    case Create(request, newId, now) => CreateStep(m, request, newId, now)
    case SaveDecision(decision, _, now) => SaveDecisionStep(m, decision, now)
    case SubmitEvidence(id, s, newId, now) => SubmitEvidenceStep(m, id, s, newId, now)
    case RecordReview(id, s, analystId, newId, _, now) => RecordReviewStep(m, id, s, analystId, newId, now)
  }

  // ---------------------------------------------------------------- the class

  class InMemoryHoldRepository {
    var cases: map<Uuid, HoldCase>
    var requestIndex: map<Uuid, Uuid>
    var decisions: map<Uuid, DecisionResponse>
    var evidence: map<Uuid, EvidenceRecord>
    var evidenceRequestIndex: map<Uuid, Uuid>
    var reviews: map<Uuid, seq<ReviewRecord>>
    var reviewsByRequest: map<Uuid, ReviewRecord>
    var reviewRequestIndex: map<Uuid, Uuid>

    ghost function Contents(): Memory
      reads this
    {
      Memory(cases, requestIndex, decisions, evidence, evidenceRequestIndex, reviews, reviewsByRequest,
          reviewRequestIndex)
    }

    constructor ()
      ensures Contents() == EMPTY
    {
      cases, requestIndex, decisions, evidence := map[], map[], map[], map[];
      evidenceRequestIndex, reviews, reviewsByRequest, reviewRequestIndex := map[], map[], map[], map[];
    }

    method Create(request: HoldCreate, newId: Uuid, now: int) returns (reply: Reply)
      modifies this
      ensures (Contents(), reply) == CreateStep(old(Contents()), request, newId, now)
    {
      if request.requestId in requestIndex {
        var existing := requestIndex[request.requestId];
        if existing !in cases { return Rejected(LookupFailure); }
        return Created(cases[existing], false);
      }
      var hold := HoldCase(newId, request, OPEN, 0, now, now);
      cases := cases[newId := hold];
      requestIndex := requestIndex[request.requestId := newId];
      reply := Created(hold, true);
    }

    method SaveDecision(decision: DecisionResponse, now: int) returns (reply: Reply)
      modifies this
      ensures (Contents(), reply) == SaveDecisionStep(old(Contents()), decision, now)
    {
      if decision.holdId !in cases { return Rejected(HoldNotFound); }
      var hold := cases[decision.holdId];
      if decision.decision == RELEASE || decision.decision == ESCALATE {
        hold := hold.(state := HUMAN_REVIEW);
      } else {
        if hold.evidenceRound == 1 { return Rejected(InvalidTransition(SecondEvidenceRound)); }
        hold := hold.(state := AWAITING_EVIDENCE);
      }
      hold := hold.(updatedAt := now);
      cases := cases[decision.holdId := hold];
      decisions := decisions[decision.holdId := decision];
      reply := Saved(hold);
    }

    method SubmitEvidence(holdId: Uuid, submission: EvidenceInput, newId: Uuid, now: int) returns (reply: Reply)
      modifies this
      ensures (Contents(), reply) == SubmitEvidenceStep(old(Contents()), holdId, submission, newId, now)
    {
      if submission.requestId in evidenceRequestIndex {
        if evidenceRequestIndex[submission.requestId] != holdId {
          return Rejected(InvalidTransition(ForeignEvidenceRequest));
        }
        if holdId !in evidence { return Rejected(LookupFailure); }
        return Evidence(evidence[holdId], false);
      }
      if holdId !in cases { return Rejected(HoldNotFound); }
      var hold := cases[holdId];
      if hold.state != AWAITING_EVIDENCE || hold.evidenceRound != 0 {
        return Rejected(InvalidTransition(EvidenceNotAccepted));
      }
      var record := MakeEvidence(newId, hold, submission, now);
      hold := hold.(evidenceRound := 1);
      hold := hold.(state := EVIDENCE_SUBMITTED);
      hold := hold.(updatedAt := now);
      cases := cases[holdId := hold];
      evidence := evidence[holdId := record];
      evidenceRequestIndex := evidenceRequestIndex[submission.requestId := holdId];
      reply := Evidence(record, true);
    }

    method RecordAnalystReview(holdId: Uuid, submission: Review, analystId: string, newId: Uuid,
                               now: int) returns (reply: Reply)
      modifies this
      ensures (Contents(), reply) == RecordReviewStep(old(Contents()), holdId, submission, analystId, newId, now)
    {
      hide TrainingLabel, StateAfterReview, ReviewRefusal;
      if submission.requestId in reviewRequestIndex {
        if reviewRequestIndex[submission.requestId] != holdId {
          return Rejected(InvalidTransition(ForeignReviewRequest));
        }
        if submission.requestId !in reviewsByRequest { return Rejected(LookupFailure); }
        return Reviewed(reviewsByRequest[submission.requestId], false);
      }
      if holdId !in cases { return Rejected(HoldNotFound); }
      var hold := cases[holdId];
      if hold.state != HUMAN_REVIEW
          && hold.state != AWAITING_EVIDENCE { return Rejected(InvalidTransition(NotReviewable)); }
      if holdId !in decisions { return Rejected(LookupFailure); }
      var recommendation := decisions[holdId].decision;
      var refusal := RefuseReview(submission, recommendation, hold.evidenceRound);
      if refusal.Some? { return Rejected(InvalidTransition(refusal.value)); }
      var record := ReviewRecord(newId, holdId, analystId, submission, TrainingLabel(submission), NO_HASH, now);
      hold := SettleReview(hold, submission, now);
      cases := cases[holdId := hold];
      reviews := reviews[holdId := (if holdId in reviews then reviews[holdId] else []) + [record]];
      reviewsByRequest := reviewsByRequest[submission.requestId := record];
      reviewRequestIndex := reviewRequestIndex[submission.requestId := holdId];
      reply := Reviewed(record, true);
    }

    method UpdateAnalystReviewAuditHash(holdId: Uuid, hash: string) returns (reply: Reply)
      modifies this
      ensures (Contents(), reply) == StampReviewStep(old(Contents()), holdId, hash)
    {
      if holdId !in reviews { return Rejected(InvalidTransition(NoReview)); }
      var list := reviews[holdId];
      if list == [] { return Rejected(LookupFailure); }
      var review := list[|list| - 1].(auditHeadHash := hash);
      reviews := reviews[holdId := list[|list| - 1 := review]];
      reviewsByRequest := reviewsByRequest[review.submission.requestId := review];
      reply := Reviewed(review, false);
    }
  }

  // ---------------------------------------------------------------- the lifecycle invariant

  function Last(s: seq<ReviewRecord>): ReviewRecord
    requires s != []
  {
    s[|s| - 1]
  }

  /** What a hold's state and round say about the decision, evidence and reviews stored for it. */
  ghost predicate Lifecycle(hold: HoldCase, decided: bool, evidenced: bool, reviews: seq<ReviewRecord>) {
    && (hold.state == OPEN <==> !decided)
    && (hold.state == AWAITING_EVIDENCE ==> hold.evidenceRound == 0)
    && (hold.state == EVIDENCE_SUBMITTED ==> hold.evidenceRound == 1)
    && hold.evidenceRound <= 1
    && (hold.evidenceRound == 1 <==> evidenced)
    && (hold.state == RESOLVED ==> reviews != [] && Last(reviews).trainingLabel == LEGITIMATE)
    && (hold.state == DENIED ==> reviews != [] && Last(reviews).trainingLabel != LEGITIMATE)
  }

  ghost predicate LifecycleAt(m: Memory, id: Uuid) {
    id in m.cases ==> Lifecycle(m.cases[id], id in m.decisions, id in m.evidence, ReviewsOf(m, id))
  }

  /** Cases are found by their own identifier and by their request's. */
  ghost predicate CasesOk(cases: map<Uuid, HoldCase>, index: map<Uuid, Uuid>) {
    && (forall id <- cases ::
          && cases[id].holdId == id
          && cases[id].request.requestId in index && index[cases[id].request.requestId] == id)
    && (forall r <- index :: index[r] in cases && cases[index[r]].request.requestId == r)
  }

  ghost predicate DecisionsOk(ids: set<Uuid>, decisions: map<Uuid, DecisionResponse>) {
    forall id <- decisions :: id in ids && decisions[id].holdId == id
  }

  /** Each hold has at most one evidence record, found by its hold and by its request. */
  ghost predicate EvidenceOk(ids: set<Uuid>, evidence: map<Uuid, EvidenceRecord>, index: map<Uuid, Uuid>) {
    && (forall id <- evidence ::
          && id in ids && evidence[id].holdId == id
          && evidence[id].submission.requestId in index && index[evidence[id].submission.requestId] == id)
    && (forall r <- index :: index[r] in evidence && evidence[index[r]].submission.requestId == r)
  }

  /** The review is the one the request index gives for its request, labelled as its submission says. */
  ghost predicate Indexed(id: Uuid, byRequest: map<Uuid, ReviewRecord>, review: ReviewRecord) {
    && review.holdId == id
    && review.trainingLabel == TrainingLabel(review.submission)
    && review.submission.requestId in byRequest && byRequest[review.submission.requestId] == review
  }

  ghost predicate ListOk(id: Uuid, list: seq<ReviewRecord>, byRequest: map<Uuid, ReviewRecord>) {
    && list != []
    && (forall i :: 0 <= i < |list| ==> Indexed(id, byRequest, list[i]))
    && (forall i, j :: 0 <= i < j < |list| ==> list[i].submission.requestId != list[j].submission.requestId)
  }

  /** A review found by request is in its hold's list, and the hold index agrees. */
  ghost predicate Listed(r: Uuid, review: ReviewRecord, reviews: map<Uuid, seq<ReviewRecord>>, index: map<Uuid, Uuid>) {
    && review.submission.requestId == r
    && r in index && index[r] == review.holdId
    && review.holdId in reviews && review in reviews[review.holdId]
  }

  /** The three review indexes agree: the per-hold lists hold exactly the reviews found by request,
      each once and under its own hold. */
  ghost predicate ReviewsOk(ids: set<Uuid>, reviews: map<Uuid, seq<ReviewRecord>>, byRequest: map<Uuid, ReviewRecord>,
                            index: map<Uuid, Uuid>)
  {
    && index.Keys == byRequest.Keys
    && (forall id <- reviews :: id in ids && ListOk(id, reviews[id], byRequest))
    && (forall r <- byRequest :: Listed(r, byRequest[r], reviews, index))
  }

  ghost predicate Inv(m: Memory) {
    && CasesOk(m.cases, m.requestIndex)
    && DecisionsOk(m.cases.Keys, m.decisions)
    && EvidenceOk(m.cases.Keys, m.evidence, m.evidenceRequestIndex)
    && ReviewsOk(m.cases.Keys, m.reviews, m.reviewsByRequest, m.reviewRequestIndex)
    && forall id :: LifecycleAt(m, id)
  }

  /** The identifier a creation draws is not in use; uuid4 is trusted for that. */
  predicate FreshId(m: Memory, c: Call) {
    c.Create? ==> c.newId !in m.cases
  }

  lemma OtherLifecycles(m: Memory, n: Memory, id: Uuid)
    requires forall k :: LifecycleAt(m, k)
    requires forall k <- n.cases :: k != id ==>
               && k in m.cases && n.cases[k] == m.cases[k] && ReviewsOf(n, k) == ReviewsOf(m, k)
               && (k in n.decisions <==> k in m.decisions) && (k in n.evidence <==> k in m.evidence)
    requires LifecycleAt(n, id)
    ensures forall k :: LifecycleAt(n, k)
  {
    hide Lifecycle, ReviewsOf;
    forall k ensures LifecycleAt(n, k) {
      assert LifecycleAt(m, k);
    }
  }

  lemma CaseAdded(cases: map<Uuid, HoldCase>, index: map<Uuid, Uuid>, hold: HoldCase)
    requires CasesOk(cases, index) && hold.holdId !in cases && hold.request.requestId !in index
    ensures CasesOk(cases[hold.holdId := hold], index[hold.request.requestId := hold.holdId])
  {
  }

  lemma CaseReplaced(cases: map<Uuid, HoldCase>, index: map<Uuid, Uuid>, id: Uuid, hold: HoldCase)
    requires CasesOk(cases, index) && id in cases && hold.holdId == cases[id].holdId
             && hold.request == cases[id].request
    ensures CasesOk(cases[id := hold], index) && cases[id := hold].Keys == cases.Keys && cases[id].holdId == id
  {
  }

  lemma NewHasNothing(m: Memory, id: Uuid)
    requires Inv(m) && id !in m.cases
    ensures id !in m.decisions && id !in m.evidence && id !in m.reviews
  {
    hide ListOk, Listed, CasesOk, LifecycleAt;
  }

  lemma MoreIds(m: Memory, ids: set<Uuid>)
    requires Inv(m) && m.cases.Keys <= ids
    ensures DecisionsOk(ids, m.decisions) && EvidenceOk(ids, m.evidence, m.evidenceRequestIndex)
    ensures ReviewsOk(ids, m.reviews, m.reviewsByRequest, m.reviewRequestIndex)
  {
    hide ListOk, Listed, CasesOk, LifecycleAt;
  }

  lemma CreateKeepsInv(m: Memory, request: HoldCreate, newId: Uuid, now: int)
    requires Inv(m) && newId !in m.cases
    ensures Inv(CreateStep(m, request, newId, now).0)
  {
    hide CasesOk, DecisionsOk, EvidenceOk, ReviewsOk;
    var n := CreateStep(m, request, newId, now).0;
    if request.requestId !in m.requestIndex {
      NewHasNothing(m, newId);
      CaseAdded(m.cases, m.requestIndex, n.cases[newId]);
      MoreIds(m, n.cases.Keys);
      assert LifecycleAt(n, newId);
      OtherLifecycles(m, n, newId) by { hide Lifecycle; }
    }
  }

  lemma SaveDecisionKeepsInv(m: Memory, decision: DecisionResponse, now: int)
    requires Inv(m)
    ensures Inv(SaveDecisionStep(m, decision, now).0)
  {
    hide CasesOk, EvidenceOk, ReviewsOk;
    var step := SaveDecisionStep(m, decision, now);
    if step.1.Saved? {
      var id, n := decision.holdId, step.0;
      CaseReplaced(m.cases, m.requestIndex, id, n.cases[id]);
      assert LifecycleAt(m, id);
      assert LifecycleAt(n, id);
      OtherLifecycles(m, n, id) by { hide Lifecycle; }
    }
  }

  lemma SubmitEvidenceKeepsInv(m: Memory, holdId: Uuid, s: EvidenceInput, newId: Uuid, now: int)
    requires Inv(m)
    ensures Inv(SubmitEvidenceStep(m, holdId, s, newId, now).0)
  {
    hide CasesOk, DecisionsOk, EvidenceOk, ReviewsOk, ExpectedEvidence;
    var step := SubmitEvidenceStep(m, holdId, s, newId, now);
    if step.1.Evidence? && step.1.isNew {
      var n := step.0;
      CaseReplaced(m.cases, m.requestIndex, holdId, n.cases[holdId]);
      assert LifecycleAt(m, holdId);
      EvidenceAdded(m.cases.Keys, m.evidence, m.evidenceRequestIndex, step.1.evidence);
      assert LifecycleAt(n, holdId);
      OtherLifecycles(m, n, holdId) by { hide Lifecycle; }
    }
  }

  lemma EvidenceAdded(ids: set<Uuid>, evidence: map<Uuid, EvidenceRecord>, index: map<Uuid, Uuid>, e: EvidenceRecord)
    requires EvidenceOk(ids, evidence, index) && e.holdId !in evidence && e.holdId in ids
             && e.submission.requestId !in index
    ensures EvidenceOk(ids, evidence[e.holdId := e], index[e.submission.requestId := e.holdId])
  {
  }

  lemma RecordReviewKeepsInv(m: Memory, holdId: Uuid, s: Review, analystId: string, newId: Uuid, now: int)
    requires Inv(m)
    ensures Inv(RecordReviewStep(m, holdId, s, analystId, newId, now).0)
  {
    hide CasesOk, DecisionsOk, EvidenceOk, ReviewsOk, ReviewRefusal, StateAfterReview, TrainingLabel;
    var step := RecordReviewStep(m, holdId, s, analystId, newId, now);
    if step.1.Reviewed? && step.1.isNew {
      var n := step.0;
      CaseReplaced(m.cases, m.requestIndex, holdId, n.cases[holdId]);
      assert LifecycleAt(m, holdId);
      ReviewEffect(s);
      ReviewNeverReopens(s, m.decisions[holdId].decision, m.cases[holdId].evidenceRound);
      assert LifecycleAt(n, holdId);
      OtherLifecycles(m, n, holdId) by { hide Lifecycle; }
      ReviewAdded(m.cases.Keys, m.reviews, m.reviewsByRequest, m.reviewRequestIndex, step.1.review);
    }
  }

  lemma ReviewNeverReopens(s: Review, recommendation: Decision, evidenceRound: nat)
    ensures StateAfterReview(s) != OPEN && StateAfterReview(s) != EVIDENCE_SUBMITTED
    ensures ReviewRefusal(s, recommendation, evidenceRound).None? && evidenceRound <= 1
            && StateAfterReview(s) == AWAITING_EVIDENCE ==>
              evidenceRound == 0
  {
  }

  lemma ReviewAdded(ids: set<Uuid>, reviews: map<Uuid, seq<ReviewRecord>>, byRequest: map<Uuid, ReviewRecord>,
                    index: map<Uuid, Uuid>, record: ReviewRecord)
    requires ReviewsOk(ids, reviews, byRequest, index) && record.holdId in ids && record.submission.requestId !in index
    requires record.trainingLabel == TrainingLabel(record.submission)
    ensures ReviewsOk(ids, reviews[record.holdId := ListOf(reviews, record.holdId) + [record]],
                      byRequest[record.submission.requestId := record],
                      index[record.submission.requestId := record.holdId])
  {
    hide TrainingLabel;
    var request := record.submission.requestId;
    var reviews' := reviews[record.holdId := ListOf(reviews, record.holdId) + [record]];
    var byRequest' := byRequest[request := record];
    forall id <- reviews' ensures ListOk(id, reviews'[id], byRequest') {
      if id in reviews {
        ListGrows(id, reviews[id], byRequest, record);
      }
    }
    forall r <- byRequest' ensures Listed(r, byRequest'[r], reviews', index[request := record.holdId]) {
      if r == request {
        assert reviews'[record.holdId][|ListOf(reviews, record.holdId)|] == record;
      } else {
        assert Listed(r, byRequest[r], reviews, index);
      }
    }
  }

  lemma ListGrows(id: Uuid, list: seq<ReviewRecord>, byRequest: map<Uuid, ReviewRecord>, record: ReviewRecord)
    requires ListOk(id, list, byRequest) && record.submission.requestId !in byRequest
    requires record.trainingLabel == TrainingLabel(record.submission)
    ensures ListOk(id, list, byRequest[record.submission.requestId := record])
    ensures id == record.holdId ==> ListOk(id, list + [record], byRequest[record.submission.requestId := record])
  {
    hide TrainingLabel;
    forall i | 0 <= i < |list| ensures Indexed(id, byRequest[record.submission.requestId := record], list[i]) {
      assert Indexed(id, byRequest, list[i]);
    }
  }

  /** Stamping the audit hash keeps the indexes in agreement and touches nothing but the hash. */
  lemma StampKeepsInv(m: Memory, holdId: Uuid, hash: string)
    requires Inv(m)
    ensures Inv(StampReviewStep(m, holdId, hash).0)
  {
    hide EvidenceOk, ReviewsOk, CasesOk;
    var step := StampReviewStep(m, holdId, hash);
    if step.1.Reviewed? {
      assert LifecycleAt(m, holdId);
      OtherLifecycles(m, step.0, holdId);
      StampKeepsReviews(m.cases.Keys, m.reviews, m.reviewsByRequest, m.reviewRequestIndex, holdId, hash);
    }
  }

  lemma StampKeepsReviews(ids: set<Uuid>, reviews: map<Uuid, seq<ReviewRecord>>, byRequest: map<Uuid, ReviewRecord>,
                          index: map<Uuid, Uuid>, holdId: Uuid, hash: string)
    requires ReviewsOk(ids, reviews, byRequest, index) && holdId in reviews && reviews[holdId] != []
    ensures var last := |reviews[holdId]| - 1;
            var review := reviews[holdId][last].(auditHeadHash := hash);
            ReviewsOk(ids, reviews[holdId := reviews[holdId][last := review]],
                byRequest[review.submission.requestId := review], index)
  {
    hide TrainingLabel;
    var last := |reviews[holdId]| - 1;
    var review := reviews[holdId][last].(auditHeadHash := hash);
    var reviews' := reviews[holdId := reviews[holdId][last := review]];
    var byRequest' := byRequest[review.submission.requestId := review];
    assert ListOk(holdId, reviews[holdId], byRequest);
    assert Indexed(holdId, byRequest, reviews[holdId][last]);
    forall id <- reviews' ensures ListOk(id, reviews'[id], byRequest') {
      assert ListOk(id, reviews[id], byRequest);
      ListStamped(id, reviews[id], byRequest, holdId, reviews[holdId], hash);
    }
    forall r <- byRequest' ensures Listed(r, byRequest'[r], reviews', index) {
      assert Listed(r, byRequest[r], reviews, index);
      var id := byRequest[r].holdId;
      var i :| 0 <= i < |reviews[id]| && reviews[id][i] == byRequest[r];
      assert reviews'[id][i] == byRequest'[r];
    }
  }

  lemma ListStamped(id: Uuid, list: seq<ReviewRecord>, byRequest: map<Uuid, ReviewRecord>,
                    holdId: Uuid, stamped: seq<ReviewRecord>, hash: string)
    requires ListOk(id, list, byRequest) && ListOk(holdId, stamped, byRequest) && (id == holdId ==> list == stamped)
    ensures var review := Last(stamped).(auditHeadHash := hash);
            ListOk(id, if id == holdId then list[|list| - 1 := review] else list,
                byRequest[review.submission.requestId := review])
  {
    hide TrainingLabel;
    var review := Last(stamped).(auditHeadHash := hash);
    var list' := if id == holdId then list[|list| - 1 := review] else list;
    assert Indexed(holdId, byRequest, Last(stamped));
    forall i | 0 <= i < |list'| ensures Indexed(id, byRequest[review.submission.requestId := review], list'[i]) {
      assert Indexed(id, byRequest, list[i]);
    }
  }
}
