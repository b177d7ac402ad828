/** Whole runs of the hold repository: what every sequence of calls keeps, and what no sequence can do. */
module HoldRuns {
  import opened HoldDomain
  import opened MemoryRepository
  import opened Wrappers
  import Policy

  /** A repository call, or the service stamping the audit hash on a hold's latest review. */
  datatype Command = Do(call: Call) | Stamp(holdId: Uuid, hash: string)

  function Step(m: Memory, c: Command): (Memory, Reply) {
    match c
    case Do(call) => CallStep(m, call)
    case Stamp(id, hash) => StampReviewStep(m, id, hash)
  }

  function Run(m: Memory, cs: seq<Command>): Memory {
    if cs == [] then m else Step(Run(m, cs[..|cs| - 1]), cs[|cs| - 1]).0
  }

  predicate Fresh(m: Memory, c: Command) {
    c.Do? ==> FreshId(m, c.call)
  }

  /** Every creation draws an identifier not in use when it runs. */
  predicate Legal(m: Memory, cs: seq<Command>) {
    cs == [] || (Legal(m, cs[..|cs| - 1]) && Fresh(Run(m, cs[..|cs| - 1]), cs[|cs| - 1]))
  }

  // ---------------------------------------------------------------- the invariant over every run

  lemma StepKeepsInv(m: Memory, c: Command)
    requires Inv(m) && Fresh(m, c)
    ensures Inv(Step(m, c).0)
  {
    hide Inv, CreateStep, SaveDecisionStep, SubmitEvidenceStep, RecordReviewStep, StampReviewStep;
    match c
    case Do(Create(request, newId, now)) => CreateKeepsInv(m, request, newId, now);
    case Do(SaveDecision(decision, _, now)) => SaveDecisionKeepsInv(m, decision, now);
    case Do(SubmitEvidence(id, s, newId, now)) => SubmitEvidenceKeepsInv(m, id, s, newId, now);
    case Do(RecordReview(id, s, analystId, newId, _, now)) => RecordReviewKeepsInv(m, id, s, analystId, newId, now);
    case Stamp(id, hash) => StampKeepsInv(m, id, hash);
  }

  /** The lifecycle invariant and the agreement of all indexes hold after every run. */
  lemma {:induction false} RunKeepsInv(m: Memory, cs: seq<Command>)
    requires Inv(m) && Legal(m, cs)
    ensures Inv(Run(m, cs))
  {
    hide Inv, Step, Fresh;
    if cs != [] {
      RunKeepsInv(m, cs[..|cs| - 1]);
      StepKeepsInv(Run(m, cs[..|cs| - 1]), cs[|cs| - 1]);
    }
  }

  lemma EmptyInv()
    ensures Inv(EMPTY)
  {
  }

  /** No dictionary is ever read at a missing key, whatever the calls. */
  lemma NoLookupFailure(cs: seq<Command>, c: Command)
    requires Legal(EMPTY, cs)
    ensures Step(Run(EMPTY, cs), c).1 != Rejected(LookupFailure)
  {
    EmptyInv();
    RunKeepsInv(EMPTY, cs);
    LookupsFound(Run(EMPTY, cs), c);
  }

  lemma LookupsFound(m: Memory, c: Command)
    requires Inv(m)
    ensures Step(m, c).1 != Rejected(LookupFailure)
  {
    hide ReviewRefusal, MakeEvidence, StateAfterReview, TrainingLabel, ListOf, Indexed, Listed;
    match c
    case Do(RecordReview(id, s, _, _, _, _)) => assert LifecycleAt(m, id);
    case _ =>
  }

  // ---------------------------------------------------------------- nothing recorded is lost

  ghost predicate Kept<K, V>(a: map<K, V>, b: map<K, V>) {
    forall k <- a :: k in b && b[k] == a[k]
  }

  ghost predicate CasesKept(a: map<Uuid, HoldCase>, b: map<Uuid, HoldCase>) {
    forall id <- a ::
      && id in b && b[id].holdId == a[id].holdId && b[id].request == a[id].request && b[id].createdAt == a[id].createdAt
      && a[id].evidenceRound <= b[id].evidenceRound
  }

  ghost predicate ByRequestKept(a: map<Uuid, ReviewRecord>, b: map<Uuid, ReviewRecord>) {
    forall r <- a :: r in b && SameReview(a[r], b[r])
  }

  ghost predicate ListKept(a: seq<ReviewRecord>, b: seq<ReviewRecord>) {
    |a| <= |b| && forall i :: 0 <= i < |a| ==> SameReview(a[i], b[i])
  }

  ghost predicate ListsKept(a: map<Uuid, seq<ReviewRecord>>, b: map<Uuid, seq<ReviewRecord>>) {
    forall id <- a :: id in b && ListKept(a[id], b[id])
  }

  /** Holds keep their identity, evidence and reviews are append-only, rounds never go down. */
  ghost predicate Extends(a: Memory, b: Memory) {
    && CasesKept(a.cases, b.cases)
    && Kept(a.requestIndex, b.requestIndex)
    && Kept(a.evidence, b.evidence)
    && Kept(a.evidenceRequestIndex, b.evidenceRequestIndex)
    && ListsKept(a.reviews, b.reviews)
    && ByRequestKept(a.reviewsByRequest, b.reviewsByRequest)
    && Kept(a.reviewRequestIndex, b.reviewRequestIndex)
  }

  lemma ExtendsTransitive(a: Memory, b: Memory, c: Memory)
    requires Extends(a, b) && Extends(b, c)
    ensures Extends(a, c)
  {
    assert ListsKept(a.reviews, c.reviews) by {
      forall id <- a.reviews ensures id in c.reviews && ListKept(a.reviews[id], c.reviews[id]) {
        assert ListKept(a.reviews[id], b.reviews[id]) && ListKept(b.reviews[id], c.reviews[id]);
      }
    }
  }

  lemma ExtendsSelf(m: Memory)
    ensures Extends(m, m)
  {
  }

  lemma KeptAdd<K, V>(a: map<K, V>, k: K, v: V)
    requires k !in a
    ensures Kept(a, a[k := v])
  {
  }

  lemma CaseChange(cases: map<Uuid, HoldCase>, id: Uuid, hold: HoldCase)
    requires id in cases ==> && hold.holdId == cases[id].holdId && hold.request == cases[id].request
                             && hold.createdAt == cases[id].createdAt && cases[id].evidenceRound <= hold.evidenceRound
    ensures CasesKept(cases, cases[id := hold])
  {
  }

  lemma ReviewAppend(lists: map<Uuid, seq<ReviewRecord>>, byRequest: map<Uuid, ReviewRecord>, review: ReviewRecord)
    requires review.submission.requestId !in byRequest
    ensures ListsKept(lists, lists[review.holdId := ListOf(lists, review.holdId) + [review]])
    ensures ByRequestKept(byRequest, byRequest[review.submission.requestId := review])
  {
  }

  lemma CreateExtends(m: Memory, request: HoldCreate, newId: Uuid, now: int)
    requires newId !in m.cases
    ensures Extends(m, CreateStep(m, request, newId, now).0)
  {
    ExtendsSelf(m);
    hide CasesKept, ListsKept, ByRequestKept, Kept;
    if request.requestId !in m.requestIndex {
      CaseChange(m.cases, newId, HoldCase(newId, request, OPEN, 0, now, now));
      KeptAdd(m.requestIndex, request.requestId, newId);
    }
  }

  lemma SaveDecisionExtends(m: Memory, decision: DecisionResponse, now: int)
    ensures Extends(m, SaveDecisionStep(m, decision, now).0)
  {
    ExtendsSelf(m);
    hide CasesKept, ListsKept, ByRequestKept, Kept;
    var step := SaveDecisionStep(m, decision, now);
    if step.1.Saved? {
      CaseChange(m.cases, decision.holdId, step.1.hold);
    }
  }

  lemma SubmitEvidenceExtends(m: Memory, id: Uuid, s: EvidenceInput, newId: Uuid, now: int)
    requires Inv(m)
    ensures Extends(m, SubmitEvidenceStep(m, id, s, newId, now).0)
  {
    ExtendsSelf(m);
    assert LifecycleAt(m, id);
    hide CasesKept, ListsKept, ByRequestKept, Kept, CasesOk, DecisionsOk, EvidenceOk, ReviewsOk, MakeEvidence;
    var step := SubmitEvidenceStep(m, id, s, newId, now);
    if step.1.Evidence? && step.1.isNew {
      CaseChange(m.cases, id, step.0.cases[id]);
      KeptAdd(m.evidence, id, step.1.evidence);
      KeptAdd(m.evidenceRequestIndex, s.requestId, id);
    }
  }

  lemma RecordReviewExtends(m: Memory, id: Uuid, s: Review, analystId: string, newId: Uuid, now: int)
    requires Inv(m)
    ensures Extends(m, RecordReviewStep(m, id, s, analystId, newId, now).0)
  {
    ExtendsSelf(m);
    assert m.reviewRequestIndex.Keys == m.reviewsByRequest.Keys;
    hide Inv, CasesKept, ListsKept, ByRequestKept, Kept, ReviewRefusal, StateAfterReview, TrainingLabel, ListOf;
    var step := RecordReviewStep(m, id, s, analystId, newId, now);
    if step.1.Reviewed? && step.1.isNew {
      CaseChange(m.cases, id, step.0.cases[id]);
      KeptAdd(m.reviewRequestIndex, s.requestId, id);
      ReviewAppend(m.reviews, m.reviewsByRequest, step.1.review);
    }
  }

  lemma StampExtends(m: Memory, id: Uuid, hash: string)
    requires Inv(m)
    ensures Extends(m, StampReviewStep(m, id, hash).0)
  {
    ExtendsSelf(m);
    if id in m.reviews && m.reviews[id] != [] {
      assert ListOk(id, m.reviews[id], m.reviewsByRequest);
      assert Indexed(id, m.reviewsByRequest, m.reviews[id][|m.reviews[id]| - 1]);
      ReviewStamped(m.reviews, m.reviewsByRequest, id, m.reviews[id][|m.reviews[id]| - 1].(auditHeadHash := hash));
    }
    hide Inv, CasesKept, ListsKept, ByRequestKept, Kept;
  }

  lemma ReviewStamped(lists: map<Uuid, seq<ReviewRecord>>, byRequest: map<Uuid, ReviewRecord>, id: Uuid,
                      review: ReviewRecord)
    requires id in lists && lists[id] != [] && SameReview(lists[id][|lists[id]| - 1], review)
    requires review.submission.requestId in byRequest
             && byRequest[review.submission.requestId] == lists[id][|lists[id]| - 1]
    ensures ListsKept(lists, lists[id := lists[id][|lists[id]| - 1 := review]])
    ensures ByRequestKept(byRequest, byRequest[review.submission.requestId := review])
  {
  }

  lemma StepExtends(m: Memory, c: Command)
    requires Inv(m) && Fresh(m, c)
    ensures Extends(m, Step(m, c).0)
  {
    hide Inv, Extends, CreateStep, SaveDecisionStep, SubmitEvidenceStep, RecordReviewStep, StampReviewStep;
    match c
    case Do(Create(request, newId, now)) => CreateExtends(m, request, newId, now);
    case Do(SaveDecision(decision, _, now)) => SaveDecisionExtends(m, decision, now);
    case Do(SubmitEvidence(id, s, newId, now)) => SubmitEvidenceExtends(m, id, s, newId, now);
    case Do(RecordReview(id, s, analystId, newId, _, now)) => RecordReviewExtends(m, id, s, analystId, newId, now);
    case Stamp(id, hash) => StampExtends(m, id, hash);
  }

  lemma {:induction false} RunExtends(m: Memory, cs: seq<Command>)
    requires Inv(m) && Legal(m, cs)
    ensures Extends(m, Run(m, cs))
  {
    hide Inv, Step, Fresh;
    if cs == [] {
    } else {
      var before := Run(m, cs[..|cs| - 1]);
      RunExtends(m, cs[..|cs| - 1]);
      RunKeepsInv(m, cs[..|cs| - 1]);
      StepExtends(before, cs[|cs| - 1]);
      ExtendsTransitive(m, before, Run(m, cs));
    }
  }

  // ---------------------------------------------------------------- replay

  lemma EvidenceStored(m: Memory, id: Uuid, s: EvidenceInput, newId: Uuid, now: int)
    requires SubmitEvidenceStep(m, id, s, newId, now).1.Evidence?
    ensures var step := SubmitEvidenceStep(m, id, s, newId, now);
            && s.requestId in step.0.evidenceRequestIndex && step.0.evidenceRequestIndex[s.requestId] == id
            && id in step.0.evidence && step.0.evidence[id] == step.1.evidence
  {
    hide MakeEvidence;
  }

  /** Once a call has recorded evidence, the same request on that hold returns that very record and
      changes nothing, whatever happened in between; on any other hold it is refused. */
  lemma EvidenceReplay(m: Memory, id: Uuid, s: EvidenceInput, newId: Uuid, now: int, cs: seq<Command>,
                       other: Uuid, newId': Uuid, now': int)
    requires Inv(m) && SubmitEvidenceStep(m, id, s, newId, now).1.Evidence?
             && Legal(SubmitEvidenceStep(m, id, s, newId, now).0, cs)
    ensures var e := SubmitEvidenceStep(m, id, s, newId, now).1.evidence;
            var later := Run(SubmitEvidenceStep(m, id, s, newId, now).0, cs);
            SubmitEvidenceStep(later, other, s, newId', now')
            == (later, if other == id then Evidence(e, false) else Rejected(InvalidTransition(ForeignEvidenceRequest)))
  {
    var step := SubmitEvidenceStep(m, id, s, newId, now);
    SubmitEvidenceKeepsInv(m, id, s, newId, now);
    EvidenceStored(m, id, s, newId, now);
    var later := Run(step.0, cs);
    RunExtends(step.0, cs);
    EvidenceAgain(step.0, later, id, s, step.1.evidence, other, newId', now');
  }

  lemma EvidenceAgain(n: Memory, later: Memory, id: Uuid, s: EvidenceInput, e: EvidenceRecord, other: Uuid,
                      newId: Uuid, now: int)
    requires Extends(n, later) && s.requestId in n.evidenceRequestIndex && n.evidenceRequestIndex[s.requestId] == id
    requires id in n.evidence && n.evidence[id] == e
    ensures SubmitEvidenceStep(later, other, s, newId, now)
            == (later, if other == id then Evidence(e, false) else Rejected(InvalidTransition(ForeignEvidenceRequest)))
  {
    hide MakeEvidence, CasesKept, ListsKept, ByRequestKept;
  }

  lemma ReviewStored(m: Memory, id: Uuid, s: Review, analystId: string, newId: Uuid, now: int)
    requires RecordReviewStep(m, id, s, analystId, newId, now).1.Reviewed?
    ensures var step := RecordReviewStep(m, id, s, analystId, newId, now);
            && s.requestId in step.0.reviewRequestIndex && step.0.reviewRequestIndex[s.requestId] == id
            && s.requestId in step.0.reviewsByRequest && step.0.reviewsByRequest[s.requestId] == step.1.review
  {
    hide StateAfterReview, TrainingLabel, ReviewRefusal, ListOf;
  }

  /** The same for reviews, up to the audit hash stamped on the record since. */
  lemma ReviewReplay(m: Memory, id: Uuid, s: Review, analystId: string, newId: Uuid, now: int, cs: seq<Command>,
                     other: Uuid, analystId': string, newId': Uuid, now': int)
    requires Inv(m) && RecordReviewStep(m, id, s, analystId, newId, now).1.Reviewed?
    requires Legal(RecordReviewStep(m, id, s, analystId, newId, now).0, cs)
    ensures var later := Run(RecordReviewStep(m, id, s, analystId, newId, now).0, cs);
            var again := RecordReviewStep(later, other, s, analystId', newId', now');
            && again.0 == later
            && (other != id ==> again.1 == Rejected(InvalidTransition(ForeignReviewRequest)))
            && (other == id ==>
                  && again.1.Reviewed? && !again.1.isNew
                  && SameReview(RecordReviewStep(m, id, s, analystId, newId, now).1.review, again.1.review))
  {
    var step := RecordReviewStep(m, id, s, analystId, newId, now);
    RecordReviewKeepsInv(m, id, s, analystId, newId, now);
    ReviewStored(m, id, s, analystId, newId, now);
    RunExtends(step.0, cs);
    ReviewAgain(step.0, Run(step.0, cs), id, s, other, analystId', newId', now');
  }

  lemma ReviewAgain(n: Memory, later: Memory, id: Uuid, s: Review, other: Uuid, analystId: string, newId: Uuid,
                    now: int)
    requires Extends(n, later) && s.requestId in n.reviewRequestIndex && n.reviewRequestIndex[s.requestId] == id
    requires s.requestId in n.reviewsByRequest
    ensures var again := RecordReviewStep(later, other, s, analystId, newId, now);
            && again.0 == later
            && (other != id ==> again.1 == Rejected(InvalidTransition(ForeignReviewRequest)))
            && (other == id ==>
                  && again.1.Reviewed? && !again.1.isNew
                  && SameReview(n.reviewsByRequest[s.requestId], again.1.review))
  {
    hide CasesKept, ListsKept, StateAfterReview, TrainingLabel, ReviewRefusal, ListOf;
  }

  // ---------------------------------------------------------------- human authority

  predicate Decided(m: Memory, id: Uuid) {
    id in m.cases && m.cases[id].state in {RESOLVED, DENIED}
  }

  predicate AcceptedReview(m: Memory, c: Command) {
    c.Do? && c.call.RecordReview? && Step(m, c).1.Reviewed? && Step(m, c).1.isNew
  }

  /** RESOLVED and DENIED are entered only by a review of that hold that the repository accepts. */
  lemma OnlyReviewsDecide(m: Memory, c: Command, id: Uuid)
    requires Fresh(m, c) && Decided(Step(m, c).0, id)
    requires id in m.cases ==> m.cases[id].state != Step(m, c).0.cases[id].state
    ensures AcceptedReview(m, c) && c.call.holdId == id
  {
    hide CreateStep, SaveDecisionStep, SubmitEvidenceStep, RecordReviewStep, StampReviewStep;
    match c
    case Do(Create(request, newId, now)) => CreateTouches(m, request, newId, now, id);
    case Do(SaveDecision(decision, _, now)) => SaveTouches(m, decision, now, id);
    case Do(SubmitEvidence(hold, s, newId, now)) => EvidenceTouches(m, hold, s, newId, now, id);
    case Do(RecordReview(hold, s, analystId, newId, _, now)) =>
        ReviewTouchesOwnHold(m, hold, s, analystId, newId, now, id);
    case Stamp(hold, hash) => StampTouches(m, hold, hash, id);
  }

  predicate Same(m: Memory, n: Memory, id: Uuid) {
    id in m.cases && id in n.cases && n.cases[id] == m.cases[id]
  }

  lemma CreateTouches(m: Memory, request: HoldCreate, newId: Uuid, now: int, id: Uuid)
    ensures !Decided(CreateStep(m, request, newId, now).0, id) || Same(m, CreateStep(m, request, newId, now).0, id)
  {
  }

  lemma StampTouches(m: Memory, hold: Uuid, hash: string, id: Uuid)
    ensures !Decided(StampReviewStep(m, hold, hash).0, id) || Same(m, StampReviewStep(m, hold, hash).0, id)
  {
  }

  lemma SaveTouches(m: Memory, decision: DecisionResponse, now: int, id: Uuid)
    ensures !Decided(SaveDecisionStep(m, decision, now).0, id) || Same(m, SaveDecisionStep(m, decision, now).0, id)
  {
  }

  lemma EvidenceTouches(m: Memory, hold: Uuid, s: EvidenceInput, newId: Uuid, now: int, id: Uuid)
    ensures !Decided(SubmitEvidenceStep(m, hold, s, newId, now).0, id)
            || Same(m, SubmitEvidenceStep(m, hold, s, newId, now).0, id)
  {
    hide MakeEvidence;
  }

  lemma ReviewTouchesOwnHold(m: Memory, hold: Uuid, s: Review, analystId: string, newId: Uuid, now: int, id: Uuid)
    ensures var step := RecordReviewStep(m, hold, s, analystId, newId, now);
            (id in step.0.cases && (id !in m.cases || step.0.cases[id] != m.cases[id])) ==>
              id == hold && step.1.Reviewed? && step.1.isNew
  {
    hide ReviewRefusal, StateAfterReview, TrainingLabel, ListOf;
  }

  /** A new review is accepted exactly when its hold is up for review and a human may do what it does
      there; and each state it can leave has exactly these causes. */
  lemma AcceptedReviewExactly(m: Memory, id: Uuid, s: Review, analystId: string, newId: Uuid, now: int)
    requires Inv(m) && s.requestId !in m.reviewRequestIndex
    ensures id in m.cases && Reviewable(m.cases[id].state) ==> id in m.decisions
    ensures var (n, reply) := RecordReviewStep(m, id, s, analystId, newId, now);
            && (reply.Reviewed? <==>
                  && id in m.cases && Reviewable(m.cases[id].state)
                  && MayReview(s, m.decisions[id].decision, m.cases[id].evidenceRound))
            && (!reply.Reviewed? ==> n == m)
            && (reply.Reviewed? ==>
                  && Caused(s, m.decisions[id].decision, m.cases[id].evidenceRound, n.cases[id].state)
                  && (n.cases[id].state == AWAITING_EVIDENCE ==> m.cases[id].evidenceRound == 0))
  {
    assert LifecycleAt(m, id);
    if id in m.cases && Reviewable(m.cases[id].state) {
      var ai, round := m.decisions[id].decision, m.cases[id].evidenceRound;
      AcceptanceExactly(s, ai, round);
      if MayReview(s, ai, round) {
        AcceptedCaused(s, ai, round);
      }
    }
    hide CasesOk, DecisionsOk, EvidenceOk, ReviewsOk, ListOf, TrainingLabel, ReviewRefusal, StateAfterReview, MayReview;
  }

  /** An accepted review resolves the hold exactly when it is labelled legitimate. */
  lemma LegitimateResolves(m: Memory, c: Command)
    requires AcceptedReview(m, c)
    ensures var n := Step(m, c).0;
            && c.call.holdId in n.cases
            && (n.cases[c.call.holdId].state == RESOLVED <==> Step(m, c).1.review.trainingLabel == LEGITIMATE)
  {
    ReviewEffect(c.call.review);
    hide ReviewRefusal, StateAfterReview, TrainingLabel, ListOf;
  }

  /** After every run, a hold that stands resolved has a latest review, by a human, that labels it
      legitimate; one that stands denied has a latest review that does not. */
  lemma ResolvedByHuman(cs: seq<Command>, id: Uuid)
    requires Legal(EMPTY, cs)
    ensures var m := Run(EMPTY, cs);
            id in m.cases && m.cases[id].state in {RESOLVED, DENIED} ==>
              && ReviewsOf(m, id) != []
              && Last(ReviewsOf(m, id)).holdId == id
              && (TrainingLabel(Last(ReviewsOf(m, id)).submission) == LEGITIMATE <==> m.cases[id].state == RESOLVED)
  {
    EmptyInv();
    RunKeepsInv(EMPTY, cs);
    var m := Run(EMPTY, cs);
    hide Run, TrainingLabel;
    assert LifecycleAt(m, id);
    if id in m.reviews {
      assert ListOk(id, m.reviews[id], m.reviewsByRequest);
      assert Indexed(id, m.reviewsByRequest, Last(m.reviews[id]));
    }
  }

  // ---------------------------------------------------------------- the policy and the evidence round

  /** The guardrails allowed the decision at the given evidence round, whatever candidate they checked:
      the cost policy's, or the one that replaces it after evidence. */
  ghost predicate PolicyDecision(decision: Decision, evidenceRound: nat) {
    exists r: Policy.PolicyCheck :: r.evidenceRound == evidenceRound && decision == Policy.Check(r).allowed
  }

  /** A decision checked at the hold's current round is never refused, whatever the state of
      the hold; in particular never for a second evidence round. */
  lemma PolicyNeverRefused(m: Memory, decision: DecisionResponse, now: int)
    requires decision.holdId in m.cases && PolicyDecision(decision.decision, m.cases[decision.holdId].evidenceRound)
    ensures SaveDecisionStep(m, decision, now).1.Saved?
  {
    var round := m.cases[decision.holdId].evidenceRound;
    var r: Policy.PolicyCheck :| r.evidenceRound == round && decision.decision == Policy.Check(r).allowed;
    Policy.CheckedDecisionSavable(r);
  }

  predicate Saves(c: Command) {
    c.Do? && c.call.SaveDecision?
  }

  /** Every decision the run saves on a known hold was checked at that hold's current round. */
  ghost predicate PolicyRun(m: Memory, cs: seq<Command>) {
    forall k :: 0 <= k < |cs| && Saves(cs[k]) ==>
      var before := Run(m, cs[..k]);
      var decision := cs[k].call.decision;
      decision.holdId in before.cases ==> PolicyDecision(decision.decision, before.cases[decision.holdId].evidenceRound)
  }

  /** Over a whole run of that kind, whatever else is called in between, no decision is refused. */
  lemma PolicyRunAccepted(m: Memory, cs: seq<Command>, k: nat)
    requires PolicyRun(m, cs) && k < |cs| && Saves(cs[k])
    ensures Step(Run(m, cs[..k]), cs[k]).1.Saved? || Step(Run(m, cs[..k]), cs[k]).1 == Rejected(HoldNotFound)
  {
    hide Run;
    var before := Run(m, cs[..k]);
    var decision := cs[k].call.decision;
    if decision.holdId in before.cases {
      PolicyNeverRefused(before, decision, cs[k].call.now);
    }
  }

  // ---------------------------------------------------------------- who can leave a decided state

  /** Saving a decision on the hold that its evidence round allows. */
  predicate Reopens(m: Memory, c: Command, id: Uuid)
    requires id in m.cases
  {
    && Saves(c) && c.call.decision.holdId == id
    && !(c.call.decision.decision == EVIDENCE_NEEDED && m.cases[id].evidenceRound == 1)
  }

  /** Neither RESOLVED nor DENIED is terminal: a decided hold leaves those states exactly by a decision
      saved on it, and every other command leaves it as it was. */
  lemma LeavesDecided(m: Memory, c: Command, id: Uuid)
    requires Fresh(m, c) && Decided(m, id)
    ensures !Decided(Step(m, c).0, id) <==> Reopens(m, c, id)
    ensures Reopens(m, c, id) <==> Saves(c) && c.call.decision.holdId == id && Step(m, c).1.Saved?
    ensures !Reopens(m, c, id) ==> Same(m, Step(m, c).0, id)
  {
    hide CreateStep, SaveDecisionStep, SubmitEvidenceStep, RecordReviewStep, StampReviewStep;
    match c
    case Do(Create(request, newId, now)) => CreateLeaves(m, request, newId, now, id);
    case Do(SaveDecision(decision, _, now)) => SaveLeaves(m, decision, now, id);
    case Do(SubmitEvidence(hold, s, newId, now)) => EvidenceLeaves(m, hold, s, newId, now, id);
    case Do(RecordReview(hold, s, analystId, newId, _, now)) => ReviewLeaves(m, hold, s, analystId, newId, now, id);
    case Stamp(hold, hash) => StampLeaves(m, hold, hash, id);
  }

  lemma CreateLeaves(m: Memory, request: HoldCreate, newId: Uuid, now: int, id: Uuid)
    requires id in m.cases && newId !in m.cases
    ensures Same(m, CreateStep(m, request, newId, now).0, id)
  {
  }

  lemma SaveLeaves(m: Memory, decision: DecisionResponse, now: int, id: Uuid)
    requires Decided(m, id)
    ensures var step := SaveDecisionStep(m, decision, now);
            var fits := !(decision.decision == EVIDENCE_NEEDED && m.cases[id].evidenceRound == 1);
            && (decision.holdId == id && fits ==> step.1.Saved? && id in step.0.cases && !Decided(step.0, id))
            && (decision.holdId != id || !fits ==> Same(m, step.0, id))
            && (decision.holdId == id && !fits ==> !step.1.Saved?)
  {
  }

  lemma EvidenceLeaves(m: Memory, hold: Uuid, s: EvidenceInput, newId: Uuid, now: int, id: Uuid)
    requires Decided(m, id)
    ensures Same(m, SubmitEvidenceStep(m, hold, s, newId, now).0, id)
  {
    hide MakeEvidence;
  }

  lemma ReviewLeaves(m: Memory, hold: Uuid, s: Review, analystId: string, newId: Uuid, now: int, id: Uuid)
    requires Decided(m, id)
    ensures Same(m, RecordReviewStep(m, hold, s, analystId, newId, now).0, id)
  {
    hide ReviewRefusal, StateAfterReview, TrainingLabel, ListOf;
  }

  lemma StampLeaves(m: Memory, hold: Uuid, hash: string, id: Uuid)
    requires id in m.cases
    ensures Same(m, StampReviewStep(m, hold, hash).0, id)
  {
  }

  /** Over whole runs: a decided hold is untouched until a decision the repository accepts is saved on it. */
  lemma {:induction false} DecidedPersists(m: Memory, cs: seq<Command>, id: Uuid)
    requires Legal(m, cs) && Decided(m, id)
    requires forall k :: 0 <= k < |cs| && id in Run(m, cs[..k]).cases ==> !Reopens(Run(m, cs[..k]), cs[k], id)
    ensures Same(m, Run(m, cs), id)
  {
    hide Step, Reopens, Fresh;
    if cs != [] {
      var n := |cs| - 1;
      forall k | 0 <= k < n && id in Run(m, cs[..n][..k]).cases ensures !Reopens(Run(m, cs[..n][..k]), cs[..n][k], id) {
        assert cs[..n][..k] == cs[..k];
      }
      DecidedPersists(m, cs[..n], id);
      LeavesDecided(Run(m, cs[..n]), cs[n], id);
    }
  }

  // ---------------------------------------------------------------- real runs of the two kinds

  lemma RunAppend(m: Memory, cs: seq<Command>, c: Command)
    ensures Run(m, cs + [c]) == Step(Run(m, cs), c).0
    ensures Legal(m, cs) && Fresh(Run(m, cs), c) ==> Legal(m, cs + [c])
  {
    assert (cs + [c])[..|cs|] == cs;
    hide Step, Fresh;
  }

  lemma RunEmpty(m: Memory)
    ensures Run(m, []) == m && Legal(m, [])
  {
  }

  function Opening(): Command {
    Do(Create(HoldCreate("request", "merchant", "event", 0, None), "hold", 0))
  }

  function Deciding(decision: Decision, at: int): Command {
    Do(SaveDecision(DecisionResponse("hold", decision, at, "", NO_HASH), None, at))
  }

  function Reviewing(outcome: Option<Outcome>, action: Option<Action>): Command
    requires outcome.None? != action.None? && action != Some(OVERRIDE_AI)
  {
    Do(RecordReview("hold", ReviewSubmission("review", outcome, action, None, "", 2), "analyst", "r1", "e1", 2))
  }

  /** A hold opened, decided and reviewed: where it stands before and after the review. */
  lemma ReviewedRun(decision: Decision, outcome: Option<Outcome>, action: Option<Action>)
    requires outcome.None? != action.None? && action != Some(OVERRIDE_AI) && decision != EVIDENCE_NEEDED
    requires ReviewRefusal(ReviewSubmission("review", outcome, action, None, "", 2), decision, 0).None?
    ensures var run := [Opening(), Deciding(decision, 1), Reviewing(outcome, action)];
            && Legal(EMPTY, run) && "hold" in Run(EMPTY, run).cases && Run(EMPTY, run).cases["hold"].evidenceRound == 0
            && Run(EMPTY, run).cases["hold"].state
                 == StateAfterReview(ReviewSubmission("review", outcome, action, None, "", 2))
  {
    hide Run, Legal, ReviewRefusal, StateAfterReview, TrainingLabel;
    var opening, deciding, reviewing := Opening(), Deciding(decision, 1), Reviewing(outcome, action);
    RunEmpty(EMPTY);
    RunAppend(EMPTY, [], opening);
    assert [] + [opening] == [opening];
    RunAppend(EMPTY, [opening], deciding);
    assert [opening] + [deciding] == [opening, deciding];
    RunAppend(EMPTY, [opening, deciding], reviewing);
    assert [opening, deciding] + [reviewing] == [opening, deciding, reviewing];
  }

  /** A run that resolves a hold by review and reopens it by a later decision. */
  lemma ResolvedThenReopened()
    ensures var run := [Opening(), Deciding(RELEASE, 1), Reviewing(None, Some(APPROVE_RELEASE)), Deciding(ESCALATE, 3)];
            && Legal(EMPTY, run)
            && Decided(Run(EMPTY, run[..3]), "hold") && Run(EMPTY, run[..3]).cases["hold"].state == RESOLVED
            && "hold" in Run(EMPTY, run).cases && Run(EMPTY, run).cases["hold"].state == HUMAN_REVIEW
  {
    var run := [Opening(), Deciding(RELEASE, 1), Reviewing(None, Some(APPROVE_RELEASE)), Deciding(ESCALATE, 3)];
    ReviewedRun(RELEASE, None, Some(APPROVE_RELEASE));
    hide Run, Legal;
    assert run[..3] == [Opening(), Deciding(RELEASE, 1), Reviewing(None, Some(APPROVE_RELEASE))];
    assert run[..3] + [run[3]] == run;
    RunAppend(EMPTY, run[..3], run[3]);
  }

  /** A run that releases, by the legacy outcome CLEARED, a hold the AI said to escalate. */
  lemma ClearedAgainstAdvice()
    ensures var run := [Opening(), Deciding(ESCALATE, 1), Reviewing(Some(CLEARED), None)];
            && Legal(EMPTY, run) && "hold" in Run(EMPTY, run).cases && Run(EMPTY, run).cases["hold"].state == RESOLVED
  {
    hide Run, Legal;
    ReviewedRun(ESCALATE, Some(CLEARED), None);
  }

  /** A legacy CLEARED outcome releases a hold the AI said to escalate; the same release asked for as
      an action is refused. */
  lemma LegacyClearanceBypassesAgreement(m: Memory, id: Uuid, requestId: Uuid, analystId: string, newId: Uuid,
                                         details: string, now: int)
    requires Inv(m) && id in m.cases && Reviewable(m.cases[id].state) && requestId !in m.reviewRequestIndex
    ensures id in m.decisions
    ensures var legacy := ReviewSubmission(requestId, Some(CLEARED), None, None, details, now);
            RecordReviewStep(m, id, legacy, analystId, newId, now).0.cases[id].state == RESOLVED
    ensures var action := ReviewSubmission(requestId, None, Some(APPROVE_RELEASE), None, details, now);
            RecordReviewStep(m, id, action, analystId, newId, now).1.Reviewed? <==> m.decisions[id].decision == RELEASE
  {
    assert LifecycleAt(m, id);
    hide Inv;
  }
}
