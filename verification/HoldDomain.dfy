/** Holds, decisions, evidence and analyst reviews, and the rules that turn one into another. */
module HoldDomain {
  import opened Sequences
  import opened Text
  import opened Wrappers

  /** A UUID in its canonical text form. */
  type Uuid = string

  /** The digits of a UUID, without the dashes. */
  function Hex(id: Uuid): string {
    Filter(id, (c: char) => c != '-')
  }

  datatype Decision = RELEASE | EVIDENCE_NEEDED | ESCALATE
  datatype State = OPEN | AWAITING_EVIDENCE | EVIDENCE_SUBMITTED | RESOLVED | HUMAN_REVIEW | DENIED
  datatype Outcome = CLEARED | FRAUD_CONFIRMED | CONTINUE_HOLD
  // The action ESCALATE, named apart from the decision.
  datatype Action = APPROVE_RELEASE | REQUEST_EVIDENCE | ESCALATE_CASE | OVERRIDE_AI
  datatype Label = LEGITIMATE | RISKY | UNRESOLVED
  datatype EvidenceKind = CAMPAIGN | FULFILLMENT | GEO_EXPANSION | AUTH_INCIDENT | INVENTORY | OTHER

  datatype HoldCreate = HoldCreate(requestId: Uuid, merchantId: string, sourceEventId: string, triggeredAt: int,
                                   reasonCode: Option<string>)
  datatype HoldCase = HoldCase(holdId: Uuid, request: HoldCreate, state: State, evidenceRound: nat,
                               createdAt: int, updatedAt: int)
  datatype DecisionResponse = DecisionResponse(holdId: Uuid, decision: Decision, createdAt: int, details: string,
                                               auditHeadHash: string)
  datatype EvidenceSubmission = EvidenceSubmission(requestId: Uuid, kind: EvidenceKind, submittedAt: int,
                                                   observedAt: int, contentHash: string)
  type EvidenceInput = s: EvidenceSubmission | s.observedAt <= s.submittedAt witness EvidenceSubmission("", OTHER, 0,
      0, "")
  datatype EvidenceRecord = EvidenceRecord(evidenceId: Uuid, holdId: Uuid, submission: EvidenceInput,
                                           recencyHours: real, typeMatch: bool, createdAt: int)
  datatype ReviewSubmission = ReviewSubmission(requestId: Uuid, outcome: Option<Outcome>, action: Option<Action>,
                                               authorizedDecision: Option<Decision>, details: string, decidedAt: int)
  datatype ReviewRecord = ReviewRecord(reviewId: Uuid, holdId: Uuid, analystId: string, submission: Review,
                                       trainingLabel: Label, auditHeadHash: string, createdAt: int)

  datatype Reason = SecondEvidenceRound | EvidenceNotAccepted | ForeignEvidenceRequest | EvidenceAlreadySubmitted
                  | ForeignReviewRequest | NotReviewable | NoRecommendation | UseOverride | OverrideMustChange
                  | NoReview
  datatype HoldError = HoldNotFound | InvalidTransition(reason: Reason) | LookupFailure | Conflict

  // ---------------------------------------------------------------- analyst reviews

  /** The declared shape of a review: exactly one of outcome and action, and an authorised decision
      exactly when the AI is overridden. */
  predicate ValidReview(s: ReviewSubmission) {
    && (s.outcome.None? != s.action.None?)
    && (s.action == Some(OVERRIDE_AI) <==> s.authorizedDecision.Some?)
  }

  type Review = s: ReviewSubmission | ValidReview(s) witness ReviewSubmission("", Some(CLEARED), None, None, "", 0)

  function ResolvedAction(s: Review): Action {
    match s.action
    case Some(action) => action
    case None => if s.outcome.value == CLEARED then APPROVE_RELEASE else ESCALATE_CASE
  }

  function ResolvedDecision(s: Review): Decision {
    match ResolvedAction(s)
    case APPROVE_RELEASE => RELEASE
    case REQUEST_EVIDENCE => EVIDENCE_NEEDED
    case OVERRIDE_AI => s.authorizedDecision.value
    case ESCALATE_CASE => ESCALATE
  }

  function TrainingLabel(s: Review): Label {
    if s.outcome == Some(FRAUD_CONFIRMED) then RISKY
    else if ResolvedDecision(s) == RELEASE then LEGITIMATE
    else UNRESOLVED
  }

  function StateAfterReview(s: Review): State {
    if ResolvedDecision(s) == RELEASE then RESOLVED
    else if ResolvedDecision(s) == EVIDENCE_NEEDED then AWAITING_EVIDENCE
    else if ResolvedAction(s) == OVERRIDE_AI || s.outcome == Some(FRAUD_CONFIRMED) then DENIED
    else HUMAN_REVIEW
  }

  /** A review resolves the hold exactly when it is labelled legitimate, and only an override or a
      confirmed fraud denies it. */
  lemma ReviewEffect(s: Review)
    ensures StateAfterReview(s) == RESOLVED <==> TrainingLabel(s) == LEGITIMATE
    ensures TrainingLabel(s) == RISKY ==> StateAfterReview(s) == DENIED
    ensures StateAfterReview(s) == DENIED <==>
              s.outcome == Some(FRAUD_CONFIRMED)
                  || (s.action == Some(OVERRIDE_AI) && s.authorizedDecision == Some(ESCALATE))
  {
  }

  /** The last act of a review, on the hold itself. */
  method SettleReview(hold: HoldCase, s: Review, now: int) returns (settled: HoldCase)
    ensures settled == hold.(state := StateAfterReview(s), updatedAt := now)
  {
    settled := hold;
    var action, decision := ResolvedAction(s), ResolvedDecision(s);
    if decision == RELEASE {
      settled := settled.(state := RESOLVED);
    } else if decision == EVIDENCE_NEEDED {
      settled := settled.(state := AWAITING_EVIDENCE);
    } else if action == OVERRIDE_AI || s.outcome == Some(FRAUD_CONFIRMED) {
      settled := settled.(state := DENIED);
    } else {
      settled := settled.(state := HUMAN_REVIEW);
    }
    settled := settled.(updatedAt := now);
  }

  /** Why a review is refused, given the hold and the AI's current recommendation. The agreement
      checks look at the submitted action only, so a legacy outcome is never refused by them. */
  function ReviewRefusal(s: Review, recommendation: Decision, evidenceRound: nat): Option<Reason> {
    if s.action == Some(APPROVE_RELEASE) && recommendation != RELEASE then Some(UseOverride)
    else if s.action == Some(OVERRIDE_AI) && ResolvedDecision(s) == recommendation then Some(OverrideMustChange)
    else if ResolvedDecision(s) == EVIDENCE_NEEDED && evidenceRound == 1 then Some(SecondEvidenceRound)
    else None
  }

  /** The checks a review goes through against the AI's current recommendation. */
  method RefuseReview(s: Review, recommendation: Decision, evidenceRound: nat) returns (refusal: Option<Reason>)
    ensures refusal == ReviewRefusal(s, recommendation, evidenceRound)
  {
    var decision := ResolvedDecision(s);
    if s.action == Some(APPROVE_RELEASE) && recommendation != RELEASE {
      return Some(UseOverride);
    }
    if s.action == Some(OVERRIDE_AI) && decision == recommendation {
      return Some(OverrideMustChange);
    }
    if decision == EVIDENCE_NEEDED && evidenceRound == 1 {
      return Some(SecondEvidenceRound);
    }
    refusal := None;
  }

  /** What a human may do: give a legacy outcome or escalate in any case, approve a release the AI
      recommends, ask for evidence once, and override the AI only to another decision. */
  predicate MayReview(s: Review, recommendation: Decision, evidenceRound: nat) {
    match s.action
    case Some(APPROVE_RELEASE) => recommendation == RELEASE
    case Some(REQUEST_EVIDENCE) => evidenceRound != 1
    case Some(OVERRIDE_AI) =>
      s.authorizedDecision != Some(recommendation)
      && (s.authorizedDecision == Some(EVIDENCE_NEEDED) ==> evidenceRound != 1)
    case _ => true
  }

  lemma AcceptanceExactly(s: Review, ai: Decision, evidenceRound: nat)
    ensures ReviewRefusal(s, ai, evidenceRound).None? <==> MayReview(s, ai, evidenceRound)
  {
  }

  /** Why a review is refused: approving what was not recommended, overriding to what was, or asking for
      evidence a second time. */
  lemma RefusalExactly(s: Review, ai: Decision, evidenceRound: nat)
    ensures var why := ReviewRefusal(s, ai, evidenceRound);
            && (why == Some(UseOverride) <==> s.action == Some(APPROVE_RELEASE) && ai != RELEASE)
            && (why == Some(OverrideMustChange) <==>
                  s.action == Some(OVERRIDE_AI) && s.authorizedDecision == Some(ai))
            && (why == Some(SecondEvidenceRound) <==>
                  && evidenceRound == 1
                  && (s.action == Some(REQUEST_EVIDENCE)
                      || (s.action == Some(OVERRIDE_AI) && s.authorizedDecision == Some(EVIDENCE_NEEDED)
                           && ai != EVIDENCE_NEEDED)))
            && (why.Some? ==> why.value in {UseOverride, OverrideMustChange, SecondEvidenceRound})
  {
  }

  /** What each state an accepted review can leave was caused by. */
  predicate Caused(s: Review, ai: Decision, evidenceRound: nat, state: State) {
    && (state == RESOLVED <==>
          || s.outcome == Some(CLEARED)
          || (s.action == Some(APPROVE_RELEASE) && ai == RELEASE)
          || (s.action == Some(OVERRIDE_AI) && s.authorizedDecision == Some(RELEASE) && ai != RELEASE))
    && (state == DENIED <==>
          || s.outcome == Some(FRAUD_CONFIRMED)
          || (s.action == Some(OVERRIDE_AI) && s.authorizedDecision == Some(ESCALATE) && ai != ESCALATE))
    && (state == HUMAN_REVIEW <==> s.outcome == Some(CONTINUE_HOLD) || s.action == Some(ESCALATE_CASE))
    && (state == RESOLVED || state == DENIED || state == HUMAN_REVIEW
        || (state == AWAITING_EVIDENCE && evidenceRound != 1))
  }

  lemma AcceptedCaused(s: Review, ai: Decision, evidenceRound: nat)
    requires MayReview(s, ai, evidenceRound)
    ensures Caused(s, ai, evidenceRound, StateAfterReview(s))
  {
  }

  predicate Reviewable(state: State) {
    state == HUMAN_REVIEW || state == AWAITING_EVIDENCE
  }

  /** The same review, up to the audit hash stamped on it. */
  predicate SameReview(a: ReviewRecord, b: ReviewRecord) {
    a.(auditHeadHash := b.auditHeadHash) == b
  }

  // ---------------------------------------------------------------- decisions and evidence

  /** The state a model decision puts a hold in; a second evidence round is refused. */
  function StateForDecision(decision: Decision, evidenceRound: nat): Result<State, HoldError> {
    match decision
    case RELEASE => Success(HUMAN_REVIEW)
    case ESCALATE => Success(HUMAN_REVIEW)
    case EVIDENCE_NEEDED =>
      if evidenceRound == 1 then Failure(InvalidTransition(SecondEvidenceRound)) else Success(AWAITING_EVIDENCE)
  }

  function ExpectedEvidence(reasonCode: Option<string>): Option<EvidenceKind> {
    if reasonCode.None? then None
    else
      match Upper(reasonCode.value)
      case "CAMPAIGN" => Some(CAMPAIGN)
      case "VOLUME_SPIKE" => Some(CAMPAIGN)
      case "FULFILLMENT" => Some(FULFILLMENT)
      case "GEO_EXPANSION" => Some(GEO_EXPANSION)
      case "AUTH_INCIDENT" => Some(AUTH_INCIDENT)
      case "INVENTORY" => Some(INVENTORY)
      case _ => None
  }

  const MICROSECONDS_PER_HOUR := 3_600_000_000.0

  function MakeEvidence(evidenceId: Uuid, hold: HoldCase, s: EvidenceInput, now: int): (e: EvidenceRecord)
    ensures e.holdId == hold.holdId && e.submission == s && e.recencyHours >= 0.0
    ensures !e.typeMatch <==>
            ExpectedEvidence(hold.request.reasonCode).Some?
            && Some(s.kind) != ExpectedEvidence(hold.request.reasonCode)
  {
    var expected := ExpectedEvidence(hold.request.reasonCode);
    EvidenceRecord(evidenceId, hold.holdId, s, (s.submittedAt - s.observedAt) as real / MICROSECONDS_PER_HOUR,
                   expected.None? || s.kind == expected.value, now)
  }

  // ---------------------------------------------------------------- calls and replies

  /** What the audited form of saving a decision adds: the event's identifiers and its payload. */
  datatype AuditNote = AuditNote(eventId: Uuid, traceId: string, payload: string)

  /** A repository call, with the identifiers and the clock reading the call draws. */
  datatype Call = Create(request: HoldCreate, newId: Uuid, now: int)
                | SaveDecision(decision: DecisionResponse, audit: Option<AuditNote>, now: int)
                | SubmitEvidence(holdId: Uuid, evidence: EvidenceInput, newId: Uuid, now: int)
                | RecordReview(holdId: Uuid, review: Review, analystId: string, newId: Uuid, eventId: Uuid, now: int)

  datatype Reply = Created(hold: HoldCase, isNew: bool)
                 | Saved(hold: HoldCase)
                 | Persisted(decision: DecisionResponse)
                 | Evidence(evidence: EvidenceRecord, isNew: bool)
                 | Reviewed(review: ReviewRecord, isNew: bool)
                 | Rejected(error: HoldError)

  // ---------------------------------------------------------------- labels and evidence

  /** A review teaches a legitimate case exactly by releasing, a risky one exactly by confirming fraud, and
      nothing otherwise. */
  lemma LabelExactly(s: Review)
    ensures TrainingLabel(s) == RISKY <==> s.outcome == Some(FRAUD_CONFIRMED)
    ensures TrainingLabel(s) == LEGITIMATE <==>
            || s.outcome == Some(CLEARED) || s.action == Some(APPROVE_RELEASE)
            || (s.action == Some(OVERRIDE_AI) && s.authorizedDecision == Some(RELEASE))
  {
  }

  /** Which evidence each reason code, in whatever case, asks for; other codes ask for none in particular. */
  lemma ExpectedExactly(reason: string)
    ensures var kind := ExpectedEvidence(Some(reason));
            && (kind == Some(CAMPAIGN) <==> Upper(reason) == "CAMPAIGN" || Upper(reason) == "VOLUME_SPIKE")
            && (kind == Some(FULFILLMENT) <==> Upper(reason) == "FULFILLMENT")
            && (kind == Some(GEO_EXPANSION) <==> Upper(reason) == "GEO_EXPANSION")
            && (kind == Some(AUTH_INCIDENT) <==> Upper(reason) == "AUTH_INCIDENT")
            && (kind == Some(INVENTORY) <==> Upper(reason) == "INVENTORY")
            && kind != Some(OTHER)
    ensures ExpectedEvidence(None) == None
  {
    hide Upper;
  }

  /** Recency is the age of the observation at submission, in hours. */
  lemma EvidenceExactly(evidenceId: Uuid, hold: HoldCase, s: EvidenceInput, now: int)
    ensures var e := MakeEvidence(evidenceId, hold, s, now);
            && e.evidenceId == evidenceId && e.holdId == hold.holdId && e.submission == s && e.createdAt == now
            && e.recencyHours * 3_600_000_000.0 == (s.submittedAt - s.observedAt) as real
            && (e.typeMatch <==>
                  || ExpectedEvidence(hold.request.reasonCode).None?
                  || ExpectedEvidence(hold.request.reasonCode) == Some(s.kind))
  {
    hide ExpectedEvidence;
  }
}
