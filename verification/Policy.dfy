/** Candidate decisions from probabilities, and the guardrails that may only make them safer. */
module Policy {
  import opened HoldDomain
  import opened Wrappers

  datatype Probabilities = Probabilities(release: real, evidenceNeeded: real, escalate: real)
  datatype Thresholds = Thresholds(release: real, escalate: real)
  datatype Prediction = Prediction(probabilities: Probabilities, noveltyOverride: bool)
  datatype Verdict = SUPPORTED | INSUFFICIENT | CONTRADICTORY

  datatype PolicyCheck = PolicyCheck(candidate: Decision, probabilities: Probabilities, thresholds: Thresholds,
                                     noveltyOverride: bool, evidenceRound: nat, systemError: bool,
                                     assessment: Option<Verdict>, releaseRiskCap: real)
  datatype PolicyReason = SYSTEM_ERROR | NOVELTY_OVERRIDE | INVALID_EVIDENCE_ROUND | RELEASE_THRESHOLD_NOT_MET
                        | EVIDENCE_ASSESSMENT_MISSING | EVIDENCE_NOT_SUPPORTED | EVIDENCE_RELEASE_RISK_CAP_EXCEEDED
                        | RELEASE_GUARDRAILS_PASSED | ONE_EVIDENCE_ROUND_AVAILABLE | EVIDENCE_ROUND_EXHAUSTED
                        | CANDIDATE_ESCALATE
  datatype PolicyResult = PolicyResult(allowed: Decision, guardrailTriggered: bool, reason: PolicyReason)

  /** Expected cost of each action under a 3 x 3 matrix, rows in decision order. */
  function ExpectedCost(row: (real, real, real), p: Probabilities): real {
    row.0 * p.release + row.1 * p.evidenceNeeded + row.2 * p.escalate
  }

  function Cheapest(release: real, evidenceNeeded: real, escalate: real): Decision {
    if release <= evidenceNeeded && release <= escalate then RELEASE
    else if evidenceNeeded <= escalate then EVIDENCE_NEEDED
    else ESCALATE
  }

  datatype CostMatrix = CostMatrix(release: (real, real, real), evidenceNeeded: (real, real, real),
                                   escalate: (real, real, real))

  /** The cost policy's candidate. The cost-minimal action is computed first and then always replaced. */
  method Choose(costs: CostMatrix, prediction: Prediction, evidenceRound: nat, thresholds: Thresholds)
    returns (candidate: Decision, expectedCost: real)
    ensures candidate == Candidate(prediction, evidenceRound, thresholds)
    ensures expectedCost == CostOf(costs, prediction.probabilities, candidate)
  {
    var p := prediction.probabilities;
    candidate := Cheapest(ExpectedCost(costs.release, p), ExpectedCost(costs.evidenceNeeded, p),
        ExpectedCost(costs.escalate, p));
    if p.release >= thresholds.release && !prediction.noveltyOverride {
      candidate := RELEASE;
    } else if p.escalate >= thresholds.escalate {
      candidate := ESCALATE;
    } else if evidenceRound == 0 {
      candidate := EVIDENCE_NEEDED;
    } else {
      candidate := ESCALATE;
    }
    expectedCost := CostOf(costs, p, candidate);
  }

  function CostOf(costs: CostMatrix, p: Probabilities, decision: Decision): real {
    match decision
    case RELEASE => ExpectedCost(costs.release, p)
    case EVIDENCE_NEEDED => ExpectedCost(costs.evidenceNeeded, p)
    case ESCALATE => ExpectedCost(costs.escalate, p)
  }

  function Candidate(prediction: Prediction, evidenceRound: nat, thresholds: Thresholds): Decision {
    if prediction.probabilities.release >= thresholds.release && !prediction.noveltyOverride then RELEASE
    else if prediction.probabilities.escalate >= thresholds.escalate then ESCALATE
    else if evidenceRound == 0 then EVIDENCE_NEEDED
    else ESCALATE
  }

  function Escalated(reason: PolicyReason): PolicyResult {
    PolicyResult(ESCALATE, true, reason)
  }

  function Check(r: PolicyCheck): PolicyResult {
    if r.systemError then Escalated(SYSTEM_ERROR)
    else if r.noveltyOverride then Escalated(NOVELTY_OVERRIDE)
    else if r.evidenceRound > 1 then Escalated(INVALID_EVIDENCE_ROUND)
    else if r.candidate == RELEASE then
      if r.evidenceRound == 0 && r.probabilities.release < r.thresholds.release
          then Escalated(RELEASE_THRESHOLD_NOT_MET)
      else if r.evidenceRound == 1 && r.assessment.None? then Escalated(EVIDENCE_ASSESSMENT_MISSING)
      else if r.evidenceRound == 1 && r.assessment.value != SUPPORTED then Escalated(EVIDENCE_NOT_SUPPORTED)
      else if r.evidenceRound == 1 && r.probabilities.escalate >= r.releaseRiskCap
          then Escalated(EVIDENCE_RELEASE_RISK_CAP_EXCEEDED)
      else PolicyResult(RELEASE, false, RELEASE_GUARDRAILS_PASSED)
    else if r.candidate == EVIDENCE_NEEDED then
      if r.evidenceRound == 0 then PolicyResult(EVIDENCE_NEEDED, false, ONE_EVIDENCE_ROUND_AVAILABLE)
      else Escalated(EVIDENCE_ROUND_EXHAUSTED)
    else PolicyResult(ESCALATE, false, CANDIDATE_ESCALATE)
  }

  /** The guardrails keep the candidate or escalate it, and flag exactly the cases they changed or
      could not trust. */
  lemma CheckOnlyEscalates(r: PolicyCheck)
    ensures Check(r).allowed == r.candidate || Check(r).allowed == ESCALATE
    ensures Check(r).allowed != r.candidate ==> Check(r).guardrailTriggered
    ensures Check(r).guardrailTriggered ==> Check(r).allowed == ESCALATE
  {
  }

  /** A release gets through exactly when the model ran cleanly without a novelty override and the
      round's own condition holds: the threshold before evidence, a supported verdict under the risk
      cap after it. */
  lemma ReleaseExactly(r: PolicyCheck)
    ensures Check(r).allowed == RELEASE
       <==> && r.candidate == RELEASE && !r.systemError && !r.noveltyOverride
            && ((r.evidenceRound == 0 && r.probabilities.release >= r.thresholds.release)
                || (r.evidenceRound == 1 && r.assessment == Some(SUPPORTED)
                     && r.probabilities.escalate < r.releaseRiskCap))
  {
  }

  /** Evidence is asked for only before any evidence round. */
  lemma EvidenceOnlyInFirstRound(r: PolicyCheck)
    ensures Check(r).allowed == EVIDENCE_NEEDED ==> r.evidenceRound == 0 && r.candidate == EVIDENCE_NEEDED
  {
  }

  /** A decision computed at the hold's current round can always be saved. */
  lemma CheckedDecisionSavable(r: PolicyCheck)
    ensures StateForDecision(Check(r).allowed, r.evidenceRound).Success?
  {
  }

  /** Under thresholds inside their declared bounds the human-only model's candidate is ESCALATE exactly
      when the release threshold is positive; at threshold zero its zero probability reaches it and the
      candidate is RELEASE. It never asks for evidence. */
  lemma HumanOnlyEscalates(thresholds: Thresholds, evidenceRound: nat)
    requires 0.0 <= thresholds.release <= 1.0 && 0.0 <= thresholds.escalate <= 1.0
    ensures var candidate := Candidate(Prediction(Probabilities(0.0, 0.0, 1.0), false), evidenceRound, thresholds);
            && (candidate == ESCALATE <==> thresholds.release > 0.0)
            && (candidate == RELEASE <==> thresholds.release == 0.0)
  {
  }

  /** When each reason is given: the first of the checks that applies. */
  lemma ReasonExactly(r: PolicyCheck)
    ensures var clean := !r.systemError && !r.noveltyOverride && r.evidenceRound <= 1;
            var why := Check(r).reason;
            && (why == SYSTEM_ERROR <==> r.systemError)
            && (why == NOVELTY_OVERRIDE <==> !r.systemError && r.noveltyOverride)
            && (why == INVALID_EVIDENCE_ROUND <==> !r.systemError && !r.noveltyOverride && r.evidenceRound > 1)
            && (why == RELEASE_THRESHOLD_NOT_MET <==>
                  && clean && r.candidate == RELEASE && r.evidenceRound == 0
                  && r.probabilities.release < r.thresholds.release)
            && (why == EVIDENCE_ASSESSMENT_MISSING <==>
                  clean && r.candidate == RELEASE && r.evidenceRound == 1 && r.assessment.None?)
            && (why == EVIDENCE_NOT_SUPPORTED <==>
                  && clean && r.candidate == RELEASE && r.evidenceRound == 1
                  && (r.assessment == Some(INSUFFICIENT) || r.assessment == Some(CONTRADICTORY)))
            && (why == EVIDENCE_RELEASE_RISK_CAP_EXCEEDED <==>
                  && clean && r.candidate == RELEASE && r.evidenceRound == 1 && r.assessment == Some(SUPPORTED)
                  && r.probabilities.escalate >= r.releaseRiskCap)
            && (why == ONE_EVIDENCE_ROUND_AVAILABLE <==>
                  clean && r.candidate == EVIDENCE_NEEDED && r.evidenceRound == 0)
            && (why == EVIDENCE_ROUND_EXHAUSTED <==> clean && r.candidate == EVIDENCE_NEEDED && r.evidenceRound == 1)
            && (why == CANDIDATE_ESCALATE <==> clean && r.candidate == ESCALATE)
  {
  }

  /** Evidence gets through exactly when it is the candidate of a clean run before any evidence round; and the
      flag is down exactly when a clean run's candidate was allowed as it stood. */
  lemma EvidenceExactly(r: PolicyCheck)
    ensures Check(r).allowed == EVIDENCE_NEEDED <==>
            r.candidate == EVIDENCE_NEEDED && !r.systemError && !r.noveltyOverride && r.evidenceRound == 0
    ensures !Check(r).guardrailTriggered <==>
            !r.systemError && !r.noveltyOverride && r.evidenceRound <= 1 && Check(r).allowed == r.candidate
  {
  }

  /** The candidate by threshold, novelty and round. */
  lemma CandidateExactly(p: Prediction, evidenceRound: nat, thresholds: Thresholds)
    ensures var candidate := Candidate(p, evidenceRound, thresholds);
            && (candidate == RELEASE <==> thresholds.release <= p.probabilities.release && !p.noveltyOverride)
            && (candidate == EVIDENCE_NEEDED <==>
                  && evidenceRound == 0 && p.probabilities.escalate < thresholds.escalate
                  && (p.probabilities.release < thresholds.release || p.noveltyOverride))
  {
  }

  /** The cost of an action is the average of its row of the matrix: its entry where the prediction is certain,
      and in proportion between predictions. */
  lemma CostExactly(costs: CostMatrix, p: Probabilities, q: Probabilities, k: real)
    ensures CostOf(costs, Probabilities(1.0, 0.0, 0.0), RELEASE) == costs.release.0
    ensures CostOf(costs, Probabilities(0.0, 1.0, 0.0), RELEASE) == costs.release.1
    ensures CostOf(costs, Probabilities(0.0, 0.0, 1.0), RELEASE) == costs.release.2
    ensures CostOf(costs, Probabilities(1.0, 0.0, 0.0), EVIDENCE_NEEDED) == costs.evidenceNeeded.0
    ensures CostOf(costs, Probabilities(0.0, 1.0, 0.0), EVIDENCE_NEEDED) == costs.evidenceNeeded.1
    ensures CostOf(costs, Probabilities(0.0, 0.0, 1.0), EVIDENCE_NEEDED) == costs.evidenceNeeded.2
    ensures CostOf(costs, Probabilities(1.0, 0.0, 0.0), ESCALATE) == costs.escalate.0
    ensures CostOf(costs, Probabilities(0.0, 1.0, 0.0), ESCALATE) == costs.escalate.1
    ensures CostOf(costs, Probabilities(0.0, 0.0, 1.0), ESCALATE) == costs.escalate.2
    ensures forall decision ::
              CostOf(costs, Probabilities(p.release + k * q.release, p.evidenceNeeded + k * q.evidenceNeeded,
                                          p.escalate + k * q.escalate), decision)
              == CostOf(costs, p, decision) + k * CostOf(costs, q, decision)
  {
  }
}
