/** The single evidence round, in both repositories: what opens it, what closes it, and that nothing else does. */
module EvidenceRound {
  import opened HoldDomain
  import opened MemoryRepository
  import opened HoldRuns
  import opened Wrappers
  import Simulation
  import Sql = SqlRepository

  // ---------------------------------------------------------------- one decision, then one submission

  /** From any consistent state: a decision that asks for evidence is accepted exactly before the round, and
      then the next submission with an unused request is accepted and closes the round. A decision that asks
      for none is always accepted, leaves the hold open for review, and evidence is then refused. */
  lemma DecisionThenEvidence(m: Memory, d: DecisionResponse, now: int, s: EvidenceInput, newId: Uuid, later: int)
    requires Inv(m) && d.holdId in m.cases && s.requestId !in m.evidenceRequestIndex
    ensures var id := d.holdId;
            var (n, saved) := SaveDecisionStep(m, d, now);
            var (after, reply) := SubmitEvidenceStep(n, id, s, newId, later);
            && (saved.Saved? <==> (d.decision == EVIDENCE_NEEDED ==> m.cases[id].evidenceRound == 0))
            && (saved.Saved? ==> id in n.decisions && n.decisions[id] == d)
            && (!saved.Saved? ==> n == m && saved == Rejected(InvalidTransition(SecondEvidenceRound)))
            && (d.decision == EVIDENCE_NEEDED && saved.Saved? ==>
                  && n.cases[id].state == AWAITING_EVIDENCE
                  && reply.Evidence? && reply.isNew && reply.evidence.submission == s && reply.evidence.holdId == id
                  && id in after.evidence && after.evidence[id] == reply.evidence
                  && after.cases[id].state == EVIDENCE_SUBMITTED && after.cases[id].evidenceRound == 1)
            && (d.decision != EVIDENCE_NEEDED ==>
                  && n.cases[id].state == HUMAN_REVIEW
                  && reply == Rejected(InvalidTransition(EvidenceNotAccepted)) && after == n)
  {
    hide Inv, MakeEvidence;
    OneRound(m, d.holdId);
    MakeEvidenceKeeps(newId, m.cases[d.holdId].(state := AWAITING_EVIDENCE, updatedAt := now), s, later);
  }

  lemma OneRound(m: Memory, id: Uuid)
    requires Inv(m) && id in m.cases
    ensures m.cases[id].evidenceRound <= 1 && m.cases[id].holdId == id
  {
    assert LifecycleAt(m, id);
  }

  lemma MakeEvidenceKeeps(newId: Uuid, hold: HoldCase, s: EvidenceInput, now: int)
    ensures MakeEvidence(newId, hold, s, now).submission == s && MakeEvidence(newId, hold, s, now).holdId == hold.holdId
  {
  }

  /** The same over rows, from any state that agrees with a consistent one. */
  lemma DecisionThenEvidenceInRows(env: Sql.Env, m: Memory, t: Sql.Tables, d: DecisionResponse,
                                   audit: Option<AuditNote>, now: int, s: EvidenceInput, newId: Uuid, later: int)
    requires Inv(m) && Simulation.Related(m, t) && d.holdId in m.cases
    requires Sql.First(t.evidence, Sql.EvidenceRequest(s.requestId)).None?
    requires Sql.First(t.evidence, Sql.EvidenceId(newId)).None?
    ensures Sql.CaseOf(t, d.holdId) == Some(m.cases[d.holdId])
    ensures var id := d.holdId;
            var (n, saved) := Sql.SaveDecisionStep(env, t, d, audit, now);
            var (after, reply) := Sql.SubmitEvidenceStep(n, id, s, newId, later);
            && (saved.Saved? || saved.Persisted? <==>
                  (d.decision == EVIDENCE_NEEDED ==> m.cases[id].evidenceRound == 0))
            && (saved.Rejected? ==> n == t && saved == Rejected(InvalidTransition(SecondEvidenceRound)))
            && Sql.CaseOf(n, id).Some?
            && (d.decision == EVIDENCE_NEEDED && !saved.Rejected? ==>
                  && Sql.CaseOf(n, id).value.state == AWAITING_EVIDENCE
                  && reply.Evidence? && reply.isNew && reply.evidence.submission == s && reply.evidence.holdId == id
                  && after.evidence == t.evidence + [reply.evidence]
                  && Sql.CaseOf(after, id).Some? && Sql.CaseOf(after, id).value.state == EVIDENCE_SUBMITTED
                  && Sql.CaseOf(after, id).value.evidenceRound == 1)
            && (d.decision != EVIDENCE_NEEDED ==>
                  && Sql.CaseOf(n, id).value.state == HUMAN_REVIEW
                  && reply == Rejected(InvalidTransition(EvidenceNotAccepted)) && after == n)
  {
    hide Inv, Simulation.Related, Sql.First, Sql.Update, Sql.DecisionRecord, MakeEvidence;
    var id := d.holdId;
    RoundStored(m, t, id);
    var hold := m.cases[id].(state := if d.decision == EVIDENCE_NEEDED then AWAITING_EVIDENCE else HUMAN_REVIEW,
                             updatedAt := now);
    Simulation.FirstUpdated(t.cases, hold, id);
    Simulation.FirstUpdated(Sql.Update(t.cases, hold),
                            hold.(evidenceRound := 1, state := EVIDENCE_SUBMITTED, updatedAt := later), id);
    MakeEvidenceKeeps(newId, hold, s, later);
  }

  lemma RoundStored(m: Memory, t: Sql.Tables, id: Uuid)
    requires Inv(m) && Simulation.Related(m, t) && id in m.cases
    ensures Sql.First(t.cases, Sql.ForHold(id)) == Some(m.cases[id]) && m.cases[id].holdId == id
    ensures m.cases[id].evidenceRound <= 1
    ensures Sql.First(t.evidence, Sql.EvidenceFor(id)).Some? <==> m.cases[id].evidenceRound == 1
  {
    Simulation.CaseFound(m, t, id);
    assert LifecycleAt(m, id);
    hide Sql.First, CasesOk, DecisionsOk, EvidenceOk, ReviewsOk, ListOf, Last, Simulation.CasesAgree,
        Simulation.DecisionsAgree, Simulation.ReviewsAgree;
  }

  // ---------------------------------------------------------------- over whole runs

  /** The review sends the hold back for evidence. */
  predicate AsksForEvidence(s: Review) {
    || s.action == Some(REQUEST_EVIDENCE)
    || (s.action == Some(OVERRIDE_AI) && s.authorizedDecision == Some(EVIDENCE_NEEDED))
  }

  /** Whether the last accepted decision or review of the hold asked for evidence, after one more call. */
  function AskedAfter(c: Call, reply: Reply, id: Uuid, asked: bool): bool {
    match c
    case SaveDecision(d, _, _) =>
      if d.holdId == id && (reply.Saved? || reply.Persisted?) then d.decision == EVIDENCE_NEEDED else asked
    case RecordReview(hold, s, _, _, _, _) =>
      if hold == id && reply.Reviewed? && reply.isNew then AsksForEvidence(s) else asked
    case _ => asked
  }

  function Asked(cs: seq<Command>, id: Uuid): bool {
    if cs == [] then false
    else
      var before, last := cs[..|cs| - 1], cs[|cs| - 1];
      match last
      case Do(call) => AskedAfter(call, CallStep(Run(EMPTY, before), call).1, id, Asked(before, id))
      case Stamp(_, _) => Asked(before, id)
  }

  /** The hold awaits evidence exactly when it was last asked for and is not there. */
  ghost predicate AwaitsExactly(m: Memory, id: Uuid, asked: bool) {
    if id in m.cases then m.cases[id].state == AWAITING_EVIDENCE <==> asked && id !in m.evidence
    else !asked
  }

  lemma ReviewAsks(s: Review)
    ensures StateAfterReview(s) == AWAITING_EVIDENCE <==> AsksForEvidence(s)
  {
  }

  lemma NoCaseNoEvidence(m: Memory, id: Uuid)
    requires Inv(m)
    ensures id in m.evidence ==> id in m.cases && m.cases[id].evidenceRound == 1
    ensures id in m.cases && m.cases[id].evidenceRound == 1 ==> id in m.evidence
    ensures id in m.cases && m.cases[id].state == AWAITING_EVIDENCE ==> m.cases[id].evidenceRound == 0
    ensures id in m.cases ==> m.cases[id].evidenceRound <= 1
  {
    assert LifecycleAt(m, id);
    hide CasesOk, DecisionsOk, ReviewsOk, ListOf, Last;
  }

  lemma SaveAwaits(m: Memory, d: DecisionResponse, now: int, id: Uuid, asked: bool, c: Call)
    requires Inv(m) && AwaitsExactly(m, id, asked) && c.SaveDecision? && c.decision == d
    ensures AwaitsExactly(SaveDecisionStep(m, d, now).0, id,
                          AskedAfter(c, SaveDecisionStep(m, d, now).1, id, asked))
  {
    hide Inv, SaveDecisionStep;
    NoCaseNoEvidence(m, id);
    SaveEffect(m, d, now, id);
  }

  lemma SaveEffect(m: Memory, d: DecisionResponse, now: int, id: Uuid)
    ensures var (n, reply) := SaveDecisionStep(m, d, now);
            && n.evidence == m.evidence && (id in n.cases <==> id in m.cases) && !reply.Persisted?
            && (d.holdId != id || !reply.Saved? ==> id in m.cases ==> n.cases[id] == m.cases[id])
            && (d.holdId == id && reply.Saved? ==>
                  && id in m.cases && (d.decision == EVIDENCE_NEEDED ==> m.cases[id].evidenceRound != 1)
                  && (n.cases[id].state == AWAITING_EVIDENCE <==> d.decision == EVIDENCE_NEEDED))
  {
  }

  lemma SubmitAwaits(m: Memory, hold: Uuid, s: EvidenceInput, newId: Uuid, now: int, id: Uuid, asked: bool)
    requires Inv(m) && AwaitsExactly(m, id, asked)
    ensures AwaitsExactly(SubmitEvidenceStep(m, hold, s, newId, now).0, id, asked)
  {
    hide Inv, MakeEvidence;
    NoCaseNoEvidence(m, id);
  }

  lemma ReviewAwaits(m: Memory, hold: Uuid, s: Review, analystId: string, newId: Uuid, now: int, id: Uuid, asked: bool,
                     c: Call)
    requires Inv(m) && AwaitsExactly(m, id, asked) && c.RecordReview? && c.holdId == hold && c.review == s
    ensures AwaitsExactly(RecordReviewStep(m, hold, s, analystId, newId, now).0, id,
                          AskedAfter(c, RecordReviewStep(m, hold, s, analystId, newId, now).1, id, asked))
  {
    hide Inv, StateAfterReview, TrainingLabel, ListOf;
    NoCaseNoEvidence(m, id);
    ReviewAsks(s);
    if hold in m.decisions && hold in m.cases {
      AcceptedAsks(s, m.decisions[hold].decision, m.cases[hold].evidenceRound);
    }
    hide ReviewRefusal, AsksForEvidence;
  }

  lemma AcceptedAsks(s: Review, ai: Decision, evidenceRound: nat)
    ensures ReviewRefusal(s, ai, evidenceRound).None? && AsksForEvidence(s) ==> evidenceRound != 1
  {
  }

  lemma CallAwaits(m: Memory, c: Call, id: Uuid, asked: bool)
    requires Inv(m) && FreshId(m, c) && AwaitsExactly(m, id, asked)
    ensures AwaitsExactly(CallStep(m, c).0, id, AskedAfter(c, CallStep(m, c).1, id, asked))
  {
    hide Inv, AwaitsExactly, SaveDecisionStep, SubmitEvidenceStep, RecordReviewStep, AskedAfter;
    match c
    case Create(request, newId, now) => CreateAwaits(m, request, newId, now, id, asked, c);
    case SaveDecision(d, _, now) => SaveAwaits(m, d, now, id, asked, c);
    case SubmitEvidence(hold, s, newId, now) =>
      SubmitAwaits(m, hold, s, newId, now, id, asked);
      SubmitKeepsAsked(c, CallStep(m, c).1, id, asked);
    case RecordReview(hold, s, analystId, newId, _, now) =>
      ReviewAwaits(m, hold, s, analystId, newId, now, id, asked, c);
  }

  lemma SubmitKeepsAsked(c: Call, reply: Reply, id: Uuid, asked: bool)
    requires c.SubmitEvidence?
    ensures AskedAfter(c, reply, id, asked) == asked
  {
  }

  lemma CreateAwaits(m: Memory, request: HoldCreate, newId: Uuid, now: int, id: Uuid, asked: bool, c: Call)
    requires Inv(m) && newId !in m.cases && AwaitsExactly(m, id, asked) && c.Create?
    ensures AwaitsExactly(CreateStep(m, request, newId, now).0, id,
                          AskedAfter(c, CreateStep(m, request, newId, now).1, id, asked))
  {
    hide Inv;
    NoCaseNoEvidence(m, id);
  }

  lemma StampAwaits(m: Memory, hold: Uuid, hash: string, id: Uuid, asked: bool)
    requires AwaitsExactly(m, id, asked)
    ensures AwaitsExactly(StampReviewStep(m, hold, hash).0, id, asked)
  {
  }

  lemma {:induction false} RunAwaits(cs: seq<Command>, id: Uuid)
    requires Legal(EMPTY, cs)
    ensures AwaitsExactly(Run(EMPTY, cs), id, Asked(cs, id))
  {
    hide Inv, CallStep, AskedAfter, StampReviewStep;
    if cs != [] {
      var before, last := cs[..|cs| - 1], cs[|cs| - 1];
      RunAwaits(before, id);
      EmptyInv();
      RunKeepsInv(EMPTY, before);
      match last
      case Do(call) => CallAwaits(Run(EMPTY, before), call, id, Asked(before, id));
      case Stamp(hold, hash) => StampAwaits(Run(EMPTY, before), hold, hash, id, Asked(before, id));
    }
  }

  /** After any run a submission with an unused request is accepted exactly when the hold's last accepted
      decision or review asked for evidence and none is stored. */
  lemma EvidenceAcceptedExactly(cs: seq<Command>, id: Uuid, s: EvidenceInput, newId: Uuid, now: int)
    requires Legal(EMPTY, cs) && s.requestId !in Run(EMPTY, cs).evidenceRequestIndex
    ensures var m := Run(EMPTY, cs);
            SubmitEvidenceStep(m, id, s, newId, now).1.Evidence? <==> Asked(cs, id) && id !in m.evidence
  {
    hide Inv, Run, Asked, MakeEvidence;
    var m := Run(EMPTY, cs);
    RunAwaits(cs, id);
    EmptyInv();
    RunKeepsInv(EMPTY, cs);
    NoCaseNoEvidence(m, id);
  }

  /** What was last asked, told by the replies of the row-based repository. */
  function AskedOfRows(env: Sql.Env, cs: seq<Call>, id: Uuid): bool {
    if cs == [] then false
    else
      var before, last := cs[..|cs| - 1], cs[|cs| - 1];
      AskedAfter(last, Sql.CallStep(env, Sql.Run(env, Sql.EMPTY, before), last).1, id, AskedOfRows(env, before, id))
  }

  lemma SameAsked(c: Call, a: Reply, b: Reply, id: Uuid, asked: bool)
    requires Simulation.SameReply(c, a, b)
    ensures AskedAfter(c, a, id, asked) == AskedAfter(c, b, id, asked)
  {
  }

  lemma {:induction false} RowsAwait(env: Sql.Env, cs: seq<Call>, id: Uuid)
    requires Simulation.AdmissibleRun(env, cs)
    ensures AwaitsExactly(Simulation.MemoryRun(EMPTY, cs), id, AskedOfRows(env, cs, id))
  {
    hide Inv, CallStep, Sql.CallStep, AskedAfter, Simulation.Related, Simulation.Admissible, Simulation.SameReply;
    if cs != [] {
      var before, last := cs[..|cs| - 1], cs[|cs| - 1];
      var m, t := Simulation.MemoryRun(EMPTY, before), Sql.Run(env, Sql.EMPTY, before);
      RowsAwait(env, before, id);
      Simulation.RunsSimulate(env, before);
      Simulation.StepSimulates(env, m, t, last);
      CallAwaits(m, last, id, AskedOfRows(env, before, id));
      SameAsked(last, CallStep(m, last).1, Sql.CallStep(env, t, last).1, id, AskedOfRows(env, before, id));
    }
  }

  /** The same over rows. */
  lemma EvidenceAcceptedInRowsExactly(env: Sql.Env, cs: seq<Call>, id: Uuid, s: EvidenceInput, newId: Uuid, now: int)
    requires Simulation.AdmissibleRun(env, cs)
    requires Sql.First(Sql.Run(env, Sql.EMPTY, cs).evidence, Sql.EvidenceRequest(s.requestId)).None?
    requires Sql.First(Sql.Run(env, Sql.EMPTY, cs).evidence, Sql.EvidenceId(newId)).None?
    ensures var t := Sql.Run(env, Sql.EMPTY, cs);
            Sql.SubmitEvidenceStep(t, id, s, newId, now).1.Evidence? <==>
            AskedOfRows(env, cs, id) && Sql.First(t.evidence, Sql.EvidenceFor(id)).None?
  {
    hide Inv, Sql.Run, Sql.First, Sql.Update, Simulation.MemoryRun, AskedOfRows, MakeEvidence, Simulation.Related,
        Simulation.AdmissibleRun;
    var m, t := Simulation.MemoryRun(EMPTY, cs), Sql.Run(env, Sql.EMPTY, cs);
    RowsAwait(env, cs, id);
    Simulation.RunsSimulate(env, cs);
    Simulation.CaseFound(m, t, id);
    NoCaseNoEvidence(m, id);
    if id in m.cases {
      RoundStored(m, t, id);
    }
  }

  // ---------------------------------------------------------------- a run that asks and is answered

  function Submitting(): Call {
    SubmitEvidence("hold", EvidenceSubmission("proof", OTHER, 3, 2, "content"), "evidence", 4)
  }

  /** A hold opened, told to bring evidence, and bringing it, in both repositories. */
  lemma EvidenceAskedAndGiven(env: Sql.Env)
    ensures var run := [Opening(), Deciding(EVIDENCE_NEEDED, 1), Do(Submitting())];
            && Legal(EMPTY, run) && "hold" in Run(EMPTY, run).cases
            && Run(EMPTY, run).cases["hold"].state == EVIDENCE_SUBMITTED
            && Run(EMPTY, run).cases["hold"].evidenceRound == 1
    ensures var run := [Simulation.Opening(), Simulation.Deciding(EVIDENCE_NEEDED, 1), Submitting()];
            var hold := Sql.CaseOf(Sql.Run(env, Sql.EMPTY, run), "hold");
            hold.Some? && hold.value.state == EVIDENCE_SUBMITTED && hold.value.evidenceRound == 1
  {
    hide Run, Legal, Sql.Run, Sql.CaseOf, Sql.CallStep, Simulation.MemoryRun, CallStep, Submitting;
    GivenInMemory();
    Simulation.RunThree(env, Simulation.Opening(), Simulation.Deciding(EVIDENCE_NEEDED, 1), Submitting());
    GivenInRows(env);
  }

  lemma GivenInMemory()
    ensures var run := [Opening(), Deciding(EVIDENCE_NEEDED, 1), Do(Submitting())];
            && Legal(EMPTY, run) && "hold" in Run(EMPTY, run).cases
            && Run(EMPTY, run).cases["hold"].state == EVIDENCE_SUBMITTED
            && Run(EMPTY, run).cases["hold"].evidenceRound == 1
  {
    hide Run, Legal, MakeEvidence;
    var opening, deciding, submitting := Opening(), Deciding(EVIDENCE_NEEDED, 1), Do(Submitting());
    RunEmpty(EMPTY);
    RunAppend(EMPTY, [], opening);
    assert [] + [opening] == [opening];
    RunAppend(EMPTY, [opening], deciding);
    assert [opening] + [deciding] == [opening, deciding];
    RunAppend(EMPTY, [opening, deciding], submitting);
    assert [opening, deciding] + [submitting] == [opening, deciding, submitting];
  }

  lemma GivenInRows(env: Sql.Env)
    ensures var begun := Sql.CallStep(env, Sql.EMPTY, Simulation.Opening()).0;
            var decided := Sql.CallStep(env, begun, Simulation.Deciding(EVIDENCE_NEEDED, 1)).0;
            var hold := Sql.CaseOf(Sql.CallStep(env, decided, Submitting()).0, "hold");
            hold.Some? && hold.value.state == EVIDENCE_SUBMITTED && hold.value.evidenceRound == 1
  {
    hide Sql.First, Sql.Update, MakeEvidence;
    var hold := HoldCase("hold", Simulation.Opening().request, OPEN, 0, 0, 0);
    Sql.FirstOfNone(Sql.ForRequest("request"));
    Sql.FirstOfNone(Sql.ForHold("hold"));
    Sql.FirstOfNone(Sql.EvidenceRequest("proof"));
    Sql.FirstOfNone(Sql.EvidenceFor("hold"));
    Sql.FirstOfNone(Sql.EvidenceId("evidence"));
    assert [] + [hold] == [hold];
    Sql.FirstAppend([], hold, Sql.ForHold("hold"));
    var asked := hold.(state := AWAITING_EVIDENCE, updatedAt := 1);
    Simulation.FirstUpdated([hold], asked, "hold");
    assert Sql.Update([hold], asked) == [asked];
    Simulation.FirstUpdated([asked], asked.(evidenceRound := 1, state := EVIDENCE_SUBMITTED, updatedAt := 4), "hold");
  }
}
