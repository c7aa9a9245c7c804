/**
 One command as an expiry sweep followed by one elementary update, and the four
 ways in which an update moves a case record.
 */
module ImprovementSteps {
  import opened Common
  import opened ImprovementLedger
  import opened ImprovementInvariant

  predicate Ended(c: CaseRecord) {
    c.phase == RolledBack || c.phase == Frozen
  }

  /** The ledger after the expiry sweep with which a command starts. */
  function Swept(l: Ledger, cmd: Command): Ledger {
    match cmd
    case ObserveTask(o) => if l.policy.enabled && ValidObservation(o) then Expire(l, o.reviewedAt) else l
    case OpenCase(o, now) => if l.policy.enabled && ValidObservation(o) then Expire(l, now) else l
    case EvaluateCase(_, now) => if l.policy.enabled then Expire(l, now) else l
    case Rollback(_, _, now) => if l.policy.enabled then Expire(l, now) else l
    case _ => l
  }

  function TimeOf(cmd: Command): int {
    match cmd
    case SetEnabled(_) => 0
    case ObserveTask(o) => o.reviewedAt
    case OpenCase(_, now) => now
    case Propose(_, now) => now
    case Assign(_, a, _) => a.now
    case EvaluateCase(_, now) => now
    case Rollback(_, _, now) => now
  }

  /** What a command does after its sweep: nothing to the cases, or one elementary update. */
  ghost function Update(s: Ledger, cmd: Command): Ledger {
    match cmd
    case SetEnabled(enabled) => s.(policy := s.policy.(enabled := enabled))
    case ObserveTask(o) =>
      if s.policy.enabled && ValidObservation(o) && Records(s, o) then Record(s, o) else s
    case OpenCase(o, now) =>
      if s.policy.enabled && ValidObservation(o) && Opens(s, o) then Open(s, o, now) else s
    case Propose(p, now) => ProposeCandidate(s, p, now)
    case Assign(id, a, bucket) => AssignCanary(s, id, a, bucket)
    case EvaluateCase(id, now) => if s.policy.enabled then Enact(s, id, EvaluationVerdict(s, id, now), now) else s
    case Rollback(id, target, now) => if s.policy.enabled then Enact(s, id, RollbackVerdict(s, id, target), now) else s
  }

  lemma SweepThenUpdate(l: Ledger, cmd: Command)
    ensures Apply(l, cmd) == Update(Swept(l, cmd), cmd)
  {
  }

  lemma SweptCase(l: Ledger, cmd: Command, id: CaseId)
    requires id in l.cases
    ensures id in Swept(l, cmd).cases
    ensures !l.cases[id].Active() ==> Swept(l, cmd).cases[id] == l.cases[id]
  {
    if Swept(l, cmd) != l {
      assert Swept(l, cmd) == Expire(l, TimeOf(cmd));
      ExpireCase(l, TimeOf(cmd), id);
    }
  }

  lemma SweptInv(l: Ledger, cmd: Command)
    requires Inv(l)
    ensures Inv(Swept(l, cmd))
  {
    if Swept(l, cmd) != l {
      assert Swept(l, cmd) == Expire(l, TimeOf(cmd));
      ExpireInv(l, TimeOf(cmd));
    }
  }

  predicate OpensAs(s: Ledger, cmd: Command, id: CaseId, c: CaseRecord) {
    && cmd.OpenCase? && ValidObservation(cmd.input) && Opens(s, cmd.input)
    && id == CaseIdFor(cmd.input, SignatureKey(cmd.input).value)
    && c == NewCase(s, cmd.input, cmd.now)
  }

  ghost predicate GatesAs(s: Ledger, cmd: Command, id: CaseId, c: CaseRecord) {
    && cmd.Propose? && id in s.cases && s.cases[id].phase == Observing
    && (exists k, passed :: c == Gated(s.cases[id], k, passed, cmd.now))
  }

  ghost predicate PromotesAs(s: Ledger, cmd: Command, id: CaseId, c: CaseRecord) {
    && cmd.EvaluateCase? && id == cmd.caseId && id in s.cases && s.cases[id].phase == Canary
    && EvaluationVerdict(s, id, cmd.now).Promotes?
    && c == s.cases[id].(phase := Promoted)
  }

  predicate TakenBackAs(s: Ledger, cmd: Command, id: CaseId, c: CaseRecord) {
    && (cmd.EvaluateCase? || cmd.Rollback?)
    && id in s.cases && (s.cases[id].phase == Canary || s.cases[id].phase == Promoted)
    && Ended(c) && c == s.cases[id].(phase := c.phase, rollbackCount := c.rollbackCount)
  }

  ghost predicate Moves(s: Ledger, cmd: Command, id: CaseId, c: CaseRecord) {
    OpensAs(s, cmd, id, c) || GatesAs(s, cmd, id, c) || PromotesAs(s, cmd, id, c) || TakenBackAs(s, cmd, id, c)
  }

  ghost predicate Changed(a: map<CaseId, CaseRecord>, b: map<CaseId, CaseRecord>, id: CaseId) {
    id in b && (id in a ==> a[id] != b[id])
  }

  /** No record disappears, and every change of a record is one of the four moves. */
  ghost predicate CasesMove(s: Ledger, cmd: Command, after: map<CaseId, CaseRecord>) {
    && (forall id :: id in s.cases ==> id in after)
    && (forall id :: Changed(s.cases, after, id) ==> Moves(s, cmd, id, after[id]))
  }

  lemma EnactMoves(s: Ledger, cmd: Command, verdict: Verdict)
    requires cmd.EvaluateCase? || cmd.Rollback?
    requires verdict == if cmd.EvaluateCase? then EvaluationVerdict(s, cmd.caseId, cmd.now)
                        else RollbackVerdict(s, cmd.caseId, cmd.target)
    ensures CasesMove(s, cmd, Enact(s, cmd.caseId, verdict, cmd.now).cases)
  {
  }

  lemma ProposeMoves(s: Ledger, cmd: Command)
    requires cmd.Propose?
    ensures CasesMove(s, cmd, ProposeCandidate(s, cmd.proposal, cmd.now).cases)
  {
    var p := cmd.proposal;
    if Proposes(s, p, cmd.now) && CandidateIdFor(p) !in s.candidates {
      var v := ValidateProposal(p, s.policy).value;
      assert GatesAs(s, cmd, p.caseId, Gated(s.cases[p.caseId], CandidateIdFor(p), v.fixtureGatePassed, cmd.now));
    }
  }

  lemma OpenMoves(s: Ledger, cmd: Command)
    requires cmd.OpenCase? && ValidObservation(cmd.input) && Opens(s, cmd.input)
    ensures CasesMove(s, cmd, Open(s, cmd.input, cmd.now).cases)
  {
  }

  lemma UpdateMoves(s: Ledger, cmd: Command)
    ensures CasesMove(s, cmd, Update(s, cmd).cases)
  {
    match cmd
    case EvaluateCase(target, now) => EnactMoves(s, cmd, EvaluationVerdict(s, target, now));
    case Rollback(target, version, now) => EnactMoves(s, cmd, RollbackVerdict(s, target, version));
    case Propose(p, now) => ProposeMoves(s, cmd);
    case OpenCase(o, now) =>
      if s.policy.enabled && ValidObservation(o) && Opens(s, o) { OpenMoves(s, cmd); }
    case _ =>
  }

  /** A case of the component becomes Observing. */
  ghost predicate NewlyOpen(a: map<CaseId, CaseRecord>, b: map<CaseId, CaseRecord>, component: string) {
    exists id :: id in b && b[id].component == component && b[id].phase == Observing
                 && (id in a ==> a[id].phase != Observing)
  }

  ghost predicate OpensCase(l: Ledger, cmd: Command, component: string) {
    NewlyOpen(Swept(l, cmd).cases, Apply(l, cmd).cases, component)
  }

  /** The only move that leaves a case Observing is its opening. */
  lemma ObservingMoveOpens(s: Ledger, cmd: Command, id: CaseId, c: CaseRecord)
    requires Moves(s, cmd, id, c) && c.phase == Observing
    ensures OpensAs(s, cmd, id, c)
  {
  }

  /** Only an eligible trigger of the component opens a case for it. */
  lemma OpeningNeedsEligibility(s: Ledger, cmd: Command, after: map<CaseId, CaseRecord>, component: string)
    requires CasesMove(s, cmd, after) && NewlyOpen(s.cases, after, component)
    ensures cmd.OpenCase? && cmd.input.component == component && ValidObservation(cmd.input) && Opens(s, cmd.input)
  {
    var id :| id in after && after[id].component == component && after[id].phase == Observing
              && (id in s.cases ==> s.cases[id].phase != Observing);
    assert Changed(s.cases, after, id);
    ObservingMoveOpens(s, cmd, id, after[id]);
  }

  // The tables beside the cases are written by one command each, and only by adding an entry.

  ghost predicate SameTables(s: Ledger, r: Ledger) {
    r.nextVersion == s.nextVersion && r.observations == s.observations && r.candidates == s.candidates
    && r.assignments == s.assignments
  }

  ghost predicate AddsObservation(s: Ledger, cmd: Command, r: Ledger) {
    && cmd.ObserveTask? && ValidObservation(cmd.observation) && Records(s, cmd.observation)
    && r.nextVersion == Max(s.nextVersion, cmd.observation.cohort.configVersion)
    && r.observations == s.observations[cmd.observation.taskId := cmd.observation]
    && r.candidates == s.candidates && r.assignments == s.assignments
  }

  ghost predicate AddsCandidate(s: Ledger, cmd: Command, r: Ledger) {
    && cmd.Propose? && Proposes(s, cmd.proposal, cmd.now) && CandidateIdFor(cmd.proposal) !in s.candidates
    && var candidate := NewCandidate(s, s.cases[cmd.proposal.caseId], cmd.proposal,
                                      ValidateProposal(cmd.proposal, s.policy).value);
    && r.nextVersion == candidate.version
    && r.candidates == s.candidates[CandidateIdFor(cmd.proposal) := candidate]
    && r.observations == s.observations && r.assignments == s.assignments
    && cmd.proposal.caseId in r.cases && r.cases[cmd.proposal.caseId].phase != Observing
  }

  ghost predicate AddsAssignment(s: Ledger, cmd: Command, r: Ledger) {
    && cmd.Assign? && Assigns(s, cmd.caseId, cmd.admission)
    && r.assignments == s.assignments[cmd.admission.taskId := NewAssignment(s, cmd.caseId, cmd.admission, cmd.bucket)]
    && r.nextVersion == s.nextVersion && r.observations == s.observations && r.candidates == s.candidates
  }

  ghost predicate TablesStep(s: Ledger, cmd: Command, r: Ledger) {
    SameTables(s, r) || AddsObservation(s, cmd, r) || AddsCandidate(s, cmd, r) || AddsAssignment(s, cmd, r)
  }

  lemma EnactTables(s: Ledger, id: CaseId, verdict: Verdict, now: int)
    requires !verdict.Hold? ==> id in s.cases
    ensures SameTables(s, Enact(s, id, verdict, now))
  {
  }

  lemma OpenTables(s: Ledger, o: Observation, now: int)
    requires SignatureKey(o).Some?
    ensures SameTables(s, Open(s, o, now))
  {
  }

  lemma AdmitTables(s: Ledger, cmd: Command)
    requires cmd.Propose? && Proposes(s, cmd.proposal, cmd.now) && CandidateIdFor(cmd.proposal) !in s.candidates
    ensures AddsCandidate(s, cmd, Admit(s, cmd.proposal, ValidateProposal(cmd.proposal, s.policy).value, cmd.now))
  {
  }

  lemma UpdateTables(s: Ledger, cmd: Command)
    ensures TablesStep(s, cmd, Update(s, cmd))
  {
    match cmd
    case Propose(p, now) =>
      if Proposes(s, p, now) && CandidateIdFor(p) !in s.candidates { AdmitTables(s, cmd); }
    case ObserveTask(o) =>
      if s.policy.enabled && ValidObservation(o) && Records(s, o) { assert AddsObservation(s, cmd, Record(s, o)); }
    case Assign(id, a, bucket) =>
      if Assigns(s, id, a) { assert AddsAssignment(s, cmd, AssignCanary(s, id, a, bucket)); }
    case OpenCase(o, now) =>
      if s.policy.enabled && ValidObservation(o) && Opens(s, o) { OpenTables(s, o, now); }
    case EvaluateCase(id, now) => EnactTables(s, id, EvaluationVerdict(s, id, now), now);
    case Rollback(id, target, now) => EnactTables(s, id, RollbackVerdict(s, id, target), now);
    case SetEnabled(_) =>
  }

  lemma SweptTables(l: Ledger, cmd: Command)
    ensures SameTables(l, Swept(l, cmd))
  {
    if Swept(l, cmd) != l {
      assert Swept(l, cmd) == Expire(l, TimeOf(cmd));
    }
  }
}
