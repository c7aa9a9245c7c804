/**
 What every command keeps: the ledger invariant, proved one elementary update at
 a time (expiry, recording, opening, proposing, assigning, promoting, rolling back).
 */
module ImprovementInvariant {
  import opened Common
  import opened ImprovementLedger

  predicate CaseKeyed(id: CaseId, c: CaseRecord) {
    && c.caseId == id
    && c.component == id.component
    && c.cohort == id.cohort
    && c.signature == id.signature
    && c.parentVersion == id.cohort.configVersion
  }

  predicate CandidateKeyed(k: CandidateId, c: Candidate) {
    && c.candidateId == k
    && c.caseId == k.caseId
    && c.component == k.caseId.component
    && c.knob == k.knob && c.value == k.value
    && c.parentVersion == c.rollbackVersion == k.caseId.cohort.configVersion
    && c.digest == OfCandidate(c.parentVersion, c.component, c.knob, c.value)
  }

  /** Every record is stored under the key its own fields determine. */
  ghost predicate KeyedCases(cases: map<CaseId, CaseRecord>) {
    forall id :: id in cases ==> CaseKeyed(id, cases[id])
  }

  ghost predicate KeyedCandidates(candidates: map<CandidateId, Candidate>) {
    forall k :: k in candidates ==> CandidateKeyed(k, candidates[k])
  }

  ghost predicate KeyedTasks(observations: map<string, Observation>, assignments: map<string, Assignment>) {
    && (forall t :: t in observations ==> observations[t].taskId == t)
    && (forall t :: t in assignments ==> assignments[t].taskId == t && !assignments[t].replayed)
  }

  predicate CaseLinked(candidates: set<CandidateId>, id: CaseId, c: CaseRecord) {
    && (c.candidateId.Some? ==> c.candidateId.value in candidates && c.candidateId.value.caseId == id)
    && (c.phase == Canary || c.phase == Promoted ==> c.candidateId.Some? && c.canaryStartedAt.Some?)
  }

  /** A case refers to a stored candidate of its own, and a canary or promoted case has one. */
  ghost predicate LinkedCases(cases: map<CaseId, CaseRecord>, candidates: set<CandidateId>) {
    forall id :: id in cases ==> CaseLinked(candidates, id, cases[id])
  }

  /** Candidates and assignments refer to stored cases. */
  ghost predicate LinkedBack(cases: set<CaseId>, candidates: set<CandidateId>, assignments: map<string, Assignment>) {
    && (forall k :: k in candidates ==> k.caseId in cases)
    && (forall t :: t in assignments ==> assignments[t].caseId in cases)
  }

  /** Two active cases of one component. */
  predicate SameSlot(c: CaseRecord, d: CaseRecord) {
    c.Active() && d.Active() && c.component == d.component
  }

  /** At most one Observing or Canary case per component. */
  ghost predicate OneActive(cases: map<CaseId, CaseRecord>) {
    forall id, id' | id in cases && id' in cases :: SameSlot(cases[id], cases[id']) ==> id == id'
  }

  /** The version counter bounds every configuration version seen. */
  ghost predicate VersionsBounded(next: int, observations: map<string, Observation>, cases: map<CaseId, CaseRecord>) {
    && 1 <= next <= I64_MAX
    && (forall t :: t in observations ==> observations[t].cohort.configVersion <= next)
    && (forall id :: id in cases ==> cases[id].parentVersion <= next)
  }

  /** Below the end of the version space, candidates sit above their parent and apart from each other. */
  ghost predicate CandidatesApart(next: int, candidates: map<CandidateId, Candidate>) {
    && (forall k :: k in candidates ==> candidates[k].version <= next)
    && (forall k :: k in candidates ==>
          candidates[k].version == I64_MAX || candidates[k].parentVersion < candidates[k].version)
    && (forall k, k' | k in candidates && k' in candidates && k != k' ::
          candidates[k].version == I64_MAX || candidates[k].version != candidates[k'].version)
  }

  /** A component with an ended case has a cooldown on record. */
  ghost predicate Cooled(cases: map<CaseId, CaseRecord>, cooling: set<string>) {
    forall id :: id in cases && !cases[id].Active() ==> cases[id].component in cooling
  }

  ghost predicate Inv(l: Ledger) {
    && KeyedCases(l.cases)
    && KeyedCandidates(l.candidates)
    && KeyedTasks(l.observations, l.assignments)
    && LinkedCases(l.cases, l.candidates.Keys)
    && LinkedBack(l.cases.Keys, l.candidates.Keys, l.assignments)
    && OneActive(l.cases)
    && VersionsBounded(l.nextVersion, l.observations, l.cases)
    && CandidatesApart(l.nextVersion, l.candidates)
    && Cooled(l.cases, l.cooldownUntil.Keys)
  }

  lemma InitInv(policy: Policy)
    ensures Inv(Init(policy))
  {
  }

  lemma RollBackAllAt(cases: map<CaseId, CaseRecord>, ids: set<CaseId>, id: CaseId)
    requires id in cases
    ensures RollBackAll(cases, ids).Keys == cases.Keys
    ensures RollBackAll(cases, ids)[id] == if id in ids then cases[id].(phase := RolledBack) else cases[id]
  {
  }

  lemma RestartAllAt(cooldownUntil: map<string, int>, components: set<string>, now: int, component: string)
    ensures var after := RestartAll(cooldownUntil, components, now);
            && (component in cooldownUntil ==> component in after)
            && (component in components ==> component in after && after[component] == SatAdd(now, COOLDOWN))
  {
  }

  lemma ExpireCase(l: Ledger, now: int, id: CaseId)
    requires id in l.cases
    ensures Expire(l, now).cases.Keys == l.cases.Keys
    ensures Expire(l, now).cases[id] ==
            if Expired(l.cases[id], now) then l.cases[id].(phase := RolledBack) else l.cases[id]
    ensures Expired(l.cases[id], now) ==>
              && l.cases[id].component in Expire(l, now).cooldownUntil
              && Expire(l, now).cooldownUntil[l.cases[id].component] == SatAdd(now, COOLDOWN)
    ensures l.cases[id].component in l.cooldownUntil ==> l.cases[id].component in Expire(l, now).cooldownUntil
  {
    var expired := ExpiredCases(l, now);
    assert id in expired <==> Expired(l.cases[id], now);
    RollBackAllAt(l.cases, expired, id);
    RestartAllAt(l.cooldownUntil, ComponentsOf(l.cases, expired), now, l.cases[id].component);
  }

  lemma ExpireOneActive(l: Ledger, now: int)
    requires OneActive(l.cases)
    ensures OneActive(Expire(l, now).cases)
  {
    var e := Expire(l, now);
    forall id, id' | id in e.cases && id' in e.cases && SameSlot(e.cases[id], e.cases[id']) ensures id == id' {
      ExpireCase(l, now, id);
      ExpireCase(l, now, id');
      assert SameSlot(l.cases[id], l.cases[id']);
    }
  }

  lemma ExpireInv(l: Ledger, now: int)
    requires Inv(l)
    ensures Inv(Expire(l, now))
  {
    var e := Expire(l, now);
    assert e.cases.Keys == l.cases.Keys;
    forall id | id in e.cases
      ensures CaseKeyed(id, e.cases[id]) && CaseLinked(e.candidates.Keys, id, e.cases[id])
      ensures e.cases[id].parentVersion <= e.nextVersion
      ensures !e.cases[id].Active() ==> e.cases[id].component in e.cooldownUntil
    {
      ExpireCase(l, now, id);
    }
    ExpireOneActive(l, now);
  }

  /** `r` differs from `l` in one case record and in fields the invariant does not constrain. */
  ghost predicate PutsCase(l: Ledger, r: Ledger, id: CaseId, c: CaseRecord) {
    && r.cases == l.cases[id := c]
    && r.candidates == l.candidates
    && r.observations == l.observations
    && r.assignments == l.assignments
    && r.nextVersion == l.nextVersion
    && l.cooldownUntil.Keys <= r.cooldownUntil.Keys
  }

  ghost predicate CaseFits(l: Ledger, r: Ledger, id: CaseId, c: CaseRecord) {
    && CaseKeyed(id, c)
    && CaseLinked(l.candidates.Keys, id, c)
    && c.parentVersion <= l.nextVersion
    && (forall id' | id' in l.cases && id' != id :: !SameSlot(l.cases[id'], c))
    && (!c.Active() ==> c.component in r.cooldownUntil)
  }

  lemma PutOneActive(l: Ledger, r: Ledger, id: CaseId, c: CaseRecord)
    requires OneActive(l.cases) && PutsCase(l, r, id, c) && CaseFits(l, r, id, c)
    ensures OneActive(r.cases)
  {
    forall i, j | i in r.cases && j in r.cases && SameSlot(r.cases[i], r.cases[j]) ensures i == j {
      if i != id && j != id {
        assert SameSlot(l.cases[i], l.cases[j]);
      }
    }
  }

  lemma PutCase(l: Ledger, r: Ledger, id: CaseId, c: CaseRecord)
    requires Inv(l) && PutsCase(l, r, id, c) && CaseFits(l, r, id, c)
    ensures Inv(r)
  {
    PutOneActive(l, r, id, c);
    assert forall k :: k in l.cases ==> k in r.cases;
  }

  lemma RecordInv(l: Ledger, o: Observation)
    requires Inv(l) && 0 <= o.cohort.configVersion <= I64_MAX
    ensures Inv(Record(l, o))
  {
  }

  lemma ObserveInv(l: Ledger, o: Observation)
    requires Inv(l)
    ensures Inv(Observe(l, o))
  {
    if l.policy.enabled && ValidObservation(o) {
      var e := Expire(l, o.reviewedAt);
      ExpireInv(l, o.reviewedAt);
      if Records(e, o) {
        RecordInv(e, o);
        assert Observe(l, o) == Record(e, o);
      } else {
        assert Observe(l, o) == e;
      }
    }
  }

  /** Failures were seen under the trigger's version, so the counter has reached it. */
  lemma FailuresBoundVersion(l: Ledger, o: Observation)
    requires VersionsBounded(l.nextVersion, l.observations, l.cases) && SignatureKey(o).Some?
    requires MatchingFailures(l, o.component, o.cohort, SignatureKey(o).value) != {}
    ensures o.cohort.configVersion <= l.nextVersion
  {
    var t :| t in MatchingFailures(l, o.component, o.cohort, SignatureKey(o).value);
  }

  lemma NoneActive(cases: map<CaseId, CaseRecord>, c: CaseRecord)
    requires ActiveCases(cases, c.component) == {}
    ensures forall id' | id' in cases :: !SameSlot(cases[id'], c)
  {
    forall id' | id' in cases ensures !SameSlot(cases[id'], c) {
      assert id' !in ActiveCases(cases, c.component);
    }
  }

  /** A case that ends, or passes from canary to promoted, fits where it was. */
  lemma EndedFits(l: Ledger, r: Ledger, id: CaseId, c: CaseRecord)
    requires Inv(l) && id in l.cases && !c.Active()
    requires c == l.cases[id].(phase := c.phase, rollbackCount := c.rollbackCount)
    requires c.phase == Promoted ==> l.cases[id].phase == Canary
    requires c.component in r.cooldownUntil
    ensures CaseFits(l, r, id, c)
  {
    assert CaseKeyed(id, l.cases[id]) && CaseLinked(l.candidates.Keys, id, l.cases[id]);
  }

  lemma OpenInv(l: Ledger, o: Observation, now: int)
    requires Inv(l) && Opens(l, o)
    ensures Inv(Open(l, o, now))
  {
    var r, id, c := Open(l, o, now), CaseIdFor(o, SignatureKey(o).value), NewCase(l, o, now);
    FailuresBoundVersion(l, o);
    NoneActive(l.cases, c);
    assert CaseKeyed(id, c);
    PutCase(l, r, id, c);
  }

  lemma OpenEligibleCaseInv(l: Ledger, o: Observation, now: int)
    requires Inv(l)
    ensures Inv(OpenEligibleCase(l, o, now))
  {
    if l.policy.enabled && ValidObservation(o) {
      var e := Expire(l, now);
      ExpireInv(l, now);
      if Opens(e, o) {
        OpenInv(e, o, now);
        assert OpenEligibleCase(l, o, now) == Open(e, o, now);
      } else {
        assert OpenEligibleCase(l, o, now) == e;
      }
    }
  }

  lemma CandidateApart(next: int, candidates: map<CandidateId, Candidate>, k: CandidateId, c: Candidate)
    requires CandidatesApart(next, candidates) && k !in candidates && next <= I64_MAX
    requires c.parentVersion <= next && c.version == SatAdd(next, 1) && I64_MIN <= next
    ensures CandidatesApart(c.version, candidates[k := c])
  {
  }

  lemma CandidateLinks(cases: map<CaseId, CaseRecord>, candidates: map<CandidateId, Candidate>,
                       assignments: map<string, Assignment>, k: CandidateId, c: Candidate)
    requires LinkedCases(cases, candidates.Keys) && LinkedBack(cases.Keys, candidates.Keys, assignments)
    requires k.caseId in cases
    ensures LinkedCases(cases, candidates[k := c].Keys)
    ensures LinkedBack(cases.Keys, candidates[k := c].Keys, assignments)
  {
    forall id | id in cases ensures CaseLinked(candidates[k := c].Keys, id, cases[id]) {
      assert CaseLinked(candidates.Keys, id, cases[id]);
    }
  }

  lemma CandidateKept(candidates: map<CandidateId, Candidate>, k: CandidateId, c: Candidate)
    requires KeyedCandidates(candidates) && CandidateKeyed(k, c)
    ensures KeyedCandidates(candidates[k := c])
  {
  }

  lemma VersionsGrow(next: int, more: int, observations: map<string, Observation>, cases: map<CaseId, CaseRecord>)
    requires VersionsBounded(next, observations, cases) && next <= more <= I64_MAX
    ensures VersionsBounded(more, observations, cases)
  {
  }

  lemma AddCandidate(l: Ledger, r: Ledger, k: CandidateId, c: Candidate)
    requires Inv(l) && k !in l.candidates && CandidateKeyed(k, c)
    requires k.caseId in l.cases && c.version == SatAdd(l.nextVersion, 1)
    requires r == l.(nextVersion := c.version, candidates := l.candidates[k := c])
    ensures Inv(r)
  {
    assert CaseKeyed(k.caseId, l.cases[k.caseId]);
    CandidateApart(l.nextVersion, l.candidates, k, c);
    CandidateKept(l.candidates, k, c);
    CandidateLinks(l.cases, l.candidates, l.assignments, k, c);
    VersionsGrow(l.nextVersion, c.version, l.observations, l.cases);
  }

  /** An observing case that gets its stored candidate fits where it was. */
  lemma GatedFits(m: Ledger, r: Ledger, id: CaseId, k: CandidateId, passed: bool, now: int)
    requires Inv(m) && id in m.cases && m.cases[id].phase == Observing && k in m.candidates && k.caseId == id
    requires passed || m.cases[id].component in r.cooldownUntil
    ensures CaseFits(m, r, id, Gated(m.cases[id], k, passed, now))
  {
    var c, d := m.cases[id], Gated(m.cases[id], k, passed, now);
    assert CaseKeyed(id, c);
    forall id' | id' in m.cases && id' != id ensures !SameSlot(m.cases[id'], d) {
      assert !SameSlot(m.cases[id'], c);
    }
  }

  lemma AdmitInv(l: Ledger, p: Proposal, v: Validation, now: int)
    requires Inv(l) && p.caseId in l.cases && p.value.Some? && CandidateIdFor(p) !in l.candidates
    requires l.cases[p.caseId].phase == Observing
    ensures Inv(Admit(l, p, v, now))
  {
    var r, c := Admit(l, p, v, now), l.cases[p.caseId];
    assert CaseKeyed(p.caseId, c);
    var m := l.(nextVersion := r.nextVersion, candidates := r.candidates);
    AddCandidate(l, m, CandidateIdFor(p), NewCandidate(l, c, p, v));
    var d := Gated(c, CandidateIdFor(p), v.fixtureGatePassed, now);
    GatedFits(m, r, p.caseId, CandidateIdFor(p), v.fixtureGatePassed, now);
    PutCase(m, r, p.caseId, d);
  }

  lemma ProposeInv(l: Ledger, p: Proposal, now: int)
    requires Inv(l)
    ensures Inv(ProposeCandidate(l, p, now))
  {
    if Proposes(l, p, now) && CandidateIdFor(p) !in l.candidates {
      AdmitInv(l, p, ValidateProposal(p, l.policy).value, now);
    }
  }

  lemma AddAssignment(cases: set<CaseId>, candidates: set<CandidateId>, observations: map<string, Observation>,
                      assignments: map<string, Assignment>, a: Assignment)
    requires KeyedTasks(observations, assignments) && LinkedBack(cases, candidates, assignments)
    requires a.caseId in cases && !a.replayed
    ensures KeyedTasks(observations, assignments[a.taskId := a])
    ensures LinkedBack(cases, candidates, assignments[a.taskId := a])
  {
  }

  lemma AssignInv(l: Ledger, id: CaseId, a: Admission, bucket: nat)
    requires Inv(l)
    ensures Inv(AssignCanary(l, id, a, bucket))
  {
    if Assigns(l, id, a) {
      AddAssignment(l.cases.Keys, l.candidates.Keys, l.observations, l.assignments, NewAssignment(l, id, a, bucket));
    }
  }

  lemma RollbackCaseInv(l: Ledger, id: CaseId, now: int)
    requires Inv(l) && id in l.cases
    ensures Inv(RollbackCase(l, id, now))
  {
    var r := RollbackCase(l, id, now);
    EndedFits(l, r, id, r.cases[id]);
    PutCase(l, r, id, r.cases[id]);
  }

  lemma PromoteInv(l: Ledger, id: CaseId, now: int)
    requires Inv(l) && id in l.cases && l.cases[id].phase == Canary
    ensures Inv(Promote(l, id, now))
  {
    var r, c := Promote(l, id, now), l.cases[id].(phase := Promoted);
    EndedFits(l, r, id, c);
    PutCase(l, r, id, c);
  }

  lemma EnactInv(l: Ledger, id: CaseId, verdict: Verdict, now: int)
    requires Inv(l)
    requires !verdict.Hold? ==> id in l.cases
    requires verdict.Promotes? ==> l.cases[id].phase == Canary
    ensures Inv(Enact(l, id, verdict, now))
  {
    match verdict
    case Hold(_) =>
    case Promotes => PromoteInv(l, id, now);
    case RollsBack => RollbackCaseInv(l, id, now);
  }

  lemma EvaluateInv(l: Ledger, id: CaseId, now: int)
    requires Inv(l)
    ensures Inv(Evaluate(l, id, now))
  {
    if l.policy.enabled {
      var e := Expire(l, now);
      var verdict := EvaluationVerdict(e, id, now);
      ExpireInv(l, now);
      EnactInv(e, id, verdict, now);
      assert Evaluate(l, id, now) == Enact(e, id, verdict, now);
    }
  }

  lemma RequestRollbackInv(l: Ledger, id: CaseId, target: int, now: int)
    requires Inv(l)
    ensures Inv(RequestRollback(l, id, target, now))
  {
    if l.policy.enabled {
      var e := Expire(l, now);
      var verdict := RollbackVerdict(e, id, target);
      ExpireInv(l, now);
      EnactInv(e, id, verdict, now);
      assert RequestRollback(l, id, target, now) == Enact(e, id, verdict, now);
    }
  }

  lemma ApplyInv(l: Ledger, cmd: Command)
    requires Inv(l)
    ensures Inv(Apply(l, cmd))
  {
    match cmd
    case SetEnabled(_) =>
    case ObserveTask(o) => ObserveInv(l, o);
    case OpenCase(o, now) => OpenEligibleCaseInv(l, o, now);
    case Propose(p, now) => ProposeInv(l, p, now);
    case Assign(id, a, bucket) => AssignInv(l, id, a, bucket);
    case EvaluateCase(id, now) => EvaluateInv(l, id, now);
    case Rollback(id, target, now) => RequestRollbackInv(l, id, target, now);
  }

  /** The invariant holds after every run of commands on a fresh engine. */
  lemma {:induction false} ExecInv(policy: Policy, cmds: seq<Command>)
    ensures Inv(Exec(policy, cmds))
  {
    if cmds == [] {
      InitInv(policy);
    } else {
      ExecInv(policy, cmds[..|cmds| - 1]);
      ApplyInv(Exec(policy, cmds[..|cmds| - 1]), cmds[|cmds| - 1]);
    }
  }
}
