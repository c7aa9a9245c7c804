/**
 Promotion, version allocation and arm separation over whole runs.
 */
module ImprovementPromotion {
  import opened Common
  import opened ArmComparison
  import opened ImprovementLedger
  import opened ImprovementInvariant
  import opened ImprovementSteps
  import opened ImprovementCooldown

  // ---------- the promotion gate ----------

  ghost function SuccessRate(l: Ledger, tasks: set<string>): real
    requires tasks != {} && tasks <= l.observations.Keys
  {
    Ratio(|Successes(l, tasks)|, |tasks|)
  }

  ghost function MeanLatency(l: Ledger, tasks: set<string>): real
    requires tasks != {} && tasks <= l.observations.Keys
  {
    Sum(tasks, LatencyOf(l)) as real / |tasks| as real
  }

  ghost function MeanTokens(l: Ledger, tasks: set<string>): real
    requires tasks != {} && tasks <= l.observations.Keys
  {
    Sum(tasks, TokensOf(l)) as real / |tasks| as real
  }

  /** Enough samples, all of them measured, none of the candidate's unsafe, and the candidate clearly better. */
  ghost predicate ArmsEarnPromotion(l: Ledger, candidate: set<string>, control: set<string>)
    requires candidate <= l.observations.Keys && control <= l.observations.Keys
  {
    && |candidate| >= MIN_CANARY_SAMPLES_PER_ARM && |control| >= MIN_CANARY_SAMPLES_PER_ARM
    && (forall t :: t in candidate + control ==> !Unmeasured(l.observations[t]))
    && (forall t :: t in candidate ==> l.observations[t].safetyViolations == 0)
    && SuccessRate(l, candidate) >= SuccessRate(l, control) + 0.1
    && MeanLatency(l, candidate) <= 1.1 * MeanLatency(l, control)
    && MeanTokens(l, candidate) <= 1.1 * MeanTokens(l, control)
  }

  lemma NoViolations(l: Ledger, tasks: set<string>, t: string)
    requires tasks <= l.observations.Keys && Sum(tasks, ViolationsOf(l)) == 0 && t in tasks
    ensures l.observations[t].safetyViolations == 0
  {
    SumPick(tasks, ViolationsOf(l), t);
    ArmSumsAreNonNegative(l, tasks - {t});
  }

  lemma {:induction false} ViolationFree(l: Ledger, tasks: set<string>)
    requires tasks <= l.observations.Keys
    requires forall t :: t in tasks ==> l.observations[t].safetyViolations == 0
    ensures Sum(tasks, ViolationsOf(l)) == 0
    decreases |tasks|
  {
    if tasks != {} {
      var t :| t in tasks;
      SumPick(tasks, ViolationsOf(l), t);
      ViolationFree(l, tasks - {t});
    }
  }

  ghost predicate WeekOld(c: CaseRecord, now: int) {
    c.canaryStartedAt.Some? && now - c.canaryStartedAt.value >= MIN_CANARY_AGE
  }

  /** The verdict on a canary is promotion exactly when it is a week old and its arms earn it. */
  lemma PromotionVerdictIsExact(l: Ledger, c: CaseRecord, candidate: set<string>, control: set<string>, now: int)
    requires candidate <= l.observations.Keys && control <= l.observations.Keys
    ensures CanaryVerdict(c, Totals(l, candidate), Totals(l, control), now) == Promotes
       <==> c.candidateId.Some? && WeekOld(c, now) && ArmsEarnPromotion(l, candidate, control)
  {
    PassIsExact(Totals(l, candidate), Totals(l, control));
    if Sum(candidate, ViolationsOf(l)) == 0 {
      forall t | t in candidate ensures l.observations[t].safetyViolations == 0 {
        NoViolations(l, candidate, t);
      }
    } else if forall t :: t in candidate ==> l.observations[t].safetyViolations == 0 {
      ViolationFree(l, candidate);
    }
  }

  ghost predicate BecomesPromoted(l: Ledger, cmd: Command, id: CaseId) {
    && id in Apply(l, cmd).cases && Apply(l, cmd).cases[id].phase == Promoted
    && (id in l.cases ==> l.cases[id].phase != Promoted)
  }

  ghost predicate PromotionEarned(s: Ledger, id: CaseId, now: int) {
    && id in s.cases && s.cases[id].phase == Canary
    && WeekOld(s.cases[id], now)
    && ArmsEarnPromotion(s, ArmTasks(s, id, true), ArmTasks(s, id, false))
  }

  lemma MoveIsEarned(s: Ledger, cmd: Command, after: map<CaseId, CaseRecord>, id: CaseId)
    requires CasesMove(s, cmd, after) && id in after && after[id].phase == Promoted
    requires id in s.cases ==> s.cases[id].phase != Promoted
    ensures cmd.EvaluateCase? && cmd.caseId == id && PromotionEarned(s, id, cmd.now)
  {
    assert Changed(s.cases, after, id);
    assert PromotesAs(s, cmd, id, after[id]);
    PromotionVerdictIsExact(s, s.cases[id], ArmTasks(s, id, true), ArmTasks(s, id, false), cmd.now);
  }

  /** A case becomes Promoted only by an evaluation of its week-old canary whose arms earn it. */
  lemma PromotionIsEarned(l: Ledger, cmd: Command, id: CaseId)
    requires BecomesPromoted(l, cmd, id)
    ensures cmd.EvaluateCase? && cmd.caseId == id && PromotionEarned(Swept(l, cmd), id, cmd.now)
  {
    SweepThenUpdate(l, cmd);
    UpdateMoves(Swept(l, cmd), cmd);
    SweptPromotes(l, cmd, id);
    MoveIsEarned(Swept(l, cmd), cmd, Apply(l, cmd).cases, id);
  }

  /** Conversely, evaluating a canary that has earned it promotes it. */
  lemma EarnedIsPromoted(l: Ledger, id: CaseId, now: int)
    requires l.policy.enabled && PromotionEarned(Expire(l, now), id, now) && Expire(l, now).cases[id].candidateId.Some?
    ensures Evaluate(l, id, now) == Promote(Expire(l, now), id, now)
    ensures Evaluate(l, id, now).cases[id].phase == Promoted
  {
    var e := Expire(l, now);
    PromotionVerdictIsExact(e, e.cases[id], ArmTasks(e, id, true), ArmTasks(e, id, false), now);
    assert Evaluate(l, id, now) == Promote(e, id, now);
  }

  /** The sweep never promotes. */
  lemma SweptPromotes(l: Ledger, cmd: Command, id: CaseId)
    ensures id in Swept(l, cmd).cases && Swept(l, cmd).cases[id].phase == Promoted
            ==> id in l.cases && l.cases[id].phase == Promoted
  {
    if id in l.cases && Swept(l, cmd) != l {
      assert Swept(l, cmd) == Expire(l, TimeOf(cmd));
      ExpireCase(l, TimeOf(cmd), id);
    }
  }

  // ---------- the gate's arithmetic fits ----------

  ghost predicate AllValid(observations: map<string, Observation>) {
    forall t :: t in observations ==> ValidObservation(observations[t])
  }

  lemma {:induction false} ObservationsAreValid(policy: Policy, cmds: seq<Command>)
    ensures AllValid(Exec(policy, cmds).observations)
  {
    if cmds != [] {
      var before, cmd := cmds[..|cmds| - 1], cmds[|cmds| - 1];
      var l := Exec(policy, before);
      ObservationsAreValid(policy, before);
      SweptTables(l, cmd);
      SweepThenUpdate(l, cmd);
      UpdateTables(Swept(l, cmd), cmd);
    }
  }

  /** Arms of at most 2^30 observed tasks keep every product of the gate within 128 bits. */
  lemma ArmsFit(policy: Policy, cmds: seq<Command>, id: CaseId)
    requires var l := Exec(policy, cmds);
             |ArmTasks(l, id, true)| <= ARM_BOUND && |ArmTasks(l, id, false)| <= ARM_BOUND
    ensures var l := Exec(policy, cmds);
            && Measurable(Arm(l, id, true)) && Measurable(Arm(l, id, false))
            && 11 * Arm(l, id, false).latencySum * Arm(l, id, true).samples <= U128_MAX
            && 11 * Arm(l, id, false).tokenSum * Arm(l, id, true).samples <= U128_MAX
            && 10 * Arm(l, id, true).latencySum * Arm(l, id, false).samples <= U128_MAX
            && 10 * Arm(l, id, true).tokenSum * Arm(l, id, false).samples <= U128_MAX
  {
    var l := Exec(policy, cmds);
    ObservationsAreValid(policy, cmds);
    TotalsMeasurable(l, ArmTasks(l, id, true));
    TotalsMeasurable(l, ArmTasks(l, id, false));
    GateNeverOverflows(Arm(l, id, true), Arm(l, id, false));
  }

  lemma TotalsMeasurable(l: Ledger, tasks: set<string>)
    requires AllValid(l.observations) && tasks <= l.observations.Keys && |tasks| <= ARM_BOUND
    ensures Measurable(Totals(l, tasks))
  {
    forall t | t in tasks ensures 0 <= LatencyOf(l)[t] <= I64_MAX && 0 <= TokensOf(l)[t] <= I64_MAX {
      assert ValidObservation(l.observations[t]);
    }
    SumBounded(tasks, LatencyOf(l), I64_MAX);
    SumBounded(tasks, TokensOf(l), I64_MAX);
    SubsetSize(Successes(l, tasks), tasks);
  }

  // ---------- version allocation ----------

  /** The version counter is a version that was actually seen, or still the initial one. */
  ghost predicate Attained(next: int, observations: map<string, Observation>, candidates: map<CandidateId, Candidate>) {
    || next == 1
    || (exists t :: t in observations && observations[t].cohort.configVersion == next)
    || (exists k :: k in candidates && candidates[k].version == next)
  }

  lemma StepAttains(s: Ledger, cmd: Command, r: Ledger)
    requires Attained(s.nextVersion, s.observations, s.candidates) && TablesStep(s, cmd, r)
    ensures Attained(r.nextVersion, r.observations, r.candidates)
  {
    if AddsObservation(s, cmd, r) {
      assert cmd.observation.taskId in r.observations;
      if t :| t in s.observations && s.observations[t].cohort.configVersion == s.nextVersion {
        assert t in r.observations && r.observations[t] == s.observations[t];
      }
    } else if AddsCandidate(s, cmd, r) {
      assert r.candidates[CandidateIdFor(cmd.proposal)].version == r.nextVersion;
    }
  }

  lemma {:induction false} NextVersionIsAttained(policy: Policy, cmds: seq<Command>)
    ensures var l := Exec(policy, cmds);
            Attained(l.nextVersion, l.observations, l.candidates)
  {
    if cmds != [] {
      var before, cmd := cmds[..|cmds| - 1], cmds[|cmds| - 1];
      var l := Exec(policy, before);
      NextVersionIsAttained(policy, before);
      SweptTables(l, cmd);
      UpdateTables(Swept(l, cmd), cmd);
      SweepThenUpdate(l, cmd);
      StepAttains(Swept(l, cmd), cmd, Apply(l, cmd));
    }
  }

  /** A version above every observed cohort, every earlier candidate and the parent of the case. */
  ghost predicate AboveAll(l: Ledger, caseId: CaseId, version: int) {
    && caseId.cohort.configVersion < version
    && (forall t :: t in l.observations ==> l.observations[t].cohort.configVersion < version)
    && (forall k :: k in l.candidates ==> l.candidates[k].version < version)
  }

  /**
   In every run, a new candidate's version is above everything seen exactly when the version space is
   not exhausted.
   */
  lemma CandidateVersionIsNew(policy: Policy, cmds: seq<Command>, p: Proposal, now: int)
    requires var l := Exec(policy, cmds);
             Proposes(l, p, now) && CandidateIdFor(p) !in l.candidates
    ensures var l := Exec(policy, cmds);
            var r := Apply(l, Propose(p, now));
            && CandidateIdFor(p) in r.candidates
            && (AboveAll(l, p.caseId, r.candidates[CandidateIdFor(p)].version) <==> l.nextVersion < I64_MAX)
  {
    var l := Exec(policy, cmds);
    ExecInv(policy, cmds);
    NextVersionIsAttained(policy, cmds);
    assert CaseKeyed(p.caseId, l.cases[p.caseId]);
  }

  // ---------- arms never mix ----------

  lemma {:induction false} AssignmentsArePermanent(policy: Policy, cmds: seq<Command>, i: nat, t: string)
    requires i <= |cmds| && t in Exec(policy, cmds[..i]).assignments
    ensures t in Exec(policy, cmds).assignments
    ensures Exec(policy, cmds).assignments[t] == Exec(policy, cmds[..i]).assignments[t]
  {
    if i == |cmds| {
      assert cmds[..i] == cmds;
    } else {
      var before, cmd := cmds[..|cmds| - 1], cmds[|cmds| - 1];
      var l := Exec(policy, before);
      assert before[..i] == cmds[..i];
      AssignmentsArePermanent(policy, before, i, t);
      SweptTables(l, cmd);
      UpdateTables(Swept(l, cmd), cmd);
      SweepThenUpdate(l, cmd);
    }
  }

  /** The arm a task was assigned to: its case's candidate, or the parent configuration. */
  ghost predicate AssignedTo(candidates: map<CandidateId, Candidate>, a: Assignment) {
    if a.candidate then
      exists k :: k in candidates && k.caseId == a.caseId && a.configVersion == candidates[k].version
                  && a.configDigest == candidates[k].digest
    else
      a.configVersion == a.caseId.cohort.configVersion && a.configDigest == a.caseId.cohort.configDigest
  }

  ghost predicate AllAssigned(candidates: map<CandidateId, Candidate>, assignments: map<string, Assignment>) {
    forall t :: t in assignments ==> AssignedTo(candidates, assignments[t])
  }

  /** The task ran in the component and on the adapter of its case, under the configuration it was assigned. */
  predicate RanAsAssigned(a: Assignment, o: Observation) {
    && o.component == a.caseId.component
    && o.cohort == a.caseId.cohort.(configVersion := a.configVersion, configDigest := a.configDigest)
  }

  ghost predicate AllRanAsAssigned(observations: map<string, Observation>, assignments: map<string, Assignment>) {
    forall t :: t in assignments && t in observations ==> RanAsAssigned(assignments[t], observations[t])
  }

  /** A case has at most one candidate, and none while it is still Observing. */
  ghost predicate OneCandidate(cases: map<CaseId, CaseRecord>, candidates: set<CandidateId>) {
    && (forall k, k' :: k in candidates && k' in candidates && k.caseId == k'.caseId ==> k == k')
    && (forall k :: k in candidates && k.caseId in cases ==> cases[k.caseId].phase != Observing)
  }

  lemma AssignedStays(before: map<CandidateId, Candidate>, after: map<CandidateId, Candidate>, a: Assignment)
    requires AssignedTo(before, a) && forall k :: k in before ==> k in after && after[k] == before[k]
    ensures AssignedTo(after, a)
  {
    if a.candidate {
      var k :| k in before && k.caseId == a.caseId && a.configVersion == before[k].version
              && a.configDigest == before[k].digest;
      assert k in after;
    }
  }

  lemma NewAssignmentFits(s: Ledger, id: CaseId, a: Admission, bucket: nat)
    requires KeyedCases(s.cases) && KeyedCandidates(s.candidates)
    requires LinkedCases(s.cases, s.candidates.Keys) && Assigns(s, id, a)
    ensures AssignedTo(s.candidates, NewAssignment(s, id, a, bucket))
  {
    var k := s.cases[id].candidateId.value;
    assert CaseLinked(s.candidates.Keys, id, s.cases[id]) && CaseKeyed(id, s.cases[id])
           && CandidateKeyed(k, s.candidates[k]);
  }

  lemma TablesKeepCandidates(s: Ledger, cmd: Command, r: Ledger)
    requires TablesStep(s, cmd, r)
    ensures forall k :: k in s.candidates ==> k in r.candidates && r.candidates[k] == s.candidates[k]
  {
  }

  lemma StepAssigned(s: Ledger, cmd: Command, r: Ledger)
    requires KeyedCases(s.cases) && KeyedCandidates(s.candidates) && LinkedCases(s.cases, s.candidates.Keys)
    requires AllAssigned(s.candidates, s.assignments) && TablesStep(s, cmd, r)
    ensures AllAssigned(r.candidates, r.assignments)
  {
    TablesKeepCandidates(s, cmd, r);
    if AddsAssignment(s, cmd, r) {
      NewAssignmentFits(s, cmd.caseId, cmd.admission, cmd.bucket);
    }
    forall t | t in r.assignments ensures AssignedTo(r.candidates, r.assignments[t]) {
      if t in s.assignments && r.assignments[t] == s.assignments[t] {
        AssignedStays(s.candidates, r.candidates, s.assignments[t]);
      }
    }
  }

  /** The command does not assign a task that has already been observed. */
  predicate AssignsUnobserved(l: Ledger, cmd: Command) {
    cmd.Assign? && Assigns(l, cmd.caseId, cmd.admission) ==> cmd.admission.taskId !in l.observations
  }

  lemma StepRan(s: Ledger, cmd: Command, r: Ledger)
    requires KeyedCases(s.cases) && AllRanAsAssigned(s.observations, s.assignments)
    requires AssignsUnobserved(s, cmd) && TablesStep(s, cmd, r)
    ensures AllRanAsAssigned(r.observations, r.assignments)
  {
    forall t | t in r.assignments && t in r.observations ensures RanAsAssigned(r.assignments[t], r.observations[t]) {
      if AddsObservation(s, cmd, r) && t == cmd.observation.taskId {
        var a := s.assignments[t];
        assert CaseKeyed(a.caseId, s.cases[a.caseId]);
      }
    }
  }

  lemma StepOneCandidate(s: Ledger, cmd: Command, r: Ledger)
    requires CasesMove(s, cmd, r.cases) && TablesStep(s, cmd, r) && OneCandidate(s.cases, s.candidates.Keys)
    requires LinkedBack(s.cases.Keys, s.candidates.Keys, s.assignments)
    requires forall id, c :: OpensAs(s, cmd, id, c) ==> id !in s.cases
    ensures OneCandidate(r.cases, r.candidates.Keys)
  {
    forall k | k in r.candidates && k.caseId in r.cases ensures r.cases[k.caseId].phase != Observing {
      if r.cases[k.caseId].phase == Observing && Changed(s.cases, r.cases, k.caseId) {
        ObservingMoveOpens(s, cmd, k.caseId, r.cases[k.caseId]);
      }
    }
  }

  /** Arms stay separate: the hypotheses a run has to meet, and the facts they preserve. */
  ghost predicate AllUnobserved(policy: Policy, cmds: seq<Command>) {
    forall i :: 0 <= i < |cmds| ==> AssignsUnobserved(Swept(Exec(policy, cmds[..i]), cmds[i]), cmds[i])
  }

  ghost predicate Separate(l: Ledger) {
    && AllAssigned(l.candidates, l.assignments)
    && AllRanAsAssigned(l.observations, l.assignments)
    && OneCandidate(l.cases, l.candidates.Keys)
  }

  lemma OpeningsAreFresh(l: Ledger, clock: int, cmd: Command)
    requires Inv(l) && Chronicle(l, clock) && SoundStep(l, clock, cmd)
    ensures forall id, c :: OpensAs(Swept(l, cmd), cmd, id, c) ==> id !in Swept(l, cmd).cases
  {
    var s := Swept(l, cmd);
    SweptInv(l, cmd);
    SweptTables(l, cmd);
    if cmd.OpenCase? && ValidObservation(cmd.input) && Opens(s, cmd.input) {
      if s != l {
        assert s == Expire(l, cmd.now);
        SweepChronicle(l, cmd.now, clock);
      }
      TriggerOpensOnce(s, clock, cmd.input);
    }
  }

  lemma SweptOneCandidate(l: Ledger, cmd: Command)
    requires OneCandidate(l.cases, l.candidates.Keys)
    ensures OneCandidate(Swept(l, cmd).cases, Swept(l, cmd).candidates.Keys)
  {
    SweptTables(l, cmd);
    if Swept(l, cmd) != l {
      assert Swept(l, cmd) == Expire(l, TimeOf(cmd));
      forall k | k in l.candidates && k.caseId in l.cases ensures Swept(l, cmd).cases[k.caseId].phase != Observing {
        ExpireCase(l, TimeOf(cmd), k.caseId);
      }
      assert Swept(l, cmd).cases.Keys == l.cases.Keys;
    }
  }

  lemma StepSeparate(l: Ledger, clock: int, cmd: Command)
    requires Inv(l) && Chronicle(l, clock) && SoundStep(l, clock, cmd)
    requires Separate(l) && AssignsUnobserved(Swept(l, cmd), cmd)
    ensures Separate(Apply(l, cmd))
  {
    var s, r := Swept(l, cmd), Apply(l, cmd);
    SweepThenUpdate(l, cmd);
    SweptInv(l, cmd);
    SweptTables(l, cmd);
    SweptOneCandidate(l, cmd);
    OpeningsAreFresh(l, clock, cmd);
    UpdateMoves(s, cmd);
    UpdateTables(s, cmd);
    StepAssigned(s, cmd, r);
    StepRan(s, cmd, r);
    StepOneCandidate(s, cmd, r);
  }

  lemma {:induction false} RunsAreSeparate(policy: Policy, cmds: seq<Command>)
    requires Disciplined(policy, cmds) && AllUnobserved(policy, cmds)
    ensures Separate(Exec(policy, cmds))
  {
    if cmds != [] {
      var before, cmd := cmds[..|cmds| - 1], cmds[|cmds| - 1];
      forall i | 0 <= i < |before| ensures before[..i] == cmds[..i] {
      }
      RunsAreSeparate(policy, before);
      ExecInv(policy, before);
      DisciplinedChronicle(policy, before);
      StepSeparate(Exec(policy, before), Clock(before), cmd);
    }
  }

  /**
   In a disciplined run that assigns only unobserved tasks, every sample counted in
   an arm ran under exactly that arm's configuration, and the two arms' versions differ.
   */
  lemma ArmsNeverMix(policy: Policy, cmds: seq<Command>, id: CaseId, k: CandidateId, t: string)
    requires Disciplined(policy, cmds) && AllUnobserved(policy, cmds)
    requires var l := Exec(policy, cmds);
             id in l.cases && l.cases[id].candidateId == Some(k)
    ensures var l := Exec(policy, cmds);
            && k in l.candidates
            && (t in ArmTasks(l, id, true) ==>
                  l.observations[t].cohort == id.cohort.(configVersion := l.candidates[k].version,
                                                         configDigest := l.candidates[k].digest))
            && (t in ArmTasks(l, id, false) ==> l.observations[t].cohort == id.cohort)
            && (l.candidates[k].version > id.cohort.configVersion || l.candidates[k].version == I64_MAX)
  {
    var l := Exec(policy, cmds);
    RunsAreSeparate(policy, cmds);
    ExecInv(policy, cmds);
    assert CaseLinked(l.candidates.Keys, id, l.cases[id]) && CandidateKeyed(k, l.candidates[k]);
    if t in ArmTasks(l, id, true) {
      assert AssignedTo(l.candidates, l.assignments[t]) && RanAsAssigned(l.assignments[t], l.observations[t]);
    }
  }
}
