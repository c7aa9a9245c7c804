/**
 The policy-improvement ledger as a value, with one function per command.

 Digests are collision free by construction: a case id is the tuple that is
 hashed, a candidate id is the hashed (case, knob, value), and a candidate's
 configuration digest is `OfCandidate` of the hashed fields.
 */
module ImprovementLedger {
  import opened Common
  import opened ArmComparison

  const ELIGIBILITY_OCCURRENCES: nat := 3
  const ELIGIBILITY_WINDOW: nat := 20
  const MIN_FIXTURE_OUTCOMES: nat := 10
  const CANARY_PERCENT: nat := 20
  const MIN_CANARY_SAMPLES_PER_ARM: nat := 20
  const DAY: int := 86_400_000_000
  const COOLDOWN: int := 7 * DAY
  const MIN_CANARY_AGE: int := 7 * DAY
  const CASE_EXPIRY: int := 30 * DAY
  const MAX_TOKEN_LENGTH: nat := 128
  const MAX_HYPOTHESIS_LENGTH: nat := 2048

  datatype Phase = Observing | Canary | Promoted | RolledBack | Frozen

  datatype Knob = PromptComposition | ContextSelection | SameAgentTransportPriority | Quality | Effort

  datatype Policy = Policy(
    enabled: bool,
    promptProfiles: set<string>,
    contextProfiles: set<string>,
    transportProfiles: set<string>,
    allowedQuality: set<string>,
    allowedEffort: set<string>)
  {
    function Allowlist(knob: Knob): set<string> {
      match knob
      case PromptComposition => promptProfiles
      case ContextSelection => contextProfiles
      case SameAgentTransportPriority => transportProfiles
      case Quality => allowedQuality
      case Effort => allowedEffort
    }
  }

  datatype FailureSignature = FailureSignature(
    protocolStage: string,
    failureClass: string,
    versionBucket: string,
    diagnosticCode: string)

  datatype Digest =
    | External(hex: string)
    | OfCandidate(parentVersion: int, component: string, knob: Knob, value: string)

  datatype Cohort = Cohort(
    adapterInstanceId: string,
    adapterVersion: string,
    configVersion: int,
    configDigest: Digest)

  datatype Observation = Observation(
    taskId: string,
    component: string,
    cohort: Cohort,
    reviewedAt: int,
    success: bool,
    failureSignature: Option<FailureSignature>,
    latency: Option<nat>,
    tokenCost: Option<nat>,
    safetyViolations: nat)

  datatype FixtureOutcome = FixtureOutcome(fixtureId: string, passed: bool, hardInvariantFailures: nat)

  /** `value` is `None` when the proposed JSON value is not a string. */
  datatype Proposal = Proposal(
    caseId: CaseId,
    knob: Knob,
    value: Option<string>,
    hypothesis: string,
    fixtures: seq<FixtureOutcome>)

  datatype Validation = Validation(fixtureGatePassed: bool, hardFailure: bool)

  datatype CaseId = CaseId(
    component: string,
    cohort: Cohort,
    signature: FailureSignature,
    triggerTaskId: string)

  datatype CandidateId = CandidateId(caseId: CaseId, knob: Knob, value: string)

  datatype CaseRecord = CaseRecord(
    caseId: CaseId,
    component: string,
    cohort: Cohort,
    signature: FailureSignature,
    createdAt: int,
    phase: Phase,
    candidateId: Option<CandidateId>,
    parentVersion: int,
    canaryStartedAt: Option<int>,
    rollbackCount: nat)
  {
    /** The case occupies its component: no other case may open. */
    predicate Active() {
      phase == Observing || phase == Canary
    }
  }

  datatype Candidate = Candidate(
    candidateId: CandidateId,
    caseId: CaseId,
    component: string,
    knob: Knob,
    value: string,
    parentVersion: int,
    rollbackVersion: int,
    version: int,
    digest: Digest,
    fixtureGatePassed: bool,
    fixtureHardFailure: bool)

  datatype Assignment = Assignment(
    caseId: CaseId,
    taskId: string,
    candidate: bool,
    configVersion: int,
    configDigest: Digest,
    replayed: bool)

  datatype Admission = Admission(
    taskId: string,
    cohort: Cohort,
    optedIn: bool,
    readOnly: bool,
    isNew: bool,
    now: int)

  datatype ObservationDecision =
    | ObservationDisabled
    | InvalidObservation
    | ConflictingReplay
    | Recorded(comparableTasks: nat, matchingFailures: nat)
    | Eligible(caseId: CaseId, comparableTasks: nat, matchingFailures: nat)
    | ActiveCase(activeCaseId: CaseId)
    | CoolingDown
    | ComponentFrozen

  datatype CandidateDecision =
    | CandidateDisabled
    | StartsCanary(version: int, digest: Digest)
    | FixtureRejected(hardInvariantFailure: bool)

  datatype CanaryDecision = CanaryDisabled | NotEligible | Assigned(assignment: Assignment)

  datatype EvaluationDecision =
    | EvaluationDisabled
    | WaitingForTime
    | WaitingForSamples(candidate: nat, control: nat)
    | MissingMetrics
    | WasPromoted(configVersion: int)
    | WasRolledBack(configVersion: int, rollbackCount: nat)
    | WasFrozen(configVersion: int, rollbackCount: nat)

  datatype Ledger = Ledger(
    policy: Policy,
    observations: map<string, Observation>,
    cases: map<CaseId, CaseRecord>,
    candidates: map<CandidateId, Candidate>,
    assignments: map<string, Assignment>,
    activeVersions: map<string, int>,
    cooldownUntil: map<string, int>,
    rollbackCounts: map<string, nat>,
    nextVersion: int)

  function Init(policy: Policy): Ledger {
    Ledger(policy, map[], map[], map[], map[], map[], map[], map[], 1)
  }

  // ---------- validation ----------

  predicate TokenChar(c: char) {
    || '0' <= c <= '9' || 'a' <= c <= 'z' || 'A' <= c <= 'Z'
    || c in {'-', '_', '.', ':', '/', '@'}
  }

  predicate ValidToken(s: string) {
    0 < |s| <= MAX_TOKEN_LENGTH && forall i :: 0 <= i < |s| ==> TokenChar(s[i])
  }

  predicate LowerSha256(s: string) {
    |s| == 64 && forall i :: 0 <= i < |s| ==> '0' <= s[i] <= '9' || 'a' <= s[i] <= 'f'
  }

  predicate ValidDigest(d: Digest) {
    d.External? ==> LowerSha256(d.hex)
  }

  predicate ValidCohort(c: Cohort) {
    && ValidToken(c.adapterInstanceId)
    && ValidToken(c.adapterVersion)
    && 0 <= c.configVersion <= I64_MAX
    && ValidDigest(c.configDigest)
  }

  /** The normalized key exists exactly when every field is a token; it is injective on those. */
  function NormalizedKey(s: FailureSignature): Option<FailureSignature> {
    if && ValidToken(s.protocolStage) && ValidToken(s.failureClass)
       && ValidToken(s.versionBucket) && ValidToken(s.diagnosticCode)
    then Some(s) else None
  }

  function SignatureKey(o: Observation): Option<FailureSignature> {
    if o.failureSignature.Some? then NormalizedKey(o.failureSignature.value) else None
  }

  predicate ValidObservation(o: Observation) {
    && ValidToken(o.taskId)
    && ValidToken(o.component)
    && ValidCohort(o.cohort)
    && 0 <= o.reviewedAt <= I64_MAX
    && (o.failureSignature.Some? ==> SignatureKey(o).Some?)
    && o.success == o.failureSignature.None?
    && (o.latency.Some? ==> o.latency.value <= I64_MAX)
    && (o.tokenCost.Some? ==> o.tokenCost.value <= I64_MAX)
  }

  predicate DistinctFixtures(fixtures: seq<FixtureOutcome>) {
    forall i, j :: 0 <= i < j < |fixtures| ==> fixtures[i].fixtureId != fixtures[j].fixtureId
  }

  function ValidateProposal(p: Proposal, policy: Policy): Option<Validation> {
    if p.hypothesis == [] || |p.hypothesis| > MAX_HYPOTHESIS_LENGTH || |p.fixtures| < MIN_FIXTURE_OUTCOMES then None
    else if !(&& DistinctFixtures(p.fixtures)
              && forall i :: 0 <= i < |p.fixtures| ==> ValidToken(p.fixtures[i].fixtureId)) then None
    else if p.value.None? || !ValidToken(p.value.value) || p.value.value !in policy.Allowlist(p.knob) then None
    else
      var hard := exists i :: 0 <= i < |p.fixtures| && p.fixtures[i].hardInvariantFailures != 0;
      var passed := forall i :: 0 <= i < |p.fixtures| ==> p.fixtures[i].passed;
      Some(Validation(passed && !hard, hard))
  }

  // ---------- expiry ----------

  predicate Expired(c: CaseRecord, now: int) {
    c.Active() && SatSub(now, c.createdAt) >= CASE_EXPIRY
  }

  function ExpiredCases(l: Ledger, now: int): set<CaseId> {
    set id | id in l.cases && Expired(l.cases[id], now)
  }

  function RollBackAll(cases: map<CaseId, CaseRecord>, ids: set<CaseId>): map<CaseId, CaseRecord> {
    map id | id in cases :: if id in ids then cases[id].(phase := RolledBack) else cases[id]
  }

  function RestartAll(cooldownUntil: map<string, int>, components: set<string>, now: int): map<string, int> {
    cooldownUntil + map k | k in components :: SatAdd(now, COOLDOWN)
  }

  function ComponentsOf(cases: map<CaseId, CaseRecord>, ids: set<CaseId>): set<string>
    requires ids <= cases.Keys
  {
    set id | id in ids :: cases[id].component
  }

  /** Ends the cases that are thirty days old and restarts the cooldown of their components. */
  function Expire(l: Ledger, now: int): Ledger {
    var expired := ExpiredCases(l, now);
    l.(cases := RollBackAll(l.cases, expired),
       cooldownUntil := RestartAll(l.cooldownUntil, ComponentsOf(l.cases, expired), now))
  }

  // ---------- eligibility ----------

  function ActiveCases(cases: map<CaseId, CaseRecord>, component: string): set<CaseId> {
    set id | id in cases && cases[id].component == component && cases[id].Active()
  }

  function FrozenCases(cases: map<CaseId, CaseRecord>, component: string): set<CaseId> {
    set id | id in cases && cases[id].component == component && cases[id].phase == Frozen
  }

  function Comparable(l: Ledger, component: string, cohort: Cohort): set<string> {
    set t | t in l.observations && l.observations[t].component == component && l.observations[t].cohort == cohort
  }

  /** Lexicographic order of identifiers. */
  predicate TextBefore(a: string, b: string) {
    b != [] && (a == [] || a[0] < b[0] || (a[0] == b[0] && TextBefore(a[1..], b[1..])))
  }

  /** Newest review first; ties by task id. */
  predicate Precedes(a: Observation, b: Observation) {
    a.reviewedAt > b.reviewedAt || (a.reviewedAt == b.reviewedAt && TextBefore(a.taskId, b.taskId))
  }

  function Earlier(l: Ledger, tasks: set<string>, t: string): set<string>
    requires tasks <= l.observations.Keys && t in l.observations
  {
    set u | u in tasks && Precedes(l.observations[u], l.observations[t])
  }

  /** The window: comparable tasks with fewer than twenty newer comparable tasks. */
  function Window(l: Ledger, component: string, cohort: Cohort): set<string> {
    var tasks := Comparable(l, component, cohort);
    set t | t in tasks && |Earlier(l, tasks, t)| < ELIGIBILITY_WINDOW
  }

  function MatchingFailures(l: Ledger, component: string, cohort: Cohort, signature: FailureSignature): set<string> {
    set t | t in Window(l, component, cohort) && SignatureKey(l.observations[t]) == Some(signature)
  }

  function CaseIdFor(o: Observation, signature: FailureSignature): CaseId {
    CaseId(o.component, o.cohort, signature, o.taskId)
  }

  predicate CoolingAt(l: Ledger, component: string, at: int) {
    component in l.cooldownUntil && l.cooldownUntil[component] > at
  }

  ghost function Eligibility(l: Ledger, o: Observation): ObservationDecision {
    if SignatureKey(o).None? then Recorded(1, 0)
    else if FrozenCases(l.cases, o.component) != {} then ComponentFrozen
    else if ActiveCases(l.cases, o.component) != {} then
      var id :| id in ActiveCases(l.cases, o.component);
      ActiveCase(id)
    else if CoolingAt(l, o.component, o.reviewedAt) then CoolingDown
    else
      var signature := SignatureKey(o).value;
      var comparable := |Window(l, o.component, o.cohort)|;
      var matching := |MatchingFailures(l, o.component, o.cohort, signature)|;
      if matching < ELIGIBILITY_OCCURRENCES then Recorded(comparable, matching)
      else Eligible(CaseIdFor(o, signature), comparable, matching)
  }

  // ---------- commands ----------

  predicate MatchesAssignment(l: Ledger, o: Observation)
    requires o.taskId in l.assignments
  {
    var a := l.assignments[o.taskId];
    && a.caseId in l.cases
    && o.component == l.cases[a.caseId].component
    && o.cohort.adapterInstanceId == l.cases[a.caseId].cohort.adapterInstanceId
    && o.cohort.adapterVersion == l.cases[a.caseId].cohort.adapterVersion
    && o.cohort.configVersion == a.configVersion
    && o.cohort.configDigest == a.configDigest
  }

  /** A task is recorded once, and only under the configuration it was assigned. */
  predicate Records(l: Ledger, o: Observation) {
    && o.taskId !in l.observations
    && (o.taskId in l.assignments ==> MatchesAssignment(l, o))
  }

  function Record(l: Ledger, o: Observation): Ledger {
    l.(nextVersion := Max(l.nextVersion, o.cohort.configVersion), observations := l.observations[o.taskId := o])
  }

  function Observe(l: Ledger, o: Observation): Ledger {
    if !l.policy.enabled || !ValidObservation(o) then l
    else
      var e := Expire(l, o.reviewedAt);
      if Records(e, o) then Record(e, o) else e
  }

  /** The decision on a valid observation once expired cases are swept. */
  ghost function RecordDecision(e: Ledger, o: Observation): ObservationDecision {
    if o.taskId in e.observations then
      if e.observations[o.taskId] == o then Eligibility(e, o) else ConflictingReplay
    else if !Records(e, o) then InvalidObservation
    else Eligibility(Record(e, o), o)
  }

  ghost function ObserveDecision(l: Ledger, o: Observation): ObservationDecision {
    if !l.policy.enabled then ObservationDisabled
    else if !ValidObservation(o) then InvalidObservation
    else RecordDecision(Expire(l, o.reviewedAt), o)
  }

  function RollbackCountOf(l: Ledger, component: string): nat {
    if component in l.rollbackCounts then l.rollbackCounts[component] else 0
  }

  predicate Opens(l: Ledger, o: Observation) {
    && SignatureKey(o).Some?
    && FrozenCases(l.cases, o.component) == {}
    && ActiveCases(l.cases, o.component) == {}
    && !CoolingAt(l, o.component, o.reviewedAt)
    && |MatchingFailures(l, o.component, o.cohort, SignatureKey(o).value)| >= ELIGIBILITY_OCCURRENCES
  }

  function NewCase(l: Ledger, o: Observation, now: int): CaseRecord
    requires SignatureKey(o).Some?
  {
    CaseRecord(CaseIdFor(o, SignatureKey(o).value), o.component, o.cohort, SignatureKey(o).value, now, Observing, None,
               o.cohort.configVersion, None, RollbackCountOf(l, o.component))
  }

  function Open(l: Ledger, o: Observation, now: int): Ledger
    requires SignatureKey(o).Some?
  {
    l.(cases := l.cases[CaseIdFor(o, SignatureKey(o).value) := NewCase(l, o, now)],
       activeVersions := if o.component in l.activeVersions then l.activeVersions
                         else l.activeVersions[o.component := o.cohort.configVersion])
  }

  function OpenEligibleCase(l: Ledger, o: Observation, now: int): Ledger {
    if !l.policy.enabled || !ValidObservation(o) then l
    else
      var e := Expire(l, now);
      if Opens(e, o) then Open(e, o, now) else e
  }

  function OpenDecision(l: Ledger, o: Observation, now: int): Option<CaseId> {
    if l.policy.enabled && ValidObservation(o) && Opens(Expire(l, now), o)
    then Some(CaseIdFor(o, SignatureKey(o).value)) else None
  }

  /** The proposal addresses an open Observing case and passes validation. */
  predicate Proposes(l: Ledger, p: Proposal, now: int) {
    && l.policy.enabled
    && p.caseId in l.cases
    && l.cases[p.caseId].phase == Observing
    && SatSub(now, l.cases[p.caseId].createdAt) < CASE_EXPIRY
    && ValidateProposal(p, l.policy).Some?
  }

  function CandidateIdFor(p: Proposal): CandidateId
    requires p.value.Some?
  {
    CandidateId(p.caseId, p.knob, p.value.value)
  }

  function NewCandidate(l: Ledger, c: CaseRecord, p: Proposal, v: Validation): Candidate
    requires p.value.Some?
  {
    Candidate(CandidateIdFor(p), p.caseId, c.component, p.knob, p.value.value, c.parentVersion, c.parentVersion,
              SatAdd(l.nextVersion, 1), OfCandidate(c.parentVersion, c.component, p.knob, p.value.value),
              v.fixtureGatePassed, v.hardFailure)
  }

  /** The case after its candidate went through the fixture gate. */
  function Gated(c: CaseRecord, id: CandidateId, passed: bool, now: int): CaseRecord {
    if passed then c.(candidateId := Some(id), phase := Canary, canaryStartedAt := Some(now))
    else c.(candidateId := Some(id), phase := RolledBack)
  }

  function Admit(l: Ledger, p: Proposal, v: Validation, now: int): Ledger
    requires p.caseId in l.cases && p.value.Some?
  {
    var c := l.cases[p.caseId];
    var candidate := NewCandidate(l, c, p, v);
    l.(nextVersion := candidate.version,
       candidates := l.candidates[CandidateIdFor(p) := candidate],
       cases := l.cases[p.caseId := Gated(c, CandidateIdFor(p), v.fixtureGatePassed, now)],
       cooldownUntil := if v.fixtureGatePassed then l.cooldownUntil
                        else l.cooldownUntil[c.component := SatAdd(now, COOLDOWN)])
  }

  function ProposeCandidate(l: Ledger, p: Proposal, now: int): Ledger {
    if !Proposes(l, p, now) || CandidateIdFor(p) in l.candidates then l
    else Admit(l, p, ValidateProposal(p, l.policy).value, now)
  }

  function ProposeDecision(l: Ledger, p: Proposal, now: int): Option<CandidateDecision> {
    if !l.policy.enabled then Some(CandidateDisabled)
    else if !Proposes(l, p, now) then None
    else
      var v := ValidateProposal(p, l.policy).value;
      var id := CandidateIdFor(p);
      var candidate := if id in l.candidates then l.candidates[id] else NewCandidate(l, l.cases[p.caseId], p, v);
      Some(if v.fixtureGatePassed then StartsCanary(candidate.version, candidate.digest)
           else FixtureRejected(v.hardFailure))
  }

  predicate Assigns(l: Ledger, caseId: CaseId, a: Admission) {
    && l.policy.enabled
    && a.taskId !in l.assignments
    && caseId in l.cases
    && var c := l.cases[caseId];
    && c.phase == Canary
    && SatSub(a.now, c.createdAt) < CASE_EXPIRY
    && a.optedIn && a.readOnly && a.isNew
    && a.cohort == c.cohort
    && c.candidateId.Some? && c.candidateId.value in l.candidates
  }

  /** `bucket` is the stable hash of (case, task) into `0..99`. */
  function NewAssignment(l: Ledger, caseId: CaseId, a: Admission, bucket: nat): Assignment
    requires Assigns(l, caseId, a)
  {
    var candidate := l.candidates[l.cases[caseId].candidateId.value];
    if bucket < CANARY_PERCENT then Assignment(caseId, a.taskId, true, candidate.version, candidate.digest, false)
    else Assignment(caseId, a.taskId, false, candidate.rollbackVersion, l.cases[caseId].cohort.configDigest, false)
  }

  function AssignCanary(l: Ledger, caseId: CaseId, a: Admission, bucket: nat): Ledger {
    if !Assigns(l, caseId, a) then l
    else l.(assignments := l.assignments[a.taskId := NewAssignment(l, caseId, a, bucket)])
  }

  function AssignDecision(l: Ledger, caseId: CaseId, a: Admission, bucket: nat): CanaryDecision {
    if !l.policy.enabled then CanaryDisabled
    else if a.taskId in l.assignments && l.assignments[a.taskId].caseId == caseId then
      Assigned(l.assignments[a.taskId].(replayed := true))
    else if Assigns(l, caseId, a) then Assigned(NewAssignment(l, caseId, a, bucket))
    else NotEligible
  }

  /** The version a promoted case configures: its candidate's, or the parent's if the candidate is missing. */
  function ConfigVersion(l: Ledger, id: CaseId): int
    requires id in l.cases
  {
    var c := l.cases[id];
    if c.candidateId.Some? && c.candidateId.value in l.candidates then l.candidates[c.candidateId.value].version
    else c.parentVersion
  }

  /** The observed tasks assigned to one arm of a case. */
  function ArmTasks(l: Ledger, caseId: CaseId, candidate: bool): set<string> {
    set t | && t in l.assignments && l.assignments[t].caseId == caseId
            && l.assignments[t].candidate == candidate && t in l.observations
  }

  function LatencyOf(l: Ledger): map<string, int> {
    map t | t in l.observations :: if l.observations[t].latency.Some? then l.observations[t].latency.value else 0
  }

  function TokensOf(l: Ledger): map<string, int> {
    map t | t in l.observations :: if l.observations[t].tokenCost.Some? then l.observations[t].tokenCost.value else 0
  }

  function ViolationsOf(l: Ledger): map<string, int> {
    map t | t in l.observations :: l.observations[t].safetyViolations
  }

  predicate Unmeasured(o: Observation) {
    o.latency.None? || o.tokenCost.None?
  }

  lemma ArmSumsAreNonNegative(l: Ledger, tasks: set<string>)
    requires tasks <= l.observations.Keys
    ensures Sum(tasks, LatencyOf(l)) >= 0 && Sum(tasks, TokensOf(l)) >= 0 && Sum(tasks, ViolationsOf(l)) >= 0
    decreases |tasks|
  {
    if tasks != {} {
      var t :| t in tasks;
      SumPick(tasks, LatencyOf(l), t);
      SumPick(tasks, TokensOf(l), t);
      SumPick(tasks, ViolationsOf(l), t);
      ArmSumsAreNonNegative(l, tasks - {t});
    }
  }

  function Successes(l: Ledger, tasks: set<string>): set<string>
    requires tasks <= l.observations.Keys
  {
    set t | t in tasks && l.observations[t].success
  }

  /** The totals of a set of observed tasks. */
  ghost function Totals(l: Ledger, tasks: set<string>): ArmMetrics
    requires tasks <= l.observations.Keys
  {
    ArmSumsAreNonNegative(l, tasks);
    ArmMetrics(|tasks|,
               |Successes(l, tasks)|,
               Sum(tasks, LatencyOf(l)),
               Sum(tasks, TokensOf(l)),
               exists t :: t in tasks && Unmeasured(l.observations[t]),
               Sum(tasks, ViolationsOf(l)))
  }

  ghost function Arm(l: Ledger, caseId: CaseId, candidate: bool): ArmMetrics {
    Totals(l, ArmTasks(l, caseId, candidate))
  }

  /** The rollback count of the component after one more rollback of `c`. */
  function CountAfter(l: Ledger, c: CaseRecord): nat {
    Min((if c.component in l.rollbackCounts then l.rollbackCounts[c.component] else c.rollbackCount) + 1, U32_MAX)
  }

  function RollbackCase(l: Ledger, id: CaseId, now: int): Ledger
    requires id in l.cases
  {
    var c := l.cases[id];
    var count := CountAfter(l, c);
    l.(rollbackCounts := l.rollbackCounts[c.component := count],
       cases := l.cases[id := c.(rollbackCount := count, phase := if count >= 2 then Frozen else RolledBack)],
       activeVersions := l.activeVersions[c.component := c.parentVersion],
       cooldownUntil := l.cooldownUntil[c.component := SatAdd(now, COOLDOWN)])
  }

  function Promote(l: Ledger, id: CaseId, now: int): Ledger
    requires id in l.cases
  {
    var c := l.cases[id];
    l.(cases := l.cases[id := c.(phase := Promoted)],
       activeVersions := l.activeVersions[c.component := ConfigVersion(l, id)],
       cooldownUntil := l.cooldownUntil[c.component := SatAdd(now, COOLDOWN)])
  }

  datatype Verdict = Hold(reason: EvaluationDecision) | Promotes | RollsBack

  function CanaryVerdict(c: CaseRecord, candidate: ArmMetrics, control: ArmMetrics, now: int): Verdict {
    if c.candidateId.None? then Hold(WaitingForSamples(0, 0))
    else if candidate.safetyViolations != 0 then RollsBack
    else if candidate.samples < MIN_CANARY_SAMPLES_PER_ARM || control.samples < MIN_CANARY_SAMPLES_PER_ARM
    then Hold(WaitingForSamples(candidate.samples, control.samples))
    else if candidate.missingMetrics || control.missingMetrics then Hold(MissingMetrics)
    else if c.canaryStartedAt.None? || SatSub(now, c.canaryStartedAt.value) < MIN_CANARY_AGE then Hold(WaitingForTime)
    else
      match CompareArms(candidate, control)
      case Pass => Promotes
      case Missing => Hold(MissingMetrics)
      case _ => RollsBack
  }

  /** The decision reported for a case that has already ended. */
  function Settled(l: Ledger, id: CaseId): EvaluationDecision
    requires id in l.cases
  {
    var c := l.cases[id];
    match c.phase
    case Promoted => WasPromoted(ConfigVersion(l, id))
    case RolledBack => WasRolledBack(c.parentVersion, c.rollbackCount)
    case Frozen => WasFrozen(c.parentVersion, c.rollbackCount)
    case _ => WaitingForSamples(0, 0)
  }

  ghost function EvaluationVerdict(l: Ledger, id: CaseId, now: int): Verdict {
    if id !in l.cases then Hold(WaitingForSamples(0, 0))
    else if l.cases[id].phase == Canary then CanaryVerdict(l.cases[id], Arm(l, id, true), Arm(l, id, false), now)
    else Hold(Settled(l, id))
  }

  function RollbackVerdict(l: Ledger, id: CaseId, target: int): Verdict {
    if id !in l.cases || target != l.cases[id].parentVersion then Hold(WaitingForSamples(0, 0))
    else if l.cases[id].phase == Canary || l.cases[id].phase == Promoted then RollsBack
    else Hold(Settled(l, id))
  }

  function Enact(l: Ledger, id: CaseId, verdict: Verdict, now: int): Ledger
    requires !verdict.Hold? ==> id in l.cases
  {
    match verdict
    case Hold(_) => l
    case Promotes => Promote(l, id, now)
    case RollsBack => RollbackCase(l, id, now)
  }

  function EnactDecision(l: Ledger, id: CaseId, verdict: Verdict, now: int): EvaluationDecision
    requires !verdict.Hold? ==> id in l.cases
  {
    match verdict
    case Hold(reason) => reason
    case _ => Settled(Enact(l, id, verdict, now), id)
  }

  ghost function Evaluate(l: Ledger, id: CaseId, now: int): Ledger {
    if !l.policy.enabled then l
    else
      var e := Expire(l, now);
      Enact(e, id, EvaluationVerdict(e, id, now), now)
  }

  ghost function EvaluateDecision(l: Ledger, id: CaseId, now: int): EvaluationDecision {
    if !l.policy.enabled then EvaluationDisabled
    else
      var e := Expire(l, now);
      EnactDecision(e, id, EvaluationVerdict(e, id, now), now)
  }

  function RequestRollback(l: Ledger, id: CaseId, target: int, now: int): Ledger {
    if !l.policy.enabled then l
    else
      var e := Expire(l, now);
      Enact(e, id, RollbackVerdict(e, id, target), now)
  }

  function RollbackDecision(l: Ledger, id: CaseId, target: int, now: int): EvaluationDecision {
    if !l.policy.enabled then EvaluationDisabled
    else
      var e := Expire(l, now);
      EnactDecision(e, id, RollbackVerdict(e, id, target), now)
  }

  // ---------- commands as data ----------

  datatype Command =
    | SetEnabled(enabled: bool)
    | ObserveTask(observation: Observation)
    | OpenCase(input: Observation, now: int)
    | Propose(proposal: Proposal, now: int)
    | Assign(caseId: CaseId, admission: Admission, bucket: nat)
    | EvaluateCase(caseId: CaseId, now: int)
    | Rollback(caseId: CaseId, target: int, now: int)

  ghost function Apply(l: Ledger, cmd: Command): Ledger {
    match cmd
    case SetEnabled(enabled) => l.(policy := l.policy.(enabled := enabled))
    case ObserveTask(o) => Observe(l, o)
    case OpenCase(o, now) => OpenEligibleCase(l, o, now)
    case Propose(p, now) => ProposeCandidate(l, p, now)
    case Assign(id, a, bucket) => AssignCanary(l, id, a, bucket)
    case EvaluateCase(id, now) => Evaluate(l, id, now)
    case Rollback(id, target, now) => RequestRollback(l, id, target, now)
  }

  /** The ledger after a run of commands on a fresh engine. */
  ghost function Exec(policy: Policy, cmds: seq<Command>): Ledger {
    if cmds == [] then Init(policy) else Apply(Exec(policy, cmds[..|cmds| - 1]), cmds[|cmds| - 1])
  }
}
