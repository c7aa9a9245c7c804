/**
 The engine object: tables updated in place by commands, each proved against the
 corresponding function of the ledger. The loops (expiry, the eligibility window,
 the fixture scan, the arm totals) are those of the source.
 */
module ImprovementEngines {
  import opened Common
  import opened ArmComparison
  import opened ImprovementLedger
  import opened ImprovementInvariant

  // ---------- the eligibility window as a sorted, truncated list ----------

  lemma {:induction false} TextBeforeTotal(a: string, b: string)
    ensures TextBefore(a, b) || a == b || TextBefore(b, a)
    ensures !(TextBefore(a, b) && TextBefore(b, a))
    ensures !TextBefore(a, a)
  {
    if a != [] && b != [] && a[0] == b[0] {
      TextBeforeTotal(a[1..], b[1..]);
      assert a == [a[0]] + a[1..] && b == [b[0]] + b[1..];
    }
    if a != [] {
      TextBeforeTotal(a[1..], a[1..]);
    }
  }

  lemma {:induction false} TextBeforeTransitive(a: string, b: string, c: string)
    requires TextBefore(a, b) && TextBefore(b, c)
    ensures TextBefore(a, c)
  {
    if a != [] && a[0] == b[0] && b[0] == c[0] {
      TextBeforeTransitive(a[1..], b[1..], c[1..]);
    }
  }

  ghost predicate Ranked(observations: map<string, Observation>, s: seq<string>) {
    && (forall i :: 0 <= i < |s| ==> s[i] in observations)
    && (forall i, j :: 0 <= i < j < |s| ==> Precedes(observations[s[i]], observations[s[j]]))
  }

  ghost predicate TaskKeyed(observations: map<string, Observation>) {
    forall t :: t in observations ==> observations[t].taskId == t
  }

  function Elements(s: seq<string>): set<string> {
    set i | 0 <= i < |s| :: s[i]
  }

  lemma PrecedesOrder(a: Observation, b: Observation, c: Observation)
    ensures Precedes(a, b) && Precedes(b, c) ==> Precedes(a, c)
    ensures a.taskId != b.taskId ==> Precedes(a, b) || Precedes(b, a)
    ensures !(Precedes(a, b) && Precedes(b, a))
    ensures !Precedes(a, a)
  {
    TextBeforeTotal(a.taskId, b.taskId);
    TextBeforeTotal(a.taskId, a.taskId);
    if TextBefore(a.taskId, b.taskId) && TextBefore(b.taskId, c.taskId) {
      TextBeforeTransitive(a.taskId, b.taskId, c.taskId);
    }
  }

  lemma RankedIsDistinct(observations: map<string, Observation>, s: seq<string>, i: nat, j: nat)
    requires Ranked(observations, s) && i < j < |s|
    ensures s[i] != s[j]
  {
    PrecedesOrder(observations[s[i]], observations[s[j]], observations[s[j]]);
  }

  lemma {:induction false} RankedSize(observations: map<string, Observation>, s: seq<string>)
    requires Ranked(observations, s)
    ensures |Elements(s)| == |s|
  {
    if s != [] {
      var front, last := s[..|s| - 1], s[|s| - 1];
      RankedSize(observations, front);
      forall i | 0 <= i < |front| ensures front[i] != last {
        RankedIsDistinct(observations, s, i, |s| - 1);
      }
      assert forall i :: 0 <= i < |s| ==> s[i] == last || s[i] == front[i];
      assert Elements(s) == Elements(front) + {last};
    }
  }

  /** In a ranked list of the comparable tasks, exactly the earlier entries precede an entry. */
  lemma RankIsIndex(l: Ledger, tasks: set<string>, s: seq<string>, i: nat)
    requires Ranked(l.observations, s) && Elements(s) == tasks && i < |s|
    ensures tasks <= l.observations.Keys
    ensures Earlier(l, tasks, s[i]) == Elements(s[..i])
    ensures |Earlier(l, tasks, s[i])| == i
  {
    forall t | t in tasks
      ensures t in l.observations && (Precedes(l.observations[t], l.observations[s[i]]) <==> t in Elements(s[..i]))
    {
      var j :| 0 <= j < |s| && s[j] == t;
      PrecedesOrder(l.observations[s[i]], l.observations[s[j]], l.observations[s[i]]);
      if j < i {
        assert s[..i][j] == t;
      }
    }
    assert Elements(s[..i]) <= tasks;
    RankedSize(l.observations, s[..i]);
  }

  /** Truncating the ranked list yields the window. */
  lemma TruncationIsWindow(l: Ledger, component: string, cohort: Cohort, s: seq<string>)
    requires Ranked(l.observations, s) && Elements(s) == Comparable(l, component, cohort)
    ensures Window(l, component, cohort) == Elements(s[..Min(|s|, ELIGIBILITY_WINDOW)])
  {
    var tasks, kept := Comparable(l, component, cohort), s[..Min(|s|, ELIGIBILITY_WINDOW)];
    forall t | t in tasks ensures |Earlier(l, tasks, t)| < ELIGIBILITY_WINDOW <==> t in Elements(kept) {
      var i :| 0 <= i < |s| && s[i] == t;
      RankIsIndex(l, tasks, s, i);
      if i < |kept| {
        assert kept[i] == t;
      } else if t in Elements(kept) {
        var k :| 0 <= k < |kept| && kept[k] == t;
        RankedIsDistinct(l.observations, s, k, i);
      }
    }
    assert Elements(kept) <= tasks;
  }

  /** Inserts a task into a ranked list, newest review first. */
  method InsertRanked(observations: map<string, Observation>, s: seq<string>, t: string) returns (r: seq<string>)
    requires TaskKeyed(observations) && Ranked(observations, s) && t in observations && t !in s
    ensures Ranked(observations, r) && Elements(r) == Elements(s) + {t}
  {
    var p := 0;
    while p < |s| && Precedes(observations[s[p]], observations[t])
      invariant p <= |s|
      invariant forall i :: 0 <= i < p ==> Precedes(observations[s[i]], observations[t])
    {
      p := p + 1;
    }
    r := s[..p] + [t] + s[p..];
    forall i | p <= i < |s| ensures Precedes(observations[t], observations[s[i]]) {
      PrecedesOrder(observations[t], observations[s[p]], observations[s[i]]);
    }
    forall u ensures u in Elements(r) <==> u in Elements(s) + {t} {
      assert u in Elements(r) <==> u in r;
      assert u in Elements(s) <==> u in s;
      assert s == s[..p] + s[p..];
    }
  }

  /** `comparable_observations`: filter, rank, truncate. */
  method ComparableObservations(l: Ledger, component: string, cohort: Cohort) returns (window: seq<string>)
    requires TaskKeyed(l.observations)
    ensures Elements(window) == Window(l, component, cohort) && Ranked(l.observations, window)
    ensures |window| == |Window(l, component, cohort)|
  {
    var ranked: seq<string> := [];
    var todo := l.observations.Keys;
    while todo != {}
      invariant todo <= l.observations.Keys
      invariant Ranked(l.observations, ranked)
      invariant Elements(ranked) == Comparable(l, component, cohort) - todo
    {
      var t :| t in todo;
      todo := todo - {t};
      if l.observations[t].component == component && l.observations[t].cohort == cohort {
        assert t !in Elements(ranked);
        ranked := InsertRanked(l.observations, ranked, t);
      }
    }
    window := ranked[..Min(|ranked|, ELIGIBILITY_WINDOW)];
    TruncationIsWindow(l, component, cohort, ranked);
    RankedSize(l.observations, window);
  }

  // ---------- arm totals as a running accumulation ----------

  function EmptyArm(): ArmMetrics {
    ArmMetrics(0, 0, 0, 0, false, 0)
  }

  /** One observed sample added to an arm. */
  function AddSample(arm: ArmMetrics, o: Observation): ArmMetrics {
    ArmMetrics(arm.samples + 1,
               arm.successes + (if o.success then 1 else 0),
               arm.latencySum + (if o.latency.Some? then o.latency.value else 0),
               arm.tokenSum + (if o.tokenCost.Some? then o.tokenCost.value else 0),
               arm.missingMetrics || Unmeasured(o),
               arm.safetyViolations + o.safetyViolations)
  }

  lemma SuccessesAdd(l: Ledger, tasks: set<string>, t: string)
    requires tasks <= l.observations.Keys && t in l.observations && t !in tasks
    ensures |Successes(l, tasks + {t})| == |Successes(l, tasks)| + (if l.observations[t].success then 1 else 0)
  {
    if l.observations[t].success {
      assert Successes(l, tasks + {t}) == Successes(l, tasks) + {t};
    } else {
      assert Successes(l, tasks + {t}) == Successes(l, tasks);
    }
  }

  lemma TotalsAdd(l: Ledger, tasks: set<string>, t: string)
    requires tasks <= l.observations.Keys && t in l.observations && t !in tasks
    ensures Totals(l, tasks + {t}) == AddSample(Totals(l, tasks), l.observations[t])
  {
    var more := tasks + {t};
    assert more - {t} == tasks;
    SumPick(more, LatencyOf(l), t);
    SumPick(more, TokensOf(l), t);
    SumPick(more, ViolationsOf(l), t);
    SuccessesAdd(l, tasks, t);
    assert Totals(l, more).missingMetrics == AddSample(Totals(l, tasks), l.observations[t]).missingMetrics;
  }

  lemma ActiveIsUnique(l: Ledger, component: string, id: CaseId, id': CaseId)
    requires OneActive(l.cases) && id in ActiveCases(l.cases, component) && id' in ActiveCases(l.cases, component)
    ensures id == id'
  {
    assert SameSlot(l.cases[id], l.cases[id']);
  }

  lemma ElementsPush(s: seq<string>, i: nat)
    requires i < |s|
    ensures Elements(s[..i + 1]) == Elements(s[..i]) + {s[i]}
  {
    var more := s[..i + 1];
    assert forall k :: 0 <= k < i ==> more[k] == s[..i][k];
    assert more[i] == s[i];
  }

  lemma RollBackOneMore(cases: map<CaseId, CaseRecord>, done: set<CaseId>, id: CaseId)
    requires id in cases
    ensures RollBackAll(cases, done + {id}) == RollBackAll(cases, done)[id := cases[id].(phase := RolledBack)]
  {
  }

  lemma RestartOneMore(cooldownUntil: map<string, int>, done: set<string>, k: string, now: int)
    ensures RestartAll(cooldownUntil, done + {k}, now)
            == RestartAll(cooldownUntil, done, now)[k := SatAdd(now, COOLDOWN)]
  {
  }

  lemma ComponentsOneMore(cases: map<CaseId, CaseRecord>, done: set<CaseId>, id: CaseId)
    requires done <= cases.Keys && id in cases
    ensures ComponentsOf(cases, done + {id}) == ComponentsOf(cases, done) + {cases[id].component}
  {
  }

  lemma NextIsNew(observations: map<string, Observation>, window: seq<string>, i: nat)
    requires Ranked(observations, window) && i < |window|
    ensures window[i] !in Elements(window[..i])
  {
    forall k | 0 <= k < i ensures window[..i][k] != window[i] {
      RankedIsDistinct(observations, window, k, i);
    }
  }

  /** The window entries with the given signature, counted in order. */
  method CountMatching(l: Ledger, window: seq<string>, signature: FailureSignature) returns (count: nat)
    requires Ranked(l.observations, window)
    ensures count == |set t | t in Elements(window) && SignatureKey(l.observations[t]) == Some(signature)|
  {
    count := 0;
    ghost var matched: set<string> := {};
    for i := 0 to |window|
      invariant matched == set t | t in Elements(window[..i]) && SignatureKey(l.observations[t]) == Some(signature)
      invariant count == |matched|
    {
      ElementsPush(window, i);
      NextIsNew(l.observations, window, i);
      if SignatureKey(l.observations[window[i]]) == Some(signature) {
        count := count + 1;
        matched := matched + {window[i]};
      }
    }
    assert window[..|window|] == window;
  }

  lemma KeepsInv(l: Ledger, cmd: Command, r: Ledger)
    requires r == Apply(l, cmd)
    ensures Inv(l) ==> Inv(r)
  {
    if Inv(l) {
      ApplyInv(l, cmd);
    }
  }

  lemma SweepNothing(cases: map<CaseId, CaseRecord>, cooldownUntil: map<string, int>, now: int)
    ensures RollBackAll(cases, {}) == cases
    ensures RestartAll(cooldownUntil, ComponentsOf(cases, {}), now) == cooldownUntil
  {
  }

  class ImprovementEngine {
    var policy: Policy
    var observations: map<string, Observation>
    var cases: map<CaseId, CaseRecord>
    var candidates: map<CandidateId, Candidate>
    var assignments: map<string, Assignment>
    var activeVersions: map<string, int>
    var cooldownUntil: map<string, int>
    var rollbackCounts: map<string, nat>
    var nextVersion: int
    /** The stable hash of (case, task) into `0..99`. */
    const bucketOf: (CaseId, string) -> nat

    function View(): Ledger
      reads this
    {
      Ledger(policy, observations, cases, candidates, assignments, activeVersions, cooldownUntil,
             rollbackCounts, nextVersion)
    }

    /** Kept by every command: `ApplyInv` carries it from each state to the next. */
    ghost predicate Valid()
      reads this
    {
      Inv(View())
    }

    constructor (policy: Policy, bucketOf: (CaseId, string) -> nat)
      ensures Valid() && View() == Init(policy) && this.bucketOf == bucketOf
    {
      this.policy := policy;
      this.bucketOf := bucketOf;
      observations, cases, candidates, assignments := map[], map[], map[], map[];
      activeVersions, cooldownUntil, rollbackCounts, nextVersion := map[], map[], map[], 1;
      new;
      InitInv(policy);
    }

    method SetEnabled(enabled: bool)
      requires Valid()
      modifies this`policy
      ensures View() == Apply(old(View()), Command.SetEnabled(enabled))
      ensures Valid()
    {
      ApplyInv(View(), Command.SetEnabled(enabled));
      policy := policy.(enabled := enabled);
    }

    method ExpireCases(now: int)
      modifies this`cases, this`cooldownUntil
      ensures View() == Expire(old(View()), now)
    {
      ghost var was := View();
      var expired := ExpiredCases(View(), now);
      var todo := expired;
      ghost var done: set<CaseId> := {};
      SweepNothing(cases, cooldownUntil, now);
      while todo != {}
        invariant done + todo == expired && done !! todo
        invariant cases == RollBackAll(was.cases, done)
        invariant cooldownUntil == RestartAll(was.cooldownUntil, ComponentsOf(was.cases, done), now)
      {
        var id :| id in todo;
        RollBackOneMore(was.cases, done, id);
        ComponentsOneMore(was.cases, done, id);
        RestartOneMore(was.cooldownUntil, ComponentsOf(was.cases, done), was.cases[id].component, now);
        todo, done := todo - {id}, done + {id};
        cooldownUntil := cooldownUntil[cases[id].component := SatAdd(now, COOLDOWN)];
        cases := cases[id := cases[id].(phase := RolledBack)];
      }
    }

    method EligibilityFor(o: Observation) returns (decision: ObservationDecision)
      requires OneActive(cases) && TaskKeyed(observations)
      ensures decision == Eligibility(View(), o)
    {
      var key := SignatureKey(o);
      if key.None? {
        return Recorded(1, 0);
      }
      if FrozenCases(cases, o.component) != {} {
        return ComponentFrozen;
      }
      var active := ActiveCases(cases, o.component);
      if active != {} {
        var id :| id in active;
        ghost var chosen :| chosen in active && Eligibility(View(), o) == ActiveCase(chosen);
        ActiveIsUnique(View(), o.component, id, chosen);
        return ActiveCase(id);
      }
      if o.component in cooldownUntil && cooldownUntil[o.component] > o.reviewedAt {
        return CoolingDown;
      }
      var window := ComparableObservations(View(), o.component, o.cohort);
      var matching := CountMatching(View(), window, key.value);
      assert MatchingFailures(View(), o.component, o.cohort, key.value)
          == set t | t in Elements(window) && SignatureKey(observations[t]) == key;
      if matching < ELIGIBILITY_OCCURRENCES {
        return Recorded(|window|, matching);
      }
      return Eligible(CaseIdFor(o, key.value), |window|, matching);
    }

    method RecordTask(o: Observation) returns (decision: ObservationDecision)
      requires OneActive(cases) && TaskKeyed(observations)
      modifies this`nextVersion, this`observations
      ensures View() == if Records(old(View()), o) then Record(old(View()), o) else old(View())
      ensures decision == RecordDecision(old(View()), o)
    {
      if o.taskId in observations {
        if observations[o.taskId] == o {
          decision := EligibilityFor(o);
          return;
        }
        return ConflictingReplay;
      }
      if o.taskId in assignments && !MatchesAssignment(View(), o) {
        return InvalidObservation;
      }
      nextVersion := Max(nextVersion, o.cohort.configVersion);
      observations := observations[o.taskId := o];
      decision := EligibilityFor(o);
    }

    method ObserveTask(o: Observation) returns (decision: ObservationDecision)
      requires Valid()
      modifies this
      ensures View() == Observe(old(View()), o)
      ensures decision == ObserveDecision(old(View()), o)
      ensures Valid()
    {
      ApplyInv(View(), Command.ObserveTask(o));
      if !policy.enabled {
        return ObservationDisabled;
      }
      if !ValidObservation(o) {
        return InvalidObservation;
      }
      ExpireInv(View(), o.reviewedAt);
      ExpireCases(o.reviewedAt);
      decision := RecordTask(o);
    }

    method OpenSwept(o: Observation, now: int) returns (id: Option<CaseId>)
      requires OneActive(cases) && TaskKeyed(observations)
      modifies this`cases, this`activeVersions
      ensures id.Some? <==> Opens(old(View()), o)
      ensures id.Some? ==> View() == Open(old(View()), o, now) && id.value == CaseIdFor(o, SignatureKey(o).value)
      ensures id.None? ==> View() == old(View())
    {
      var decision := EligibilityFor(o);
      EligibleIsOpens(View(), o);
      if !decision.Eligible? {
        return None;
      }
      var signature := SignatureKey(o).value;
      var count := RollbackCountOf(View(), o.component);
      if o.component !in activeVersions {
        activeVersions := activeVersions[o.component := o.cohort.configVersion];
      }
      cases := cases[decision.caseId := CaseRecord(decision.caseId, o.component, o.cohort, signature, now,
                                                   Observing, None, o.cohort.configVersion, None, count)];
      return Some(decision.caseId);
    }

    method OpenEligibleCase(o: Observation, now: int) returns (id: Option<CaseId>)
      requires Valid()
      modifies this
      ensures View() == ImprovementLedger.OpenEligibleCase(old(View()), o, now)
      ensures id == OpenDecision(old(View()), o, now)
      ensures Valid()
    {
      ApplyInv(View(), OpenCase(o, now));
      if !policy.enabled || !ValidObservation(o) {
        return None;
      }
      ExpireInv(View(), now);
      ExpireCases(now);
      id := OpenSwept(o, now);
    }

    method AssignCanary(id: CaseId, a: Admission) returns (decision: CanaryDecision)
      requires Valid()
      modifies this`assignments
      ensures View() == ImprovementLedger.AssignCanary(old(View()), id, a, bucketOf(id, a.taskId))
      ensures decision == AssignDecision(old(View()), id, a, bucketOf(id, a.taskId))
      ensures Valid()
    {
      KeepsInv(View(), Assign(id, a, bucketOf(id, a.taskId)),
               ImprovementLedger.AssignCanary(View(), id, a, bucketOf(id, a.taskId)));
      decision := Draw(id, a);
    }

    method Draw(id: CaseId, a: Admission) returns (decision: CanaryDecision)
      requires Valid()
      modifies this`assignments
      ensures View() == ImprovementLedger.AssignCanary(old(View()), id, a, bucketOf(id, a.taskId))
      ensures decision == AssignDecision(old(View()), id, a, bucketOf(id, a.taskId))
    {
      if !policy.enabled {
        return CanaryDisabled;
      }
      if a.taskId in assignments {
        if assignments[a.taskId].caseId == id {
          return Assigned(assignments[a.taskId].(replayed := true));
        }
        return NotEligible;
      }
      if id !in cases {
        return NotEligible;
      }
      var c := cases[id];
      if || c.phase != Canary || SatSub(a.now, c.createdAt) >= CASE_EXPIRY
         || !a.optedIn || !a.readOnly || !a.isNew || a.cohort != c.cohort {
        return NotEligible;
      }
      if c.candidateId.None? || c.candidateId.value !in candidates {
        return NotEligible;
      }
      var candidate := candidates[c.candidateId.value];
      var isCandidate := bucketOf(id, a.taskId) < CANARY_PERCENT;
      var assignment := Assignment(id, a.taskId, isCandidate,
                                   if isCandidate then candidate.version else candidate.rollbackVersion,
                                   if isCandidate then candidate.digest else c.cohort.configDigest, false);
      assignments := assignments[a.taskId := assignment];
      return Assigned(assignment);
    }

    method ProposeCandidate(p: Proposal, now: int) returns (decision: Option<CandidateDecision>)
      modifies this`nextVersion, this`candidates, this`cases, this`cooldownUntil
      ensures View() == ImprovementLedger.ProposeCandidate(old(View()), p, now)
      ensures decision == ProposeDecision(old(View()), p, now)
      ensures old(Valid()) ==> Valid()
    {
      KeepsInv(View(), Propose(p, now), ImprovementLedger.ProposeCandidate(View(), p, now));
      decision := Gate(p, now);
    }

    method Gate(p: Proposal, now: int) returns (decision: Option<CandidateDecision>)
      modifies this`nextVersion, this`candidates, this`cases, this`cooldownUntil
      ensures View() == ImprovementLedger.ProposeCandidate(old(View()), p, now)
      ensures decision == ProposeDecision(old(View()), p, now)
    {
      if !policy.enabled {
        return Some(CandidateDisabled);
      }
      if p.caseId !in cases {
        return None;
      }
      var c := cases[p.caseId];
      if c.phase != Observing || SatSub(now, c.createdAt) >= CASE_EXPIRY {
        return None;
      }
      var validation := CheckProposal(p, policy);
      if validation.None? {
        return None;
      }
      var v, id := validation.value, CandidateIdFor(p);
      if id in candidates {
        return Some(if v.fixtureGatePassed then StartsCanary(candidates[id].version, candidates[id].digest)
                    else FixtureRejected(v.hardFailure));
      }
      nextVersion := SatAdd(nextVersion, 1);
      var digest := OfCandidate(c.parentVersion, c.component, p.knob, p.value.value);
      candidates := candidates[id := Candidate(id, p.caseId, c.component, p.knob, p.value.value,
                                               c.parentVersion, c.parentVersion, nextVersion, digest,
                                               v.fixtureGatePassed, v.hardFailure)];
      if !v.fixtureGatePassed {
        cases := cases[p.caseId := c.(candidateId := Some(id), phase := RolledBack)];
        cooldownUntil := cooldownUntil[c.component := SatAdd(now, COOLDOWN)];
        return Some(FixtureRejected(v.hardFailure));
      }
      cases := cases[p.caseId := c.(candidateId := Some(id), phase := Canary, canaryStartedAt := Some(now))];
      return Some(StartsCanary(nextVersion, digest));
    }

    method RollBack(id: CaseId, now: int)
      requires id in cases
      modifies this`rollbackCounts, this`cases, this`activeVersions, this`cooldownUntil
      ensures View() == RollbackCase(old(View()), id, now)
    {
      var c := cases[id];
      var before := if c.component in rollbackCounts then rollbackCounts[c.component] else c.rollbackCount;
      var count := Min(before + 1, U32_MAX);
      rollbackCounts := rollbackCounts[c.component := count];
      cases := cases[id := c.(rollbackCount := count, phase := if count >= 2 then Frozen else RolledBack)];
      activeVersions := activeVersions[c.component := c.parentVersion];
      cooldownUntil := cooldownUntil[c.component := SatAdd(now, COOLDOWN)];
    }

    method PromoteCase(id: CaseId, now: int)
      requires id in cases
      modifies this`cases, this`activeVersions, this`cooldownUntil
      ensures View() == Promote(old(View()), id, now)
    {
      var c := cases[id];
      cases := cases[id := c.(phase := Promoted)];
      var version := ConfigVersion(View(), id);
      activeVersions := activeVersions[c.component := version];
      cooldownUntil := cooldownUntil[c.component := SatAdd(now, COOLDOWN)];
    }

    method Carry(id: CaseId, verdict: Verdict, now: int) returns (decision: EvaluationDecision)
      requires !verdict.Hold? ==> id in cases
      modifies this`rollbackCounts, this`cases, this`activeVersions, this`cooldownUntil
      ensures View() == Enact(old(View()), id, verdict, now)
      ensures decision == EnactDecision(old(View()), id, verdict, now)
    {
      match verdict {
        case Hold(reason) => return reason;
        case Promotes => PromoteCase(id, now);
        case RollsBack => RollBack(id, now);
      }
      decision := Settled(View(), id);
    }

    method Evaluate(id: CaseId, now: int) returns (decision: EvaluationDecision)
      modifies this
      ensures View() == ImprovementLedger.Evaluate(old(View()), id, now)
      ensures decision == EvaluateDecision(old(View()), id, now)
      ensures old(Valid()) ==> Valid()
    {
      KeepsInv(View(), EvaluateCase(id, now), ImprovementLedger.Evaluate(View(), id, now));
      decision := Judge(id, now);
    }

    method Judge(id: CaseId, now: int) returns (decision: EvaluationDecision)
      modifies this
      ensures View() == ImprovementLedger.Evaluate(old(View()), id, now)
      ensures decision == EvaluateDecision(old(View()), id, now)
    {
      if !policy.enabled {
        return EvaluationDisabled;
      }
      ExpireCases(now);
      var verdict := Hold(WaitingForSamples(0, 0));
      if id in cases {
        if cases[id].phase == Canary {
          var candidate, control := ArmTotals(View(), id);
          verdict := CanaryVerdict(cases[id], candidate, control, now);
        } else {
          verdict := Hold(Settled(View(), id));
        }
      }
      decision := Carry(id, verdict, now);
    }

    method RequestRollback(id: CaseId, target: int, now: int) returns (decision: EvaluationDecision)
      modifies this
      ensures View() == ImprovementLedger.RequestRollback(old(View()), id, target, now)
      ensures decision == RollbackDecision(old(View()), id, target, now)
      ensures old(Valid()) ==> Valid()
    {
      KeepsInv(View(), Rollback(id, target, now), ImprovementLedger.RequestRollback(View(), id, target, now));
      decision := TakeBack(id, target, now);
    }

    method TakeBack(id: CaseId, target: int, now: int) returns (decision: EvaluationDecision)
      modifies this
      ensures View() == ImprovementLedger.RequestRollback(old(View()), id, target, now)
      ensures decision == RollbackDecision(old(View()), id, target, now)
    {
      if !policy.enabled {
        return EvaluationDisabled;
      }
      ExpireCases(now);
      decision := Carry(id, RollbackVerdict(View(), id, target), now);
    }
  }

  /** Validates a proposal, scanning the fixtures once for malformed or repeated ids. */
  method CheckProposal(p: Proposal, policy: Policy) returns (validation: Option<Validation>)
    ensures validation == ValidateProposal(p, policy)
  {
    if p.hypothesis == [] || |p.hypothesis| > MAX_HYPOTHESIS_LENGTH || |p.fixtures| < MIN_FIXTURE_OUTCOMES {
      return None;
    }
    var seen: set<string> := {};
    var hard, passed := false, true;
    for i := 0 to |p.fixtures|
      invariant seen == set k | 0 <= k < i :: p.fixtures[k].fixtureId
      invariant DistinctFixtures(p.fixtures[..i])
      invariant forall k :: 0 <= k < i ==> ValidToken(p.fixtures[k].fixtureId)
      invariant hard == exists k :: 0 <= k < i && p.fixtures[k].hardInvariantFailures != 0
      invariant passed == forall k :: 0 <= k < i ==> p.fixtures[k].passed
    {
      var fixture := p.fixtures[i];
      if !ValidToken(fixture.fixtureId) || fixture.fixtureId in seen {
        return None;
      }
      seen := seen + {fixture.fixtureId};
      hard := hard || fixture.hardInvariantFailures != 0;
      passed := passed && fixture.passed;
    }
    if p.value.None? || !ValidToken(p.value.value) || p.value.value !in policy.Allowlist(p.knob) {
      return None;
    }
    assert p.fixtures[..|p.fixtures|] == p.fixtures;
    return Some(Validation(passed && !hard, hard));
  }

  lemma EmptyTotals(l: Ledger)
    ensures Totals(l, {}) == EmptyArm()
  {
    assert Successes(l, {}) == {};
  }

  /** The tasks of one arm among those already visited. */
  ghost predicate Visited(l: Ledger, id: CaseId, candidate: bool, todo: set<string>, tasks: set<string>) {
    tasks <= l.observations.Keys && forall t :: t in tasks <==> t in ArmTasks(l, id, candidate) && t !in todo
  }

  /** Folds one visited assignment into the arm it belongs to. */
  lemma VisitTask(l: Ledger, id: CaseId, candidate: bool, todo: set<string>, tasks: set<string>, t: string)
    returns (more: set<string>)
    requires Visited(l, id, candidate, todo, tasks) && t in todo && t in l.assignments
    ensures Visited(l, id, candidate, todo - {t}, more)
    ensures t in ArmTasks(l, id, candidate) ==>
              t in l.observations && Totals(l, more) == AddSample(Totals(l, tasks), l.observations[t])
    ensures t !in ArmTasks(l, id, candidate) ==> more == tasks
  {
    if t in ArmTasks(l, id, candidate) {
      more := tasks + {t};
      TotalsAdd(l, tasks, t);
    } else {
      more := tasks;
    }
  }

  /** Folds the observed assignments of a case into its two arms. */
  method ArmTotals(l: Ledger, id: CaseId) returns (candidate: ArmMetrics, control: ArmMetrics)
    ensures candidate == Arm(l, id, true) && control == Arm(l, id, false)
  {
    candidate, control := EmptyArm(), EmptyArm();
    var todo := l.assignments.Keys;
    ghost var inCandidate, inControl: set<string> := {}, {};
    EmptyTotals(l);
    while todo != {}
      invariant todo <= l.assignments.Keys
      invariant Visited(l, id, true, todo, inCandidate) && Visited(l, id, false, todo, inControl)
      invariant candidate == Totals(l, inCandidate) && control == Totals(l, inControl)
    {
      var t :| t in todo;
      inCandidate := VisitTask(l, id, true, todo, inCandidate, t);
      inControl := VisitTask(l, id, false, todo, inControl, t);
      todo := todo - {t};
      if l.assignments[t].caseId == id && t in l.observations {
        if l.assignments[t].candidate {
          candidate := AddSample(candidate, l.observations[t]);
        } else {
          control := AddSample(control, l.observations[t]);
        }
      }
    }
    assert inCandidate == ArmTasks(l, id, true) && inControl == ArmTasks(l, id, false);
  }

  /** The reported eligibility is the condition under which a case opens. */
  lemma EligibleIsOpens(l: Ledger, o: Observation)
    ensures Eligibility(l, o).Eligible? <==> Opens(l, o)
  {
  }
}
