/**
 What happens at the end of the 64-bit version space: the run on which a new
 candidate gets the very version of its parent.
 */
module ImprovementExhaustion {
  import opened Common
  import opened ImprovementLedger

  /** Three failed tasks of one signature under the last possible configuration version. */
  predicate LastVersionFailures(a: Observation, b: Observation, c: Observation) {
    && ValidObservation(a) && ValidObservation(b) && ValidObservation(c)
    && a.taskId != b.taskId && a.taskId != c.taskId && b.taskId != c.taskId
    && !c.success && a.component == b.component == c.component && a.cohort == b.cohort == c.cohort
    && a.failureSignature == b.failureSignature == c.failureSignature
    && c.cohort.configVersion == I64_MAX
  }

  /** The proposal answers the case that `c` triggers. */
  predicate Answers(policy: Policy, p: Proposal, c: Observation) {
    && SignatureKey(c).Some? && p.caseId == CaseIdFor(c, SignatureKey(c).value)
    && ValidateProposal(p, policy).Some?
  }

  function Observed(policy: Policy, observations: map<string, Observation>): Ledger {
    Init(policy).(observations := observations, nextVersion := I64_MAX)
  }

  lemma NothingExpires(l: Ledger, now: int)
    requires l.cases == map[]
    ensures Expire(l, now) == l
  {
    assert ExpiredCases(l, now) == {};
    assert ComponentsOf(l.cases, {}) == {};
    assert RestartAll(l.cooldownUntil, {}, now) == l.cooldownUntil;
  }

  lemma ObserveOne(policy: Policy, l: Ledger, observations: map<string, Observation>, o: Observation)
    requires l == Init(policy).(observations := observations, nextVersion := l.nextVersion) && l.nextVersion <= I64_MAX
    requires policy.enabled && ValidObservation(o) && o.cohort.configVersion == I64_MAX && o.taskId !in observations
    ensures Apply(l, ObserveTask(o)) == Observed(policy, observations[o.taskId := o])
  {
    NothingExpires(l, o.reviewedAt);
  }

  /** Three matching failures make the case eligible. */
  lemma TrioOpens(policy: Policy, l: Ledger, a: Observation, b: Observation, c: Observation)
    requires LastVersionFailures(a, b, c)
    requires l == Observed(policy, map[a.taskId := a, b.taskId := b, c.taskId := c])
    ensures SignatureKey(c).Some? && Opens(l, c)
  {
    var ids := {a.taskId, b.taskId, c.taskId};
    assert Comparable(l, c.component, c.cohort) == ids;
    forall t | t in ids ensures |Earlier(l, ids, t)| < ELIGIBILITY_WINDOW {
      SubsetSize(Earlier(l, ids, t), ids);
    }
    assert Window(l, c.component, c.cohort) == ids;
    assert MatchingFailures(l, c.component, c.cohort, SignatureKey(c).value) == ids;
  }

  function TheRun(a: Observation, b: Observation, c: Observation, p: Proposal, now: int): seq<Command> {
    [ObserveTask(a), ObserveTask(b), ObserveTask(c), OpenCase(c, now), Propose(p, now)]
  }

  lemma RunUntilObserved(policy: Policy, a: Observation, b: Observation, c: Observation)
    requires policy.enabled && LastVersionFailures(a, b, c)
    ensures Exec(policy, [ObserveTask(a), ObserveTask(b), ObserveTask(c)]) ==
            Observed(policy, map[a.taskId := a, b.taskId := b, c.taskId := c])
  {
    var x, y, z := ObserveTask(a), ObserveTask(b), ObserveTask(c);
    assert [x, y, z][..2] == [x, y] && [x, y][..1] == [x] && [x][..0] == [];
    assert Exec(policy, [x]) == Apply(Init(policy), x);
    ObserveOne(policy, Init(policy), map[], a);
    assert map[][a.taskId := a] == map[a.taskId := a];
    ObserveOne(policy, Exec(policy, [x]), map[a.taskId := a], b);
    ObserveOne(policy, Exec(policy, [x, y]), map[a.taskId := a][b.taskId := b], c);
    assert map[a.taskId := a][b.taskId := b][c.taskId := c] == map[a.taskId := a, b.taskId := b, c.taskId := c];
  }

  lemma OpenStep(policy: Policy, l: Ledger, observations: map<string, Observation>, c: Observation, now: int)
    requires l == Observed(policy, observations) && policy.enabled && ValidObservation(c) && Opens(l, c)
    ensures Apply(l, OpenCase(c, now)) == Open(l, c, now)
  {
    NothingExpires(l, now);
  }

  lemma ProposeStep(policy: Policy, observations: map<string, Observation>, c: Observation, l: Ledger, p: Proposal,
                    now: int)
    requires policy.enabled && c.cohort.configVersion == I64_MAX && Answers(policy, p, c)
    requires l == Open(Observed(policy, observations), c, now)
    ensures var after := Apply(l, Propose(p, now));
            && CandidateIdFor(p) in after.candidates
            && after.candidates[CandidateIdFor(p)].version == I64_MAX
                 == after.candidates[CandidateIdFor(p)].parentVersion
  {
    assert l.cases[p.caseId] == NewCase(Observed(policy, observations), c, now);
    assert Proposes(l, p, now);
  }

  /** After such a run the new candidate's version is its parent's: it is not above it. */
  lemma ExhaustedVersionIsReused(policy: Policy, a: Observation, b: Observation, c: Observation, p: Proposal, now: int)
    requires policy.enabled && LastVersionFailures(a, b, c) && Answers(policy, p, c)
    ensures var l := Exec(policy, TheRun(a, b, c, p, now));
            && CandidateIdFor(p) in l.candidates
            && l.candidates[CandidateIdFor(p)].version == I64_MAX == l.candidates[CandidateIdFor(p)].parentVersion
  {
    var run := TheRun(a, b, c, p, now);
    var observations := map[a.taskId := a, b.taskId := b, c.taskId := c];
    var l := Observed(policy, observations);
    RunUntilObserved(policy, a, b, c);
    TrioOpens(policy, l, a, b, c);
    OpenStep(policy, l, observations, c, now);
    ProposeStep(policy, observations, c, Open(l, c, now), p, now);
    assert run[..4][..3] == [ObserveTask(a), ObserveTask(b), ObserveTask(c)];
    assert Exec(policy, run[..4]) == Apply(l, OpenCase(c, now));
  }

  /** Such a run exists. */
  lemma VersionsCanRunOut() returns (policy: Policy, cmds: seq<Command>, id: CandidateId)
    ensures id in Exec(policy, cmds).candidates
    ensures Exec(policy, cmds).candidates[id].version <= Exec(policy, cmds).candidates[id].parentVersion
  {
    policy := Policy(true, {"x"}, {}, {}, {}, {});
    var cohort := Cohort("adapter", "v", I64_MAX, OfCandidate(0, "planner", Quality, "x"));
    var signature := FailureSignature("stage", "class", "bucket", "code");
    var a := Observation("a", "planner", cohort, 0, false, Some(signature), None, None, 0);
    var b, c := a.(taskId := "b"), a.(taskId := "c");
    var fixtures := seq(10, i requires 0 <= i < 10 => FixtureOutcome([('0' as int + i) as char], true, 0));
    var p := Proposal(CaseIdFor(c, signature), PromptComposition, Some("x"), "why", fixtures);
    forall i, j | 0 <= i < j < 10 ensures fixtures[i].fixtureId != fixtures[j].fixtureId {
      assert fixtures[i].fixtureId[0] != fixtures[j].fixtureId[0];
    }
    assert a.taskId[0] == 'a' && b.taskId[0] == 'b' && c.taskId[0] == 'c';
    ExhaustedVersionIsReused(policy, a, b, c, p, 0);
    cmds := TheRun(a, b, c, p, 0);
    id := CandidateIdFor(p);
  }
}
