/**
 Freezing over whole runs: the frozen cases of a component are counted by its
 rollbacks, frozen is absorbing, and the second rollback closes the component.
 */
module ImprovementFreezing {
  import opened Common
  import opened ImprovementLedger
  import opened ImprovementInvariant
  import opened ImprovementSteps

  /** A live canary or promoted case of the component was taken back between two ledgers. */
  ghost predicate TakesBack(a: map<CaseId, CaseRecord>, b: map<CaseId, CaseRecord>, component: string) {
    exists id ::
      && id in a && a[id].component == component && (a[id].phase == Canary || a[id].phase == Promoted)
      && id in b && Ended(b[id])
  }

  /** The command, beyond its expiry sweep, rolled a case of the component back. */
  ghost predicate RollsBackCase(l: Ledger, cmd: Command, component: string) {
    TakesBack(Swept(l, cmd).cases, Apply(l, cmd).cases, component)
  }

  /** How many commands of the run rolled a case of the component back. */
  ghost function Rollbacks(policy: Policy, cmds: seq<Command>, component: string): nat {
    if cmds == [] then 0
    else
      var before := cmds[..|cmds| - 1];
      Rollbacks(policy, before, component)
      + if RollsBackCase(Exec(policy, before), cmds[|cmds| - 1], component) then 1 else 0
  }

  /** The books of a component after `n` rollbacks. */
  ghost predicate FrozenLaw(cases: map<CaseId, CaseRecord>, counts: map<string, nat>, component: string, n: nat) {
    && (component in counts <==> n > 0)
    && (n > 0 ==> counts[component] == Min(n, U32_MAX))
    && |FrozenCases(cases, component)| == Max(0, n - 1)
    && (n == 0 ==> forall id :: id in cases && cases[id].component == component ==> cases[id].rollbackCount == 0)
  }

  /** The books after an update of `cases` to `r`, one rollback further if it took a case back. */
  ghost predicate LawAfter(cases: map<CaseId, CaseRecord>, r: Ledger, component: string, n: nat) {
    FrozenLaw(r.cases, r.rollbackCounts, component, n + if TakesBack(cases, r.cases, component) then 1 else 0)
  }

  lemma IdleKeepsLaw(s: Ledger, r: Ledger, component: string, n: nat)
    requires FrozenLaw(s.cases, s.rollbackCounts, component, n)
    requires r.cases == s.cases && r.rollbackCounts == s.rollbackCounts
    ensures LawAfter(s.cases, r, component, n)
  {
  }

  lemma SweepKeepsLaw(l: Ledger, now: int, component: string, n: nat)
    requires FrozenLaw(l.cases, l.rollbackCounts, component, n)
    ensures FrozenLaw(Expire(l, now).cases, l.rollbackCounts, component, n)
  {
    var e := Expire(l, now);
    forall id | id in l.cases ensures e.cases[id] == l.cases[id] || e.cases[id] == l.cases[id].(phase := RolledBack)
      ensures e.cases[id].phase == Frozen <==> l.cases[id].phase == Frozen
    {
      ExpireCase(l, now, id);
    }
    assert FrozenCases(e.cases, component) == FrozenCases(l.cases, component);
  }

  /** Storing a record over one that is not frozen leaves the books alone, unless it freezes or takes back. */
  lemma PutKeepsLaw(cases: map<CaseId, CaseRecord>, counts: map<string, nat>, id: CaseId, c: CaseRecord,
                    component: string, n: nat)
    requires FrozenLaw(cases, counts, component, n)
    requires LeavesBooks(cases, id, c)
    requires c.component == component && n == 0 ==> c.rollbackCount == 0
    ensures FrozenLaw(cases[id := c], counts, component, n)
    ensures !TakesBack(cases, cases[id := c], component)
  {
    assert FrozenCases(cases[id := c], component) == FrozenCases(cases, component);
  }

  predicate LeavesBooks(cases: map<CaseId, CaseRecord>, id: CaseId, c: CaseRecord) {
    && c.phase != Frozen
    && (id in cases ==> cases[id].component == c.component && cases[id].phase != Frozen)
    && (id in cases && (cases[id].phase == Canary || cases[id].phase == Promoted) ==> !Ended(c))
  }

  lemma PutsWithLaw(l: Ledger, r: Ledger, id: CaseId, c: CaseRecord, component: string, n: nat)
    requires FrozenLaw(l.cases, l.rollbackCounts, component, n) && LeavesBooks(l.cases, id, c)
    requires c.component == component && n == 0 ==> c.rollbackCount == 0
    requires r.cases == l.cases[id := c] && r.rollbackCounts == l.rollbackCounts
    ensures LawAfter(l.cases, r, component, n)
  {
    PutKeepsLaw(l.cases, l.rollbackCounts, id, c, component, n);
  }

  lemma NotFrozen(cases: map<CaseId, CaseRecord>, id: CaseId)
    requires id in cases && FrozenCases(cases, cases[id].component) == {}
    ensures cases[id].phase != Frozen
  {
    assert id !in FrozenCases(cases, cases[id].component);
  }

  lemma RollbackAdvancesLaw(l: Ledger, id: CaseId, now: int, component: string, n: nat)
    requires KeyedCases(l.cases) && id in l.cases && l.cases[id].phase != Frozen
    requires FrozenLaw(l.cases, l.rollbackCounts, component, n)
    ensures var r := RollbackCase(l, id, now);
            FrozenLaw(r.cases, r.rollbackCounts, component, if l.cases[id].component == component then n + 1 else n)
  {
    var r := RollbackCase(l, id, now);
    assert CaseKeyed(id, l.cases[id]);
    if l.cases[id].component == component {
      if n > 0 {
        assert r.cases[id].phase == Frozen;
        assert FrozenCases(r.cases, component) == FrozenCases(l.cases, component) + {id};
      } else {
        assert FrozenCases(r.cases, component) == FrozenCases(l.cases, component);
      }
    } else {
      assert FrozenCases(r.cases, component) == FrozenCases(l.cases, component);
    }
  }

  lemma OpenKeepsLaw(l: Ledger, o: Observation, now: int, component: string, n: nat)
    requires KeyedCases(l.cases) && FrozenLaw(l.cases, l.rollbackCounts, component, n)
    requires SignatureKey(o).Some? && FrozenCases(l.cases, o.component) == {}
    ensures LawAfter(l.cases, Open(l, o, now), component, n)
  {
    var id := CaseIdFor(o, SignatureKey(o).value);
    if id in l.cases {
      assert CaseKeyed(id, l.cases[id]);
      NotFrozen(l.cases, id);
    }
    PutsWithLaw(l, Open(l, o, now), id, NewCase(l, o, now), component, n);
  }

  lemma AdmitKeepsLaw(l: Ledger, p: Proposal, v: Validation, now: int, component: string, n: nat)
    requires FrozenLaw(l.cases, l.rollbackCounts, component, n)
    requires p.caseId in l.cases && l.cases[p.caseId].phase == Observing && p.value.Some?
    ensures LawAfter(l.cases, Admit(l, p, v, now), component, n)
  {
    var c := Gated(l.cases[p.caseId], CandidateIdFor(p), v.fixtureGatePassed, now);
    PutsWithLaw(l, Admit(l, p, v, now), p.caseId, c, component, n);
  }

  lemma EnactKeepsLaw(l: Ledger, id: CaseId, verdict: Verdict, now: int, component: string, n: nat)
    requires KeyedCases(l.cases) && FrozenLaw(l.cases, l.rollbackCounts, component, n)
    requires !verdict.Hold? ==> id in l.cases && (l.cases[id].phase == Canary || l.cases[id].phase == Promoted)
    ensures LawAfter(l.cases, Enact(l, id, verdict, now), component, n)
  {
    var r := Enact(l, id, verdict, now);
    match verdict
    case Hold(_) =>
    case Promotes =>
      PutsWithLaw(l, r, id, l.cases[id].(phase := Promoted), component, n);
    case RollsBack =>
      RollbackAdvancesLaw(l, id, now, component, n);
      assert Ended(r.cases[id]);
      assert l.cases[id].component == component <==> TakesBack(l.cases, r.cases, component);
  }

  lemma FrozenStepSwept(l: Ledger, cmd: Command, component: string, n: nat)
    requires Inv(l) && FrozenLaw(l.cases, l.rollbackCounts, component, n)
    ensures FrozenLaw(Swept(l, cmd).cases, Swept(l, cmd).rollbackCounts, component, n)
    ensures KeyedCases(Swept(l, cmd).cases)
  {
    if Swept(l, cmd) != l {
      var now := TimeOf(cmd);
      assert Swept(l, cmd) == Expire(l, now);
      SweepKeepsLaw(l, now, component, n);
      ExpireInv(l, now);
    }
  }

  lemma EvaluateKeepsLaw(s: Ledger, id: CaseId, now: int, component: string, n: nat)
    requires KeyedCases(s.cases) && FrozenLaw(s.cases, s.rollbackCounts, component, n)
    ensures LawAfter(s.cases, Enact(s, id, EvaluationVerdict(s, id, now), now), component, n)
  {
    EnactKeepsLaw(s, id, EvaluationVerdict(s, id, now), now, component, n);
  }

  lemma RequestKeepsLaw(s: Ledger, id: CaseId, target: int, now: int, component: string, n: nat)
    requires KeyedCases(s.cases) && FrozenLaw(s.cases, s.rollbackCounts, component, n)
    ensures LawAfter(s.cases, Enact(s, id, RollbackVerdict(s, id, target), now), component, n)
  {
    EnactKeepsLaw(s, id, RollbackVerdict(s, id, target), now, component, n);
  }

  lemma UpdateKeepsLaw(s: Ledger, cmd: Command, component: string, n: nat)
    requires KeyedCases(s.cases) && FrozenLaw(s.cases, s.rollbackCounts, component, n)
    ensures LawAfter(s.cases, Update(s, cmd), component, n)
  {
    IdleKeepsLaw(s, s, component, n);
    match cmd
    case OpenCase(o, now) =>
      if s.policy.enabled && ValidObservation(o) && Opens(s, o) { OpenKeepsLaw(s, o, now, component, n); }
    case Propose(p, now) =>
      if Proposes(s, p, now) && CandidateIdFor(p) !in s.candidates {
        AdmitKeepsLaw(s, p, ValidateProposal(p, s.policy).value, now, component, n);
      }
    case EvaluateCase(id, now) => EvaluateKeepsLaw(s, id, now, component, n);
    case Rollback(id, target, now) => RequestKeepsLaw(s, id, target, now, component, n);
    case _ => IdleKeepsLaw(s, Update(s, cmd), component, n);
  }

  /**
   After every run, a component has one frozen case per rollback beyond the first, and its stored count
   is the number of rollbacks.
   */
  lemma {:induction false} FrozenCountLaw(policy: Policy, cmds: seq<Command>, component: string)
    ensures var l, n := Exec(policy, cmds), Rollbacks(policy, cmds, component);
            && |FrozenCases(l.cases, component)| == Max(0, n - 1)
            && RollbackCountOf(l, component) == Min(n, U32_MAX)
            && FrozenLaw(l.cases, l.rollbackCounts, component, n)
  {
    if cmds == [] {
      assert FrozenCases(Init(policy).cases, component) == {};
    } else {
      var before, cmd := cmds[..|cmds| - 1], cmds[|cmds| - 1];
      var l, n := Exec(policy, before), Rollbacks(policy, before, component);
      FrozenCountLaw(policy, before, component);
      ExecInv(policy, before);
      FrozenStepSwept(l, cmd, component, n);
      UpdateKeepsLaw(Swept(l, cmd), cmd, component, n);
      SweepThenUpdate(l, cmd);
    }
  }

  /** Of the moves only an opening could touch a frozen case. */
  lemma FrozenMoveOpens(s: Ledger, cmd: Command, id: CaseId, c: CaseRecord)
    requires Moves(s, cmd, id, c) && id in s.cases && s.cases[id].phase == Frozen
    ensures OpensAs(s, cmd, id, c)
  {
  }

  lemma MovesSpareFrozen(s: Ledger, cmd: Command, after: map<CaseId, CaseRecord>, id: CaseId)
    requires CasesMove(s, cmd, after)
    requires KeyedCases(s.cases) && id in s.cases && s.cases[id].phase == Frozen
    ensures id in after && after[id] == s.cases[id]
  {
    if Changed(s.cases, after, id) {
      assert CaseKeyed(id, s.cases[id]);
      FrozenMoveOpens(s, cmd, id, after[id]);
      NotFrozen(s.cases, id);
    }
  }

  /** Frozen is absorbing: no later command of any run changes a frozen case. */
  lemma {:induction false} FrozenForever(policy: Policy, cmds: seq<Command>, i: nat, id: CaseId)
    requires i <= |cmds|
    requires id in Exec(policy, cmds[..i]).cases && Exec(policy, cmds[..i]).cases[id].phase == Frozen
    ensures id in Exec(policy, cmds).cases
    ensures Exec(policy, cmds).cases[id] == Exec(policy, cmds[..i]).cases[id]
  {
    if i == |cmds| {
      assert cmds[..i] == cmds;
    } else {
      var before, cmd := cmds[..|cmds| - 1], cmds[|cmds| - 1];
      assert before[..i] == cmds[..i];
      var l := Exec(policy, before);
      FrozenForever(policy, before, i, id);
      ExecInv(policy, before);
      SweptCase(l, cmd, id);
      SweptInv(l, cmd);
      UpdateMoves(Swept(l, cmd), cmd);
      SweepThenUpdate(l, cmd);
      MovesSpareFrozen(Swept(l, cmd), cmd, Apply(l, cmd).cases, id);
    }
  }

  lemma {:induction false} RollbacksOnlyGrow(policy: Policy, cmds: seq<Command>, i: nat, component: string)
    requires i <= |cmds|
    ensures Rollbacks(policy, cmds[..i], component) <= Rollbacks(policy, cmds, component)
  {
    if i == |cmds| {
      assert cmds[..i] == cmds;
    } else {
      assert cmds[..|cmds| - 1][..i] == cmds[..i];
      RollbacksOnlyGrow(policy, cmds[..|cmds| - 1], i, component);
    }
  }

  /** From the second rollback of a component on, no run opens another case for it. */
  lemma NoCaseAfterSecondRollback(policy: Policy, cmds: seq<Command>, i: nat, cmd: Command, component: string)
    requires i <= |cmds| && Rollbacks(policy, cmds[..i], component) >= 2
    ensures !OpensCase(Exec(policy, cmds), cmd, component)
  {
    var l, n := Exec(policy, cmds), Rollbacks(policy, cmds, component);
    RollbacksOnlyGrow(policy, cmds, i, component);
    FrozenCountLaw(policy, cmds, component);
    ExecInv(policy, cmds);
    FrozenStepSwept(l, cmd, component, n);
    SweepThenUpdate(l, cmd);
    UpdateMoves(Swept(l, cmd), cmd);
    if OpensCase(l, cmd, component) {
      OpeningNeedsEligibility(Swept(l, cmd), cmd, Apply(l, cmd).cases, component);
      assert false;
    }
  }
}
