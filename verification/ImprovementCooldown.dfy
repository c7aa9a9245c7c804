/**
 Cooldowns and case identity over whole runs: the cooldown of a component always
 dates from its latest ended case, and under a sane clock a case id is used once.
 */
module ImprovementCooldown {
  import opened Common
  import opened ImprovementLedger
  import opened ImprovementInvariant
  import opened ImprovementSteps

  /** An active case stopped being active, or a promoted case was taken back. */
  predicate Closes(c: CaseRecord, d: CaseRecord) {
    (c.Active() && !d.Active()) || (c.phase == Promoted && Ended(d))
  }

  ghost predicate EndsBetween(a: map<CaseId, CaseRecord>, b: map<CaseId, CaseRecord>, component: string) {
    exists id :: id in a && id in b && a[id].component == component && Closes(a[id], b[id])
  }

  /** The command ended a case of the component: by rejection, promotion, rollback or expiry. */
  ghost predicate EndsCase(l: Ledger, cmd: Command, component: string) {
    || EndsBetween(l.cases, Swept(l, cmd).cases, component)
    || EndsBetween(Swept(l, cmd).cases, Apply(l, cmd).cases, component)
  }

  /** The time of the command that last ended a case of the component. */
  ghost function LastEnd(policy: Policy, cmds: seq<Command>, component: string): Option<int> {
    if cmds == [] then None
    else
      var before, cmd := cmds[..|cmds| - 1], cmds[|cmds| - 1];
      if EndsCase(Exec(policy, before), cmd, component) then Some(TimeOf(cmd)) else LastEnd(policy, before, component)
  }

  ghost predicate CooldownLaw(cooldown: map<string, int>, component: string, last: Option<int>) {
    && (component in cooldown <==> last.Some?)
    && (last.Some? ==> cooldown[component] == SatAdd(last.value, COOLDOWN))
  }

  /** The cooldown entry of a component restarts at `now` if one of its cases ended, and is untouched otherwise. */
  ghost predicate Restarts(before: map<string, int>, after: map<string, int>, component: string, ended: bool,
                           now: int) {
    if ended then component in after && after[component] == SatAdd(now, COOLDOWN)
    else (component in after <==> component in before) && (component in after ==> after[component] == before[component])
  }

  /** What an update does to the cooldown of a component, told from the cases before and after. */
  ghost predicate RestartsWith(s: Ledger, r: Ledger, component: string, now: int) {
    Restarts(s.cooldownUntil, r.cooldownUntil, component, EndsBetween(s.cases, r.cases, component), now)
  }

  lemma SweepRestarts(l: Ledger, now: int, component: string)
    ensures var e := Expire(l, now);
            Restarts(l.cooldownUntil, e.cooldownUntil, component, EndsBetween(l.cases, e.cases, component), now)
  {
    var e := Expire(l, now);
    if EndsBetween(l.cases, e.cases, component) {
      var id :| id in l.cases && id in e.cases && l.cases[id].component == component
               && Closes(l.cases[id], e.cases[id]);
      ExpireCase(l, now, id);
    } else {
      forall id | id in ExpiredCases(l, now) ensures l.cases[id].component != component {
        ExpireCase(l, now, id);
        assert Closes(l.cases[id], e.cases[id]);
      }
    }
  }

  lemma SweptRestarts(l: Ledger, cmd: Command, component: string)
    ensures var s := Swept(l, cmd);
            Restarts(l.cooldownUntil, s.cooldownUntil, component, EndsBetween(l.cases, s.cases, component), TimeOf(cmd))
  {
    if Swept(l, cmd) != l {
      assert Swept(l, cmd) == Expire(l, TimeOf(cmd));
      SweepRestarts(l, TimeOf(cmd), component);
    }
  }

  lemma EnactRestarts(s: Ledger, id: CaseId, verdict: Verdict, now: int, component: string)
    requires !verdict.Hold? ==> id in s.cases && (s.cases[id].phase == Canary
                                         || (verdict.RollsBack? && s.cases[id].phase == Promoted))
    ensures RestartsWith(s, Enact(s, id, verdict, now), component, now)
  {
    var r := Enact(s, id, verdict, now);
    if !verdict.Hold? {
      assert Closes(s.cases[id], r.cases[id]);
      assert forall i :: i in s.cases && i != id ==> r.cases[i] == s.cases[i];
    }
  }

  lemma AdmitRestarts(s: Ledger, p: Proposal, v: Validation, now: int, component: string)
    requires p.caseId in s.cases && s.cases[p.caseId].phase == Observing && p.value.Some?
    ensures RestartsWith(s, Admit(s, p, v, now), component, now)
  {
    var r := Admit(s, p, v, now);
    assert forall i :: i in s.cases && i != p.caseId ==> r.cases[i] == s.cases[i];
    assert Closes(s.cases[p.caseId], r.cases[p.caseId]) <==> !v.fixtureGatePassed;
  }

  lemma OpenEndsNothing(s: Ledger, o: Observation, now: int, component: string)
    requires SignatureKey(o).Some?
    ensures !EndsBetween(s.cases, Open(s, o, now).cases, component)
  {
    var id, r := CaseIdFor(o, SignatureKey(o).value), Open(s, o, now).cases;
    assert forall i :: i in s.cases ==> i == id || r[i] == s.cases[i];
    assert forall i :: i in s.cases ==> !Closes(s.cases[i], r[i]);
  }

  lemma OpenRestarts(s: Ledger, o: Observation, now: int, component: string)
    requires SignatureKey(o).Some?
    ensures RestartsWith(s, Open(s, o, now), component, now)
  {
    OpenEndsNothing(s, o, now, component);
  }

  lemma IdleRestarts(s: Ledger, r: Ledger, component: string, now: int)
    requires r.cases == s.cases && r.cooldownUntil == s.cooldownUntil
    ensures RestartsWith(s, r, component, now)
  {
  }

  lemma EvaluateRestarts(s: Ledger, id: CaseId, now: int, component: string)
    ensures RestartsWith(s, Enact(s, id, EvaluationVerdict(s, id, now), now), component, now)
  {
    EnactRestarts(s, id, EvaluationVerdict(s, id, now), now, component);
  }

  lemma UpdateRestarts(s: Ledger, cmd: Command, component: string)
    ensures RestartsWith(s, Update(s, cmd), component, TimeOf(cmd))
  {
    IdleRestarts(s, s, component, TimeOf(cmd));
    match cmd
    case Propose(p, now) =>
      if Proposes(s, p, now) && CandidateIdFor(p) !in s.candidates {
        AdmitRestarts(s, p, ValidateProposal(p, s.policy).value, now, component);
      }
    case OpenCase(o, now) =>
      if s.policy.enabled && ValidObservation(o) && Opens(s, o) { OpenRestarts(s, o, now, component); }
    case EvaluateCase(id, now) => EvaluateRestarts(s, id, now, component);
    case Rollback(id, target, now) => EnactRestarts(s, id, RollbackVerdict(s, id, target), now, component);
    case _ => IdleRestarts(s, Update(s, cmd), component, TimeOf(cmd));
  }

  /**
   After every run, a component's cooldown is seven days counted from the last command that ended one
   of its cases.
   */
  lemma {:induction false} CooldownDatesFromLastEnd(policy: Policy, cmds: seq<Command>, component: string)
    ensures CooldownLaw(Exec(policy, cmds).cooldownUntil, component, LastEnd(policy, cmds, component))
  {
    if cmds != [] {
      var before, cmd := cmds[..|cmds| - 1], cmds[|cmds| - 1];
      var l := Exec(policy, before);
      CooldownDatesFromLastEnd(policy, before, component);
      SweptRestarts(l, cmd, component);
      UpdateRestarts(Swept(l, cmd), cmd, component);
      SweepThenUpdate(l, cmd);
    }
  }

  /**
   In every run, a case opens only for a trigger reviewed at least seven days after
   the last end of a case of its component, the sweep of the opening command included.
   */
  lemma OpeningWaitsForCooldown(policy: Policy, cmds: seq<Command>, cmd: Command, component: string)
    requires OpensCase(Exec(policy, cmds), cmd, component)
    ensures cmd.OpenCase? && cmd.input.component == component
    ensures var last := LastEnd(policy, cmds + [cmd], component);
            last.Some? ==> cmd.input.reviewedAt >= SatAdd(last.value, COOLDOWN)
  {
    var l := Exec(policy, cmds);
    var s := Swept(l, cmd);
    assert (cmds + [cmd])[..|cmds|] == cmds;
    SweepThenUpdate(l, cmd);
    UpdateMoves(s, cmd);
    OpeningNeedsEligibility(s, cmd, Apply(l, cmd).cases, component);
    CooldownDatesFromLastEnd(policy, cmds, component);
    SweptRestarts(l, cmd, component);
    OpenEndsNothing(s, cmd.input, cmd.now, component);
    assert !CoolingAt(s, component, cmd.input.reviewedAt);
  }

  // ---------- a clock that never goes back ----------

  ghost predicate ClockForward(cmds: seq<Command>) {
    forall i, j :: 0 <= i < j < |cmds| && !cmds[i].SetEnabled? && !cmds[j].SetEnabled?
      ==> TimeOf(cmds[i]) <= TimeOf(cmds[j])
  }

  lemma {:induction false} LastEndIsLatest(policy: Policy, cmds: seq<Command>, j: nat, component: string)
    requires j < |cmds| && ClockForward(cmds) && EndsCase(Exec(policy, cmds[..j]), cmds[j], component)
    ensures var last := LastEnd(policy, cmds, component);
            last.Some? && last.value >= TimeOf(cmds[j])
  {
    var before, cmd := cmds[..|cmds| - 1], cmds[|cmds| - 1];
    if j < |cmds| - 1 {
      assert before[..j] == cmds[..j];
      LastEndIsLatest(policy, before, j, component);
    }
  }

  /** When the clock never goes back, a new case opens at least seven days after every earlier end in its component. */
  lemma SevenDaysApart(policy: Policy, cmds: seq<Command>, cmd: Command, component: string, j: nat)
    requires ClockForward(cmds + [cmd]) && j < |cmds|
    requires EndsCase(Exec(policy, cmds[..j]), cmds[j], component)
    requires OpensCase(Exec(policy, cmds), cmd, component)
    requires cmd.OpenCase? ==> cmd.input.reviewedAt <= cmd.now
    ensures TimeOf(cmd) >= SatAdd(TimeOf(cmds[j]), COOLDOWN)
  {
    var run := cmds + [cmd];
    assert run[..j] == cmds[..j] && run[..|cmds|] == cmds;
    OpeningWaitsForCooldown(policy, cmds, cmd, component);
    LastEndIsLatest(policy, run, j, component);
  }

  // ---------- case ids are used once ----------

  /** Commands that carry the caller's clock, as opposed to a review time. */
  predicate Ticks(cmd: Command) {
    cmd.OpenCase? || cmd.Propose? || cmd.EvaluateCase? || cmd.Rollback?
  }

  /** The latest such clock reading of a run. */
  ghost function Clock(cmds: seq<Command>): int {
    if cmds == [] then I64_MIN
    else
      var before, cmd := cmds[..|cmds| - 1], cmds[|cmds| - 1];
      if Ticks(cmd) then Max(Clock(before), TimeOf(cmd)) else Clock(before)
  }

  /** The clock does not go back, and cases open only from stored observations reviewed in the past. */
  predicate SoundStep(l: Ledger, clock: int, cmd: Command) {
    match cmd
    case OpenCase(o, now) =>
      && clock <= now
      && o.taskId in l.observations && l.observations[o.taskId] == o
      && o.reviewedAt <= now && o.reviewedAt < I64_MAX
    case Propose(_, now) => clock <= now
    case EvaluateCase(_, now) => clock <= now
    case Rollback(_, _, now) => clock <= now
    case _ => true
  }

  ghost predicate Disciplined(policy: Policy, cmds: seq<Command>) {
    cmds == [] ||
    var before := cmds[..|cmds| - 1];
    Disciplined(policy, before) && SoundStep(Exec(policy, before), Clock(before), cmds[|cmds| - 1])
  }

  /** The trigger of the case is on record, predates the case, and once the case has ended is still cooling. */
  predicate Dated(observations: map<string, Observation>, cooldown: map<string, int>, clock: int, id: CaseId,
                  c: CaseRecord) {
    && id.triggerTaskId in observations
    && 0 <= observations[id.triggerTaskId].reviewedAt <= c.createdAt <= clock
    && observations[id.triggerTaskId].reviewedAt < I64_MAX
    && (!c.Active() ==> c.component in cooldown && cooldown[c.component] > observations[id.triggerTaskId].reviewedAt)
  }

  ghost predicate AllDated(observations: map<string, Observation>, cooldown: map<string, int>, clock: int,
                           cases: map<CaseId, CaseRecord>) {
    forall id :: id in cases ==> Dated(observations, cooldown, clock, id, cases[id])
  }

  /** The active case of a component is its newest. */
  ghost predicate ActiveIsNewest(cases: map<CaseId, CaseRecord>) {
    forall id, id' | id in cases && id' in cases ::
      cases[id].Active() && cases[id].component == cases[id'].component ==> cases[id'].createdAt <= cases[id].createdAt
  }

  ghost predicate Chronicle(l: Ledger, clock: int) {
    AllDated(l.observations, l.cooldownUntil, clock, l.cases) && ActiveIsNewest(l.cases)
  }

  lemma CoolsPast(at: int, reviewed: int)
    requires 0 <= reviewed <= at && reviewed < I64_MAX
    ensures SatAdd(at, COOLDOWN) > reviewed
  {
  }

  lemma EndedByExpiry(l: Ledger, now: int, component: string) returns (k: CaseId)
    requires EndsBetween(l.cases, Expire(l, now).cases, component)
    ensures k in l.cases && l.cases[k].component == component && Expired(l.cases[k], now)
  {
    var after := Expire(l, now).cases;
    k :| k in l.cases && k in after && l.cases[k].component == component && Closes(l.cases[k], after[k]);
    ExpireCase(l, now, k);
  }

  lemma ExpiredIsOld(c: CaseRecord, now: int)
    requires Expired(c, now)
    ensures c.createdAt <= now
  {
  }

  /** A sweep that ends a case runs later than the creation of every case of that component. */
  lemma SweepReaches(l: Ledger, now: int, id: CaseId)
    requires ActiveIsNewest(l.cases) && id in l.cases
    requires EndsBetween(l.cases, Expire(l, now).cases, l.cases[id].component)
    ensures l.cases[id].createdAt <= now
  {
    var k := EndedByExpiry(l, now, l.cases[id].component);
    ExpiredIsOld(l.cases[k], now);
  }

  lemma SweepDated(l: Ledger, now: int, clock: int, id: CaseId)
    requires Chronicle(l, clock) && id in l.cases
    ensures Dated(l.observations, Expire(l, now).cooldownUntil, clock, id, Expire(l, now).cases[id])
  {
    var e, c := Expire(l, now), l.cases[id];
    assert Dated(l.observations, l.cooldownUntil, clock, id, c);
    ExpireCase(l, now, id);
    SweepRestarts(l, now, c.component);
    if EndsBetween(l.cases, e.cases, c.component) {
      SweepReaches(l, now, id);
      CoolsPast(now, l.observations[id.triggerTaskId].reviewedAt);
    } else {
      assert !Closes(c, e.cases[id]);
    }
  }

  lemma SweepChronicle(l: Ledger, now: int, clock: int)
    requires Chronicle(l, clock)
    ensures Chronicle(Expire(l, now), clock)
  {
    var e := Expire(l, now);
    forall id | id in e.cases ensures Dated(e.observations, e.cooldownUntil, clock, id, e.cases[id]) {
      SweepDated(l, now, clock, id);
    }
    forall id, id' | id in e.cases && id' in e.cases && e.cases[id].Active()
        && e.cases[id].component == e.cases[id'].component
      ensures e.cases[id'].createdAt <= e.cases[id].createdAt
    {
      ExpireCase(l, now, id);
      ExpireCase(l, now, id');
    }
  }

  ghost predicate Grows(before: map<string, Observation>, after: map<string, Observation>) {
    forall t :: t in before ==> t in after && after[t] == before[t]
  }

  /** A changed record that is still the same case keeps its trigger, creation time and component. */
  lemma MovedCase(s: Ledger, cmd: Command, id: CaseId, c: CaseRecord)
    requires Moves(s, cmd, id, c) && !OpensAs(s, cmd, id, c)
    ensures id in s.cases && c.createdAt == s.cases[id].createdAt && c.component == s.cases[id].component
    ensures c.Active() ==> s.cases[id].Active()
    ensures !c.Active() ==> Closes(s.cases[id], c)
    ensures Ticks(cmd)
  {
  }

  lemma MoveDated(s: Ledger, cmd: Command, r: Ledger, clock: int, id: CaseId)
    requires AllDated(s.observations, s.cooldownUntil, clock, s.cases) && SoundStep(s, clock, cmd)
    requires CasesMove(s, cmd, r.cases) && Grows(s.observations, r.observations) && id in r.cases
    requires RestartsWith(s, r, r.cases[id].component, TimeOf(cmd))
    requires EndsBetween(s.cases, r.cases, r.cases[id].component) ==> Ticks(cmd)
    ensures Dated(r.observations, r.cooldownUntil, if Ticks(cmd) then Max(clock, TimeOf(cmd)) else clock,
                  id, r.cases[id])
  {
    var c := r.cases[id];
    if Changed(s.cases, r.cases, id) && OpensAs(s, cmd, id, c) {
      assert s.observations[cmd.input.taskId] == cmd.input;
    } else {
      if Changed(s.cases, r.cases, id) { MovedCase(s, cmd, id, c); }
      assert Dated(s.observations, s.cooldownUntil, clock, id, s.cases[id]);
      if EndsBetween(s.cases, r.cases, c.component) {
        CoolsPast(TimeOf(cmd), s.observations[id.triggerTaskId].reviewedAt);
      } else {
        assert c.Active() || !s.cases[id].Active();
      }
    }
  }

  lemma MoveNewest(s: Ledger, cmd: Command, after: map<CaseId, CaseRecord>, clock: int)
    requires Chronicle(s, clock) && SoundStep(s, clock, cmd) && CasesMove(s, cmd, after)
    ensures ActiveIsNewest(after)
  {
    forall id, id' | id in after && id' in after && after[id].Active() && after[id].component == after[id'].component
      ensures after[id'].createdAt <= after[id].createdAt
    {
      if Changed(s.cases, after, id) && !OpensAs(s, cmd, id, after[id]) { MovedCase(s, cmd, id, after[id]); }
      if Changed(s.cases, after, id') && !OpensAs(s, cmd, id', after[id']) { MovedCase(s, cmd, id', after[id']); }
      assert id in s.cases ==> Dated(s.observations, s.cooldownUntil, clock, id, s.cases[id]);
      assert id' in s.cases ==> Dated(s.observations, s.cooldownUntil, clock, id', s.cases[id']);
      assert id in s.cases && s.cases[id].Active() ==> id in ActiveCases(s.cases, s.cases[id].component);
    }
  }

  lemma TablesGrow(s: Ledger, cmd: Command, r: Ledger)
    requires TablesStep(s, cmd, r)
    ensures Grows(s.observations, r.observations)
  {
  }

  lemma UpdateGrows(s: Ledger, cmd: Command)
    ensures Grows(s.observations, Update(s, cmd).observations)
  {
    UpdateTables(s, cmd);
    TablesGrow(s, cmd, Update(s, cmd));
  }

  lemma IdleEndsNothing(s: Ledger, cmd: Command, component: string)
    requires !Ticks(cmd)
    ensures !EndsBetween(s.cases, Update(s, cmd).cases, component)
  {
    assert Update(s, cmd).cases == s.cases;
  }

  lemma UpdateChronicle(s: Ledger, cmd: Command, clock: int)
    requires Chronicle(s, clock) && SoundStep(s, clock, cmd)
    ensures Chronicle(Update(s, cmd), if Ticks(cmd) then Max(clock, TimeOf(cmd)) else clock)
  {
    var r := Update(s, cmd);
    UpdateMoves(s, cmd);
    UpdateGrows(s, cmd);
    MoveNewest(s, cmd, r.cases, clock);
    var later := if Ticks(cmd) then Max(clock, TimeOf(cmd)) else clock;
    forall id | id in r.cases ensures Dated(r.observations, r.cooldownUntil, later, id, r.cases[id]) {
      UpdateRestarts(s, cmd, r.cases[id].component);
      if !Ticks(cmd) { IdleEndsNothing(s, cmd, r.cases[id].component); }
      MoveDated(s, cmd, r, clock, id);
    }
  }

  lemma SweptKeepsObservations(l: Ledger, cmd: Command)
    ensures Swept(l, cmd).observations == l.observations
  {
  }

  lemma {:induction false} DisciplinedChronicle(policy: Policy, cmds: seq<Command>)
    requires Disciplined(policy, cmds)
    ensures Chronicle(Exec(policy, cmds), Clock(cmds))
  {
    if cmds != [] {
      var before, cmd := cmds[..|cmds| - 1], cmds[|cmds| - 1];
      var l, clock := Exec(policy, before), Clock(before);
      DisciplinedChronicle(policy, before);
      if Swept(l, cmd) != l {
        assert Swept(l, cmd) == Expire(l, TimeOf(cmd));
        SweepChronicle(l, TimeOf(cmd), clock);
      }
      SweptKeepsObservations(l, cmd);
      UpdateChronicle(Swept(l, cmd), cmd, clock);
      SweepThenUpdate(l, cmd);
    }
  }

  /** The trigger of a stored case cannot open it again. */
  lemma TriggerOpensOnce(s: Ledger, clock: int, o: Observation)
    requires KeyedCases(s.cases) && AllDated(s.observations, s.cooldownUntil, clock, s.cases) && Opens(s, o)
    requires o.taskId in s.observations && s.observations[o.taskId] == o
    ensures CaseIdFor(o, SignatureKey(o).value) !in s.cases
  {
    var id := CaseIdFor(o, SignatureKey(o).value);
    assert id in s.cases ==> CaseKeyed(id, s.cases[id]);
    assert id !in ActiveCases(s.cases, o.component);
  }

  /** In a disciplined run no case id is ever used a second time: an opening never overwrites a case. */
  lemma CaseIdsAreFresh(policy: Policy, cmds: seq<Command>, cmd: Command)
    requires Disciplined(policy, cmds + [cmd])
    requires cmd.OpenCase? && OpenDecision(Exec(policy, cmds), cmd.input, cmd.now).Some?
    ensures OpenDecision(Exec(policy, cmds), cmd.input, cmd.now).value !in Exec(policy, cmds).cases
  {
    var l := Exec(policy, cmds);
    assert (cmds + [cmd])[..|cmds|] == cmds;
    DisciplinedChronicle(policy, cmds);
    ExecInv(policy, cmds);
    SweepChronicle(l, cmd.now, Clock(cmds));
    ExpireInv(l, cmd.now);
    TriggerOpensOnce(Expire(l, cmd.now), Clock(cmds), cmd.input);
  }
}
