/**
 The restart-safe setup loop: one external effect, one durable checkpoint, and
 ACTIVE last. The platform is an arbitrary oracle and a crash or fault is an
 early error return at any point, so a sequence of calls is a run with crashes.
 */
module InstallSetup {
  import opened Common
  import opened InstallRecords
  import opened InstallHistory

  const MAX_CONVERGENCE_STEPS: nat := 64

  datatype ControlError =
    | BeingRemoved
    | Drifted
    | AccessDenied
    | Busy
    | StorageUnavailable
    | InvalidClock
    | Unavailable
    | ConcurrentChange

  /**
   What happens to one installation. `Offered` is the platform's first record;
   `Invoked` and `Returned` are the start and the success of a platform effect
   (0 key, 1 runtime, 2 data, 3 task) with the evidence it gave; `Completed` is
   the success of the final platform step; `Wrote` is a record write.
   */
  datatype Event =
    | Offered(initial: InstallRecord)
    | Invoked(effect: nat)
    | Returned(effect: nat, evidence: Checkpoint)
    | Completed(revision: nat)
    | Wrote(record: InstallRecord)

  function Writes(log: seq<Event>): seq<InstallRecord> {
    if log == [] then []
    else
      var h := Writes(log[..|log| - 1]);
      var e := log[|log| - 1];
      if e.Wrote? then h + [e.record] else h
  }

  /** The durable record after the events of `log`. */
  function Durable(log: seq<Event>): Option<InstallRecord> {
    Latest(Writes(log))
  }

  /** The checkpoint holds the evidence of this effect and nothing else. */
  predicate EvidenceOf(effect: nat, c: Checkpoint) {
    match effect
    case 0 => c == Checkpoint(None, None, None, c.protectedKey, None, None) && c.protectedKey.Some?
    case 1 => c == Checkpoint(None, None, None, None, c.runtime, None) && c.runtime.Some?
    case 2 => c == Checkpoint(None, c.dataPath, c.dataSchema, None, None, None) && c.dataPath.Some?
      && c.dataSchema.Some?
    case 3 => c == Checkpoint(None, None, None, None, None, c.scheduledTask) && c.scheduledTask.Some?
    case _ => false
  }

  predicate InstallingAt(current: Option<InstallRecord>, effect: nat) {
    current.Some? && current.value.state == Installing && Stage(current.value) == effect < 4
  }

  /** A write follows directly from what the platform just gave. */
  predicate Grounded(current: Option<InstallRecord>, last: Option<Event>, r: InstallRecord) {
    match current
    case None => last == Some(Offered(r))
    case Some(c) =>
      if r.state == Active then last == Some(Completed(c.revision))
      else if r.state == c.state then
        last.Some? && last.value.Returned? && last.value.effect == Stage(c)
        && r == Extended(c, last.value.evidence, r.updatedAt)
      else true
  }

  function Last(log: seq<Event>): Option<Event> {
    if log == [] then None else Some(log[|log| - 1])
  }

  /** An event is in order when the durable state before it calls for exactly that. */
  predicate InOrder(before: seq<Event>, e: Event) {
    var current := Durable(before);
    match e
    case Offered(_) => current.None?
    case Invoked(effect) => InstallingAt(current, effect)
    case Returned(effect, evidence) =>
      InstallingAt(current, effect) && EvidenceOf(effect, evidence) && Last(before) == Some(Invoked(effect))
    case Completed(revision) =>
      current.Some? && current.value.state == Installing && Complete(current.value)
      && current.value.revision == revision
    case Wrote(r) => CasVerdict(current, RevisionOf(current), r).None? && Grounded(current, Last(before), r)
  }

  predicate InOrderAt(log: seq<Event>, i: nat)
    requires i < |log|
  {
    InOrder(log[..i], log[i])
  }

  predicate Disciplined(log: seq<Event>) {
    forall i :: 0 <= i < |log| ==> InOrderAt(log, i)
  }

  lemma Extend(log: seq<Event>, e: Event)
    requires Disciplined(log) && InOrder(log, e)
    ensures Disciplined(log + [e])
    ensures Writes(log + [e]) == if e.Wrote? then Writes(log) + [e.record] else Writes(log)
  {
    var more := log + [e];
    assert more[..|log|] == log;
    forall i | 0 <= i < |more| ensures InOrderAt(more, i) {
      assert i < |log| ==> InOrderAt(log, i);
      assert more[..i] == if i < |log| then log[..i] else log;
    }
  }

  // ---------- what a disciplined log implies ----------

  lemma {:induction false} WritesAreLawful(log: seq<Event>)
    requires Disciplined(log)
    ensures Lawful(Writes(log))
  {
    if log != [] {
      var front, e := log[..|log| - 1], log[|log| - 1];
      forall i | 0 <= i < |front| ensures InOrderAt(front, i) {
        assert InOrderAt(log, i);
        assert front[..i] == log[..i];
      }
      WritesAreLawful(front);
      assert InOrderAt(log, |front|);
      if e.Wrote? {
        AdmittedKeepsLaw(Writes(front), RevisionOf(Durable(front)), e.record);
      }
    }
  }

  lemma {:induction false} WritesGrow(log: seq<Event>, i: nat)
    requires i <= |log|
    ensures Writes(log[..i]) <= Writes(log)
  {
    if i == |log| {
      assert log[..i] == log;
    } else {
      var front := log[..|log| - 1];
      WritesGrow(front, i);
      assert front[..i] == log[..i];
    }
  }

  /** Later durable records descend from earlier ones. */
  lemma DurableDescends(log: seq<Event>, i: nat, j: nat)
    requires Disciplined(log) && i <= j <= |log| && Durable(log[..i]).Some?
    ensures Durable(log[..j]).Some? && Descends(Durable(log[..i]).value, Durable(log[..j]).value)
  {
    WritesAreLawful(log);
    WritesGrow(log[..j], i);
    assert log[..j][..i] == log[..i];
    WritesGrow(log, j);
    PrefixesDescend(Writes(log), Writes(log[..i]), Writes(log[..j]));
  }

  /** The stage of the durable record before the i-th event. */
  function StageAt(log: seq<Event>, i: nat): Option<nat>
    requires i <= |log|
  {
    match Durable(log[..i])
    case None => None
    case Some(r) => Some(Stage(r))
  }

  /** An event advances the stage by at most one, and only as a write that reaches it. */
  predicate ClimbsBy(e: Event, before: nat, after: nat) {
    after <= before + 1 && (after != before ==> e.Wrote? && Stage(e.record) == after)
  }

  /** One event advances the durable stage by at most one. */
  lemma StageStep(log: seq<Event>, i: nat)
    requires Disciplined(log) && i < |log| && StageAt(log, i).Some?
    ensures StageAt(log, i + 1).Some? && ClimbsBy(log[i], StageAt(log, i).value, StageAt(log, i + 1).value)
  {
    assert InOrderAt(log, i);
    assert log[..i + 1][..i] == log[..i];
    DurableDescends(log, i, i + 1);
    if log[i].Wrote? {
      CasIsExact(Durable(log[..i]), RevisionOf(Durable(log[..i])), log[i].record);
    }
  }

  /** A stage reached between two points was written between them. */
  lemma {:induction false} StageWasWritten(log: seq<Event>, i: nat, j: nat, stage: nat) returns (m: nat)
    requires Disciplined(log) && i <= j <= |log| && StageAt(log, i).Some? && StageAt(log, j).Some?
    requires StageAt(log, i).value < stage <= StageAt(log, j).value
    ensures i <= m < j && log[m].Wrote? && Stage(log[m].record) == stage
    decreases j - i
  {
    StageStep(log, i);
    if StageAt(log, i + 1) == Some(stage) {
      m := i;
    } else {
      m := StageWasWritten(log, i + 1, j, stage);
    }
  }

  /** The checkpoint of every effect is durable before a different effect starts. */
  lemma CheckpointBeforeNextEffect(log: seq<Event>, i: nat, j: nat) returns (m: nat)
    requires Disciplined(log) && i < j < |log| && log[i].Invoked? && log[j].Invoked? && log[i] != log[j]
    ensures log[i].effect < log[j].effect
    ensures i < m < j && log[m].Wrote? && Stage(log[m].record) == log[i].effect + 1
  {
    assert InOrderAt(log, i) && InOrderAt(log, j);
    DurableDescends(log, i, j);
    m := StageWasWritten(log, i, j, log[i].effect + 1);
  }

  /** An effect whose checkpoint is durable is never invoked again. */
  lemma NeverInvokedAgain(log: seq<Event>, m: nat, j: nat)
    requires Disciplined(log) && m < j < |log| && log[m].Wrote? && log[j].Invoked?
    ensures Stage(log[m].record) <= log[j].effect
  {
    assert InOrderAt(log, j);
    assert log[..m + 1][..m] == log[..m];
    assert Durable(log[..m + 1]) == Some(log[m].record);
    DurableDescends(log, m + 1, j);
  }

  /** Every new piece of evidence in the record is what its own effect returned just before the write. */
  lemma CheckpointIsWhatTheEffectReturned(log: seq<Event>, i: nat)
    requires Disciplined(log) && i < |log| && log[i].Wrote? && Durable(log[..i]).Some?
    requires log[i].record.state == Durable(log[..i]).value.state
    ensures var current := Durable(log[..i]).value;
            && i >= 2 && log[i - 1].Returned? && log[i - 2] == Invoked(Stage(current))
            && log[i - 1].effect == Stage(current) && EvidenceOf(Stage(current), log[i - 1].evidence)
            && log[i].record == Extended(current, log[i - 1].evidence, log[i].record.updatedAt)
            && Stage(log[i].record) == Stage(current) + 1
  {
    assert InOrderAt(log, i);
    CasIsExact(Durable(log[..i]), RevisionOf(Durable(log[..i])), log[i].record);
    assert log[..i][..i - 1] == log[..i - 1];
    assert log[..i][i - 1] == log[i - 1];
    assert InOrderAt(log, i - 1);
    assert Durable(log[..i - 1]) == Durable(log[..i]);
  }

  /** ACTIVE is published only from a complete INSTALLING record, right after its successful completion. */
  lemma ActiveIsLast(log: seq<Event>, i: nat)
    requires Disciplined(log) && i < |log| && log[i].Wrote? && log[i].record.state == Active
    ensures i > 0 && log[i - 1].Completed? && log[i - 1].revision + 1 == log[i].record.revision
    ensures Durable(log[..i]).Some? && Durable(log[..i]).value.state == Installing && Complete(Durable(log[..i]).value)
    ensures Complete(log[i].record) && SameEvidence(Durable(log[..i]).value, log[i].record)
  {
    assert InOrderAt(log, i);
    CasIsExact(Durable(log[..i]), RevisionOf(Durable(log[..i])), log[i].record);
    assert log[..i][i - 1] == log[i - 1];
    assert log[..i][..i - 1] == log[..i - 1];
    assert InOrderAt(log, i - 1);
  }

  // ---------- when a derived record is refused ----------

  predicate ClockOk(r: InstallRecord, now: int) {
    0 <= now && r.updatedAt <= now
  }

  /** The evidence names this installation's own paths and usable versions. */
  predicate EvidenceFits(r: InstallRecord, c: Checkpoint) {
    && (c.protectedKey.Some? ==> c.protectedKey.value.relativePath == InstallRoot(r) + "\\secrets\\endpoint-key.dpapi")
    && (c.runtime.Some? ==>
          && VersionText(c.runtime.value.version)
          && c.runtime.value.relativePath == InstallRoot(r) + "\\bin\\" + c.runtime.value.sha256 + "\\mesh-daemon.exe")
    && (c.dataPath.Some? ==> c.dataPath.value == InstallRoot(r) + "\\data")
    && c.dataSchema != Some(0)
  }

  /** A checkpoint is refused exactly for misfit evidence or an exhausted revision. */
  lemma CheckpointRefusedIff(r: InstallRecord, c: Checkpoint, now: int)
    requires Admissible(r) && InstallingAt(Some(r), Stage(r)) && EvidenceOf(Stage(r), c) && ClockOk(r, now)
    ensures var next := ApplyCheckpoint(r, r.revision, c, now);
            && (next.Err? <==> r.revision + 1 > U64_MAX || !EvidenceFits(r, c))
            && (next.Ok? ==> next.value == Extended(r, c, now) && Stage(next.value) == Stage(r) + 1)
  {
    AdmissibleIsSound(r);
    match Stage(r)
    case 0 => assert KeyStep(r, c);
    case 1 => assert RuntimeStep(r, c);
    case 2 => assert DataStep(r, c);
    case _ => assert TaskStep(r, c);
  }

  /** A legal transition of a complete record is refused exactly for an exhausted revision. */
  lemma TransitionRefusedIff(r: InstallRecord, state: InstallState, now: int)
    requires Admissible(r) && Complete(r) && LegalTransition(r.state, state) && ClockOk(r, now)
    ensures var next := Transition(r, r.revision, state, now);
            && (next.Err? <==> r.revision + 1 > U64_MAX)
            && (next.Ok? ==> next.value.state == state && SameEvidence(r, next.value)
                             && next.value.revision == r.revision + 1)
  {
  }

  lemma DerivedIsAdmitted(r: InstallRecord, next: InstallRecord, c: Checkpoint, state: InstallState, now: int)
    requires ApplyCheckpoint(r, r.revision, c, now) == Ok(next) || Transition(r, r.revision, state, now) == Ok(next)
    requires ApplyCheckpoint(r, r.revision, c, now) == Ok(next) ==> c.productPath.None?
    ensures CasVerdict(Some(r), r.revision, next).None?
  {
    CasIsExact(Some(r), r.revision, next);
  }

  // ---------- the loop ----------

  /** Iterations that can still follow one that found this record. */
  function Rank(current: Option<InstallRecord>): nat {
    match current
    case None => 6
    case Some(r) => if r.state == Installing then 5 - Stage(r) else if r.state == Retained then 2 else 0
  }

  /** Why a call may report drift: nothing else does. */
  predicate DriftCause(current: Option<InstallRecord>, last: Option<Event>) {
    match current
    case None => last.Some? && last.value.Offered? && CasVerdict(None, 0, last.value.initial).Some?
    case Some(r) =>
      || r.state == Broken
      || ((r.state == Installing || r.state == Retained) && r.revision + 1 > U64_MAX)
      || (r.state == Installing && last.Some? && last.value.Returned? && !EvidenceFits(r, last.value.evidence))
  }

  class SetupRun {
    var record: Option<InstallRecord>
    ghost var log: seq<Event>
    /** The error the platform or the store last reported in this call, and the last clock reading. */
    ghost var failure: Option<ControlError>
    ghost var clock: int

    ghost predicate Valid()
      reads this
    {
      Disciplined(log) && record == Durable(log)
    }

    /** What an error says: that the platform or the store reported it, or its own cause in clock and record. */
    ghost predicate Explains(e: ControlError)
      reads this
    {
      || failure == Some(e)
      || match e
         case InvalidClock => record.Some? && !ClockOk(record.value, clock)
         case Drifted => DriftCause(record, Last(log))
         case BeingRemoved => record.Some? && (record.value.state == Removing || record.value.state == Purging)
         case _ => false
    }

    constructor ()
      ensures Valid() && log == [] && failure.None?
    {
      record, log, failure, clock := None, [], None, 0;
    }

    // The platform. Each effect records its own start, and its evidence when it succeeds.

    /** Anything outside may report any error at any time. */
    method Fails() returns (e: Option<ControlError>)
      modifies this`failure
      ensures failure == if e.Some? then e else old(failure)
    {
      e := *;
      if e.Some? {
        failure := e;
      }
    }

    method Now() returns (now: Result<int, ControlError>)
      modifies this`failure, this`clock
      ensures now.Err? ==> failure == Some(now.error)
      ensures now.Ok? ==> clock == now.value && failure == old(failure)
    {
      var failed := Fails();
      if failed.Some? {
        return Err(failed.value);
      }
      var t: int := *;
      clock := t;
      return Ok(t);
    }

    /** A platform verification that changes nothing durable. */
    method Verify() returns (r: Result<(), ControlError>)
      modifies this`failure
      ensures r.Err? ==> failure == Some(r.error)
      ensures r.Ok? ==> failure == old(failure)
    {
      var failed := Fails();
      return if failed.Some? then Err(failed.value) else Ok(());
    }

    method EnsureKey() returns (r: Result<KeyArtifact, ControlError>)
      modifies this`failure, this`log
      ensures r.Ok? ==> failure == old(failure)
      ensures r.Ok? ==>
              log == old(log) + [Invoked(0), Returned(0, Checkpoint(None, None, None, Some(r.value), None, None))]
      ensures r.Err? ==> failure == Some(r.error) && log == old(log) + [Invoked(0)]
    {
      log := log + [Invoked(0)];
      var failed := Fails();
      if failed.Some? {
        return Err(failed.value);
      }
      var key: KeyArtifact := *;
      log := log + [Returned(0, Checkpoint(None, None, None, Some(key), None, None))];
      return Ok(key);
    }

    method EnsureRuntime() returns (r: Result<RuntimeArtifact, ControlError>)
      modifies this`failure, this`log
      ensures r.Ok? ==> failure == old(failure)
      ensures r.Ok? ==>
              log == old(log) + [Invoked(1), Returned(1, Checkpoint(None, None, None, None, Some(r.value), None))]
      ensures r.Err? ==> failure == Some(r.error) && log == old(log) + [Invoked(1)]
    {
      log := log + [Invoked(1)];
      var failed := Fails();
      if failed.Some? {
        return Err(failed.value);
      }
      var runtime: RuntimeArtifact := *;
      log := log + [Returned(1, Checkpoint(None, None, None, None, Some(runtime), None))];
      return Ok(runtime);
    }

    method EnsureData() returns (r: Result<(string, nat), ControlError>)
      modifies this`failure, this`log
      ensures r.Ok? ==> failure == old(failure)
      ensures r.Ok? ==>
              log == old(log) + [Invoked(2),
                Returned(2, Checkpoint(None, Some(r.value.0), Some(r.value.1), None, None, None))]
      ensures r.Err? ==> failure == Some(r.error) && log == old(log) + [Invoked(2)]
    {
      log := log + [Invoked(2)];
      var failed := Fails();
      if failed.Some? {
        return Err(failed.value);
      }
      var path: string := *;
      var version: nat := *;
      log := log + [Returned(2, Checkpoint(None, Some(path), Some(version), None, None, None))];
      return Ok((path, version));
    }

    method EnsureTask() returns (r: Result<TaskEvidence, ControlError>)
      modifies this`failure, this`log
      ensures r.Ok? ==> failure == old(failure)
      ensures r.Ok? ==>
              log == old(log) + [Invoked(3), Returned(3, Checkpoint(None, None, None, None, None, Some(r.value)))]
      ensures r.Err? ==> failure == Some(r.error) && log == old(log) + [Invoked(3)]
    {
      log := log + [Invoked(3)];
      var failed := Fails();
      if failed.Some? {
        return Err(failed.value);
      }
      var task: TaskEvidence := *;
      log := log + [Returned(3, Checkpoint(None, None, None, None, None, Some(task)))];
      return Ok(task);
    }

    /** The final platform step; only its success is recorded. */
    method CompleteInstalling(current: InstallRecord) returns (r: Result<(), ControlError>)
      modifies this`failure, this`log
      ensures r.Ok? ==> failure == old(failure) && log == old(log) + [Completed(current.revision)]
      ensures r.Err? ==> failure == Some(r.error) && log == old(log)
    {
      var failed := Fails();
      if failed.Some? {
        return Err(failed.value);
      }
      log := log + [Completed(current.revision)];
      return Ok(());
    }

    method InitialRecord() returns (r: Result<InstallRecord, ControlError>)
      modifies this`failure, this`log
      ensures r.Ok? ==> failure == old(failure) && log == old(log) + [Offered(r.value)]
      ensures r.Err? ==> failure == Some(r.error) && log == old(log)
    {
      var failed := Fails();
      if failed.Some? {
        return Err(failed.value);
      }
      var initial: InstallRecord := *;
      log := log + [Offered(initial)];
      return Ok(initial);
    }

    // The store and the loop.

    /** A failing write of the store; under the fence a lost race is reported as drift. */
    method WriteFails() returns (e: Option<ControlError>)
      modifies this`failure
      ensures failure == if e.Some? then e else old(failure)
      ensures e != Some(ConcurrentChange)
    {
      e := Fails();
      if e == Some(ConcurrentChange) {
        e := Some(Drifted);
        failure := e;
      }
    }

    /**
     The guarded compare-and-swap; a fault may strike before or after publication.
     Removal and purge publish through it too, between setup calls.
     */
    method Persist(expectedRevision: nat, next: InstallRecord) returns (r: Result<(), ControlError>)
      requires Valid()
      requires CasVerdict(record, expectedRevision, next).None? ==> Grounded(record, Last(log), next)
      modifies this`record, this`log, this`failure
      ensures Valid()
      ensures || (record == old(record) && log == old(log))
              || (record == Some(next) && log == old(log) + [Wrote(next)]
                  && CasVerdict(old(record), expectedRevision, next).None?)
      ensures match r
              case Ok(_) => record == Some(next) && failure == old(failure)
              case Err(e) =>
                || failure == Some(e)
                || (e == Drifted && record == old(record) && log == old(log)
                    && CasVerdict(record, expectedRevision, next).Some?)
    {
      var failed := WriteFails();
      if failed.Some? {
        return Err(failed.value);
      }
      var verdict := CasVerdict(record, expectedRevision, next);
      if verdict.Some? {
        // a lost race or an inadmissible record under the fence is drift
        return Err(Drifted);
      }
      CasIsExact(record, expectedRevision, next);
      Extend(log, Wrote(next));
      record := Some(next);
      log := log + [Wrote(next)];
      failed := WriteFails();
      return if failed.Some? then Err(failed.value) else Ok(());
    }

    /** Runs the first effect whose evidence is missing and turns its result into a checkpoint. */
    method NextCheckpoint(current: InstallRecord) returns (c: Result<Checkpoint, ControlError>)
      requires Valid() && record == Some(current) && Admissible(current)
      requires current.state == Installing && !Complete(current)
      modifies this`log, this`failure
      ensures Valid()
      ensures match c
              case Ok(evidence) =>
                && EvidenceOf(Stage(current), evidence) && failure == old(failure)
                && log == old(log) + [Invoked(Stage(current)), Returned(Stage(current), evidence)]
              case Err(e) =>
                failure == Some(e) && log == old(log) + [Invoked(Stage(current))]
    {
      AdmissibleIsSound(current);
      ghost var before := log;
      if current.protectedKey.None? {
        var key := EnsureKey();
        c := if key.Err? then Err(key.error) else Ok(Checkpoint(None, None, None, Some(key.value), None, None));
      } else if current.runtime.None? {
        var runtime := EnsureRuntime();
        c := if runtime.Err? then Err(runtime.error)
             else Ok(Checkpoint(None, None, None, None, Some(runtime.value), None));
      } else if current.dataPath.None? {
        var data := EnsureData();
        c := if data.Err? then Err(data.error)
             else Ok(Checkpoint(None, Some(data.value.0), Some(data.value.1), None, None, None));
      } else {
        var task := EnsureTask();
        c := if task.Err? then Err(task.error) else Ok(Checkpoint(None, None, None, None, None, Some(task.value)));
      }
      EffectInOrder(before, current, c, log);
    }

    method MoveTo(current: InstallRecord, state: InstallState) returns (r: Result<(), ControlError>)
      requires Valid() && record == Some(current) && Admissible(current) && Complete(current)
      requires (current.state == Retained && state == Installing) || (current.state == Installing && state == Active)
      requires state == Active ==> Last(log) == Some(Completed(current.revision))
      modifies this
      ensures Valid()
      ensures record == old(record) || (record.Some? && record.value.state == state
                                         && SameEvidence(current, record.value))
      ensures match r
              case Ok(_) => record.Some? && record.value.state == state && Complete(record.value)
                            && failure == old(failure)
              case Err(e) => Explains(e)
    {
      var now := Now();
      if now.Err? {
        return Err(now.error);
      }
      if !ClockOk(current, now.value) {
        return Err(InvalidClock);
      }
      TransitionRefusedIff(current, state, now.value);
      var next := Transition(current, current.revision, state, now.value);
      if next.Err? {
        return Err(Drifted);
      }
      DerivedIsAdmitted(current, next.value, Checkpoint(None, None, None, None, None, None), state, now.value);
      r := Persist(current.revision, next.value);
    }

    /** One INSTALLING iteration: the next effect and its checkpoint, or completion and ACTIVE. */
    method InstallStep(current: InstallRecord) returns (r: Result<(), ControlError>)
      requires Valid() && record == Some(current) && Admissible(current) && current.state == Installing
      modifies this
      ensures Valid()
      ensures match r
              case Ok(_) =>
                && record.Some? && failure == old(failure)
                && if Complete(current) then record.value.state == Active && SameEvidence(current, record.value)
                   else record.value.state == Installing && Stage(record.value) == Stage(current) + 1
              case Err(e) => Explains(e)
    {
      AdmissibleIsSound(current);
      if Complete(current) {
        Extend(log, Completed(current.revision));
        var completed := CompleteInstalling(current);
        if completed.Err? {
          return Err(completed.error);
        }
        r := MoveTo(current, Active);
      } else {
        r := CheckpointStep(current);
      }
    }

    method CheckpointStep(current: InstallRecord) returns (r: Result<(), ControlError>)
      requires Valid() && record == Some(current) && Admissible(current)
      requires current.state == Installing && !Complete(current)
      modifies this
      ensures Valid()
      ensures match r
              case Ok(_) =>
                && record.Some? && record.value.state == Installing && Stage(record.value) == Stage(current) + 1
                && failure == old(failure)
              case Err(e) => Explains(e)
    {
      AdmissibleIsSound(current);
      var c := NextCheckpoint(current);
      if c.Err? {
        return Err(c.error);
      }
      var now := Now();
      if now.Err? {
        return Err(now.error);
      }
      if !ClockOk(current, now.value) {
        return Err(InvalidClock);
      }
      CheckpointRefusedIff(current, c.value, now.value);
      var next := ApplyCheckpoint(current, current.revision, c.value, now.value);
      if next.Err? {
        return Err(Drifted);
      }
      DerivedIsAdmitted(current, next.value, c.value, Installing, now.value);
      r := Persist(current.revision, next.value);
    }

    /** The first write of an absent slot; the platform's record may turn out inadmissible. */
    method Initialize() returns (r: Result<(), ControlError>)
      requires Valid() && record.None?
      modifies this`record, this`log, this`failure
      ensures Valid()
      ensures match r
              case Ok(_) => record.Some? && record.value.state == Installing && Stage(record.value) == 0
                            && failure == old(failure)
              case Err(e) => Explains(e) && (record.None?
                                            || (record.value.revision == 1 && Last(log) == Some(Wrote(record.value))))
    {
      var initial := InitialRecord();
      if initial.Err? {
        return Err(initial.error);
      }
      Extend(old(log), Offered(initial.value));
      CasIsExact(None, 0, initial.value);
      r := Persist(0, initial.value);
    }

    /**
     One setup call. It begins at most seven iterations, so the step bound is
     never what ends it. It ends ACTIVE unless the platform or the store reported
     an error, the clock is behind the record, the installation is being removed,
     or one of the causes of drift holds.
     */
    method Converge() returns (r: Result<InstallRecord, ControlError>, steps: nat)
      requires Valid()
      modifies this
      ensures Valid() && steps <= 7
      ensures match r
              case Ok(active) => record == Some(active) && active.state == Active && Complete(active) && failure.None?
              case Err(e) => Explains(e)
    {
      steps, failure := 0, None;
      while steps < MAX_CONVERGENCE_STEPS
        invariant Valid() && failure.None?
        invariant steps + Rank(record) <= 6
      {
        steps := steps + 1;
        var failed := Fails();
        if failed.Some? {
          return Err(failed.value), steps;
        }
        var moved: Result<(), ControlError>;
        if record.None? {
          moved := Initialize();
        } else {
          WritesAreLawful(log);
          var current := record.value;
          assert Sound(current);
          var now := Now();
          if now.Err? {
            return Err(now.error), steps;
          }
          if !ClockOk(current, now.value) {
            return Err(InvalidClock), steps;
          }
          if current.state == Removing || current.state == Purging {
            return Err(BeingRemoved), steps;
          }
          if current.state == Broken {
            return Err(Drifted), steps;
          }
          var verified := Verify();
          if verified.Err? {
            return Err(verified.error), steps;
          }
          if current.state == Active {
            return Ok(current), steps;
          }
          if current.state == Retained {
            moved := MoveTo(current, Installing);
          } else {
            moved := InstallStep(current);
          }
        }
        if moved.Err? {
          return Err(moved.error), steps;
        }
      }
      assert false;
    }
  }

  /** The effect of the current stage extends a disciplined log. */
  lemma EffectInOrder(before: seq<Event>, current: InstallRecord, c: Result<Checkpoint, ControlError>,
                      after: seq<Event>)
    requires Disciplined(before) && Durable(before) == Some(current)
    requires current.state == Installing && Stage(current) < 4
    requires c.Ok? ==> EvidenceOf(Stage(current), c.value)
                       && after == before + [Invoked(Stage(current)), Returned(Stage(current), c.value)]
    requires c.Err? ==> after == before + [Invoked(Stage(current))]
    ensures Disciplined(after) && Durable(after) == Some(current)
  {
    var invoked := before + [Invoked(Stage(current))];
    Extend(before, Invoked(Stage(current)));
    if c.Ok? {
      Extend(invoked, Returned(Stage(current), c.value));
      assert after == invoked + [Returned(Stage(current), c.value)];
    }
  }
}
