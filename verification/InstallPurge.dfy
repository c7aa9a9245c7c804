/**
 The restart-convergent purge loop over an environment whose effects may stop
 after any durable sub-effect. A crash is an early error return, so a sequence
 of calls on one world is a purge with any number of crashes and restarts.
 */
module InstallPurge {
  import opened Common
  import Records = InstallRecords

  const MAX_CONVERGENCE_STEPS: nat := 16

  datatype RecordState = Absent | Present(state: Records.InstallState)

  datatype TreeState = Source | Tombstone | Gone | Both

  datatype World = World(record: RecordState, tree: TreeState)

  datatype Outcome = Purged | AlreadyAbsent

  datatype PurgeError = EffectFailed | Drift | DidNotConverge

  // ---------- durable sub-effects ----------

  datatype Change = RecordMoved(to: Records.InstallState) | SourceStaged | TombstoneDeleted | RecordDeleted

  function After(w: World, c: Change): World {
    match c
    case RecordMoved(to) => w.(record := Present(to))
    case SourceStaged => w.(tree := Tombstone)
    case TombstoneDeleted => w.(tree := Gone)
    case RecordDeleted => w.(record := Absent)
  }

  /** The world a sub-effect may act on. */
  predicate InOrder(w: World, c: Change) {
    match c
    case RecordMoved(to) => w.record.Present? && Records.LegalTransition(w.record.state, to) && w.tree == Source
    case SourceStaged => w == World(Present(Records.Purging), Source)
    case TombstoneDeleted => w == World(Present(Records.Purging), Tombstone)
    case RecordDeleted => w == World(Present(Records.Purging), Gone)
  }

  function Replay(start: World, log: seq<Change>): World {
    if log == [] then start else After(Replay(start, log[..|log| - 1]), log[|log| - 1])
  }

  predicate InOrderAt(start: World, log: seq<Change>, i: nat)
    requires i < |log|
  {
    InOrder(Replay(start, log[..i]), log[i])
  }

  predicate Disciplined(start: World, log: seq<Change>) {
    forall i :: 0 <= i < |log| ==> InOrderAt(start, log, i)
  }

  lemma Extend(start: World, log: seq<Change>, c: Change)
    requires Disciplined(start, log) && InOrder(Replay(start, log), c)
    ensures Disciplined(start, log + [c]) && Replay(start, log + [c]) == After(Replay(start, log), c)
  {
    var more := log + [c];
    assert more[..|log|] == log;
    forall i | 0 <= i < |more| ensures InOrderAt(start, more, i) {
      assert i < |log| ==> InOrderAt(start, log, i);
      assert more[..i] == if i < |log| then log[..i] else log;
    }
  }

  /** Iterations that can still follow one that observed this world. */
  function Rank(w: World): nat {
    match w.record
    case Absent => 0
    case Present(state) =>
      match state
      case Active | Removing => 4
      case Retained => 3
      case Purging => (match w.tree case Source => 3 case Tombstone => 2 case _ => 1)
      case _ => 0
  }

  /** Every crash point of a purge, together with its start and its end. */
  predicate Resumable(w: World) {
    match w.record
    case Absent => w.tree == Gone
    case Present(state) =>
      if state == Records.Purging then w.tree != Both
      else (state == Records.Active || state == Records.Removing || state == Records.Retained) && w.tree == Source
  }

  lemma {:induction false} ReplaySuffix(start: World, log: seq<Change>, i: nat)
    requires Disciplined(start, log) && i < |log|
    ensures Replay(start, log[..i + 1]) == After(Replay(start, log[..i]), log[i])
  {
    assert log[..i + 1][..i] == log[..i];
  }

  /** Once the record is gone nothing durable happens any more. */
  lemma RecordDeletedLast(start: World, log: seq<Change>, i: nat)
    requires Disciplined(start, log) && i < |log| && log[i] == RecordDeleted
    ensures i == |log| - 1 && Replay(start, log) == World(Absent, Gone)
  {
    ReplaySuffix(start, log, i);
    assert InOrderAt(start, log, i);
    assert i + 1 < |log| ==> InOrderAt(start, log, i + 1);
    assert log[..i + 1] == log;
  }

  /** PURGING has no record successor: once published it stays until the record is deleted. */
  lemma {:induction false} PurgingIsAFence(start: World, log: seq<Change>, i: nat, j: nat)
    requires Disciplined(start, log) && i <= j <= |log| && Replay(start, log[..i]).record == Present(Records.Purging)
    ensures Replay(start, log[..j]).record == Present(Records.Purging) || (j == |log| && log[j - 1] == RecordDeleted)
    decreases j - i
  {
    if i < j {
      assert InOrderAt(start, log, i);
      ReplaySuffix(start, log, i);
      if log[i] == RecordDeleted {
        RecordDeletedLast(start, log, i);
      } else {
        PurgingIsAFence(start, log, i + 1, j);
      }
    }
  }

  /** A deleted tombstone means PURGING was durable before the deletion began and still is, or the purge is over. */
  lemma TombstoneDeletedUnderPurging(start: World, log: seq<Change>, i: nat)
    requires Disciplined(start, log) && i < |log| && log[i] == TombstoneDeleted
    ensures Replay(start, log[..i]).record == Present(Records.Purging)
    ensures Replay(start, log) == World(Present(Records.Purging), Gone) || log == log[..i + 1] + [RecordDeleted]
  {
    assert InOrderAt(start, log, i);
    ReplaySuffix(start, log, i);
    if i + 1 < |log| {
      assert InOrderAt(start, log, i + 1);
      RecordDeletedLast(start, log, i + 1);
    } else {
      assert log[..i + 1] == log;
    }
  }

  // ---------- the loop ----------

  /** A failure is reported exactly when one happened. */
  predicate Counted(ok: bool, before: nat, after: nat) {
    after == before + if ok then 0 else 1
  }

  class Purge {
    var world: World
    ghost const start: World
    ghost var log: seq<Change>
    /** How many observations, checks and effects have failed so far. */
    ghost var failures: nat

    ghost predicate Valid()
      reads this
    {
      Disciplined(start, log) && Replay(start, log) == world
    }

    constructor (initial: World)
      ensures Valid() && world == initial == start && log == [] && failures == 0
    {
      world, start, log, failures := initial, initial, [], 0;
    }

    /** One durable sub-effect. */
    method Do(c: Change)
      requires Valid() && InOrder(world, c)
      modifies this`world, this`log
      ensures Valid() && world == After(old(world), c) && log == old(log) + [c]
    {
      Extend(start, log, c);
      world := After(world, c);
      log := log + [c];
    }

    /** Whether the environment lets the next thing happen: the one source of failure. */
    method Check() returns (ok: bool)
      modifies this`failures
      ensures Counted(ok, old(failures), failures)
    {
      ok := *;
      if !ok {
        failures := failures + 1;
      }
    }

    /** Drives ACTIVE through REMOVING to RETAINED. */
    method ConvergeRetained() returns (ok: bool)
      requires Valid() && world.record in {Present(Records.Active), Present(Records.Removing)} && world.tree == Source
      modifies this
      ensures Valid() && Resumable(world) && Rank(world) <= old(Rank(world))
      ensures ok ==> world == World(Present(Records.Retained), Source) && log != old(log)
      ensures old(log) <= log && Counted(ok, old(failures), failures)
    {
      if world.record == Present(Records.Active) {
        ok := Check();
        if !ok {
          return;
        }
        Do(RecordMoved(Records.Removing));
      }
      ok := Check();
      if !ok {
        return;
      }
      Do(RecordMoved(Records.Retained));
      ok := Check();
    }

    /** Publishes PURGING and moves the source tree to its tombstone name. */
    method PublishPurgingAndStageSource() returns (ok: bool)
      requires Valid() && world == World(Present(Records.Retained), Source)
      modifies this
      ensures Valid() && Resumable(world) && Rank(world) <= old(Rank(world))
      ensures ok ==> world == World(Present(Records.Purging), Tombstone) && log != old(log)
      ensures old(log) <= log && Counted(ok, old(failures), failures)
    {
      ok := Check();
      if !ok {
        return;
      }
      Do(RecordMoved(Records.Purging));
      ok := ResumePurgingSource();
    }

    method ResumePurgingSource() returns (ok: bool)
      requires Valid() && world == World(Present(Records.Purging), Source)
      modifies this
      ensures Valid() && Resumable(world) && Rank(world) <= old(Rank(world))
      ensures ok ==> world == World(Present(Records.Purging), Tombstone) && log != old(log)
      ensures old(log) <= log && Counted(ok, old(failures), failures)
    {
      ok := Check();
      if !ok {
        return;
      }
      Do(SourceStaged);
      ok := Check();
    }

    method AuditAndDeleteTombstone() returns (ok: bool)
      requires Valid() && world == World(Present(Records.Purging), Tombstone)
      modifies this
      ensures Valid() && Resumable(world) && Rank(world) <= old(Rank(world))
      ensures ok ==> world == World(Present(Records.Purging), Gone) && log != old(log)
      ensures old(log) <= log && Counted(ok, old(failures), failures)
    {
      ok := Check();
      if !ok {
        return;
      }
      Do(TombstoneDeleted);
      ok := Check();
    }

    method FinalizeRecordLast() returns (ok: bool)
      requires Valid() && world == World(Present(Records.Purging), Gone)
      modifies this
      ensures Valid() && Resumable(world) && Rank(world) <= old(Rank(world))
      ensures ok ==> world == World(Absent, Gone) && log != old(log)
      ensures old(log) <= log && Counted(ok, old(failures), failures)
    {
      ok := Check();
      if !ok {
        return;
      }
      Do(RecordDeleted);
      ok := Check();
    }

    /** The effect that the observed world calls for. */
    method Advance() returns (ok: bool)
      requires Valid() && Resumable(world) && world.record.Present?
      modifies this
      ensures Valid() && Resumable(world) && Rank(world) <= old(Rank(world))
      ensures ok ==> Rank(world) < old(Rank(world)) && log != old(log)
      ensures old(log) <= log && Counted(ok, old(failures), failures)
    {
      ok := Check();
      if !ok {
        return;
      }
      if world.record.state == Records.Purging {
        match world.tree
        case Source => ok := ResumePurgingSource();
        case Tombstone => ok := AuditAndDeleteTombstone();
        case Gone => ok := FinalizeRecordLast();
      } else if world.record.state == Records.Retained {
        ok := PublishPurgingAndStageSource();
      } else {
        ok := ConvergeRetained();
      }
    }

    /**
     One purge call. It succeeds exactly from a crash point and if nothing fails;
     it reports a failed effect exactly when something failed. It ends within five
     iterations, never for lack of steps, and stays at a crash point if an effect
     fails; an unsafe world is left exactly as found.
     */
    method Converge() returns (r: Result<Outcome, PurgeError>, steps: nat)
      requires Valid()
      modifies this
      ensures Valid() && old(log) <= log
      ensures steps <= 5
      ensures r == Err(EffectFailed) <==> failures != old(failures)
      ensures failures == old(failures) ==> (r.Ok? <==> old(Resumable(world)))
      ensures r.Ok? ==> world == World(Absent, Gone) && (r.value == Purged <==> log != old(log))
      ensures r.Err? ==> r.error != DidNotConverge
      ensures old(Resumable(world)) ==> Resumable(world) && r != Err(Drift) && Rank(world) <= old(Rank(world))
      ensures !old(Resumable(world)) ==> r.Err? && log == old(log)
    {
      var changed := false;
      steps := 0;
      while steps < MAX_CONVERGENCE_STEPS
        invariant Valid() && old(log) <= log && failures == old(failures)
        invariant changed <==> log != old(log)
        invariant steps + Rank(world) <= 4 && Rank(world) <= old(Rank(world))
        invariant old(Resumable(world)) ==> Resumable(world)
        invariant !old(Resumable(world)) ==> steps == 0 && log == old(log) && world == old(world)
      {
        steps := steps + 1;
        var observed := Check();
        if !observed {
          return Err(EffectFailed), steps;
        }
        if world == World(Absent, Gone) {
          var clean := Check();
          if !clean {
            return Err(EffectFailed), steps;
          }
          return Ok(if changed then Purged else AlreadyAbsent), steps;
        }
        if world.record in {Absent, Present(Records.Installing), Present(Records.Broken)} || world.tree == Both {
          return Err(Drift), steps;
        }
        if world.record != Present(Records.Purging) && world.tree != Source {
          return Err(Drift), steps;
        }
        var ok := Advance();
        if !ok {
          return Err(EffectFailed), steps;
        }
        changed := true;
      }
      assert false;
    }
  }
}
