/**
 The stable installation slot on disk: the locked compare-and-swap that stages
 and publishes a record, and the record-last deletion that ends a purge.
 Storage faults and crashes are arbitrary early error returns.
 */
module InstallStores {
  import opened Common
  import opened InstallRecords
  import opened InstallHistory

  const RECORD_PATH := "slots\\stable\\install.json"
  const LOCK_PATH := "slots\\stable\\install.lock"
  const STAGE_PREFIX := "slots\\stable\\install."
  const STAGE_SUFFIX := ".new"
  const STAGE_ATTEMPTS: nat := 8

  /**
   A file's bytes: a record in some textual layout (0 is the layout the store
   writes) or anything else, such as the bytes of a torn write.
   */
  datatype FileBytes = Serialized(record: InstallRecord, layout: nat) | Other(tag: nat)

  datatype EntryKind = RegularFile | Directory | ReparsePoint | Special

  datatype SlotEntry = SlotEntry(path: string, kind: EntryKind, bytes: Option<FileBytes>)

  datatype StageEntry = StageEntry(path: string, bytes: FileBytes)

  function Decode(bytes: FileBytes): Result<InstallRecord, StoreError> {
    if bytes.Serialized? && Admissible(bytes.record) then Ok(bytes.record) else Err(Integrity)
  }

  predicate IsHex(c: char) {
    '0' <= c <= '9' || 'a' <= c <= 'f'
  }

  predicate IsStagePath(path: string) {
    && |path| == |STAGE_PREFIX| + 16 + |STAGE_SUFFIX|
    && path[..|STAGE_PREFIX|] == STAGE_PREFIX
    && path[|STAGE_PREFIX| + 16..] == STAGE_SUFFIX
    && forall i :: |STAGE_PREFIX| <= i < |STAGE_PREFIX| + 16 ==> IsHex(path[i])
  }

  lemma SlotPathsAreNotStages()
    ensures !IsStagePath(RECORD_PATH) && !IsStagePath(LOCK_PATH) && RECORD_PATH != LOCK_PATH
  {
    assert |RECORD_PATH| != |STAGE_PREFIX| + 16 + |STAGE_SUFFIX|;
    assert |LOCK_PATH| != |STAGE_PREFIX| + 16 + |STAGE_SUFFIX|;
    assert RECORD_PATH[21] != LOCK_PATH[21];
  }

  // ---------- the lineage of a staging file ----------

  function ValidatePurgeStage(purging: InstallRecord, expected: FileBytes, stage: StageEntry): Option<StoreError> {
    if !IsStagePath(stage.path) then Some(PurgeStageDrift)
    else match Decode(stage.bytes)
      case Err(_) => Some(PurgeStageDrift)
      case Ok(staged) =>
        if || staged.installId != purging.installId
           || staged.consumerId != purging.consumerId
           || staged.createdAt != purging.createdAt
           || staged.revision > purging.revision
           || staged.updatedAt > purging.updatedAt
           || staged.productPath != purging.productPath
           || staged.dataPath != purging.dataPath
           || staged.dataSchema != purging.dataSchema
           || staged.protectedKey != purging.protectedKey
           || staged.runtime != purging.runtime
           || staged.scheduledTask != purging.scheduledTask
        then Some(PurgeStageDrift)
        else if staged.revision == purging.revision && stage.bytes != expected then Some(PurgeStageDrift)
        else None
  }

  /** The records the slot held pass as stages exactly from the one that completed the evidence on. */
  lemma HistoryStagePassesIffComplete(h: seq<InstallRecord>, i: nat, path: string)
    requires Lawful(h) && i < |h| && h[|h| - 1].state == Purging && IsStagePath(path)
    ensures var purging := h[|h| - 1];
            ValidatePurgeStage(purging, Serialized(purging, 0), StageEntry(path, Serialized(h[i], 0))).None?
            <==> Complete(h[i])
  {
    var purging := h[|h| - 1];
    assert Descends(h[i], purging);
    assert Sound(h[i]) && Sound(purging);
    if Complete(h[i]) {
      CompleteEvidenceIsFixed(h, i, |h| - 1);
      if i < |h| - 1 {
        assert h[i].revision < purging.revision;
      }
    }
  }

  /** What a stage has to be to belong to the purging record: its lineage, told by evidence, time and revision. */
  predicate BelongsTo(s: InstallRecord, purging: InstallRecord) {
    && SameEvidence(s, purging)
    && s.updatedAt <= purging.updatedAt
    && (s.revision < purging.revision || s == purging)
  }

  /**
   A write that was let through and staged, and then crashed before publication,
   leaves a stage that passes exactly when it belongs to the purging record.
   */
  lemma CrashedStagePassesIff(h: seq<InstallRecord>, s: InstallRecord, path: string)
    requires Lawful(h) && h != [] && h[|h| - 1].state == Purging && AdmittedDuring(h, s) && IsStagePath(path)
    ensures var purging := h[|h| - 1];
            ValidatePurgeStage(purging, Serialized(purging, 0), StageEntry(path, Serialized(s, 0))).None?
            <==> BelongsTo(s, purging)
  {
    var purging := h[|h| - 1];
    var i :| 0 <= i <= |h| && AdmittedAfter(h, i, s);
    AdmittedIsSuccessor(h, i, s);
    assert Sound(purging);
    if i > 0 {
      assert Descends(h[i - 1], purging);
    }
  }

  /** An earlier attempt at the very same PURGING transition blocks finalization unless it carried the same time. */
  lemma CrashedPurgeBlocks(h: seq<InstallRecord>, s: InstallRecord, path: string)
    requires Lawful(h) && |h| >= 2 && IsStagePath(path)
    requires LegalSuccessor(h[|h| - 2], h[|h| - 1]) && h[|h| - 1].state == Purging
    requires LegalSuccessor(h[|h| - 2], s) && s.state == Purging
    ensures var purging := h[|h| - 1];
            ValidatePurgeStage(purging, Serialized(purging, 0), StageEntry(path, Serialized(s, 0))) ==
            if s.updatedAt == purging.updatedAt then None else Some(PurgeStageDrift)
  {
    assert s == h[|h| - 1].(updatedAt := s.updatedAt);
  }

  /**
   What the store itself can leave behind: a stage holds an admitted record or
   the bytes of a torn write. It passes exactly when it is whole and belongs to
   the purging record; anything else blocks finalization as drift.
   */
  lemma OwnStagePassesIff(h: seq<InstallRecord>, bytes: FileBytes, path: string)
    requires Lawful(h) && h != [] && h[|h| - 1].state == Purging && OwnedBytes(bytes, h) && IsStagePath(path)
    ensures var purging := h[|h| - 1];
            ValidatePurgeStage(purging, Serialized(purging, 0), StageEntry(path, bytes)) ==
            if bytes.Serialized? && BelongsTo(bytes.record, purging) then None else Some(PurgeStageDrift)
  {
    if bytes.Serialized? {
      CrashedStagePassesIff(h, bytes.record, path);
    }
  }

  /** No staging file with another identity or other evidence ever passes. */
  lemma ForeignStageFails(purging: InstallRecord, expected: FileBytes, path: string, staged: InstallRecord, layout: nat)
    requires Admissible(purging)
    requires !SameIdentity(staged, purging) || !SameEvidence(staged, purging)
    ensures ValidatePurgeStage(purging, expected, StageEntry(path, Serialized(staged, layout))) == Some(PurgeStageDrift)
  {
    if Admissible(staged) {
      assert staged.formatVersion == purging.formatVersion;
    }
  }

  // ---------- the entries of the slot ----------

  predicate EntryOk(e: SlotEntry, expected: FileBytes) {
    && e.kind == RegularFile
    && if e.path == RECORD_PATH then e.bytes == Some(expected)
       else if e.path == LOCK_PATH then true
       else IsStagePath(e.path) && e.bytes.Some?
  }

  predicate Lists(entries: seq<SlotEntry>, path: string) {
    exists i :: 0 <= i < |entries| && entries[i].path == path
  }

  predicate NewAt(entries: seq<SlotEntry>, i: nat)
    requires i < |entries|
  {
    !Lists(entries[..i], entries[i].path)
  }

  /** No entry repeats the name of an earlier one. */
  predicate Distinct(entries: seq<SlotEntry>) {
    forall i :: 0 <= i < |entries| ==> NewAt(entries, i)
  }

  predicate EntriesPass(entries: seq<SlotEntry>, expected: FileBytes) {
    && Distinct(entries)
    && (forall i :: 0 <= i < |entries| ==> EntryOk(entries[i], expected))
    && Lists(entries, RECORD_PATH)
    && Lists(entries, LOCK_PATH)
  }

  function StageOf(e: SlotEntry): seq<StageEntry> {
    if e.path != RECORD_PATH && e.path != LOCK_PATH && e.bytes.Some? then [StageEntry(e.path, e.bytes.value)] else []
  }

  function StagesOf(entries: seq<SlotEntry>): seq<StageEntry> {
    if entries == [] then [] else StagesOf(entries[..|entries| - 1]) + StageOf(entries[|entries| - 1])
  }

  predicate StagesPass(stages: seq<StageEntry>, purging: InstallRecord, expected: FileBytes) {
    forall i :: 0 <= i < |stages| ==> ValidatePurgeStage(purging, expected, stages[i]).None?
  }

  predicate SlotPasses(entries: seq<SlotEntry>, purging: InstallRecord, expected: FileBytes) {
    EntriesPass(entries, expected) && StagesPass(StagesOf(entries), purging, expected)
  }

  function StagePaths(stages: seq<StageEntry>): (paths: seq<string>)
    ensures |paths| == |stages|
    ensures forall i :: 0 <= i < |stages| ==> paths[i] == stages[i].path
  {
    seq(|stages|, i requires 0 <= i < |stages| => stages[i].path)
  }

  predicate NoRepeats(paths: seq<string>) {
    forall i :: 0 <= i < |paths| ==> paths[i] !in paths[..i]
  }

  predicate AllIn(paths: seq<string>, files: map<string, FileBytes>) {
    forall i :: 0 <= i < |paths| ==> paths[i] in files
  }

  /** Every one of the names can be removed in turn. */
  predicate Removable(paths: seq<string>, files: map<string, FileBytes>) {
    NoRepeats(paths) && AllIn(paths, files)
  }

  /** A listing without repeated names gives stages without repeated names. */
  lemma {:induction false} StagesDoNotRepeat(entries: seq<SlotEntry>)
    requires Distinct(entries)
    requires forall i :: 0 <= i < |entries| ==> entries[i].bytes.Some? || entries[i].path == LOCK_PATH
    ensures NoRepeats(StagePaths(StagesOf(entries)))
  {
    if entries != [] {
      var front, e := entries[..|entries| - 1], entries[|entries| - 1];
      forall i | 0 <= i < |front| ensures NewAt(front, i) {
        assert NewAt(entries, i);
        assert front[..i] == entries[..i];
      }
      assert NewAt(entries, |front|);
      StagesDoNotRepeat(front);
      StagesAreListed(front, e.path);
      var before, after := StagePaths(StagesOf(front)), StagePaths(StagesOf(entries));
      assert entries == front + [e];
      StagePathsMore(front, e);
      forall i | 0 <= i < |after| ensures after[i] !in after[..i] {
        assert after[..i] == before[..i];
      }
    }
  }

  lemma StagePathsMore(front: seq<SlotEntry>, e: SlotEntry)
    ensures StagePaths(StagesOf(front + [e])) ==
            StagePaths(StagesOf(front)) + if StageOf(e) == [] then [] else [e.path]
  {
    assert (front + [e])[..|front|] == front;
  }

  lemma {:induction false} StagesAreListed(entries: seq<SlotEntry>, path: string)
    requires forall i :: 0 <= i < |entries| ==> entries[i].bytes.Some? || entries[i].path == LOCK_PATH
    ensures path in StagePaths(StagesOf(entries)) <==> Lists(entries, path) && path != RECORD_PATH && path != LOCK_PATH
  {
    if entries != [] {
      var front, e := entries[..|entries| - 1], entries[|entries| - 1];
      StagesAreListed(front, path);
      assert entries == front + [e];
      StagePathsMore(front, e);
      ListsMore(front, e, path);
    }
  }

  /** What the scan has established about the entries read so far. */
  predicate Scanned(prefix: seq<SlotEntry>, expected: FileBytes, seen: set<string>, sawRecord: bool, sawLock: bool) {
    && Distinct(prefix)
    && (forall k :: 0 <= k < |prefix| ==> EntryOk(prefix[k], expected))
    && (forall k :: 0 <= k < |prefix| ==> prefix[k].path in seen)
    && (forall p :: p in seen ==> Lists(prefix, p))
    && sawRecord == Lists(prefix, RECORD_PATH)
    && sawLock == Lists(prefix, LOCK_PATH)
  }

  lemma ListsMore(prefix: seq<SlotEntry>, e: SlotEntry, p: string)
    ensures Lists(prefix + [e], p) == (Lists(prefix, p) || e.path == p)
  {
    var more := prefix + [e];
    if Lists(prefix, p) {
      var k :| 0 <= k < |prefix| && prefix[k].path == p;
      assert more[k].path == p;
    }
    if e.path == p {
      assert more[|prefix|].path == p;
    }
  }

  lemma DistinctMore(prefix: seq<SlotEntry>, e: SlotEntry)
    requires Distinct(prefix) && !Lists(prefix, e.path)
    ensures Distinct(prefix + [e])
  {
    var more := prefix + [e];
    forall i | 0 <= i < |more| ensures NewAt(more, i) {
      assert i < |prefix| ==> NewAt(prefix, i);
      assert more[..i] == if i < |prefix| then prefix[..i] else prefix;
    }
  }

  lemma ScanStep(prefix: seq<SlotEntry>, e: SlotEntry, expected: FileBytes, seen: set<string>, sawRecord: bool,
                 sawLock: bool)
    requires Scanned(prefix, expected, seen, sawRecord, sawLock)
    requires e.path !in seen && EntryOk(e, expected)
    ensures Scanned(prefix + [e], expected, seen + {e.path}, sawRecord || e.path == RECORD_PATH,
                    sawLock || e.path == LOCK_PATH)
  {
    forall p ensures Lists(prefix + [e], p) == (Lists(prefix, p) || e.path == p) {
      ListsMore(prefix, e, p);
    }
    assert !Lists(prefix, e.path);
    DistinctMore(prefix, e);
  }

  /** The staging file an entry contributes, if any; refuses anything that does not belong in the slot. */
  method AdmitEntry(e: SlotEntry, expected: FileBytes) returns (r: Result<seq<StageEntry>, StoreError>)
    ensures r == if EntryOk(e, expected) then Ok(StageOf(e)) else Err(PurgeStageDrift)
  {
    SlotPathsAreNotStages();
    if e.path == RECORD_PATH {
      if e.kind != RegularFile || e.bytes != Some(expected) {
        return Err(PurgeStageDrift);
      }
      return Ok([]);
    } else if e.path == LOCK_PATH {
      if e.kind != RegularFile {
        return Err(PurgeStageDrift);
      }
      return Ok([]);
    } else if IsStagePath(e.path) {
      if e.kind != RegularFile || e.bytes.None? {
        return Err(PurgeStageDrift);
      }
      return Ok([StageEntry(e.path, e.bytes.value)]);
    }
    return Err(PurgeStageDrift);
  }

  lemma ScanNext(entries: seq<SlotEntry>, i: nat, expected: FileBytes, seen: set<string>, sawRecord: bool,
                 sawLock: bool)
    requires i < |entries| && Scanned(entries[..i], expected, seen, sawRecord, sawLock)
    requires entries[i].path !in seen && EntryOk(entries[i], expected)
    ensures Scanned(entries[..i + 1], expected, seen + {entries[i].path}, sawRecord || entries[i].path == RECORD_PATH,
                    sawLock || entries[i].path == LOCK_PATH)
    ensures StagesOf(entries[..i + 1]) == StagesOf(entries[..i]) + StageOf(entries[i])
  {
    ScanStep(entries[..i], entries[i], expected, seen, sawRecord, sawLock);
    assert entries[..i + 1] == entries[..i] + [entries[i]];
  }

  lemma RepeatFails(entries: seq<SlotEntry>, i: nat, expected: FileBytes, seen: set<string>, sawRecord: bool,
                    sawLock: bool)
    requires i < |entries| && Scanned(entries[..i], expected, seen, sawRecord, sawLock) && entries[i].path in seen
    ensures !EntriesPass(entries, expected)
  {
    assert !NewAt(entries, i);
  }

  lemma ScanEnd(entries: seq<SlotEntry>, expected: FileBytes, seen: set<string>, sawRecord: bool, sawLock: bool)
    requires Scanned(entries[..|entries|], expected, seen, sawRecord, sawLock)
    ensures EntriesPass(entries, expected) <==> sawRecord && sawLock
    ensures StagesOf(entries[..|entries|]) == StagesOf(entries)
  {
    assert entries[..|entries|] == entries;
  }

  /** Classifies a directory listing, refusing any repeated, foreign or malformed entry. */
  method ScanEntries(entries: seq<SlotEntry>, expected: FileBytes) returns (r: Result<seq<StageEntry>, StoreError>)
    ensures r == if EntriesPass(entries, expected) then Ok(StagesOf(entries)) else Err(PurgeStageDrift)
  {
    var seen: set<string> := {};
    var sawRecord, sawLock := false, false;
    var stages: seq<StageEntry> := [];
    var i := 0;
    while i < |entries|
      invariant 0 <= i <= |entries|
      invariant Scanned(entries[..i], expected, seen, sawRecord, sawLock)
      invariant stages == StagesOf(entries[..i])
    {
      var e := entries[i];
      if e.path in seen {
        RepeatFails(entries, i, expected, seen, sawRecord, sawLock);
        return Err(PurgeStageDrift);
      }
      var admitted := AdmitEntry(e, expected);
      if admitted.Err? {
        return Err(admitted.error);
      }
      ScanNext(entries, i, expected, seen, sawRecord, sawLock);
      seen := seen + {e.path};
      sawRecord := sawRecord || e.path == RECORD_PATH;
      sawLock := sawLock || e.path == LOCK_PATH;
      stages := stages + admitted.value;
      i := i + 1;
    }
    ScanEnd(entries, expected, seen, sawRecord, sawLock);
    if !sawRecord || !sawLock {
      return Err(PurgeStageDrift);
    }
    return Ok(stages);
  }

  method ValidateStages(stages: seq<StageEntry>, purging: InstallRecord, expected: FileBytes)
    returns (r: Option<StoreError>)
    ensures r == if StagesPass(stages, purging, expected) then None else Some(PurgeStageDrift)
  {
    var i := 0;
    while i < |stages|
      invariant 0 <= i <= |stages|
      invariant forall k :: 0 <= k < i ==> ValidatePurgeStage(purging, expected, stages[k]).None?
    {
      var verdict := ValidatePurgeStage(purging, expected, stages[i]);
      if verdict.Some? {
        return verdict;
      }
      i := i + 1;
    }
    return None;
  }

  // ---------- the slot ----------

  /** Only the record and staging files change; what is new in them is exactly `next`, or a torn stage. */
  predicate Framed(before: map<string, FileBytes>, after: map<string, FileBytes>, next: InstallRecord) {
    && (forall p :: p in after ==>
          || (p in before && after[p] == before[p])
          || ((p == RECORD_PATH || IsStagePath(p)) && after[p] == Serialized(next, 0))
          || (IsStagePath(p) && after[p].Other?))
    && (forall p :: p in before ==> p in after || p == RECORD_PATH || IsStagePath(p))
  }

  lemma FramesCompose(a: map<string, FileBytes>, b: map<string, FileBytes>, c: map<string, FileBytes>,
                      next: InstallRecord)
    requires Framed(a, b, next) && Framed(b, c, next)
    ensures Framed(a, c, next)
  {
  }

  /** Every staging file holds a record that some write during `h` was let through with, or a torn write. */
  ghost predicate Owned(files: map<string, FileBytes>, h: seq<InstallRecord>) {
    forall p :: p in files && IsStagePath(p) ==> OwnedBytes(files[p], h)
  }

  predicate OwnedBytes(bytes: FileBytes, h: seq<InstallRecord>) {
    bytes.Serialized? ==> bytes.layout == 0 && AdmittedDuring(h, bytes.record)
  }

  /** Stages that were there stay admitted as the history grows, and a new one holds the admitted record. */
  lemma StagesStayOwned(files: map<string, FileBytes>, h: seq<InstallRecord>, after: map<string, FileBytes>,
                        g: seq<InstallRecord>, expectedRevision: nat, next: InstallRecord)
    requires CasVerdict(Latest(h), expectedRevision, next).None? && (g == h || g == h + [next])
    requires Framed(files, after, next)
    ensures Owned(files, h) ==> Owned(after, g)
  {
    AdmittedNow(h, expectedRevision, next);
    if Owned(files, h) {
      forall p | p in after && IsStagePath(p) ensures OwnedBytes(after[p], g) {
        if after[p].Serialized? {
          assert after[p] == Serialized(next, 0) || (p in files && after[p] == files[p]);
          assert OwnedBytes(after[p], h);
          AdmittedStaysAdmitted(h, next, after[p].record);
        }
      }
    }
  }

  /** Some staging name is still unused. */
  predicate Fresh(names: seq<string>, files: map<string, FileBytes>) {
    exists i :: 0 <= i < |names| && names[i] !in files
  }

  /** What an undisturbed compare-and-swap returns, by verdict, encoded size and staging names. */
  function CasResult(verdict: Option<StoreError>, fits: bool, named: bool): Result<(), StoreError> {
    if verdict.Some? then Err(verdict.value)
    else if !fits then Err(InvalidRecord)
    else if !named then Err(Storage)
    else Ok(())
  }

  /** The slot holds exactly the expected PURGING record, and every listed entry passes. */
  predicate MayFinalize(files: map<string, FileBytes>, revision: nat, expected: FileBytes, entries: seq<SlotEntry>) {
    && RECORD_PATH in files && files[RECORD_PATH] == expected
    && Decode(expected).Ok? && Decode(expected).value.state == Purging
    && Decode(expected).value.revision == revision
    && SlotPasses(entries, Decode(expected).value, expected)
  }

  class StableSlot {
    var files: map<string, FileBytes>
    /** Every record published since the slot was last empty, oldest first. */
    ghost var history: seq<InstallRecord>
    /** How many storage operations have failed so far. */
    ghost var faults: nat

    ghost predicate Valid()
      reads this
    {
      && Lawful(history)
      && (RECORD_PATH in files <==> history != [])
      && (history != [] ==> files[RECORD_PATH] == Serialized(history[|history| - 1], 0))
    }

    /** Every staging file holds a record some write of this slot was let through with, or a torn write. */
    ghost predicate OwnStages()
      reads this
    {
      Owned(files, history)
    }

    constructor ()
      ensures Valid() && OwnStages() && files == map[] && history == []
    {
      files, history, faults := map[], [], 0;
    }

    /** Whether the storage fails next: the one source of faults. */
    method Fails() returns (failed: bool)
      modifies this`faults
      ensures faults == old(faults) + if failed then 1 else 0
    {
      failed := *;
      if failed {
        faults := faults + 1;
      }
    }

    /** What an undisturbed read of the record returns. */
    function Current(): Result<Option<(InstallRecord, FileBytes)>, StoreError>
      reads this
    {
      if RECORD_PATH !in files then Ok(None)
      else match Decode(files[RECORD_PATH])
        case Err(e) => Err(e)
        case Ok(record) => Ok(Some((record, files[RECORD_PATH])))
    }

    method ReadCurrent() returns (r: Result<Option<(InstallRecord, FileBytes)>, StoreError>)
      modifies this`faults
      ensures if faults == old(faults) then r == Current() else r == Err(Storage) && faults > old(faults)
    {
      var failed := Fails();
      if failed {
        return Err(Storage);
      }
      return Current();
    }

    /** Removal may fail before or after taking effect. */
    method RemoveRegularFile(path: string) returns (r: Result<bool, StoreError>)
      modifies this`files, this`faults
      ensures r.Err? <==> faults > old(faults)
      ensures r.Ok? ==> r.value == (path in old(files)) && path !in files && faults == old(faults)
      ensures forall p :: p != path ==> (p in files <==> p in old(files))
      ensures forall p :: p in files ==> p in old(files) && files[p] == old(files)[p]
    {
      var failed := Fails();
      if failed {
        return Err(Storage);
      }
      var present := path in files;
      files := files - {path};
      failed := Fails();
      if failed {
        return Err(Storage);
      }
      return Ok(present);
    }

    method SyncSlotDirectory() returns (r: Result<(), StoreError>)
      modifies this`faults
      ensures if faults == old(faults) then r == Ok(()) else r == Err(Storage) && faults > old(faults)
    {
      var failed := Fails();
      if failed {
        return Err(Storage);
      }
      return Ok(());
    }

    /**
     Writes the bytes under a fresh staging name drawn from `names` and reads them
     back. A crash may leave a torn file, a whole one, or nothing.
     */
    method CreateVerifiedStage(next: InstallRecord, names: seq<string>) returns (r: Result<string, StoreError>)
      requires Valid() && Admissible(next)
      requires |names| == STAGE_ATTEMPTS && forall i :: 0 <= i < |names| ==> IsStagePath(names[i])
      modifies this`files, this`faults
      ensures Valid() && Framed(old(files), files, next)
      ensures r.Ok? ==> IsStagePath(r.value) && r.value !in old(files)
                        && files == old(files)[r.value := Serialized(next, 0)] && faults == old(faults)
      ensures r.Err? ==> r.error == Storage
      ensures faults == old(faults) ==> (r.Ok? <==> Fresh(names, old(files)))
      ensures faults == old(faults) && r.Err? ==> files == old(files)
    {
      SlotPathsAreNotStages();
      var attempt := 0;
      while attempt < STAGE_ATTEMPTS
        invariant 0 <= attempt <= STAGE_ATTEMPTS
        invariant files == old(files) && faults == old(faults)
        invariant forall i :: 0 <= i < attempt ==> names[i] in files
      {
        var stage := names[attempt];
        var failed := Fails();
        if failed {
          return Err(Storage);
        }
        if stage !in files {
          assert Fresh(names, files);
          failed := Fails();
          if failed {
            // the write is torn
            var tag: nat := *;
            files := files[stage := Other(tag)];
            return Err(Storage);
          }
          files := files[stage := Serialized(next, 0)];
          failed := Fails();
          if failed {
            return Err(Storage);
          }
          return Ok(stage);
        }
        attempt := attempt + 1;
      }
      return Err(Storage);
    }

    /** The rename that makes a staged record the current one. */
    method Publish(stage: string, next: InstallRecord, ghost expectedRevision: nat) returns (r: Result<(), StoreError>)
      requires Valid() && IsStagePath(stage) && stage in files && files[stage] == Serialized(next, 0)
      requires CasVerdict(Latest(history), expectedRevision, next).None?
      modifies this
      ensures Valid() && Framed(old(files), files, next)
      ensures if r.Ok? then history == old(history) + [next] && faults == old(faults)
                            && files == (old(files) - {stage})[RECORD_PATH := Serialized(next, 0)]
              else history == old(history) && files == old(files) && faults > old(faults)
    {
      SlotPathsAreNotStages();
      var failed := Fails();
      if failed {
        return Err(Storage);
      }
      AdmittedKeepsLaw(history, expectedRevision, next);
      files := (files - {stage})[RECORD_PATH := Serialized(next, 0)];
      history := history + [next];
      return Ok(());
    }

    /**
     One compare-and-swap under the lock; `fits` tells whether the encoding is
     within the control-file limit. Whatever fails and whenever, the slot holds the
     old record or the new one, and the new one only if admitted; if nothing fails,
     verdict, size and names decide.
     */
    method CompareAndSwap(expectedRevision: nat, next: InstallRecord, fits: bool, names: seq<string>)
      returns (r: Result<(), StoreError>)
      requires Valid()
      requires |names| == STAGE_ATTEMPTS && forall i :: 0 <= i < |names| ==> IsStagePath(names[i])
      modifies this
      ensures Valid() && Framed(old(files), files, next)
      ensures history == old(history)
              || (history == old(history) + [next] && CasVerdict(old(Latest(history)), expectedRevision, next).None?)
      ensures r.Ok? ==> history == old(history) + [next]
      ensures var verdict := CasVerdict(old(Latest(history)), expectedRevision, next);
              verdict.Some? ==> files == old(files) && (r == Err(verdict.value) || r == Err(Storage))
      ensures faults == old(faults) ==>
                r == CasResult(CasVerdict(old(Latest(history)), expectedRevision, next), fits, old(Fresh(names, files)))
      ensures old(OwnStages()) ==> OwnStages()
    {
      SlotPathsAreNotStages();
      assert history != [] ==> Sound(history[|history| - 1]);
      if Validate(next).Some? {
        return Err(InvalidRecord);
      }
      var current := ReadCurrent();
      if current.Err? {
        return Err(current.error);
      }
      assert current.value.None? ==> Latest(history) == None;
      assert current.value.Some? ==> Latest(history) == Some(current.value.value.0);
      match current.value {
        case None =>
          if expectedRevision != 0 {
            return Err(CompareAndSwapConflict);
          }
          if ValidateInitial(next).Some? {
            return Err(InvalidRecord);
          }
        case Some((record, _)) =>
          if record.revision != expectedRevision {
            return Err(CompareAndSwapConflict);
          }
          if record.revision + 1 > U64_MAX {
            return Err(InvalidRecord);
          }
          if next.revision != record.revision + 1 {
            return Err(CompareAndSwapConflict);
          }
          if ValidateSuccessor(record, next).Some? {
            return Err(InvalidRecord);
          }
      }
      if !fits {
        return Err(InvalidRecord);
      }
      r := StageAndPublish(expectedRevision, next, names);
      StagesStayOwned(old(files), old(history), files, history, expectedRevision, next);
    }

    method StageAndPublish(ghost expectedRevision: nat, next: InstallRecord, names: seq<string>)
      returns (r: Result<(), StoreError>)
      requires Valid() && Admissible(next)
      requires CasVerdict(Latest(history), expectedRevision, next).None?
      requires |names| == STAGE_ATTEMPTS && forall i :: 0 <= i < |names| ==> IsStagePath(names[i])
      modifies this
      ensures Valid() && Framed(old(files), files, next)
      ensures history == old(history) || history == old(history) + [next]
      ensures r.Ok? ==> history == old(history) + [next]
      ensures faults == old(faults) ==> r == if old(Fresh(names, files)) then Ok(()) else Err(Storage)
    {
      var staged := CreateVerifiedStage(next, names);
      if staged.Err? {
        return Err(staged.error);
      }
      ghost var before := files;
      r := PublishStaged(staged.value, next, expectedRevision);
      FramesCompose(old(files), before, files, next);
    }

    /** Publishes a stage and confirms it; a failure discards what is left of the stage. */
    method PublishStaged(stage: string, next: InstallRecord, ghost expectedRevision: nat)
      returns (r: Result<(), StoreError>)
      requires Valid() && IsStagePath(stage) && stage in files && files[stage] == Serialized(next, 0)
      requires CasVerdict(Latest(history), expectedRevision, next).None?
      modifies this
      ensures Valid() && Framed(old(files), files, next)
      ensures history == old(history) || history == old(history) + [next]
      ensures r.Ok? ==> history == old(history) + [next]
      ensures faults >= old(faults) && (faults == old(faults) ==> r == Ok(()))
    {
      SlotPathsAreNotStages();
      var published := Publish(stage, next, expectedRevision);
      if published.Err? {
        Discard(stage, next);
        return Err(published.error);
      }
      ghost var before := files;
      r := Confirm(stage, next);
      FramesCompose(old(files), before, files, next);
    }

    /** Removes what may be left of a stage, whatever comes of it. */
    method Discard(stage: string, ghost next: InstallRecord)
      requires Valid() && IsStagePath(stage)
      modifies this`files, this`faults
      ensures Valid() && Framed(old(files), files, next) && faults >= old(faults)
    {
      SlotPathsAreNotStages();
      var _ := RemoveRegularFile(stage);
    }

    /** Reads the published record back and makes it durable. */
    method Confirm(stage: string, next: InstallRecord) returns (r: Result<(), StoreError>)
      requires Valid() && IsStagePath(stage) && Latest(history) == Some(next)
      modifies this`files, this`faults
      ensures Valid() && Framed(old(files), files, next)
      ensures faults >= old(faults) && (faults == old(faults) ==> r == Ok(()))
    {
      assert Sound(next);
      var observed := ReadCurrent();
      if observed != Ok(Some((next, Serialized(next, 0)))) {
        Discard(stage, next);
        return Err(if observed.Err? then observed.error else Integrity);
      }
      r := SyncSlotDirectory();
    }

    /** Removes the validated stages in order; `deleted` lists the names it tried to remove. */
    method RemoveStages(stages: seq<StageEntry>) returns (r: Result<(), StoreError>, ghost deleted: seq<string>)
      requires forall i :: 0 <= i < |stages| ==> IsStagePath(stages[i].path)
      modifies this`files, this`faults
      ensures faults >= old(faults)
      ensures faults == old(faults) && Removable(StagePaths(stages), old(files)) ==> r.Ok?
      ensures deleted <= StagePaths(stages)
      ensures r.Ok? ==> deleted == StagePaths(stages) && forall p :: p in deleted ==> p !in files
      ensures forall p :: p !in deleted ==> (p in files <==> p in old(files))
      ensures forall p :: p in files ==> p in old(files) && files[p] == old(files)[p]
    {
      deleted := [];
      var i := 0;
      while i < |stages|
        invariant 0 <= i <= |stages|
        invariant deleted == StagePaths(stages)[..i] && faults == old(faults)
        invariant forall p :: p in deleted ==> p !in files
        invariant forall p :: p !in deleted ==> (p in files <==> p in old(files))
        invariant forall p :: p in files ==> p in old(files) && files[p] == old(files)[p]
      {
        var removed := RemoveRegularFile(stages[i].path);
        deleted := deleted + [stages[i].path];
        if removed.Err? {
          return Err(removed.error), deleted;
        }
        if !removed.value {
          return Err(PurgeStageDrift), deleted;
        }
        i := i + 1;
      }
      return Ok(()), deleted;
    }

    /** Re-reads the record and removes it only if it is still byte for byte the expected one. */
    method RemoveRecord(record: InstallRecord, expected: FileBytes)
      returns (r: Result<(), StoreError>, ghost attempted: bool)
      modifies this
      ensures attempted ==> RECORD_PATH in old(files) && old(files)[RECORD_PATH] == expected
      ensures !attempted ==> files == old(files) && history == old(history)
      ensures r.Ok? ==> attempted && RECORD_PATH !in files
      ensures forall p :: p != RECORD_PATH ==> (p in files <==> p in old(files))
      ensures forall p :: p in files ==> p in old(files) && files[p] == old(files)[p]
      ensures old(Valid()) ==> Valid()
      ensures faults >= old(faults)
      ensures faults == old(faults) ==> (r.Ok? <==> old(Current()) == Ok(Some((record, expected))))
    {
      attempted := false;
      var current := ReadCurrent();
      if current.Err? {
        return Err(current.error), attempted;
      }
      if current.value != Some((record, expected)) {
        return Err(PurgePrecondition), attempted;
      }
      attempted := true;
      var removed := RemoveRegularFile(RECORD_PATH);
      if RECORD_PATH !in files {
        history := [];
      }
      if removed.Err? {
        return Err(removed.error), attempted;
      }
      if !removed.value {
        return Err(PurgePrecondition), attempted;
      }
      var synced := SyncSlotDirectory();
      if synced.Err? {
        return Err(synced.error), attempted;
      }
      var after := ReadCurrent();
      if after.Err? {
        return Err(after.error), attempted;
      }
      return (if after.value.Some? then Err(Integrity) else Ok(())), attempted;
    }

    /**
     Record-last finalization of a purge. `listing` is what the directory
     enumeration reported, and `meddling` what a foreign writer does to the
     record file while the stages are being removed, if anything.
     */
    method CompareAndDeletePurging(expectedRevision: nat, expected: FileBytes,
                                   listing: Result<seq<SlotEntry>, StoreError>,
                                   meddling: Option<FileBytes>)
      returns (r: Result<(), StoreError>, ghost deleted: seq<string>)
      modifies this
      ensures old(Valid()) && meddling.None? ==> Valid()
      // nothing is removed unless the record is the expected PURGING one and every entry passes
      ensures deleted != [] || r.Ok? ==>
                listing.Ok? && MayFinalize(old(files), expectedRevision, expected, listing.value)
      // the listed stages go first, in order, and the record goes last
      ensures listing.Ok? ==> deleted <= StagePaths(StagesOf(listing.value)) + [RECORD_PATH]
      ensures listing.Err? ==> deleted == []
      ensures r.Ok? ==> listing.Ok? && deleted == StagePaths(StagesOf(listing.value)) + [RECORD_PATH]
      ensures r.Ok? ==> forall p :: p in deleted ==> p !in files
      // over a complete listing only the lock file is left
      ensures r.Ok? && (forall p :: p in old(files) ==> Lists(listing.value, p)) ==>
              forall p :: p in files ==> p == LOCK_PATH
      // undisturbed and over a truthful listing it succeeds exactly when record and entries pass
      ensures faults >= old(faults)
      ensures listing.Ok? && AllIn(StagePaths(StagesOf(listing.value)), old(files)) ==>
                meddling.None? && faults == old(faults) ==>
                  (r.Ok? <==> MayFinalize(old(files), expectedRevision, expected, listing.value))
      // no other file changes
      ensures forall p :: p !in deleted && p != RECORD_PATH ==> (p in files <==> p in old(files))
      ensures forall p :: p in files && p != RECORD_PATH ==> p in old(files) && files[p] == old(files)[p]
      ensures RECORD_PATH !in deleted && meddling.None? ==> (RECORD_PATH in files <==> RECORD_PATH in old(files))
    {
      deleted := [];
      SlotPathsAreNotStages();
      var current := ReadCurrent();
      if current.Err? {
        return Err(current.error), deleted;
      }
      if current.value.None? {
        return Err(PurgePrecondition), deleted;
      }
      var (record, currentBytes) := current.value.value;
      if record.state != Purging || record.revision != expectedRevision || currentBytes != expected {
        return Err(PurgePrecondition), deleted;
      }
      if listing.Err? {
        return Err(listing.error), deleted;
      }
      var scan := ScanEntries(listing.value, expected);
      if scan.Err? {
        return Err(scan.error), deleted;
      }
      var stages := scan.value;
      var lineage := ValidateStages(stages, record, expected);
      if lineage.Some? {
        return Err(lineage.value), deleted;
      }
      ListedStagesDoNotRepeat(listing.value, expected);
      r, deleted := RemoveValidated(record, expected, stages, meddling);
      if r.Ok? {
        forall p | p in files && Lists(listing.value, p) ensures p == LOCK_PATH {
          NothingButTheLockRemains(listing.value, expected, p);
        }
      }
    }

    method RemoveValidated(record: InstallRecord, expected: FileBytes, stages: seq<StageEntry>,
                           meddling: Option<FileBytes>)
      returns (r: Result<(), StoreError>, ghost deleted: seq<string>)
      requires StagesPass(stages, record, expected)
      modifies this
      ensures old(Valid()) && meddling.None? ==> Valid()
      ensures deleted <= StagePaths(stages) + [RECORD_PATH]
      ensures r.Ok? ==> deleted == StagePaths(stages) + [RECORD_PATH]
      ensures r.Ok? ==> forall p :: p in deleted ==> p !in files
      ensures forall p :: p !in deleted && p != RECORD_PATH ==> (p in files <==> p in old(files))
      ensures forall p :: p in files && p != RECORD_PATH ==> p in old(files) && files[p] == old(files)[p]
      ensures RECORD_PATH !in deleted && meddling.None? ==> (RECORD_PATH in files <==> RECORD_PATH in old(files))
      ensures faults >= old(faults)
      ensures old(Current()) == Ok(Some((record, expected))) && Removable(StagePaths(stages), old(files)) ==>
                meddling.None? && faults == old(faults) ==> r.Ok?
    {
      SlotPathsAreNotStages();
      r, deleted := RemoveStages(stages);
      PassingPathsAreStages(stages, record, expected, deleted);
      if r.Err? {
        return;
      }
      if meddling.Some? {
        files := files[RECORD_PATH := meddling.value];
      }
      ghost var attempted;
      r, attempted := RemoveRecord(record, expected);
      if attempted {
        deleted := deleted + [RECORD_PATH];
      }
    }
  }

  lemma PassingPathsAreStages(stages: seq<StageEntry>, record: InstallRecord, expected: FileBytes, paths: seq<string>)
    requires StagesPass(stages, record, expected) && paths <= StagePaths(stages)
    ensures forall p :: p in paths ==> IsStagePath(p)
  {
  }

  lemma ListedStagesDoNotRepeat(entries: seq<SlotEntry>, expected: FileBytes)
    requires EntriesPass(entries, expected)
    ensures NoRepeats(StagePaths(StagesOf(entries)))
  {
    forall i | 0 <= i < |entries| ensures entries[i].bytes.Some? || entries[i].path == LOCK_PATH {
      assert EntryOk(entries[i], expected);
    }
    StagesDoNotRepeat(entries);
  }

  /** A complete listing that passes leaves only the lock file behind. */
  lemma NothingButTheLockRemains(entries: seq<SlotEntry>, expected: FileBytes, path: string)
    requires EntriesPass(entries, expected) && Lists(entries, path)
    ensures path == LOCK_PATH || path in StagePaths(StagesOf(entries)) + [RECORD_PATH]
  {
    forall i | 0 <= i < |entries| ensures entries[i].bytes.Some? || entries[i].path == LOCK_PATH {
      assert EntryOk(entries[i], expected);
    }
    StagesAreListed(entries, path);
  }
}
