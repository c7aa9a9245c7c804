/**
 The durable installation record: validation, the append-only checkpoint, the
 lifecycle transition, and the rule by which a stored record admits a successor.
 Text is modelled as its sequence of bytes.
 */
module InstallRecords {
  import opened Common

  const FORMAT_VERSION: nat := 1
  const MAX_VERSION_LEN: nat := 128

  datatype InstallState = Installing | Active | Removing | Retained | Purging | Broken

  datatype SignerStatus = Signed | UnsignedDevelopment

  datatype RuntimeArtifact = RuntimeArtifact(relativePath: string, sha256: string, version: string,
                                             signer: SignerStatus)

  datatype KeyArtifact = KeyArtifact(relativePath: string, sha256: string)

  datatype TaskEvidence = TaskEvidence(taskPath: string, definitionSha256: string)

  datatype InstallRecord = InstallRecord(
    formatVersion: nat,
    installId: string,
    consumerId: string,
    state: InstallState,
    revision: nat,
    productPath: Option<string>,
    dataPath: Option<string>,
    dataSchema: Option<nat>,
    protectedKey: Option<KeyArtifact>,
    runtime: Option<RuntimeArtifact>,
    scheduledTask: Option<TaskEvidence>,
    createdAt: int,
    updatedAt: int)

  datatype Checkpoint = Checkpoint(
    productPath: Option<string>,
    dataPath: Option<string>,
    dataSchema: Option<nat>,
    protectedKey: Option<KeyArtifact>,
    runtime: Option<RuntimeArtifact>,
    scheduledTask: Option<TaskEvidence>)

  datatype RecordError =
    | UnsupportedFormat
    | InvalidTimestampOrRevision
    | InvalidInitialRecord
    | RevisionExhausted
    | InvalidVersion
    | ActiveRecordIncomplete
    | StaleRevision
    | TimestampRegressed
    | IllegalTransition
    | CheckpointRequiresInstalling
    | InvalidEvidenceOrder
    | InvalidCheckpointStep
    | EvidenceConflict
    | EvidencePathMismatch

  // ---------- validation ----------

  predicate VersionText(v: string) {
    0 < |v| <= MAX_VERSION_LEN && '\0' !in v
  }

  function InstallRoot(r: InstallRecord): string {
    "installs\\" + r.installId
  }

  predicate EvidencePaths(r: InstallRecord) {
    && (r.productPath.Some? ==> r.productPath.value == InstallRoot(r))
    && (r.dataPath.Some? ==> r.dataPath.value == InstallRoot(r) + "\\data")
    && (r.protectedKey.Some? ==> r.protectedKey.value.relativePath == InstallRoot(r) + "\\secrets\\endpoint-key.dpapi")
    && (r.runtime.Some? ==>
          r.runtime.value.relativePath == InstallRoot(r) + "\\bin\\" + r.runtime.value.sha256 + "\\mesh-daemon.exe")
  }

  predicate EvidenceOrder(r: InstallRecord) {
    && r.productPath.Some?
    && r.dataPath.Some? == r.dataSchema.Some?
    && !(r.protectedKey.None? && (r.runtime.Some? || r.dataPath.Some? || r.scheduledTask.Some?))
    && !(r.runtime.None? && (r.dataPath.Some? || r.scheduledTask.Some?))
    && !(r.dataPath.None? && r.scheduledTask.Some?)
  }

  predicate Complete(r: InstallRecord) {
    && r.productPath.Some? && r.dataPath.Some? && r.dataSchema.Some?
    && r.protectedKey.Some? && r.runtime.Some? && r.scheduledTask.Some?
  }

  /** The states in which the installation is usable, being removed, retained or purged. */
  predicate NeedsCompleteness(s: InstallState) {
    s == Active || s == Removing || s == Retained || s == Purging
  }

  /** `None` admits the record; otherwise the first violated requirement. */
  function Validate(r: InstallRecord): Option<RecordError> {
    if r.formatVersion != FORMAT_VERSION then Some(UnsupportedFormat)
    else if r.revision == 0 || r.createdAt < 0 || r.updatedAt < r.createdAt then Some(InvalidTimestampOrRevision)
    else if r.dataSchema == Some(0) then Some(InvalidVersion)
    else if r.runtime.Some? && !VersionText(r.runtime.value.version) then Some(InvalidVersion)
    else if !EvidencePaths(r) then Some(EvidencePathMismatch)
    else if !EvidenceOrder(r) then Some(InvalidEvidenceOrder)
    else if NeedsCompleteness(r.state) && !Complete(r) then Some(ActiveRecordIncomplete)
    else None
  }

  predicate Admissible(r: InstallRecord) {
    Validate(r).None?
  }

  function ValidateInitial(r: InstallRecord): Option<RecordError> {
    if Validate(r).Some? then Validate(r)
    else if || r.state != Installing || r.revision != 1 || r.createdAt != r.updatedAt
            || r.productPath.None? || r.dataPath.Some? || r.dataSchema.Some?
            || r.protectedKey.Some? || r.runtime.Some? || r.scheduledTask.Some?
    then Some(InvalidInitialRecord)
    else None
  }

  // ---------- state changes ----------

  predicate LegalTransition(current: InstallState, next: InstallState) {
    match current
    case Installing => next == Active || next == Broken
    case Active => next == Removing
    case Removing => next == Retained || next == Broken
    case Retained => next == Installing || next == Purging
    case _ => false
  }

  function EnsureCas(r: InstallRecord, expectedRevision: nat, updatedAt: int): Option<RecordError> {
    if Validate(r).Some? then Validate(r)
    else if r.revision != expectedRevision then Some(StaleRevision)
    else if updatedAt < r.updatedAt then Some(TimestampRegressed)
    else None
  }

  predicate KeyStep(r: InstallRecord, c: Checkpoint) {
    r.protectedKey.None? && c == Checkpoint(None, None, None, c.protectedKey, None, None) && c.protectedKey.Some?
  }

  predicate RuntimeStep(r: InstallRecord, c: Checkpoint) {
    r.protectedKey.Some? && r.runtime.None? && c == Checkpoint(None, None, None, None, c.runtime, None)
    && c.runtime.Some?
  }

  predicate DataStep(r: InstallRecord, c: Checkpoint) {
    && r.runtime.Some? && r.dataPath.None? && r.dataSchema.None?
    && c == Checkpoint(None, c.dataPath, c.dataSchema, None, None, None) && c.dataPath.Some? && c.dataSchema.Some?
  }

  predicate TaskStep(r: InstallRecord, c: Checkpoint) {
    && r.dataPath.Some? && r.dataSchema.Some? && r.scheduledTask.None?
    && c == Checkpoint(None, None, None, None, None, c.scheduledTask) && c.scheduledTask.Some?
  }

  function Revalidated(r: InstallRecord): Result<InstallRecord, RecordError> {
    match Validate(r)
    case Some(e) => Err(e)
    case None => Ok(r)
  }

  /** The record with the one new piece of evidence of a checkpoint step. */
  function Extended(r: InstallRecord, c: Checkpoint, updatedAt: int): InstallRecord {
    var next := if KeyStep(r, c) then r.(protectedKey := c.protectedKey)
                else if RuntimeStep(r, c) then r.(runtime := c.runtime)
                else if DataStep(r, c) then r.(dataPath := c.dataPath, dataSchema := c.dataSchema)
                else r.(scheduledTask := c.scheduledTask);
    next.(revision := r.revision + 1, updatedAt := updatedAt)
  }

  function ApplyCheckpoint(r: InstallRecord, expectedRevision: nat, c: Checkpoint,
                           updatedAt: int): Result<InstallRecord, RecordError> {
    match EnsureCas(r, expectedRevision, updatedAt)
    case Some(e) => Err(e)
    case None =>
      if r.state != Installing then Err(CheckpointRequiresInstalling)
      else if r.revision + 1 > U64_MAX then Err(RevisionExhausted)
      else if !(KeyStep(r, c) || RuntimeStep(r, c) || DataStep(r, c) || TaskStep(r, c)) then Err(InvalidCheckpointStep)
      else Revalidated(Extended(r, c, updatedAt))
  }

  function Transition(r: InstallRecord, expectedRevision: nat, next: InstallState,
                      updatedAt: int): Result<InstallRecord, RecordError> {
    match EnsureCas(r, expectedRevision, updatedAt)
    case Some(e) => Err(e)
    case None =>
      if !LegalTransition(r.state, next) then Err(IllegalTransition)
      else if r.revision + 1 > U64_MAX then Err(RevisionExhausted)
      else Revalidated(r.(state := next, revision := r.revision + 1, updatedAt := updatedAt))
  }

  function Difference<T(==)>(current: Option<T>, next: Option<T>): Option<T> {
    if current != next then next else None
  }

  /** The checkpoint that would turn `r` into `next`. */
  function CheckpointBetween(r: InstallRecord, next: InstallRecord): Checkpoint {
    Checkpoint(Difference(r.productPath, next.productPath), Difference(r.dataPath, next.dataPath),
               Difference(r.dataSchema, next.dataSchema), Difference(r.protectedKey, next.protectedKey),
               Difference(r.runtime, next.runtime), Difference(r.scheduledTask, next.scheduledTask))
  }

  function ValidateSuccessor(r: InstallRecord, next: InstallRecord): Option<RecordError> {
    if Validate(r).Some? then Validate(r)
    else if Validate(next).Some? then Validate(next)
    else
      var derived :=
        if r.state == next.state then ApplyCheckpoint(r, r.revision, CheckpointBetween(r, next), next.updatedAt)
        else Transition(r, r.revision, next.state, next.updatedAt);
      match derived
      case Err(e) => Some(e)
      case Ok(d) => if d != next then Some(EvidenceConflict) else None
  }

  // ---------- what a successor is ----------

  /** How far setup has got: key, runtime, data, task. */
  function Stage(r: InstallRecord): nat {
    if r.protectedKey.None? then 0
    else if r.runtime.None? then 1
    else if r.dataPath.None? then 2
    else if r.scheduledTask.None? then 3
    else 4
  }

  predicate SameIdentity(a: InstallRecord, b: InstallRecord) {
    && a.formatVersion == b.formatVersion && a.installId == b.installId && a.consumerId == b.consumerId
    && a.createdAt == b.createdAt && a.productPath == b.productPath
  }

  predicate Keeps<T(==)>(a: Option<T>, b: Option<T>) {
    a.Some? ==> b == a
  }

  /** Every piece of evidence in `a` is unchanged in `b`. */
  predicate KeepsEvidence(a: InstallRecord, b: InstallRecord) {
    && Keeps(a.dataPath, b.dataPath) && Keeps(a.dataSchema, b.dataSchema) && Keeps(a.protectedKey, b.protectedKey)
    && Keeps(a.runtime, b.runtime) && Keeps(a.scheduledTask, b.scheduledTask)
  }

  predicate SameEvidence(a: InstallRecord, b: InstallRecord) {
    && a.dataPath == b.dataPath && a.dataSchema == b.dataSchema && a.protectedKey == b.protectedKey
    && a.runtime == b.runtime && a.scheduledTask == b.scheduledTask
  }

  /** Exactly one legal checkpoint or transition, described without deriving it. */
  predicate LegalSuccessor(a: InstallRecord, b: InstallRecord) {
    && Admissible(a) && Admissible(b)
    && SameIdentity(a, b)
    && b.revision == a.revision + 1 <= U64_MAX
    && a.updatedAt <= b.updatedAt
    && (|| (a.state == Installing == b.state && KeepsEvidence(a, b) && Stage(b) == Stage(a) + 1)
        || (LegalTransition(a.state, b.state) && SameEvidence(a, b)))
  }

  lemma CheckpointIsExact(a: InstallRecord, b: InstallRecord)
    requires Admissible(a) && Admissible(b) && a.state == b.state
    ensures ApplyCheckpoint(a, a.revision, CheckpointBetween(a, b), b.updatedAt) == Ok(b) <==> LegalSuccessor(a, b)
  {
    var c := CheckpointBetween(a, b);
    if LegalSuccessor(a, b) {
      match Stage(a)
      case 0 => assert KeyStep(a, c);
      case 1 => assert RuntimeStep(a, c);
      case 2 => assert DataStep(a, c);
      case _ => assert TaskStep(a, c);
    }
  }

  /** A successor is accepted exactly when it is one legal checkpoint or transition. */
  lemma SuccessorIsExact(a: InstallRecord, b: InstallRecord)
    ensures ValidateSuccessor(a, b).None? <==> LegalSuccessor(a, b)
  {
    if Admissible(a) && Admissible(b) && a.state == b.state {
      CheckpointIsExact(a, b);
    }
  }
}
