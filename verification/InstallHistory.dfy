/**
 Chains of compare-and-swap writes to the stable installation slot, starting
 from an absent record, and what every such chain keeps.
 */
module InstallHistory {
  import opened Common
  import opened InstallRecords

  datatype StoreError =
    | CompareAndSwapConflict
    | InvalidRecord
    | PurgePrecondition
    | PurgeStageDrift
    | Integrity
    | Storage

  /** The admission decision of a compare-and-swap; `None` lets the write through. */
  function CasVerdict(current: Option<InstallRecord>, expectedRevision: nat, next: InstallRecord): Option<StoreError> {
    if Validate(next).Some? then Some(InvalidRecord)
    else match current
      case None =>
        if expectedRevision != 0 then Some(CompareAndSwapConflict)
        else if ValidateInitial(next).Some? then Some(InvalidRecord)
        else None
      case Some(record) =>
        if record.revision != expectedRevision then Some(CompareAndSwapConflict)
        else if record.revision + 1 > U64_MAX then Some(InvalidRecord)
        else if next.revision != record.revision + 1 then Some(CompareAndSwapConflict)
        else if ValidateSuccessor(record, next).Some? then Some(InvalidRecord)
        else None
  }

  /** The revision a writer expects of the current record; 0 expects absence. */
  function RevisionOf(current: Option<InstallRecord>): nat {
    if current.None? then 0 else current.value.revision
  }

  datatype Attempt = Attempt(expectedRevision: nat, next: InstallRecord)

  function Latest(h: seq<InstallRecord>): Option<InstallRecord> {
    if h == [] then None else Some(h[|h| - 1])
  }

  /** The records written by a run of attempts, oldest first; refused attempts leave no trace. */
  function Written(attempts: seq<Attempt>): seq<InstallRecord> {
    if attempts == [] then []
    else
      var h := Written(attempts[..|attempts| - 1]);
      var a := attempts[|attempts| - 1];
      if CasVerdict(Latest(h), a.expectedRevision, a.next).None? then h + [a.next] else h
  }

  // ---------- what a chain keeps ----------

  /** Evidence is present exactly up to the record's stage. */
  predicate PrefixEvidence(r: InstallRecord) {
    && r.productPath.Some?
    && (r.protectedKey.Some? <==> Stage(r) >= 1)
    && (r.runtime.Some? <==> Stage(r) >= 2)
    && (r.dataPath.Some? <==> Stage(r) >= 3)
    && (r.dataSchema.Some? <==> Stage(r) >= 3)
    && (r.scheduledTask.Some? <==> Stage(r) == 4)
    && (Complete(r) <==> Stage(r) == 4)
  }

  predicate Sound(r: InstallRecord) {
    Admissible(r) && PrefixEvidence(r) && (r.state != Installing && r.state != Broken ==> Complete(r))
  }

  /** `b` was written after `a` in the same chain. */
  predicate Descends(a: InstallRecord, b: InstallRecord) {
    && SameIdentity(a, b)
    && a.revision <= b.revision
    && a.updatedAt <= b.updatedAt
    && KeepsEvidence(a, b)
    && Stage(a) <= Stage(b)
  }

  predicate Final(s: InstallState) {
    s == Purging || s == Broken
  }

  predicate Lawful(h: seq<InstallRecord>) {
    && (forall i :: 0 <= i < |h| ==> h[i].revision == i + 1)
    && (forall i :: 0 <= i < |h| ==> Sound(h[i]))
    && (forall i, j :: 0 <= i <= j < |h| ==> Descends(h[i], h[j]))
    && (forall i :: 0 <= i < |h| - 1 ==> !Final(h[i].state))
  }

  lemma AdmissibleIsSound(r: InstallRecord)
    requires Admissible(r)
    ensures Sound(r)
  {
  }

  lemma SuccessorDescends(a: InstallRecord, b: InstallRecord)
    requires LegalSuccessor(a, b)
    ensures Descends(a, b) && !Final(a.state)
  {
  }

  lemma DescentComposes(a: InstallRecord, b: InstallRecord, c: InstallRecord)
    requires Descends(a, b) && Descends(b, c)
    ensures Descends(a, c)
  {
  }

  lemma WriteKeepsLaw(h: seq<InstallRecord>, next: InstallRecord)
    requires Lawful(h) && h != [] && LegalSuccessor(h[|h| - 1], next)
    ensures Lawful(h + [next])
  {
    var last := h[|h| - 1];
    AdmissibleIsSound(next);
    SuccessorDescends(last, next);
    forall i | 0 <= i < |h| ensures Descends(h[i], next) {
      DescentComposes(h[i], last, next);
    }
  }

  /** A write is admitted exactly when it starts an absent slot or is the one legal next record. */
  lemma CasIsExact(current: Option<InstallRecord>, expectedRevision: nat, next: InstallRecord)
    ensures CasVerdict(current, expectedRevision, next).None? <==>
            match current
            case None =>
              && expectedRevision == 0 && Admissible(next) && next.state == Installing && next.revision == 1
              && next.createdAt == next.updatedAt && Stage(next) == 0
            case Some(record) => expectedRevision == record.revision && LegalSuccessor(record, next)
  {
    if current.Some? {
      SuccessorIsExact(current.value, next);
    }
  }

  lemma FirstIsLawful(r: InstallRecord)
    requires Admissible(r) && r.revision == 1
    ensures Lawful([r])
  {
    AdmissibleIsSound(r);
  }

  lemma AdmittedKeepsLaw(h: seq<InstallRecord>, expectedRevision: nat, next: InstallRecord)
    requires Lawful(h) && CasVerdict(Latest(h), expectedRevision, next).None?
    ensures Lawful(h + [next])
  {
    CasIsExact(Latest(h), expectedRevision, next);
    if h == [] {
      FirstIsLawful(next);
      assert h + [next] == [next];
    } else {
      WriteKeepsLaw(h, next);
    }
  }

  /** Every run of compare-and-swap attempts from absence leaves a lawful chain. */
  lemma {:induction false} EveryChainIsLawful(attempts: seq<Attempt>)
    ensures Lawful(Written(attempts))
  {
    if attempts != [] {
      EveryChainIsLawful(attempts[..|attempts| - 1]);
      var h := Written(attempts[..|attempts| - 1]);
      var a := attempts[|attempts| - 1];
      if CasVerdict(Latest(h), a.expectedRevision, a.next).None? {
        AdmittedKeepsLaw(h, a.expectedRevision, a.next);
      }
    }
  }

  /** Along a chain, the latest record of a longer prefix descends from that of a shorter one. */
  lemma PrefixesDescend(h: seq<InstallRecord>, a: seq<InstallRecord>, b: seq<InstallRecord>)
    requires Lawful(h) && a != [] && a <= b <= h
    ensures b != [] && Descends(Latest(a).value, Latest(b).value)
  {
    assert h[|a| - 1] == a[|a| - 1] && h[|b| - 1] == b[|b| - 1];
  }

  /** Once all evidence is present it never changes again. */
  lemma CompleteEvidenceIsFixed(h: seq<InstallRecord>, i: nat, j: nat)
    requires Lawful(h) && i <= j < |h| && Complete(h[i])
    ensures SameEvidence(h[i], h[j]) && Complete(h[j])
  {
    assert Descends(h[i], h[j]);
  }

  /** Some compare-and-swap during the chain was let through with `s`, whether or not it was then published. */
  predicate AdmittedDuring(h: seq<InstallRecord>, s: InstallRecord) {
    exists i :: 0 <= i <= |h| && AdmittedAfter(h, i, s)
  }

  predicate AdmittedAfter(h: seq<InstallRecord>, i: nat, s: InstallRecord)
    requires i <= |h|
  {
    CasVerdict(Latest(h[..i]), RevisionOf(Latest(h[..i])), s).None?
  }

  lemma AdmittedStaysAdmitted(h: seq<InstallRecord>, next: InstallRecord, s: InstallRecord)
    requires AdmittedDuring(h, s)
    ensures AdmittedDuring(h + [next], s)
  {
    var i :| 0 <= i <= |h| && AdmittedAfter(h, i, s);
    assert (h + [next])[..i] == h[..i];
    assert AdmittedAfter(h + [next], i, s);
  }

  lemma AdmittedNow(h: seq<InstallRecord>, expectedRevision: nat, s: InstallRecord)
    requires CasVerdict(Latest(h), expectedRevision, s).None?
    ensures AdmittedDuring(h, s)
  {
    CasIsExact(Latest(h), expectedRevision, s);
    assert h[..|h|] == h;
    assert AdmittedAfter(h, |h|, s);
  }

  /** An admitted record starts a chain or is a legal successor of one of its records. */
  lemma AdmittedIsSuccessor(h: seq<InstallRecord>, i: nat, s: InstallRecord)
    requires i <= |h| && AdmittedAfter(h, i, s)
    ensures Admissible(s) && if i == 0 then Stage(s) == 0 else LegalSuccessor(h[i - 1], s)
  {
    CasIsExact(Latest(h[..i]), RevisionOf(Latest(h[..i])), s);
  }
}
