# codex-agent-mesh: verified model of its core state machines

A Dafny project that models the mesh daemon's hardest parts and proves what
they promise over every input, every run and every interleaving.

- **Policy improvement** (`ArmComparison`, `Improvement*`): the ledger of
  observations, cases, candidates, assignments, cooldowns and rollbacks. The
  ledger is a value with one function per command; the engine is a class whose
  methods, with the source's loops, are proved to implement those functions.
  Theorems range over all command sequences.
- **Connection runtime** (`Connection*`, `ListenerLoop`): the in-flight
  registry as a class; one connection as a step machine of reader, route
  workers, writer, bounded channel and shutdown fence; runs interleave any
  number of connections and shutdown calls. The accept loop is a method over a
  script of outside events.
- **Install lifecycle** (`Install*`): the pure record machine, the
  compare-and-swap store and its record-last deletion over a map of slot files,
  and the setup and purge loops. Platform, storage faults and crashes are
  nondeterministic; a crash is an early return, so any sequence of calls is a
  history with crashes.
- **Event log** (`EventPaging`, `EventFollow`): the budgeted page loop against
  a specification over one snapshot, and what polling clients and the console
  follower have seen of a log that grows and is evicted.
- **Small algorithms** (`SpoolQuota`, `StrictJson*`, `CanonicalJson`,
  `CanonicalText`, `SpoolLines`).

Modelling decisions. Integers are unbounded; 64-bit wrap-around, saturation and
exhaustion are written out where the source meets them. SHA-256 ids are
injective constructors and the canary bucket is an input. Clocks, randomness,
storage and the platform are inputs or nondeterministic choices. Text is
modelled as its bytes, except that string literals in `StrictJson` are decoded
to Unicode scalar values.

Where a promise does not hold of the code, the project keeps the code and states
exactly when it does hold:

- A follower that exits may miss final events, because it reads events and
  terminal state in two snapshots (`FollowerMissesTheLastEvent`). It has shown
  everything exactly when nothing was committed between those two reads
  (`FinishedIsCompleteIff`, `QuietScriptsAreComplete`).
- A staging file left by a crash can block purge finalization. It passes exactly
  when it has the purging record's evidence, is no later, and has a lower
  revision or is that very record (`CrashedStagePassesIff`, `OwnStagePassesIff`);
  a leftover of an earlier PURGING attempt with another time and a torn staging
  write do not (`CrashedPurgeBlocks`).
- The quota over-grants when the chunks under way can wrap the atomic counter
  (`OverGrants`); it holds in every bounded run exactly when they cannot
  (`QuotaHoldsIffRoomy`).
- A candidate's version is new exactly until the version space is exhausted
  (`CandidateVersionIsNew`, `VersionsCanRunOut`).
- A failed routing result can keep a ready response out of the channel, for every
  in-flight maximum (`FailureCanBlockAResponse`); no send ever blocks exactly when
  no result fails (`NeverBlocksIffNoFailures`).

## Model

| member | source | states |
|---|---|---|
| `ArmComparison.RegressionIsExact` | crates/mesh-daemon/src/improvement.rs:1160-1167 | The integer test for a resource regression is true exactly when the candidate's mean exceeds 11/10 of the control's, as exact rationals. |
| `ArmComparison.QualityIsExact` | crates/mesh-daemon/src/improvement.rs:1123-1157 | The integer quality test is true exactly when the success rate rose by at least 1/10, as exact rationals. |
| `ArmComparison.PassIsExact` | crates/mesh-daemon/src/improvement.rs:1123-1157 | The gate passes if and only if both arms are fully measured, the candidate has no safety violation and is clearly better by those rational comparisons. |
| `ArmComparison.GateNeverOverflows` | crates/mesh-daemon/src/improvement.rs:1123-1167 | With up to 2^30 samples per arm and 64-bit metrics, no product or sum of the gate leaves the unsigned 128-bit range. |
| `ImprovementEngines.InsertRanked` | crates/mesh-daemon/src/improvement.rs:1059-1080 | Inserting one observation keeps the newest-first ranking with its tie-break and exactly the given elements. |
| `ImprovementEngines.ComparableObservations` | crates/mesh-daemon/src/improvement.rs:1059-1080 | The sort-and-truncate loop returns precisely the declarative window: the twenty comparable observations that rank highest. |
| `ImprovementEngines.CountMatching` | crates/mesh-daemon/src/improvement.rs:571-643 | The counting loop yields the number of distinct matching failed tasks in the window. |
| `ImprovementEngines.CheckProposal` | crates/mesh-daemon/src/improvement.rs:202-239 | The validator's loops over fixtures give exactly the specified verdict, for every proposal: distinct well-formed fixtures, an allowlisted value, and the hard-failure and all-passed gates. |
| `ImprovementEngines.ArmTotals` | crates/mesh-daemon/src/improvement.rs:949-985 | The accumulation loop over assignments computes, for both arms, the sums over the assigned and observed tasks of the case. |
| `ImprovementEngines.EligibleIsOpens` | crates/mesh-daemon/src/improvement.rs:571-677 | The eligibility answer is positive exactly when opening with the same input would open a case. |
| `ImprovementEngines.ImprovementEngine.constructor` | crates/mesh-daemon/src/improvement.rs:462-475 | A new engine is the empty ledger of the specification and satisfies the ledger invariant. |
| `ImprovementEngines.ImprovementEngine.SetEnabled` | crates/mesh-daemon/src/improvement.rs:481-483 | Only the policy switch changes, and the invariant is kept. |
| `ImprovementEngines.ImprovementEngine.ExpireCases` | crates/mesh-daemon/src/improvement.rs:1082-1101 | The sweep rolls back every overdue active case and restarts its component's cooldown, in any iteration order, as the set-based sweep of the specification. |
| `ImprovementEngines.ImprovementEngine.EligibilityFor` | crates/mesh-daemon/src/improvement.rs:571-643 | The loop-based decision equals the specification's decision on the current ledger. |
| `ImprovementEngines.ImprovementEngine.ObserveTask` | crates/mesh-daemon/src/improvement.rs:537-569 | The new ledger and the returned decision are those of the specification, including rejected and repeated observations; the invariant is kept. |
| `ImprovementEngines.ImprovementEngine.OpenEligibleCase` | crates/mesh-daemon/src/improvement.rs:645-677 | The new ledger and the returned case id are those of the specification; the invariant is kept. |
| `ImprovementEngines.ImprovementEngine.AssignCanary` | crates/mesh-daemon/src/improvement.rs:813-873 | The new ledger and the assignment decision are those of the specification; the invariant is kept. |
| `ImprovementEngines.ImprovementEngine.ProposeCandidate` | crates/mesh-daemon/src/improvement.rs:733-811 | The new ledger and the proposal decision are those of the specification, with rejection starting the cooldown; the invariant is kept. |
| `ImprovementEngines.ImprovementEngine.RollBack` | crates/mesh-daemon/src/improvement.rs:1026-1057 | Rolling back restores the case's own parent version, counts the rollback and freezes from the second one on. |
| `ImprovementEngines.ImprovementEngine.Evaluate` | crates/mesh-daemon/src/improvement.rs:875-906 | Sweep, loop-computed arm totals and verdict together give the ledger and decision of the specification; the invariant is kept. |
| `ImprovementEngines.ImprovementEngine.RequestRollback` | crates/mesh-daemon/src/improvement.rs:908-947 | The new ledger and decision are those of the specification, including idempotent and refused requests; the invariant is kept. |
| `ImprovementInvariant.ApplyInv` | crates/mesh-daemon/src/improvement.rs:537-1101 | Every command keeps the whole ledger invariant: keyed and linked records, one active case per component, bounded versions, candidates above their parents until the version space ends, cooldowns on record. |
| `ImprovementInvariant.ExecInv` | crates/mesh-daemon/src/improvement.rs:462-1101 | That invariant holds after every run of commands from a fresh engine; in particular at most one Observing or Canary case per component. |
| `ImprovementSteps.UpdateMoves` | crates/mesh-daemon/src/improvement.rs:645-1057 | The only ways any command changes a case: it opens, passes the fixture gate, is promoted, is taken back, or is swept. |
| `ImprovementSteps.OpeningNeedsEligibility` | crates/mesh-daemon/src/improvement.rs:571-677 | A new active case of a component appears only through an opening command for that component whose valid input the eligibility rule admits. |
| `ImprovementSteps.UpdateTables` | crates/mesh-daemon/src/improvement.rs:537-1057 | A command adds at most one observation, candidate or assignment and changes no stored entry of those tables. |
| `ImprovementFreezing.FrozenCountLaw` | crates/mesh-daemon/src/improvement.rs:1026-1057 | After every run a component has max(0, rollbacks - 1) Frozen cases and its stored count is the number of rollbacks that happened. |
| `ImprovementFreezing.FrozenForever` | crates/mesh-daemon/src/improvement.rs:908-1057 | A Frozen case is unchanged by every later command. |
| `ImprovementFreezing.RollbacksOnlyGrow` | crates/mesh-daemon/src/improvement.rs:1026-1057 | The rollback count of a component never decreases along a run. |
| `ImprovementFreezing.NoCaseAfterSecondRollback` | crates/mesh-daemon/src/improvement.rs:582-677 | From the second rollback of a component on, no command of any run opens another case for it. |
| `ImprovementCooldown.CooldownDatesFromLastEnd` | crates/mesh-daemon/src/improvement.rs:1005-1101 | After every run the stored cooldown is seven days past the last command that ended a case of the component by rejection, promotion, rollback or expiry. |
| `ImprovementCooldown.OpeningWaitsForCooldown` | crates/mesh-daemon/src/improvement.rs:589-677 | A case opens only for a trigger reviewed no earlier than that cooldown. |
| `ImprovementCooldown.LastEndIsLatest` | crates/mesh-daemon/src/improvement.rs:1082-1101 | When the clock never goes back, no earlier end of a case is later than the recorded last one. |
| `ImprovementCooldown.SevenDaysApart` | crates/mesh-daemon/src/improvement.rs:589-677 | When the clock never goes back, a new case opens at least seven days after every earlier end in its component. |
| `ImprovementCooldown.DisciplinedChronicle` | crates/mesh-daemon/src/improvement.rs:537-1101 | In a run whose clock never goes back and whose cases open only from stored observations, every case's trigger is stored and older than the case. |
| `ImprovementCooldown.CaseIdsAreFresh` | crates/mesh-daemon/src/improvement.rs:645-677 | In such a run an opening never reuses a case id. |
| `ImprovementPromotion.PromotionVerdictIsExact` | crates/mesh-daemon/src/improvement.rs:949-1024 | The verdict is promotion if and only if the canary is seven days old, each arm has twenty fully measured samples, the candidate's are safe, and the gate's rational comparisons hold. |
| `ImprovementPromotion.PromotionIsEarned` | crates/mesh-daemon/src/improvement.rs:875-1024 | Any command that makes a case Promoted is an evaluation of that case and the case had earned it. |
| `ImprovementPromotion.EarnedIsPromoted` | crates/mesh-daemon/src/improvement.rs:875-1024 | Conversely, evaluating a canary that has earned it promotes it. |
| `ImprovementPromotion.ObservationsAreValid` | crates/mesh-daemon/src/improvement.rs:141-181 | Every observation stored by any run passed the validator. |
| `ImprovementPromotion.ArmsFit` | crates/mesh-daemon/src/improvement.rs:176-181 | Arms of at most 2^30 stored tasks keep the gate within 128 bits in every reachable ledger. |
| `ImprovementPromotion.NextVersionIsAttained` | crates/mesh-daemon/src/improvement.rs:551-567 | The version counter of every reachable ledger is a version that was really seen, or the initial one. |
| `ImprovementPromotion.CandidateVersionIsNew` | crates/mesh-daemon/src/improvement.rs:772-795 | A new candidate's version is above its parent, every observed cohort version and all earlier candidates, if and only if the 64-bit version space is not exhausted. |
| `ImprovementExhaustion.ExhaustedVersionIsReused` | crates/mesh-daemon/src/improvement.rs:772-795 | After three failures under the last version, a review and any accepted proposal, the candidate carries its own parent's version. |
| `ImprovementExhaustion.VersionsCanRunOut` | crates/mesh-daemon/src/improvement.rs:772-795 | A concrete run of commands after which a candidate's version is not above its parent. |
| `ImprovementPromotion.AssignmentsArePermanent` | crates/mesh-daemon/src/improvement.rs:813-873 | A task's assignment never changes along any run. |
| `ImprovementPromotion.RunsAreSeparate` | crates/mesh-daemon/src/improvement.rs:537-873 | In a disciplined run that assigns only unobserved tasks, every assigned and observed task ran under the configuration it was assigned. |
| `ImprovementPromotion.ArmsNeverMix` | crates/mesh-daemon/src/improvement.rs:949-985 | In such a run every sample counted in an arm carries exactly that arm's version and digest. |
| `ConnectionRegistry.RegisterKeepsInv` | crates/mesh-daemon/src/protocol_handshake.rs:609-651 | Registering keeps ids and tokens in step, the bound, and fresh tokens. |
| `ConnectionRegistry.ReleaseKeepsInv` | crates/mesh-daemon/src/protocol_handshake.rs:590-607 | Releasing keeps the invariant and frees exactly one slot. |
| `ConnectionRegistry.RunInv` | crates/mesh-daemon/src/protocol_handshake.rs:546-651 | Over every sequence of registrations and releases, the id set is that of the token map without repeats and the in-flight maximum is respected. |
| `ConnectionRegistry.TokensNeverReturn` | crates/mesh-daemon/src/protocol_handshake.rs:609-651 | A token that was issued and released is never issued or registered again. |
| `ConnectionRegistry.RegistrationsAreStable` | crates/mesh-daemon/src/protocol_handshake.rs:546-651 | A registered request keeps its token and contents until that token is released. |
| `ConnectionRegistry.ConnectionState.constructor` | crates/mesh-daemon/src/protocol_handshake.rs:554-563 | A new connection has an empty registry. |
| `ConnectionRegistry.ConnectionState.RegisterOutstanding` | crates/mesh-daemon/src/protocol_handshake.rs:609-651 | Each of the three refusals leaves the state alone and is returned exactly in its case; success issues the next token and a capability that is registered. |
| `ConnectionRegistry.ConnectionState.Release` | crates/mesh-daemon/src/protocol_handshake.rs:590-607 | Releasing a capability of this connection removes its token and id; one of another connection changes nothing. |
| `ConnectionRegistry.ConnectionState.WriteResponse` | crates/mesh-daemon/src/protocol_handshake.rs:860-887 | A response is written exactly when its capability is registered, its deadline has not passed and the transport delivers; success and failure alike consume it. |
| `ConnectionInvariant.OpenedInv` | crates/mesh-daemon/src/daemon_runtime.rs:405-413 | A freshly opened connection satisfies the protocol invariant. |
| `ConnectionInvariant.WorkerStep` | crates/mesh-daemon/src/daemon_runtime.rs:528-535 | Every step of a route worker keeps the invariant, whether routing answers, errs or panics. |
| `ConnectionInvariant.StepInv` | crates/mesh-daemon/src/daemon_runtime.rs:405-566 | Every step of the reader, any worker or the writer keeps the invariant: each live capability is in exactly one place and registered, the channel and the written log hold each at most once, and without a terminal error nothing admitted is lost. |
| `ConnectionRuns.RunInv` | crates/mesh-daemon/src/daemon_runtime.rs:78-90 | The invariant and the ownership of the shutdown fence hold in every state of every interleaving of connections, threads and shutdown calls. |
| `ConnectionRuns.NoHandOffAfterShutdown` | crates/mesh-daemon/src/daemon_runtime.rs:490-549 | Once the shutdown flag is set, no connection, existing or opened later, ever hands over another request. |
| `ConnectionRuns.CleanFinish` | crates/mesh-daemon/src/daemon_runtime.rs:551-566 | In a finished connection without terminal error every request was refused before admission or written. |
| `ConnectionRuns.ReportIsExact` | crates/mesh-daemon/src/daemon_runtime.rs:405-566 | In every run, a connection that reports no terminal error wrote exactly one response for every request it admitted, and its count is that number. |
| `ConnectionRuns.RoomForResponses` | crates/mesh-daemon/src/daemon_runtime.rs:407-408 | While the channel holds responses only, it has room for one more held response. |
| `ConnectionRuns.SendsNeverBlock` | crates/mesh-daemon/src/daemon_runtime.rs:499-544 | In every state of every run whose channel holds responses only, no send of a response blocks, including the health reply sent under the admission lock. |
| `ConnectionChannel.RunCarries` | crates/mesh-daemon/src/daemon_runtime.rs:515-535 | In every run in which no routing or health result of a connection fails, everything it sends or queues is a response. |
| `ConnectionChannel.AnswersNeverBlock` | crates/mesh-daemon/src/daemon_runtime.rs:407-544 | In every such run no send of the connection ever blocks while its writer receives, whatever the other connections do. |
| `ConnectionChannel.FailureCanBlockAResponse` | crates/mesh-daemon/src/daemon_runtime.rs:407-535 | For every in-flight maximum from 1 to 16 a run with one failed routing result in which a ready response cannot be sent: the failed item and responses fill the channel, and the freed registration let one more request in. |
| `ConnectionChannel.NeverBlocksIffNoFailures` | crates/mesh-daemon/src/daemon_runtime.rs:407-544 | For every maximum: no send blocks in any run with at most k failed routing and health results if and only if k is zero. |
| `ConnectionRuns.FatesAreFinal` | crates/mesh-daemon/src/protocol_handshake.rs:737-767 | A capability that was answered, refused or dropped keeps that fate for the rest of every run. |
| `ConnectionRuns.RegistryIsExact` | crates/mesh-daemon/src/protocol_handshake.rs:546-607 | In every run the registry holds exactly the unsettled capabilities within its bound, and the response being written is always registered. |
| `ConnectionRuns.FinishedSettlesEverything` | crates/mesh-daemon/src/daemon_runtime.rs:551-566 | A finished connection, with or without terminal error, has settled every request it read and left its registry empty. |
| `ListenerLoop.JoinedSplit` | crates/mesh-daemon/src/daemon_runtime.rs:630-645 | Every joined worker is counted as completed or as panicked, never both. |
| `ListenerLoop.SwapRemovedKeeps` | crates/mesh-daemon/src/daemon_runtime.rs:594-608 | Swap-removal loses or duplicates no other element. |
| `ListenerLoop.ReapedAreUnfinished` | crates/mesh-daemon/src/daemon_runtime.rs:594-608 | What a reaping pass leaves are workers from before, none of them finished. |
| `ListenerLoop.ScriptTraceSound` | crates/mesh-daemon/src/daemon_runtime.rs:279-352 | In the instance history of every script of rounds there is a live listener at each change and never more than 32 pipe instances. |
| `ListenerLoop.Server.constructor` | crates/mesh-daemon/src/daemon_runtime.rs:287-289 | The server starts with one live listener, an empty report and that one entry in its instance history. |
| `ListenerLoop.Server.FoldWorker` | crates/mesh-daemon/src/daemon_runtime.rs:630-645 | The report counters stay the saturated tallies over all joined workers. |
| `ListenerLoop.Server.ReapFinishedWorkers` | crates/mesh-daemon/src/daemon_runtime.rs:594-608 | Exactly the finished workers are joined although removal reorders the rest, none that finished is left behind, and the history gains one entry per joined worker. |
| `ListenerLoop.Server.FinishWorkers` | crates/mesh-daemon/src/daemon_runtime.rs:610-628 | Afterwards no worker is left: each was joined, or detached at the deadline and counted; no listener reappears. |
| `ListenerLoop.Server.Start` | crates/mesh-daemon/src/daemon_runtime.rs:319-333 | A spawned worker takes over the accepted connection and is counted; a failed spawn drops the connection. |
| `ListenerLoop.Server.AcceptOnce` | crates/mesh-daemon/src/daemon_runtime.rs:299-346 | One bind-then-accept turn changes listeners, incoming connection and workers exactly in the order of the turn's specified history (successor first, then the accept that consumes the old listener), with its exact error, connections taken over and rejections. |
| `ListenerLoop.Server.ServeRound` | crates/mesh-daemon/src/daemon_runtime.rs:292-346 | One round reaps, and takes a turn only below the worker maximum; error, workers, instance history, taken and rejected connections are those specified for the round. |
| `ListenerLoop.Server.ServeScript` | crates/mesh-daemon/src/daemon_runtime.rs:292-346 | The loop goes through exactly the progress specified for the script: instance history, connections taken over and rejected in order, and the error that ends it. |
| `ListenerLoop.Server.ServeListener` | crates/mesh-daemon/src/daemon_runtime.rs:279-352 | For every script of events: an error is returned exactly when the script has one, with that error, and a report otherwise; a live listener at every change until shutdown and never more than 32 pipe instances; exactly the script's connections are accepted and rejected; afterwards no listener is left, and accepted equals completed plus panicked plus detached. |
| `InstallRecords.CheckpointIsExact` | crates/mesh-daemon/src/install_record.rs:492-558 | Among admissible records of equal state, the derived checkpoint reproduces the next record exactly when it is one legal setup step. |
| `InstallRecords.SuccessorIsExact` | crates/mesh-daemon/src/install_record.rs:378-417 | A successor is accepted if and only if it has the same identity, the next revision, no earlier time, and is exactly one new piece of evidence in order or one legal transition with unchanged evidence. |
| `InstallHistory.CasIsExact` | crates/mesh-daemon/src/install_store.rs:550-583 | A compare-and-swap is admitted if and only if it starts an absent slot with the initial shape or is the one legal successor of the expected revision. |
| `InstallHistory.AdmittedKeepsLaw` | crates/mesh-daemon/src/install_store.rs:550-583 | An admitted write extends a lawful chain to a lawful chain. |
| `InstallHistory.EveryChainIsLawful` | crates/mesh-daemon/src/install_record.rs:323-602 | After any sequence of attempts from absence: revision equals the number of writes, identity, creation time and product path never change, evidence only grows and is a prefix of key, runtime, data, task, times never regress, live non-installing states are complete, and PURGING and BROKEN are final. |
| `InstallHistory.CompleteEvidenceIsFixed` | crates/mesh-daemon/src/install_record.rs:323-435 | Once all evidence is present no later record of the chain changes it. |
| `InstallStores.HistoryStagePassesIffComplete` | crates/mesh-daemon/src/install_store.rs:767-799 | A staging file holding a record of the purging record's own history passes the lineage test if and only if that record already had all its evidence. |
| `InstallStores.CrashedStagePassesIff` | crates/mesh-daemon/src/install_store.rs:767-799 | A crash leftover, that is the staging file of any write that was let through during the history and perhaps never published, passes if and only if it has the purging record's evidence, is no later, and has a lower revision or is that very record. |
| `InstallStores.CrashedPurgeBlocks` | crates/mesh-daemon/src/install_store.rs:790-797 | A leftover of an earlier attempt at the same PURGING transition passes if it carried the same time and is drift otherwise, so it blocks finalization. |
| `InstallStores.OwnStagePassesIff` | crates/mesh-daemon/src/install_store.rs:767-799 | Whatever staging file the store itself can leave, by a crash before, during or after the staging write, passes if and only if it is whole and belongs to the purging record; a torn one is drift. |
| `InstallStores.StagesStayOwned` | crates/mesh-daemon/src/install_store.rs:510-611 | If every staging file holds a record some write was let through with or a torn write, that stays so after a write, published or not. |
| `InstallStores.ForeignStageFails` | crates/mesh-daemon/src/install_store.rs:767-799 | No staging file with another identity or other evidence passes, in any layout or under any name. |
| `InstallStores.AdmitEntry` | crates/mesh-daemon/src/install_store.rs:635-660 | An entry is admitted exactly when it is the expected record, the lock, or a well-named regular staging file with bytes. |
| `InstallStores.ScanEntries` | crates/mesh-daemon/src/install_store.rs:629-666 | The listing loop accepts exactly the duplicate-free listings of admissible entries that show both record and lock, and returns exactly their staging files. |
| `InstallStores.ValidateStages` | crates/mesh-daemon/src/install_store.rs:667-669 | The lineage loop passes exactly when every staging file does. |
| `InstallStores.NothingButTheLockRemains` | crates/mesh-daemon/src/install_store.rs:629-666 | In a listing that passes the scan, every listed path is the lock, the record or one of the staging files returned for removal. |
| `InstallStores.StableSlot.constructor` | crates/mesh-daemon/src/install_store.rs:496-504 | An empty slot has no record and no history. |
| `InstallStores.StableSlot.ReadCurrent` | crates/mesh-daemon/src/install_store.rs:496-504 | A read returns the decoded record with its bytes, absence or a decoding error, and a storage error exactly when the storage failed. |
| `InstallStores.StableSlot.CreateVerifiedStage` | crates/mesh-daemon/src/install_store.rs:510-537 | Only a fresh staging name is written, with exactly the new record or, by a crash, torn; existing names are skipped; unless the storage failed it succeeds exactly when one of the names is unused. |
| `InstallStores.StableSlot.Publish` | crates/mesh-daemon/src/install_store.rs:585-593 | Publication replaces the record and consumes the stage, or the storage failed and nothing changes. |
| `InstallStores.StableSlot.PublishStaged` | crates/mesh-daemon/src/install_store.rs:585-611 | The stage becomes the record or the record stays; only record and staging files change and only to the new record; without a storage failure it succeeds. |
| `InstallStores.StableSlot.Confirm` | crates/mesh-daemon/src/install_store.rs:599-611 | Reading the published record back and syncing succeeds unless the storage failed, and the record stays in either case. |
| `InstallStores.StableSlot.CompareAndSwap` | crates/mesh-daemon/src/install_store.rs:550-611 | Whatever fails and whenever, the slot holds the old record or the new one, the new one only if admitted; a refused write changes no file; if the storage does not fail, the result is exactly the verdict, the size refusal, a lack of staging names, or success; only record and staging files change, and every staging file still holds a record some write was let through with or a torn write. |
| `InstallStores.StableSlot.RemoveStages` | crates/mesh-daemon/src/install_store.rs:670-678 | Staging files are removed in listing order and nothing else is touched; unless the storage failed it succeeds on distinct present files. |
| `InstallStores.StableSlot.RemoveRecord` | crates/mesh-daemon/src/install_store.rs:680-699 | The record is removed only when a second read finds it byte for byte as expected, and exactly then unless the storage failed. |
| `InstallStores.StableSlot.CompareAndDeletePurging` | crates/mesh-daemon/src/install_store.rs:613-700 | Nothing is removed unless the record is the expected PURGING one and every entry passes; stages go first and the record last; on success neither record nor stages remain, and over a complete listing nothing but the lock file does; undisturbed and over a truthful listing it succeeds exactly when record and entries pass; no other file changes, even if the record is replaced meanwhile. |
| `InstallSetup.WritesAreLawful` | crates/mesh-daemon/src/install_control.rs:149-226 | The record writes of every disciplined event log form a lawful chain. |
| `InstallSetup.CheckpointBeforeNextEffect` | crates/mesh-daemon/src/install_control.rs:183-221 | Between two different setup effects that really ran the first one's checkpoint was durably written, however many crashes lie between. |
| `InstallSetup.NeverInvokedAgain` | crates/mesh-daemon/src/install_control.rs:183-221 | An effect whose checkpoint is durable is never invoked again, in this call or any later one. |
| `InstallSetup.CheckpointIsWhatTheEffectReturned` | crates/mesh-daemon/src/install_control.rs:183-221 | Every piece of evidence in a written record is exactly what its own effect returned immediately before the write, and that effect was the one due. |
| `InstallSetup.ActiveIsLast` | crates/mesh-daemon/src/install_control.rs:208-212 | ACTIVE is written only from a complete INSTALLING record, directly after the final platform step succeeded on that revision, with unchanged evidence. |
| `InstallSetup.CheckpointRefusedIff` | crates/mesh-daemon/src/install_record.rs:492-558 | The checkpoint of the due effect is refused if and only if the revision is exhausted or the evidence does not name this installation's paths and usable versions; otherwise it adds exactly that evidence. |
| `InstallSetup.TransitionRefusedIff` | crates/mesh-daemon/src/install_record.rs:567-602 | A legal transition of a complete record is refused if and only if the revision is exhausted. |
| `InstallSetup.DerivedIsAdmitted` | crates/mesh-daemon/src/install_control.rs:228-259 | A record derived by checkpoint or transition from the loaded one is always admitted by the store. |
| `InstallSetup.SetupRun.Persist` | crates/mesh-daemon/src/install_control.rs:245-259 | Under any storage fault the durable record is the old one or the admitted new one; an error is the one the store reported, a lost race counting as drift, or drift for a refused record, which changes nothing. |
| `InstallSetup.SetupRun.EnsureKey` | crates/mesh-daemon/src/install_control.rs:186-190 | The key effect leaves its own start, and on success its own evidence, in the event log. |
| `InstallSetup.SetupRun.EnsureRuntime` | crates/mesh-daemon/src/install_control.rs:191-195 | The runtime effect leaves its own start, and on success its own evidence, in the event log. |
| `InstallSetup.SetupRun.EnsureData` | crates/mesh-daemon/src/install_control.rs:196-202 | The data effect leaves its own start, and on success its own path and schema version, in the event log. |
| `InstallSetup.SetupRun.EnsureTask` | crates/mesh-daemon/src/install_control.rs:203-207 | The task effect leaves its own start, and on success its own evidence, in the event log. |
| `InstallSetup.SetupRun.CompleteInstalling` | crates/mesh-daemon/src/install_control.rs:208-212 | The final platform step is logged as completed only when it succeeded. |
| `InstallSetup.SetupRun.NextCheckpoint` | crates/mesh-daemon/src/install_control.rs:185-207 | The effect that ran is the first one whose evidence is missing, it ran once, and the checkpoint is that effect's evidence and nothing else; an error is the one the platform reported. |
| `InstallSetup.SetupRun.MoveTo` | crates/mesh-daemon/src/install_control.rs:228-243 | A transition keeps complete evidence, and an error was reported from outside or names a bad clock or an exhausted revision. |
| `InstallSetup.SetupRun.CheckpointStep` | crates/mesh-daemon/src/install_control.rs:185-221 | A success adds exactly the next stage of evidence durably; every error was reported by platform or store, or is explained by the clock or misfit evidence. |
| `InstallSetup.SetupRun.InstallStep` | crates/mesh-daemon/src/install_control.rs:183-221 | A success adds the next stage of evidence, or turns a complete record ACTIVE with the same evidence after completion succeeded; every error is explained. |
| `InstallSetup.SetupRun.Initialize` | crates/mesh-daemon/src/install_control.rs:154-163 | On success an absent slot holds a fresh INSTALLING record; on error it is still absent or holds the record just written, and the error is explained. |
| `InstallSetup.SetupRun.Converge` | crates/mesh-daemon/src/install_control.rs:149-226 | Each call begins at most seven iterations, so the 64-step bound is never what ends it; it ends ACTIVE with complete evidence, or its error is one the platform or the store reported in this call, a clock behind the record, a removal under way, or one of the listed causes of drift; the event log stays disciplined across crashes. |
| `InstallPurge.RecordDeletedLast` | crates/mesh-daemon/src/install_purge.rs:114-116 | Deleting the record is the last durable change of any purge. |
| `InstallPurge.PurgingIsAFence` | crates/mesh-daemon/src/install_purge.rs:92-98 | Once PURGING is durable the record never changes again before its deletion. |
| `InstallPurge.TombstoneDeletedUnderPurging` | crates/mesh-daemon/src/install_purge.rs:111-116 | A tombstone is deleted only under a durable PURGING record, after which only the record's deletion can follow. |
| `InstallPurge.Purge.ConvergeRetained` | crates/mesh-daemon/src/install_purge.rs:89-90 | It succeeds exactly when nothing failed, and then RETAINED is reached; partial progress from ACTIVE or REMOVING stays at a resumable point. |
| `InstallPurge.Purge.PublishPurgingAndStageSource` | crates/mesh-daemon/src/install_purge.rs:92-98 | It succeeds exactly when nothing failed, and then PURGING is reached with the tombstone; it may stop after any sub-effect at a resumable point. |
| `InstallPurge.Purge.ResumePurgingSource` | crates/mesh-daemon/src/install_purge.rs:104-106 | It succeeds exactly when nothing failed, and then the source is staged under PURGING; it always leaves a resumable point. |
| `InstallPurge.Purge.AuditAndDeleteTombstone` | crates/mesh-daemon/src/install_purge.rs:108-109 | It succeeds exactly when nothing failed, and then the tombstone is deleted; it always leaves a resumable point. |
| `InstallPurge.Purge.FinalizeRecordLast` | crates/mesh-daemon/src/install_purge.rs:111-112 | It succeeds exactly when nothing failed, and then the record is deleted; it always leaves a resumable point. |
| `InstallPurge.Purge.Advance` | crates/mesh-daemon/src/install_purge.rs:158-189 | The effect chosen for the observed world strictly lowers the rank when it succeeds and never raises it when it fails; it fails exactly when something failed. |
| `InstallPurge.Purge.Converge` | crates/mesh-daemon/src/install_purge.rs:131-197 | A call in which nothing fails purges from every crash point and reports drift from every other world; a failed effect is reported exactly when something failed. It ends within five iterations, never for lack of steps; it reports PURGED exactly when something changed; an unsafe world is left as found; every durable change is in order and every record change a legal transition. |
| `EventPaging.TakeRows` | crates/mesh-daemon/src/reader.rs:598-667 | The row loop takes the rows before the first unacceptable one and reports corruption, a first row too large, or a budget stop exactly. |
| `EventPaging.LoadEventPage` | crates/mesh-daemon/src/reader.rs:567-692 | The page, or the precise error, is the specified function of the snapshot and the request. |
| `EventPaging.PublicEventPoll` | crates/mesh-daemon/src/reader.rs:429-454 | Invalid requests are refused; otherwise page and terminal flag come from the one snapshot. |
| `EventPaging.PageIsSound` | crates/mesh-daemon/src/reader.rs:598-684 | Whatever the tables hold, a page has the events numbered right after the cursor, in order, within limit and budget, never past the end and never from evicted ground. |
| `EventPaging.PageAdvances` | crates/mesh-daemon/src/reader.rs:671-684 | A page is empty exactly when the cursor is at the end; below the end it always advances. |
| `EventPaging.HolesAreNeverSkipped` | crates/mesh-daemon/src/reader.rs:617-621 | A number missing from the tables stops every page before it. |
| `EventPaging.PageIsASlice` | crates/mesh-daemon/src/reader.rs:567-692 | Of any committed log a page is a contiguous slice from the cursor. |
| `EventPaging.HealthyPageIsExact` | crates/mesh-daemon/src/reader.rs:567-692 | Of a healthy log nothing is quarantined: the exact conditions for an expired cursor, an invalid one, a first event over budget and a page, and the page is as long as limit, end and budget allow. |
| `EventPaging.DeliveredIsASlice` | crates/mesh-daemon/src/reader.rs:567-692 | Over any run of polls, with any limits, budgets, growth, eviction and failures, the deliveries are exactly the log from the first cursor to the current one, each event once. |
| `EventPaging.EmptyPollMeansCaughtUp` | crates/mesh-daemon/src/reader.rs:429-454 | After any polls, an empty page means that exactly the events committed at its snapshot were delivered. |
| `EventPaging.EmptyTerminalPollMeansComplete` | crates/mesh-daemon/src/reader.rs:429-454 | Page and terminal flag share a snapshot, so an empty terminal poll has delivered the whole log if and only if nothing was committed after that snapshot. |
| `EventFollow.Retry` | crates/mesh-daemon/src/follow.rs:189-212 | A transient error pauses and doubles the pause up to the cap; any other ends the loop with its own outcome. |
| `EventFollow.FollowTurn` | crates/mesh-daemon/src/follow.rs:171-212 | One turn ends, goes on, shows and pauses exactly as specified for the page and the terminal state it meets. |
| `EventFollow.FollowLoop` | crates/mesh-daemon/src/follow.rs:152-213 | The loop computes its specification for every script of reads, and its pauses start at 50 ms, double and stay within 2 s. |
| `EventFollow.OutputIsASlice` | crates/mesh-daemon/src/follow.rs:171-183 | However the log grows and whatever fails, the output is a prefix of the log without gap or repeat. |
| `EventFollow.FinishesAtItsSnapshot` | crates/mesh-daemon/src/follow.rs:184-188 | A run that finishes does so on a turn whose event snapshot ended at the cursor and whose later answer was terminal. |
| `EventFollow.FinishedIsCompleteIff` | crates/mesh-daemon/src/follow.rs:171-188 | A finished follower has shown the whole log if and only if nothing was committed between the event read and the terminal read of its last turn. |
| `EventFollow.QuietScriptsAreComplete` | crates/mesh-daemon/src/follow.rs:171-188 | For every script in which nothing is committed between the two reads of any turn that sees the terminal state, a follower that finishes has shown the whole log. |
| `EventFollow.FollowerMissesTheLastEvent` | crates/mesh-daemon/src/follow.rs:171-188 | Concrete run in which an event committed between the two reads of a turn is never shown although the follower finishes. |
| `SpoolQuota.AddTotals` | crates/mesh-daemon/src/process.rs:225-244 | An atomic add that reads the true sum grants exactly what is left of the limit and leaves the overshoot pending. |
| `SpoolQuota.AddKeepsBooks` | crates/mesh-daemon/src/process.rs:229 | Such an add keeps the books: granted bytes are the offered ones up to the limit, and the counter is granted plus pending modulo 2^64. |
| `SpoolQuota.AddStaysUnwrappedIff` | crates/mesh-daemon/src/process.rs:229 | After such an add the counter still reads as the true sum if and only if the add did not wrap. |
| `SpoolQuota.FlagKeepsBooks` | crates/mesh-daemon/src/process.rs:230-239 | Storing the flag keeps the books and the totals. |
| `SpoolQuota.SubtractKeepsBooks` | crates/mesh-daemon/src/process.rs:230-239 | Taking the overshoot back keeps the books, also when the counter had wrapped. |
| `SpoolQuota.RunKeepsBooks` | crates/mesh-daemon/src/process.rs:213-244 | The books hold after every step of every interleaving of bounded chunks and threads that leaves room for the other threads' chunks above the limit. |
| `SpoolQuota.QuotaIsExact` | crates/mesh-daemon/src/process.rs:213-244 | In every such interleaving, once all calls have returned: accepted bytes equal min(limit, offered), the counter equals them, and the flag is set exactly when more than the limit was offered. |
| `SpoolQuota.NeverOverLimit` | crates/mesh-daemon/src/process.rs:213-244 | In the middle of every such interleaving the granted bytes never exceed the limit. |
| `SpoolQuota.DrainsAreExact` | crates/mesh-daemon/src/process.rs:24-213 | The two drains of a process, each with its 8192-byte buffer, keep the quota exactly for every limit that leaves room for one buffer below 2^64. |
| `SpoolQuota.OverGrants` | crates/mesh-daemon/src/process.rs:229 | For every limit without that room, an interleaving of permitted chunks and threads that grants one byte more than the limit. |
| `SpoolQuota.QuotaHoldsIffRoomy` | crates/mesh-daemon/src/process.rs:213-244 | All interleavings of bounded chunks and threads respect the limit if and only if the limit is zero or the chunks of all threads but one fit above it within 64 bits. |
| `StrictJson.Scanner.Whitespace` | crates/mesh-daemon/src/protocol_strict_json.rs:22-31 | The offset moves past exactly the leading whitespace. |
| `StrictJson.Scanner.ReadString` | crates/mesh-daemon/src/protocol_strict_json.rs:33-52 | A literal is read to its closing quote and decoded, or refused, as specified on the unread text. |
| `StrictJson.Scanner.ReadMembers` | crates/mesh-daemon/src/protocol_strict_json.rs:66-87 | The member loop with its growing key set equals the recursive specification. |
| `StrictJson.Scanner.ReadItems` | crates/mesh-daemon/src/protocol_strict_json.rs:98-108 | The element loop equals the recursive specification. |
| `StrictJson.Scanner.ReadValue` | crates/mesh-daemon/src/protocol_strict_json.rs:54-124 | The recursive scanner terminates and equals the specification, offset by offset. |
| `StrictJson.Scanner.Scan` | crates/mesh-daemon/src/protocol_strict_json.rs:134-141 | The whole-text decision is the specified one, trailing data included. |
| `StrictJsonTrees.ValueExact` | crates/mesh-daemon/src/protocol_strict_json.rs:54-124 | On any rendering of a tree followed by a delimiter, the scanner stops right after it or refuses, exactly by the tree's keys and depth. |
| `StrictJsonTrees.GoodExact` | crates/mesh-daemon/src/protocol_strict_json.rs:54-124 | The scanner's incremental key set and depth counter agree with distinct decoded keys at every depth and a height of at most 128. |
| `StrictJsonTrees.AcceptsExactlyStrictTrees` | crates/mesh-daemon/src/protocol_strict_json.rs:21-142 | For every tree with any whitespace, its rendering is accepted if and only if no object at any depth repeats a decoded key and containers nest at most 128 deep. |
| `StrictJsonTrees.AcceptedTextIsStrictTree` | crates/mesh-daemon/src/protocol_strict_json.rs:21-142 | Every accepted text is the rendering of such a tree. |
| `CanonicalJson.CanonicalIsSorted` | crates/mesh-daemon/src/lib.rs:313-325 | Keys of every object in the canonical value are strictly ascending in byte order. |
| `CanonicalJson.CanonicalIsIdempotent` | crates/mesh-daemon/src/lib.rs:313-325 | Canonical form is idempotent. |
| `CanonicalJson.CanonicalLooksUp` | crates/mesh-daemon/src/lib.rs:313-325 | Sorting an object changes no lookup. |
| `CanonicalJson.SameExactly` | crates/mesh-daemon/src/lib.rs:313-325 | Two values are equal up to key order at every depth if and only if their canonical values are equal. |
| `CanonicalText.DecimalIsUnique` | crates/mesh-daemon/src/lib.rs:337-371 | No two integers share a decimal text, whatever follows. |
| `CanonicalText.QuotedIsUnique` | crates/mesh-daemon/src/lib.rs:337-371 | No two strings share an escaped literal, whatever follows. |
| `CanonicalText.TextIsUnique` | crates/mesh-daemon/src/lib.rs:337-371 | No two safe values share a compact text. |
| `CanonicalText.SameTextExactly` | crates/mesh-daemon/src/lib.rs:337-371 | Two safe values have the same canonical text if and only if they are equal up to key order at every depth. |
| `CanonicalText.CanonicalTextIsStable` | crates/mesh-daemon/src/lib.rs:337-371 | Canonicalizing a canonical value gives the same text again. |
| `SpoolLines.NewlineSplits` | crates/mesh-daemon/src/dispatcher.rs:888 | Lossy decoding never merges bytes across a newline: the text before one does not depend on what follows. |
| `SpoolLines.PiecesCutTheText` | crates/mesh-daemon/src/dispatcher.rs:746-760 | The pieces cut the text up to its last newline, each at its one newline, losing nothing. |
| `SpoolLines.CompleteSpoolLines` | crates/mesh-daemon/src/dispatcher.rs:746-760 | The loop returns exactly the nonblank newline-terminated lines in order and the end of the last newline. |
| `SpoolLines.SettledHoldsTheLines` | crates/mesh-daemon/src/dispatcher.rs:885-895 | The complete lines of the decoded file are those of its bytes up to the last newline. |
| `SpoolLines.ReadNew` | crates/mesh-daemon/src/dispatcher.rs:885-895 | One read hands over the lines after the cursor, or all of them after a truncation. |
| `SpoolLines.ReadingOnCatchesUp` | crates/mesh-daemon/src/dispatcher.rs:885-895 | After any growth of the file, reading on from the cursor catches up with it. |
| `SpoolLines.SpoolCursor.constructor` | crates/mesh-daemon/src/dispatcher.rs:746-748 | A new cursor at zero has caught up with the empty file. |
| `SpoolLines.SpoolCursor.PersistNewFrames` | crates/mesh-daemon/src/dispatcher.rs:876-895 | Over any sequence of growths the lines handed over are exactly the complete nonblank lines of the current file, once each and in order; the cursor is zero or just after a newline; the truncation reset never fires. |

## Left out

- Hello and authentication phases, frame encoding, request parsing and method deadlines: they rest on cryptography and schemas outside these files.
- Approvals, router projections, storage writer, adapters, process spawning and the SQL result and review checks: long comparisons or code that is not part of this model.
- Rendering, colour and wrapping of the follower: user interface; its output is modelled as the sequence of events it handled.
- Snapshot serialization and the durable projection of the improvement engine: field copies that would only add easy members.
- Identifier, digest and Windows path syntax of install records: small character tables; the model keeps the record-level rules.
- The size limit of control files: the encoded length is not modelled; whether an encoding fits is an input of the write.
- The JSON parser that follows the duplicate-key scanner: library code, so number and literal syntax inside atoms stays uninterpreted.
- Liveness of threads: the protocol proofs are about safety and about sends being enabled, not about scheduling.
- ConnectionRuns.SendsNeverBlock: states it for states whose channel holds responses only, because it is false otherwise (ConnectionChannel.FailureCanBlockAResponse); ConnectionChannel.NeverBlocksIffNoFailures states it for runs.
- SpoolQuota.QuotaIsExact: requires room above the limit for the chunks of the other threads, because the quota is false without it (SpoolQuota.OverGrants, SpoolQuota.QuotaHoldsIffRoomy).
- SpoolQuota.NeverOverLimit: requires the same room, for the same reason.
- Which error of the platform or the store becomes which setup error: outside failures carry any setup error, and the setup results speak of the error as reported.
- SpoolLines.SpoolCursor.PersistNewFrames: covers files that only grow, because a truncated file restarts the cursor and repeats lines by design.
- ListenerLoop.Server.ServeListener: the loop ends when its script ends, because an endless server has no final report.
- Nothing was executed; every statement here is a proof about the model.
