# Lifecycle of ephemeral runners: a verified model

The repository runs a controller that turns queued GitHub workflow jobs into ephemeral cloud
instances and removes them again. Everything it promises rests on two components: a durable store
(a write-ahead journal, a replaceable snapshot and an in-memory map with several caches) and a set
of worker and reaper routines that interleave over that store with webhook deliveries, unreliable
APIs and crashes. This project models both, and the one retry loop of the DigitalOcean adapter that
decides whether an instance exists. `dafny verify dfyconfig.toml` checks all of it.

How the modules build on each other:

- `Names`, `Lifecycle`, `Store`: key formats; the record and every mutation of it as a function
  `Record -> Record`; the store as a value with one function per atomic operation.
- `Invariants`, `MutationKeeps`, `MutationEvolves`, `CompletionLaws`, `StoreInvariant`: the record
  invariant, the discipline callers follow, and the store invariant that every disciplined step keeps.
- `Runs`, `RunProperties`, `Budgets`, `Failures`, `Completions`, `Finished`, `Retention`, `Resources`, `Outcomes`,
  `StoreLaws`, `Overtaking`, `Scheduling`, `KeyOrder`, `Examples`: properties of whole runs, what completions, grants
  and outcomes mean for a record, laws between operations, and the exact conditions where an intuitive claim fails.
- `Framing`, `Journal`, `Transactions`, `FileStore`: the bytes of the journal, crashes, and the store as a
  class whose methods are proved to compute the functions of `Store` under every disk fault.
- `Protocol`, `Causes`, `Workers`, `Reapers`, `WorkerRules`, `ReaperRules`, `Necessities`: the routines as programs
  with every failure branch; the rules their actions must meet; the cause each request, commit, reading and end must
  have in what the routine has learnt; the proof that they meet both on every path; and what that forces them to do.
- `Controller`, `ControllerInvariant`, `ControllerSteps`, `ControllerCommits`, `ControllerLaws`,
  `ControllerPromises`, `ControllerReasons`, `ControllerClaims`, `ControllerExamples`: all routines interleaved with
  deliveries and crashes, what the controller promises, and runs that show what it does not.
- `Droplets`: the ambiguous-creation loop and owned deletion.

Store runs assume that their steps are disciplined (`StoreInvariant.Guard`). The controller modules
discharge that assumption: `ControllerLaws.ControllerRunIsStoreRun` shows that every interleaving of
the routines is such a run. What remains assumed there is stated in `Controller`: a reaper routine
commits while its record is still in the epoch it listed (`Timely`; `StoreLaws.LateDeferralStrands` and
`StoreLaws.LateRequeueDiscards` say exactly what happens otherwise), pruning spares records a routine is still working on (the
retention is at least a day, a routine runs for minutes), runner registrations issued by GitHub are new, and
the limits do not change during a run.

## Model

| member | source | states |
|---|---|---|
| Names.RunnerIdentityIsFoldedName | internal/state/store.go:1440-1442 | two runner identities are equal exactly when owner, repository and runner id agree, ignoring case |
| Names.IdentityOfInjective | internal/state/store.go:1440-1442 | the identity string determines the repository spelling and the runner id |
| Names.MarkerKeyInjective | internal/state/store.go:1436-1438 | marker keys are equal exactly when the runner identities are, and always carry the marker prefix |
| Names.JobKeyOfInjective | internal/webhook/handler.go:1419-1421 | a job key determines repository and job id |
| Names.JobKeyIsNotMarker | internal/webhook/handler.go:1419-1421 | the job key of an accepted owner is never a completion-marker key |
| Names.RunnerNameIsRecognised | internal/webhook/handler.go:1423-1448 | every name the controller gives a runner is recognised as its own and fits 63 characters |
| Names.RunnerNameReads | internal/webhook/handler.go:1423-1438 | a runner name reads as the folded repository name, cut to fit and never at a dash, followed by the digest |
| KeyOrder.SortedKeysUnique | internal/state/store.go:1424-1434 | the sorted list of a key set is unique, so a cached order can only be the right one |
| KeyOrder.LessAtFirstDifference | internal/state/store.go:1424-1434 | the scan order is the order of strings: by the first difference, and a prefix before what it begins |
| KeyOrder.SortKeys | internal/state/store.go:1424-1434 | sorting yields the keys of the map, each once, in string order |
| MutationKeeps.MutationKeepsLifecycle | internal/state/store.go:674-1253 | every mutation made under the callers' discipline keeps the record invariant: claims match status, instances match phase, budgets, acceptance binding, debounce windows, demand flags |
| MutationEvolves.MutationEvolvesRecord | internal/state/store.go:674-1253 | how any mutation may move a record: the job and provider stay, completion is final, Deleted is final, only grants take slots and claims, only releases end claims, only two operations start an epoch and they leave nothing attached |
| CompletionLaws.RunnerCompletedPassive | internal/state/store.go:443-471 | recording the completion of a runner keeps the invariant, the claim, the instance and the epoch |
| CompletionLaws.JobCompletedOnPassive | internal/state/store.go:499-535 | recording the completion of the named job keeps the invariant, the claim, the instance and the epoch |
| CompletionLaws.RegistrationKeeps | internal/state/store.go:757-804 | a registration, with or without a waiting completion marker, keeps the record invariant and a held provision claim |
| CompletionLaws.RecoveryPassive | internal/state/store.go:295-357 | recovery keeps the invariant, drops every claim and attaches nothing |
| StoreInvariant.GrantRespectsCeiling | internal/state/store.go:616-634 | admission below the limit, or at the limit with a reserved slot, cannot push the slots in use above the limit |
| StoreInvariant.SlotsAreLive | internal/state/store.go:657-669 | the code's live count covers every instance held and every creation in flight |
| StoreInvariant.ProvisionedAlreadyIndexed | internal/state/store.go:847-858 | as long as the record owns the runner, the index entry that MarkProvisioned writes in its second critical section is already there |
| StoreInvariant.LateIndexWriteKeeps | internal/state/store.go:847-858 | whenever that second section runs, even after the record lost the runner or the index its entry, the store invariant survives |
| StoreInvariant.CompleteKeeps | internal/state/store.go:409-535 | RecordCompletion keeps the store invariant, the removal of a stale index entry included |
| StoreInvariant.MarkJITKeeps | internal/state/store.go:757-804 | MarkJITCreated keeps the store invariant, provenance and index included |
| StoreInvariant.RestartKeeps | internal/state/store.go:186-222 | reopening keeps the store invariant, whichever way the index is rebuilt |
| StoreInvariant.StepKeeps | internal/state/store.go:384-1422 | every disciplined store operation keeps record invariants, provenance, index and fleet ceiling |
| Runs.RunKeepsInvariant | internal/state/store.go:384-1422 | the store invariant holds in every state of every run from an empty state file |
| Runs.FleetCeiling | internal/state/store.go:616-669 | in every run, records that hold an instance or a provision claim never exceed the limit |
| Runs.StepOnRecord | internal/state/store.go:384-1422 | a job record leaves the store only by pruning or recovery, and every other step moves it as the lifecycle allows |
| RunProperties.ExclusiveClaims | internal/state/store.go:580-755 | between two grants of one record a held claim ended, by a release or a reopening, or the record left; deliveries never create a second claim |
| RunProperties.CompletionIsFinal | internal/state/store.go:443-535 | a completion recorded for a job is never forgotten while its record exists |
| RunProperties.NeverRecheckedOnceCompleted | internal/state/store.go:443-535 | completed and owing a demand recheck never hold together |
| RunProperties.OwnsRunnerIsScan | internal/state/store.go:556-567 | the indexed ownership answer is the answer of a search over all records |
| RunProperties.RestartKeepsOwnership | internal/state/store.go:1568-1576 | the ownership answer is the same before and after a restart rebuilds the index |
| RunProperties.WindowIsHistory | internal/state/store.go:863-967 | counter and start of an absence window are the number and the first time of that source's observations since its last reset |
| RunProperties.DebounceOverRuns | internal/state/store.go:863-915 | absence is confirmed exactly when enough observations of that source were made since its last reset and the first is old enough |
| RunProperties.ProvisionedUnobserved | internal/state/store.go:816-850 | whenever a record becomes Provisioned, for the first time or again, both absence windows and both observation histories are empty |
| RunProperties.AcceptancePersists | internal/state/store.go:1083-1114 | a journaled deletion acceptance stays with the record for its whole epoch |
| RunProperties.SettledPersists | internal/state/store.go:580-655 | once provisioning of a record is over, it is over for the rest of the epoch |
| RunProperties.InstancePersists | internal/state/store.go:816-843 | a settled record is given no other instance before its epoch ends |
| RunProperties.ReleasedWasKnown | internal/state/store.go:1295-1337 | an instance released by a sweep was known when instances were listed exactly if its record held an instance then and was not terminal |
| RunProperties.NothingStranded | internal/state/store.go:1254-1394 | an unclaimed record is never in flight, and once due it is picked up by some routine; the one exception, which waits for the age cutoff, is exact |
| Budgets.MutationBalances | internal/state/store.go:674-755 | each mutation charges, refunds or resets a budget exactly as classified; no refund is lost at zero |
| Budgets.RecoveryAccount | internal/state/store.go:329-357 | recovery refunds exactly the interrupted attempts |
| Budgets.CounterIsAccount | internal/state/store.go:580-755 | in every run a counter is grants minus refunds since the last reset, stays within the budget, and covers a held claim |
| Budgets.GivesUpOnlyWhenSpent | internal/state/store.go:972-1025 | apart from explicit orphaning, a record fails or is orphaned only when a budget has reached the limit named |
| Budgets.OrphanedInBetween | internal/webhook/handler.go:555-564 | in every run a released instance that had been known was orphaned between listing and release, by MarkOrphaned or by a mutation that gave up on a spent budget |
| Budgets.LastThrottleOrphans | internal/state/store.go:695-720 | a throttle orphans a live record exactly when it is counted and is the last one allowed |
| StoreLaws.CompletionCommutesWithRegistration | internal/state/store.go:409-535 | completion and registration commute: all job records agree but for update times, and only the retired marker tells the orders apart |
| StoreLaws.ReleaseUndoesGrant | internal/state/store.go:674-692 | releasing an unstarted claim restores the record except for its times |
| StoreLaws.RecoveryUndoesGrant | internal/state/store.go:295-357 | a crash during a claim recovers the record from before the grant except for its times |
| StoreLaws.RecoverySettles | internal/state/store.go:295-357 | a second recovery changes nothing, exactly unless a legacy cancellation message is refunded twice or a provisioned record has no time at all |
| StoreLaws.ConfirmationReleasesOnlyDeleting | internal/state/store.go:1104-1114 | deferring the confirmation of an accepted deletion ends the claim exactly while the status is Deleting |
| StoreLaws.OvertakenConfirmationKeepsClaim | internal/state/store.go:526-534 | a completion without runner id overwrites that status; the deferred confirmation then leaves the claim, a scan cannot grant the record as it is, and reopening frees it |
| StoreLaws.LateDeferralStrands | internal/state/store.go:972-1000 | a reaper backoff that lands on a record claimed for provisioning breaks its invariant exactly when it spends the last attempt |
| StoreLaws.LateRequeueDiscards | internal/state/store.go:1342-1366 | a late requeue gives up a slot exactly when the record is provisioned again, whose live instance it then discards; otherwise it only stamps the record |
| StoreLaws.MarkerReopens | internal/state/store.go:479-497 | in any disciplined step a deleted marker stops being deleted exactly if the step records a completion for its runner that no record owns; no mutation, registration, sweep, pruning or reopening does it |
| StoreLaws.MarkerStaysDeleted | internal/state/store.go:479-497 | over every run a deleted marker that stays in the store stays deleted exactly as long as no such completion arrives |
| Overtaking.CompletionRaisesCount | internal/state/store.go:443-471 | a completion raises the live count exactly when it revives an orphan without instance that still owns a registration |
| Overtaking.OnlyCompletionsPassLimit | internal/state/store.go:443-669 | from within the limit, a step makes the code's own count exceed it exactly if it is a completion that revives an orphan at the limit |
| Overtaking.CountWithinLimitUntilOvertaken | internal/state/store.go:580-669 | in every run the code's own count stays within the limit until such a completion |
| Overtaking.CountCanPassLimit | internal/state/store.go:657-669 | an admitted run after which the code's own live count is above the limit |
| Scheduling.EmptyScanLeavesNothing | internal/state/store.go:580-655 | when a scan returns no work, no record it leaves behind is eligible |
| Scheduling.ScanIsDetermined | internal/state/store.go:580-655 | the choice of a scan is unique: the least eligible key |
| Scheduling.PassingKeepsCount | internal/state/store.go:591-616 | the budget backstops in the loop do not change the admission count computed before it |
| Scheduling.ScanKeepsInvariant | internal/state/store.go:580-655 | whatever a scan retires and grants, the store invariant survives |
| Finished.ReadyExactly | internal/state/store.go:616-640 | a record is taken up for deletion exactly if it is Completed, unclaimed, due, within budget, has an instance and is not deferred, and for provisioning exactly if it is Pending, unclaimed, due, within budget and admitted |
| Finished.RetiredExactly | internal/state/store.go:596-625 | a scan gives up exactly the due records with a spent budget, and touches nothing else of a record it passes |
| Finished.ScanTakesLeastReady | internal/state/store.go:580-655 | a scan takes the least key that is ready for work, for that work, and nothing only if no record is ready, in terms of the records' fields |
| Finished.ClaimsAreReady | internal/state/store.go:628-653 | in every run a step that turns an unclaimed record into a claimed one finds it due, within budget and in the state the work needs: not deferred to be deleted, and with room to be provisioned |
| Finished.DeferredUntilLifted | internal/state/store.go:635 | in every run, between the moment a completed record is deferred and a later grant of its deletion, a scheduled deletion, its runner's completion or a registration lifted the deferral |
| Finished.OverStaysOver | internal/state/store.go:841-843 | in every run a record that has been Completed, Deleting, Failed, Orphaned or Deleted is never Pending, Provisioning or Provisioned again in that epoch |
| Finished.FinishedForGood | internal/state/store.go:443-535 | a job that is known completed and over stays so and is never claimed for provisioning again, in any epoch |
| Finished.CompletedFirstIsNeverProvisioned | internal/state/store.go:499-517 | a job whose completion arrives before it was ever queued is never claimed for provisioning while its record stays |
| Finished.RecordedInstanceIsKept | internal/state/store.go:816-845 | recording an instance makes the record Provisioned, unless a completion came first: then it stays Completed, and is due for deletion exactly if that is not deferred, an attempt is left and its retry time has come |
| Retention.LiveExactly | internal/state/store.go:657-669 | the code's count is exactly the slots in use plus the registrations still owned by live records |
| Retention.AdmissionIsExact | internal/state/store.go:626-634 | a waiting record is admitted exactly if the count is within the limit after its grant, the reserved slot at the limit included |
| Retention.DeliveryWaits | internal/state/store.go:384-403 | a new delivery waits to be provisioned from its retry time on and is dated by its arrival |
| Retention.LeavesExactly | internal/state/store.go:1397-1422 | a step forgets a record exactly if it prunes or reopens and the record is old enough and deleted, or for pruning an orphan that names neither instance nor runner |
| Retention.ResourcesAreRemembered | internal/state/store.go:1397-1422 | in every run a record that is not deleted stays in the store, unless it is an orphan that names nothing |
| Retention.ListedExactly | internal/state/store.go:1370-1394 | expiry looks up a provisioned runner exactly by its age since provisioning, and finished work exactly when due and old, deferred, or without an instance and failed |
| Completions.CompletionFindsOwner | internal/state/store.go:443-477 | the index leads a completion to exactly the record that owns its runner |
| Completions.CompletionReaches | internal/state/store.go:409-535 | a completion completes the record that owns the runner, and frees it for deletion unless a worker has it; completes the named job, deferred if no runner is named; and changes no other record |
| Completions.UnknownJobIsRemembered | internal/state/store.go:499-517 | the completion of a job never queued here leaves a record that is Completed, deferred, unclaimed and names nothing |
| Completions.UnmatchedIsKept | internal/state/store.go:479-497 | the completion of a runner that no record owns is kept in a marker that owns nothing and expires when due |
| Completions.RegistrationReaches | internal/state/store.go:757-804 | a registration is saved on its record and takes up a waiting completion exactly once; nothing else changes |
| Outcomes.DemandDeferred | internal/state/store.go:724-737 | claim and deferral together leave the job as it was before the claim, but for message, retry time and the deferral flag |
| Outcomes.ProvisioningFailed | internal/state/store.go:1040-1058 | claim and failure together spend one attempt and leave the job pending until the retry time, or failed after the last attempt |
| Outcomes.ProvisioningThrottled | internal/state/store.go:695-720 | claim and throttle together spend no attempt, count the throttle and leave the job pending until the announced time, or orphaned at the limit |
| Outcomes.ProvisioningSucceeded | internal/state/store.go:816-845 | claim and success together leave a provisioned record with the instance and runner the worker names |
| Outcomes.CompletionSurvivesProvisioning | internal/state/store.go:739-746 | a completion that overtook a provision worker survives every outcome it may save: Completed, unclaimed, deferred as before and due no later |
| Outcomes.DeletionFailed | internal/state/store.go:1219-1236 | claim and failed deletion together spend one attempt and leave the deletion due at the retry time, or the record orphaned after the last |
| Outcomes.DeletionThrottled | internal/state/store.go:695-720 | claim and throttled deregistration together spend no attempt and leave the deletion due at the announced time, or the record orphaned at the limit |
| Outcomes.ConfirmationDeferred | internal/state/store.go:1104-1114 | claim, acceptance and deferred confirmation together leave the record as before but for the acceptance, message and retry time |
| Outcomes.RecheckDeferred | internal/state/store.go:1173-1185 | claim and deferred recheck together leave the record as before but for message and retry time |
| Outcomes.ReleasedIsDueAtOnce | internal/state/store.go:674-692 | released work is due at once, with its attempt unspent |
| Outcomes.OrphanedKeepsResources | internal/state/store.go:1238-1252 | an orphan keeps the instance and the registration it names |
| Outcomes.AbsentOrphanReleased | internal/state/store.go:1282-1293 | an absent instance is released only from the orphan that holds that very instance |
| Outcomes.CompletedIsHandedOver | internal/webhook/handler.go:1117-1138 | completing, releasing and scheduling a claimed record hands it over for deletion at once, with its attempt unspent |
| Outcomes.ScheduledIsDueAtOnce | internal/state/store.go:1071-1081 | a scheduled deletion of an unclaimed record is due at once and deferred no longer; a claimed record is left alone |
| Outcomes.CleanupCharged | internal/state/store.go:1187-1217 | a cleanup is charged before it begins, and given up when no attempt is left |
| Outcomes.CheckStartsOver | internal/state/store.go:952-970 | a check that goes well leaves no absence, failure, error or delay of earlier ones |
| Outcomes.FinishedOrQueuedAnew | internal/state/store.go:1129-1169 | a finished deletion deletes the record, or on an owed and queued demand leaves a job queued anew of which only epoch and creation time remain |
| Outcomes.RequeuedAtOnce | internal/state/store.go:1342-1366 | a disappeared runner is replaced at once in a new epoch by a record that names nothing, or has failed with its attempts spent |
| Outcomes.InterruptedIsDueAtOnce | internal/state/store.go:329-357 | work interrupted by a crash is due at once after reopening, unless a completion had overtaken it |
| Failures.TallyIsRow | internal/state/store.go:972-1036 | in every run the two failure counters are the rejections and the throttles met in a row |
| Failures.GivesUpExactly | internal/state/store.go:972-1058 | a mutation fails or orphans a record exactly when the last failure or attempt is spent, or by explicit decision |
| Failures.BackoffWaits | internal/state/store.go:972-1036 | a backoff that does not give up leaves the record as it stands until its retry time |
| Resources.SweepTakesExactly | internal/state/store.go:1310-1337 | a sweep takes exactly the instances of old orphans of its provider |
| Resources.ResourcesAreKept | internal/state/store.go:806-1366 | in every run a record within its epoch loses its instance only as an orphan, to a sweep or as absent, and its registration only where it is cleared or replaced |
| Framing.LinesDecide | internal/state/store.go:1588-1634 | reading line by line up to the first undecodable line decides the entries, the repaired file, or that the file is corrupt |
| Framing.TornTailRecovery | internal/state/store.go:1588-1668 | entries followed by any prefix of one more append load as the entries plus the last exactly if its whole encoding is there, leaving a well-formed file |
| Framing.IntactFileLoads | internal/state/store.go:1588-1634 | a well-formed journal loads as its entries and is not rewritten |
| Framing.SplitFrames | internal/state/store.go:1599 | a journal of entries and an undelimited tail splits into exactly their lines and that tail |
| Journal.ReplayIsIdempotent | internal/state/store.go:1670-1688 | replaying a journal over its own result changes nothing, so a snapshot may be newer than the journal |
| Journal.IncrementalSaveIsFull | internal/state/store.go:1471-1490 | journaling the dirty differences reaches the records exactly when everything else already agrees, and is then the full difference |
| Journal.CrashRefinement | internal/state/store.go:1471-1562 | wherever a save or its compaction is interrupted, reopening yields the state before or after, decided by the entry's last byte |
| Journal.RepairIsStable | internal/state/store.go:1655-1668 | the repaired disk reads as the torn one did, so the repair may be interrupted too |
| Journal.FailedRollbackResurfaces | internal/state/store.go:1578-1586 | after a failed append whose whole line could not be rolled back, the disk agrees with memory again exactly if the next save rewrites every key that append changed |
| Journal.TornLineIsUnreadable | internal/state/store.go:1578-1634 | after a failed append that left part of its line, the next append makes the journal unreadable exactly if the merged line does not decode |
| Transactions.RememberedIsUndone | internal/state/store.go:430-441 | the undo log of a transaction restores the exact earlier map |
| Transactions.AbsorbChanges | internal/state/store.go:1614-1621 | applying an entry key by key yields the entry's result |
| FileStores.CrashDuring | internal/state/store.go:1471-1562 | a crash during any operation leaves files that reopen as the records before or after it |
| FileStores.FileStore.DirtyChanges | internal/state/store.go:1479-1490 | the entry written holds exactly the dirty keys that really differ |
| FileStores.FileStore.SaveLocked | internal/state/store.go:1471-1562 | when a save succeeds, what it leaves in memory and on disk under every fault, that a rolled-back failure changes nothing, and that a journal of 512 entries or 4 MiB is compacted |
| FileStores.FileStore.CompactLocked | internal/state/store.go:1670-1688 | compaction keeps the durable state at every point where it may stop |
| FileStores.FileStore.LoadJournal | internal/state/store.go:1588-1634 | the loading loop succeeds exactly if the journal reads and any repair works, and computes its reading, repair and counters |
| FileStores.FileStore.RecoverRecordsLocked | internal/state/store.go:275-293 | recovery of the map is recovery of each record, and reports exactly whether any record was dropped or repaired |
| FileStores.FileStore.RebuildRunnerIndexLocked | internal/state/store.go:1568-1576 | the rebuilt index names only owners and misses none |
| FileStores.FileStore.Open | internal/state/store.go:186-222 | succeeds exactly if the journal reads, its repair and the recovery can be written where needed, and the files can be finalized; then it holds the recovered records; after any opening a recoverable disk still reads as before or as recovered |
| FileStores.FileStore.Update | internal/state/store.go:1452-1469 | a stamped mutation is committed as a whole or not at all, and a missing key is reported |
| FileStores.FileStore.MarkProvisioned | internal/state/store.go:816-859 | exactly if the save works, records the instance and its index entry together; otherwise nothing, and the disk as a failed save leaves it; Finished.RecordedInstanceIsKept says what becomes of a record completed meanwhile |
| FileStores.FileStore.MarkDeletionAccepted | internal/state/store.go:1083-1100 | for the claimed instance of a record being deleted, and for nothing else, acceptance is journaled exactly if the save works |
| FileStores.FileStore.ObserveMissing | internal/state/store.go:863-915 | counts the observation of a provisioned record exactly if the save works, and answers whether absence is confirmed; other records need no save |
| FileStores.FileStore.BeginCleanupAttempt | internal/state/store.go:1187-1217 | a record that is ready has one attempt reserved or is retired exactly if the save works, and the caller is told which |
| FileStores.FileStore.FinishDeletedRunner | internal/state/store.go:1129-1169 | commits exactly if the save works, and reports restored exactly if queued demand, an owed recheck and no completion meet at the commit |
| FileStores.FileStore.Create | internal/state/store.go:384-403 | a delivery is recorded once, exactly if the save works; a redelivery succeeds without touching the disk |
| FileStores.FileStore.RecordCompletion | internal/state/store.go:409-428 | the transaction over several records and the index is applied as a whole or rolled back exactly; Completions.CompletionReaches says what it does to each record |
| FileStores.FileStore.MarkJITCreated | internal/state/store.go:757-804 | registration and a waiting marker are committed together, the index only after the save; for a terminal record it succeeds and for a missing one it fails, both without touching the disk |
| FileStores.FileStore.ReleaseSweptOrphans | internal/state/store.go:1310-1337 | releases and counts exactly the old orphaned instances of the provider, failing only if there are some and the save fails |
| FileStores.FileStore.PruneDeleted | internal/state/store.go:1397-1422 | drops and counts exactly the records past retention, failing only if there are some and the save fails |
| FileStores.FileStore.OrderedKeysLocked | internal/state/store.go:1424-1434 | the cached order is the sorted key set whenever it is not marked dirty |
| FileStores.FileStore.LiveRunnerCountLocked | internal/state/store.go:657-669 | the counting loop computes the number of records that count as live |
| FileStores.FileStore.VisitLocked | internal/state/store.go:593-654 | one record is granted, retired or passed exactly as its readiness says; the visit stops exactly if the record has to be written and the save fails |
| FileStores.FileStore.ClaimNext | internal/state/store.go:580-655 | claims the least eligible key, or none if none is eligible, or fails at the first key it has to write and cannot; what was retired before stays retired; Finished.ScanTakesLeastReady says what is eligible |
| FileStores.ScanOutcomeIsDetermined | internal/state/store.go:580-655 | records and faults leave only one outcome of a scan |
| FileStores.FileStore.OwnsRunner | internal/state/store.go:556-567 | the answer comes from the index entry's record |
| FileStores.FileStore.KnownInstanceIDs | internal/state/store.go:1295-1306 | exactly the instances of records that are neither deleted nor orphaned |
| FileStores.FileStore.ListProvisioned | internal/state/store.go:1254-1264 | each provisioned record exactly once |
| FileStores.FileStore.ListOrphaned | internal/state/store.go:1268-1278 | each orphaned record exactly once |
| FileStores.FileStore.ListExpired | internal/state/store.go:1370-1394 | each expired or retryable unclaimed record exactly once, oldest first |
| WorkerRules.ProvisioningIsSafe | internal/webhook/handler.go:963-1045 | on every path each commit, request, reading and end of the provision worker meets the rules and has its cause |
| WorkerRules.GateIsSafe | internal/webhook/handler.go:1047-1085 | behind the gate the record was read as not completed and the job heard to be queued; a job is retired only as unwanted, and an unclear demand is deferred |
| WorkerRules.RetiringIsSafe | internal/webhook/handler.go:1117-1138 | while the claim is held, retiring never meets an instance |
| WorkerRules.FailingIsSafe | internal/webhook/handler.go:1140-1194 | every failure ends the claim as its fault demands: released, deferred, orphaned, retried, or cleaned up after the last attempt |
| WorkerRules.DeletingIsSafe | internal/webhook/handler.go:1196-1321 | on every path each commit, request, reading and end of the delete worker meets the rules and has its cause |
| WorkerRules.FinishingIsSafe | internal/webhook/handler.go:1305-1321 | a deletion may be finished only behind the whole cleanup and, if a recheck is owed, behind its answer; as queued exactly if the snapshot owes the recheck and its demand was confirmed |
| WorkerRules.RecheckingIsSafe | internal/webhook/handler.go:1323-1342 | the recheck asks only for debts of the claim-time snapshot and reads the completion before GitHub |
| WorkerRules.OrphaningIsSafe | internal/webhook/handler.go:862-880 | orphaning needs its cause, tries to remove the routine's own registration first, and removes no other |
| WorkerRules.ProcessingIsSafe | internal/webhook/handler.go:938-961 | whatever a worker does with a claim, canceled or of another provider, meets the rules and has its cause |
| ReaperRules.ReconcilingIsSafe | internal/webhook/handler.go:679-811 | liveness reconciliation retires a runner only if its job is over or GitHub has missed it for long enough, requeues only after the instance is gone and the runner removed, and stops only with nothing left to do |
| ReaperRules.ExpiringIsSafe | internal/webhook/handler.go:827-936 | expiry deletes untracked records only after a charged cleanup, schedules a deferred runner only once deregistered, and orphans only what it may |
| ReaperRules.OrphanedInstanceIsSafe | internal/webhook/handler.go:593-623 | an orphan's reservation is released only after that very instance was reported absent |
| ReaperRules.OrphanedRunnerIsSafe | internal/webhook/handler.go:625-654 | an orphan's registration is forgotten only after GitHub removed it |
| ReaperRules.ReapingIsSafe | internal/webhook/handler.go:540-654 | whatever the reaper does with a listed record meets the rules and has its cause |
| Necessities.UnwantedWasLearnt | internal/webhook/handler.go:1047-1085 | a job is taken to be unwanted only after its record was read as completed or GitHub said that it has begun or is done |
| Necessities.UnclearIsDeferred | internal/webhook/handler.go:1101-1115 | a provision worker that cannot confirm the demand before its deadline can only defer it, until the throttle ends or its delay is over |
| Necessities.GatedCreates | internal/webhook/handler.go:1017-1034 | right behind its second gate a provision worker can only create the instance, under the name it has registered |
| Necessities.OverIsRetired | internal/webhook/handler.go:700-717 | a runner found with its job over is deregistered, the removal recorded, and its deletion scheduled; nothing else can come next as long as GitHub agrees and saves succeed |
| ControllerInvariant.CommitIsDisciplined | internal/webhook/handler.go:963-1321 | what the rules let a routine commit is what the store's discipline requires |
| ControllerInvariant.AmbientUndisturbs | internal/state/store.go:409-535 | deliveries, sweeps and backstops never disturb a held provision claim or a deletion in progress |
| ControllerInvariant.ReaperUndisturbs | internal/webhook/handler.go:679-936 | a timely reaper commit never disturbs a held provision claim or a deletion in progress |
| ControllerCommits.OthersLeaveHeldAlone | internal/webhook/handler.go:485-516 | no other routine that may commit to a held record disturbs its worker |
| ControllerLaws.TurnKeeps | internal/webhook/handler.go:485-516 | every turn of the interleaved controller keeps the invariant of the whole |
| ControllerLaws.ControllerRunIsStoreRun | internal/webhook/handler.go:485-516 | every interleaving of routines, deliveries and crashes is a disciplined run of the store |
| ControllerLaws.ControllerFleetCeiling | internal/webhook/handler.go:485-516 | in every interleaving, instances held plus creations in flight stay within the limit |
| ControllerPromises.WorkersAreAlone | internal/webhook/handler.go:485-516 | at most one worker holds a record; its claim and epoch are still what it was granted |
| ControllerPromises.OnlyIssuedRunnersAreRemoved | internal/webhook/handler.go:970-998 | every runner removed in any run was issued by GitHub for that repository and job |
| ControllerPromises.CreatesOnlyBehindGate | internal/webhook/handler.go:1017-1034 | every instance is created under a held claim, for a persisted registration, right behind a passed demand gate |
| ControllerPromises.AcceptedIsNotDeletedAgain | internal/webhook/handler.go:1196-1205 | a delete worker that can check absence never asks to delete the instance whose acceptance its record carries |
| ControllerPromises.AcceptedOnceForAll | internal/webhook/handler.go:1196-1205 | once acceptance is journaled, no later delete worker of the epoch repeats the deletion, restarts included |
| ControllerPromises.ReplacementOnlyAfterCleanup | internal/webhook/handler.go:759-811 | a record enters a new epoch only in a commit of a routine that itself heard its runner removed and its instance absent or its deletion done or accepted, confirmed absence for a delete worker that can check it |
| ControllerPromises.RestoredExactlyOnConfirmedDemand | internal/webhook/handler.go:1302-1342 | a finished deletion makes its record pending exactly if the claim-time snapshot owed the recheck, its demand was confirmed, and the record still owes it, is not completed and is not terminal at the commit; otherwise a record that is not terminal is deleted |
| ControllerPromises.UnknownOutcomeOnlyOrphans | internal/webhook/handler.go:1156-1162 | the worker that hears an unknown creation outcome only gives up the registration and orphans the record |
| ControllerReasons.EveryStepHasItsCause | internal/webhook/handler.go:485-811 | in every interleaving each next request, commit, reading and end of each routine has its cause in what that routine has learnt |
| ControllerReasons.JobsAreGivenUpOnlyUnwanted | internal/webhook/handler.go:1047-1138 | in every run a provision worker deletes a record only after it read the job as completed or heard that it has begun or is done, and with no registration left |
| ControllerReasons.UnclearDemandIsDeferred | internal/webhook/handler.go:1066-1115 | in every run a demand that cannot be confirmed in time is deferred |
| ControllerReasons.DeferralRefunds | internal/state/store.go:724-737 | the deferral that is saved ends the claim, refunds the attempt and leaves the job pending until the retry time, unless a completion came in |
| ControllerReasons.RecordedInstancesWereNamed | internal/webhook/handler.go:1005-1045 | in every run only an instance the provider named for this record is recorded, with the runner registered for it |
| ControllerReasons.WorkersStopUnclaimed | internal/webhook/handler.go:938-1352 | in every run a worker stops only when its claim is given up, or when giving it up could not be saved |
| ControllerReasons.RunnersAreRetiredForReasons | internal/webhook/handler.go:574-936 | in every run a runner's deletion is scheduled only if its job is over and its registration removed, GitHub has missed it across the settle window after the startup grace, or it has passed its age, deregistered if deferred |
| ControllerReasons.OverRunnersAreRetired | internal/webhook/handler.go:700-717 | in every run a runner found with its job over is retired step by step |
| ControllerReasons.RegistrationsAreForgottenOnlyRemoved | internal/webhook/handler.go:862-1100 | in every run a record loses its registration within an epoch only in a commit of a routine that has just heard GitHub remove that very registration |
| ControllerReasons.InstancesAreForgottenOnlyGone | internal/webhook/handler.go:555-623 | in every run a record loses its instance within an epoch only to a sweep that accounted for it, or in a commit of a routine that has just heard it is absent |
| ControllerClaims.SettledIsNotCreatedAgain | internal/webhook/handler.go:1017-1034 | in every run, once a record is settled, an instance is created for it only in a later epoch |
| ControllerClaims.UnknownOutcomeIsNeverRetried | internal/webhook/handler.go:1156-1162 | in every run, once the orphan for an unknown outcome is saved, no instance is created for the job again in that epoch, crashes included |
| ControllerClaims.CreatedAgainWasNeverSettled | internal/webhook/handler.go:1156-1162 | a second creation in one epoch means that no orphan was saved in between and the record was never settled |
| ControllerClaims.LostOrphanIsRetried | internal/state/store.go:329-335 | when the store is reopened over a provision claim, the job is open for provisioning in the same epoch exactly if its record was still Provisioning |
| ControllerExamples.LostOrphanIsCreatedAgain | internal/webhook/handler.go:1156-1162 | a run in which an unknown outcome is retried in the same epoch because the orphan was lost |
| ControllerClaims.UnheldClaimEnds | internal/state/store.go:1104-1114 | in every run a claim without a worker ends exactly by reopening, by the release of an orphan's absent instance, or by orphaning another provider's record |
| ControllerExamples.SparedInstanceIsReleased | internal/webhook/handler.go:555-564 | a run in which an instance known to the sweep is released, because its delete worker gave up between listing and release |
| ControllerExamples.DebtDuringDeletionIsDropped | internal/webhook/handler.go:1323-1342 | a run in which a demand recheck that falls due during the deletion is dropped |
| Droplets.ReconcileAmbiguousCreate | internal/digitalocean/droplet.go:172-210 | absence is confirmed exactly if the last three polls are clean, never after a sighting, and polling stops at the first reason |
| Droplets.CleanRunIsThree | internal/digitalocean/droplet.go:172-210 | absence needs three clean polls in a row |
| Droplets.CreateRunner | internal/digitalocean/droplet.go:110-170 | the outcome is unknown exactly if an ambiguous creation was neither sighted nor confirmed absent |
| Droplets.FindByName | internal/digitalocean/droplet.go:439-454 | exactly one match is a sighting, none is clean, two are an error |
| Droplets.DeletionSucceeds | internal/digitalocean/droplet.go:302-343 | success means that the droplet is absent, or that it carried both ownership tags and its deletion is accepted |
| Droplets.DeletionIsAskedFor | internal/digitalocean/droplet.go:302-343 | the provider is asked for a deletion exactly if the droplet is found and carries both tags |
| Droplets.DeletingAgainMismatches | internal/digitalocean/droplet.go:323-334 | asking again while an accepted deletion is under way and the tags are gone ends in an ownership mismatch exactly if both lookups are answered and the droplet is still there |
| Droplets.DropletClient.DeleteRunner | internal/digitalocean/droplet.go:302-343 | the method computes that deletion: only the named droplet, carrying both tags, is asked for |
| Droplets.DropletClient.CleanupRunnerExcept | internal/digitalocean/droplet.go:351-392 | success means that every listed droplet but the excluded one is absent or accepted for deletion; a foreign one stops it first; no droplet without both tags is asked for |

## Left out

- HTTP serving, signatures, label and repository checks, environment parsing, cloud-init templates and logging: plumbing without lifecycle state.
- The AWS, GCP and Azure adapters and the firewall validation: request building and filtered loops that would add easy members.
- `ControllerClaims.UnknownOutcomeIsNeverRetried` needs the orphan to be saved and the record to stay in the store; without the save the job may be created again (`ControllerExamples.LostOrphanIsCreatedAgain`).
- The provider sweep itself is an outside event whose success allows ReleaseSweptOrphans; its loop is a single filter.
- The JSON encoding is a codec with three properties (one visible line, decodable, no decodable proper prefix); an undecodable snapshot file, and the Unicode spaces that also make a line blank, are not part of the model.
- File locking, permissions and fsync: a returned append is durable, a rename is atomic, a truncation is whole.
- After a failed append that could not be rolled back, `FileStore` claims nothing about the disk until a compaction replaces it; `Journal.FailedRollbackResurfaces` and `Journal.TornLineIsUnreadable` say what one more append does.
- Counters, ids and times are unbounded; 64-bit wrap-around is not modelled. Times count from the zero time, and an operation reads the clock once.
- Error texts are messages of which only presence and the two legacy cancellation texts matter; retry delays are an arbitrary function of the clock.
- SHA-256 digests in runner and droplet names are parameters; case folding is ASCII.
- `FileStores.FileStore.MarkProvisioned` is one critical section; the source writes the index entry in a second one, which `StoreInvariant.LateIndexWriteKeeps` shows to be harmless whenever it runs.
- `FileStores.FileStore.Update` takes the mutation as data rather than a callback; the callbacks are the functions of module `Lifecycle`.
- Records in the formats of older versions (numeric droplet id, missing provider) are recovered by the model (`Outcomes.OldFormatsAreBroughtUp`) but excluded from the invariants.
- Runs start from an empty state file and keep one limit; changing the limit during a run is not modelled.
- `Runs.FleetCeiling` counts instances and provision claims, not leftover registrations; the code's own count, which includes those, can pass the limit (`Overtaking.CountCanPassLimit`).
- `ControllerPromises.ReplacementOnlyAfterCleanup` relies on the epoch assumption for reaper routines stated above; a reaper that outlives its epoch is covered only by `StoreLaws.LateDeferralStrands` and `StoreLaws.LateRequeueDiscards`.
- The routines of the webhook handler are values (programs) rather than methods on a store object, so that any interleaving of their steps can be stated.
- The reaper's routines for listed records are taken as concurrent, which allows more interleavings than the source's single loop.
- Polling timers, worker wake-ups and goroutine scheduling: every store call is atomic under its mutex, and any order of calls is allowed.
