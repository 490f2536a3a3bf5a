/**
 What a claim leaves behind: each outcome of a worker's work, told as one change from the record
 before the claim was granted to the record after the outcome was saved.
 */
module Outcomes {
  import opened Names
  import opened Lifecycle
  import opened Invariants
  import opened Finished

  // Provisioning

  function ProvisionGranted(r: Record, maxAttempts: int, at: Time): Record {
    Mutate(GrantProvision(maxAttempts), r, at)
  }

  /** The record as a provision worker finds it. */
  lemma ProvisionClaim(r: Record, maxAttempts: int, at: Time)
    requires AwaitsProvisioning(r, maxAttempts, at)
    ensures ProvisionGranted(r, maxAttempts, at)
         == r.(status := Provisioning, attempts := r.attempts + 1, claim := Provision, nextAttemptAt := ZERO_TIME,
               updatedAt := at)
  {
  }

  /** Demand could not be confirmed: the job waits as before, its attempt unspent, until the retry time. */
  lemma DemandDeferred(r: Record, maxAttempts: int, grantedAt: Time, message: Message, retryAt: Time, savedAt: Time)
    requires AwaitsProvisioning(r, maxAttempts, grantedAt) && 0 <= r.attempts
    ensures Mutate(DeferProvisioningDemand(message, retryAt), ProvisionGranted(r, maxAttempts, grantedAt), savedAt)
         == r.(lastError := message, nextAttemptAt := retryAt, deferDeletion := true, updatedAt := savedAt)
  {
    ProvisionClaim(r, maxAttempts, grantedAt);
    var claimed := r.(status := Provisioning, attempts := r.attempts + 1, claim := Provision,
                      nextAttemptAt := ZERO_TIME, updatedAt := grantedAt);
    assert Mutate(DeferProvisioningDemand(message, retryAt), claimed, savedAt)
        == Stamped(OnDeferProvisioningDemand(claimed, message, retryAt), savedAt);
  }

  /** The attempt failed: it is spent, and the job waits for its retry time unless it was the last one. */
  lemma ProvisioningFailed(r: Record, maxAttempts: int, grantedAt: Time, message: Message, retryAt: Time, savedAt: Time)
    requires AwaitsProvisioning(r, maxAttempts, grantedAt)
    ensures var last := r.attempts + 1 >= maxAttempts;
      Mutate(MarkProvisionFailed(message, retryAt, maxAttempts), ProvisionGranted(r, maxAttempts, grantedAt), savedAt)
      == r.(attempts := r.attempts + 1, status := if last then Failed else Pending, throttleFailures := 0,
            lastError := message, nextAttemptAt := if last then ZERO_TIME else retryAt, updatedAt := savedAt)
  {
    ProvisionClaim(r, maxAttempts, grantedAt);
    var claimed := r.(status := Provisioning, attempts := r.attempts + 1, claim := Provision,
                      nextAttemptAt := ZERO_TIME, updatedAt := grantedAt);
    assert Mutate(MarkProvisionFailed(message, retryAt, maxAttempts), claimed, savedAt)
        == Stamped(OnMarkProvisionFailed(claimed, message, retryAt, maxAttempts), savedAt);
  }

  /** The API was throttled: the attempt is unspent, the throttle counted, and the job waits for the announced time. */
  lemma ProvisioningThrottled(r: Record, maxAttempts: int, grantedAt: Time, message: Message, resetAt: Time,
                              savedAt: Time)
    requires AwaitsProvisioning(r, maxAttempts, grantedAt) && 0 <= r.attempts
    ensures var last := r.throttleFailures + 1 >= maxAttempts;
      Mutate(DeferRateLimitedWork(Provision, message, resetAt, maxAttempts),
             ProvisionGranted(r, maxAttempts, grantedAt), savedAt)
      == r.(throttleFailures := r.throttleFailures + 1, status := if last then Orphaned else Pending,
            lastError := message, nextAttemptAt := if last then ZERO_TIME else resetAt, updatedAt := savedAt)
  {
    ProvisionClaim(r, maxAttempts, grantedAt);
    var claimed := r.(status := Provisioning, attempts := r.attempts + 1, claim := Provision,
                      nextAttemptAt := ZERO_TIME, updatedAt := grantedAt);
    assert Mutate(DeferRateLimitedWork(Provision, message, resetAt, maxAttempts), claimed, savedAt)
        == Stamped(OnDeferRateLimitedWork(claimed, Provision, message, resetAt, maxAttempts), savedAt);
  }

  /** The instance runs: the attempt is spent, and instance and runner are what the worker names. */
  lemma ProvisioningSucceeded(r: Record, maxAttempts: int, grantedAt: Time, instanceID: InstanceID, runnerID: int,
                              name: string, savedAt: Time)
    requires AwaitsProvisioning(r, maxAttempts, grantedAt) && LifecycleInv(false, r, maxAttempts)
    requires !instanceID.NoInstance? && r.acceptedID != instanceID
    ensures Mutate(MarkProvisioned(instanceID, runnerID, name), ProvisionGranted(r, maxAttempts, grantedAt), savedAt)
      == r.(status := Provisioned, attempts := r.attempts + 1, instanceID := instanceID, acceptedID := NoInstance,
            runnerID := runnerID, runnerOwned := true, runnerName := name, lastError := NoMessage,
            throttleFailures := 0, nextAttemptAt := ZERO_TIME, missingSince := ZERO_TIME, missingChecks := 0,
            provisionedAt := if r.provisionedAt == ZERO_TIME then savedAt else r.provisionedAt, updatedAt := savedAt)
  {
    ProvisionClaim(r, maxAttempts, grantedAt);
    var claimed := r.(status := Provisioning, attempts := r.attempts + 1, claim := Provision,
                      nextAttemptAt := ZERO_TIME, updatedAt := grantedAt);
    assert Mutate(MarkProvisioned(instanceID, runnerID, name), claimed, savedAt)
        == Stamped(OnMarkProvisioned(claimed, instanceID, runnerID, name, savedAt), savedAt);
  }

  /** The outcomes a provision worker may save for a record that keeps existing. */
  predicate EndsProvisioning(m: Mutation) {
    || (m.ReleaseClaim? && m.kind.Provision?) || (m.DeferRateLimitedWork? && m.kind.Provision?)
    || m.DeferProvisioningDemand? || m.MarkProvisionFailed? || m.MarkProvisioned?
  }

  /**
   A completion that overtook the worker survives whatever the worker then saves: the record stays
   Completed, is unclaimed, is deferred or not as the completion left it, and is due no later.
   */
  lemma CompletionSurvivesProvisioning(r: Record, m: Mutation, now: Time)
    requires r.claim.Provision? && r.status.Completed? && EndsProvisioning(m)
    ensures var r' := Mutate(m, r, now);
      && r'.status.Completed? && r'.claim.NoWork? && r'.deferDeletion == r.deferDeletion
      && r'.nextAttemptAt <= r.nextAttemptAt && r'.jobCompleted == r.jobCompleted
      && r'.recheckDemand == r.recheckDemand
  {
    match m
    case ReleaseClaim(kind) => assert Mutate(m, r, now) == Stamped(OnReleaseClaim(r, kind), now);
    case DeferRateLimitedWork(kind, message, at, max) =>
      assert Mutate(m, r, now) == Stamped(OnDeferRateLimitedWork(r, kind, message, at, max), now);
    case DeferProvisioningDemand(message, at) =>
      assert Mutate(m, r, now) == Stamped(OnDeferProvisioningDemand(r, message, at), now);
    case MarkProvisionFailed(message, at, max) =>
      assert Mutate(m, r, now) == Stamped(OnMarkProvisionFailed(r, message, at, max), now);
    case MarkProvisioned(id, runner, name) =>
      assert Mutate(m, r, now) == Stamped(OnMarkProvisioned(r, id, runner, name, now), now);
  }

  // Deleting

  function DeleteGranted(r: Record, maxAttempts: int, at: Time): Record {
    Mutate(GrantDelete(maxAttempts), r, at)
  }

  /** The record as a delete worker finds it. */
  lemma DeleteClaim(r: Record, maxAttempts: int, at: Time)
    requires AwaitsDeletion(r, maxAttempts, at)
    ensures DeleteGranted(r, maxAttempts, at)
         == r.(status := Deleting, deleteAttempts := r.deleteAttempts + 1, claim := Delete, nextAttemptAt := ZERO_TIME,
               updatedAt := at)
  {
  }

  /** The deletion failed: its attempt is spent, and it is repeated at the retry time or left to an operator. */
  lemma DeletionFailed(r: Record, maxAttempts: int, grantedAt: Time, message: Message, retryAt: Time, savedAt: Time)
    requires AwaitsDeletion(r, maxAttempts, grantedAt)
    ensures var last := r.deleteAttempts + 1 >= maxAttempts;
      Mutate(MarkDeleteFailed(message, retryAt, maxAttempts), DeleteGranted(r, maxAttempts, grantedAt), savedAt)
      == r.(deleteAttempts := r.deleteAttempts + 1, status := if last then Orphaned else Completed,
            throttleFailures := 0, lastError := message, nextAttemptAt := if last then ZERO_TIME else retryAt,
            updatedAt := savedAt)
  {
    DeleteClaim(r, maxAttempts, grantedAt);
    var claimed := r.(status := Deleting, deleteAttempts := r.deleteAttempts + 1, claim := Delete,
                      nextAttemptAt := ZERO_TIME, updatedAt := grantedAt);
    assert Mutate(MarkDeleteFailed(message, retryAt, maxAttempts), claimed, savedAt)
        == Stamped(OnMarkDeleteFailed(claimed, message, retryAt, maxAttempts), savedAt);
  }

  /** Deregistration was throttled: the attempt is unspent and the deletion waits for the announced time. */
  lemma DeletionThrottled(r: Record, maxAttempts: int, grantedAt: Time, message: Message, resetAt: Time, savedAt: Time)
    requires AwaitsDeletion(r, maxAttempts, grantedAt) && 0 <= r.deleteAttempts
    ensures var last := r.throttleFailures + 1 >= maxAttempts;
      Mutate(DeferRateLimitedWork(Delete, message, resetAt, maxAttempts),
             DeleteGranted(r, maxAttempts, grantedAt), savedAt)
      == r.(throttleFailures := r.throttleFailures + 1, status := if last then Orphaned else Completed,
            lastError := message, nextAttemptAt := if last then ZERO_TIME else resetAt, updatedAt := savedAt)
  {
    DeleteClaim(r, maxAttempts, grantedAt);
    var claimed := r.(status := Deleting, deleteAttempts := r.deleteAttempts + 1, claim := Delete,
                      nextAttemptAt := ZERO_TIME, updatedAt := grantedAt);
    assert Mutate(DeferRateLimitedWork(Delete, message, resetAt, maxAttempts), claimed, savedAt)
        == Stamped(OnDeferRateLimitedWork(claimed, Delete, message, resetAt, maxAttempts), savedAt);
  }

  lemma AcceptedClaim(r: Record, maxAttempts: int, grantedAt: Time, acceptedAt: Time)
    requires AwaitsDeletion(r, maxAttempts, grantedAt)
    ensures Mutate(AcceptDeletion(r.instanceID), DeleteGranted(r, maxAttempts, grantedAt), acceptedAt)
         == r.(status := Deleting, deleteAttempts := r.deleteAttempts + 1, claim := Delete, nextAttemptAt := ZERO_TIME,
               acceptedID := r.instanceID, updatedAt := acceptedAt)
  {
    DeleteClaim(r, maxAttempts, grantedAt);
    var claimed := r.(status := Deleting, deleteAttempts := r.deleteAttempts + 1, claim := Delete,
                      nextAttemptAt := ZERO_TIME, updatedAt := grantedAt);
    assert Mutate(AcceptDeletion(r.instanceID), claimed, acceptedAt)
        == OnAcceptDeletion(claimed, r.instanceID, acceptedAt);
  }

  /** An accepted deletion that is not confirmed yet costs no attempt, and its acceptance stays on record. */
  lemma ConfirmationDeferred(r: Record, maxAttempts: int, grantedAt: Time, acceptedAt: Time, message: Message,
                             retryAt: Time, savedAt: Time)
    requires AwaitsDeletion(r, maxAttempts, grantedAt) && 0 <= r.deleteAttempts
    ensures Mutate(DeferDeletionConfirmation(message, retryAt),
                   Mutate(AcceptDeletion(r.instanceID), DeleteGranted(r, maxAttempts, grantedAt), acceptedAt), savedAt)
         == r.(acceptedID := r.instanceID, lastError := message, nextAttemptAt := retryAt, updatedAt := savedAt)
  {
    DeleteClaim(r, maxAttempts, grantedAt);
    var accepted := r.(status := Deleting, deleteAttempts := r.deleteAttempts + 1, claim := Delete,
                       nextAttemptAt := ZERO_TIME, acceptedID := r.instanceID, updatedAt := acceptedAt);
    AcceptedClaim(r, maxAttempts, grantedAt, acceptedAt);
    assert Mutate(DeferDeletionConfirmation(message, retryAt), accepted, savedAt)
        == Stamped(OnDeferDeletionConfirmation(accepted, message, retryAt), savedAt);
  }

  /** Demand could not be rechecked: the deletion is repeated from the start at the retry time, at no cost. */
  lemma RecheckDeferred(r: Record, maxAttempts: int, grantedAt: Time, message: Message, retryAt: Time, savedAt: Time)
    requires AwaitsDeletion(r, maxAttempts, grantedAt) && 0 <= r.deleteAttempts
    ensures Mutate(DeferReassignmentDemand(message, retryAt), DeleteGranted(r, maxAttempts, grantedAt), savedAt)
         == r.(lastError := message, nextAttemptAt := retryAt, updatedAt := savedAt)
  {
    DeleteClaim(r, maxAttempts, grantedAt);
    var claimed := r.(status := Deleting, deleteAttempts := r.deleteAttempts + 1, claim := Delete,
                      nextAttemptAt := ZERO_TIME, updatedAt := grantedAt);
    assert Mutate(DeferReassignmentDemand(message, retryAt), claimed, savedAt)
        == Stamped(OnDeferReassignmentDemand(claimed, message, retryAt), savedAt);
  }

  /** A scheduled deletion is due at once and deferred no longer; a claim in progress is left alone. */
  lemma ScheduledIsDueAtOnce(r: Record, now: Time)
    requires !r.Terminal()
    ensures var r' := Mutate(ScheduleDeletion, r, now);
      if r.claim.NoWork?
      then r' == r.(status := Completed, deferDeletion := false, nextAttemptAt := ZERO_TIME, updatedAt := now)
      else r' == r.(updatedAt := now)
  {
    assert Mutate(ScheduleDeletion, r, now) == Stamped(OnScheduleDeletion(r), now);
  }

  // Outcomes that do not depend on the work

  /** Released work is due at once; an attempt that was interrupted is unspent, and a completion stays. */
  lemma ReleasedIsDueAtOnce(r: Record, kind: Work, now: Time, maxAttempts: int)
    requires LifecycleInv(false, r, maxAttempts) && !kind.NoWork? && r.claim == kind && !r.Terminal()
    ensures Mutate(ReleaseClaim(kind), r, now)
         == r.(claim := NoWork, nextAttemptAt := ZERO_TIME, updatedAt := now,
               attempts := if kind.Provision? then r.attempts - 1 else r.attempts,
               deleteAttempts := if kind.Delete? then r.deleteAttempts - 1 else r.deleteAttempts,
               status := if r.status.Provisioning? then Pending else Completed)
  {
    assert Mutate(ReleaseClaim(kind), r, now) == Stamped(OnReleaseClaim(r, kind), now);
  }

  /** An orphan keeps what it names, so that it can be cleaned up and counted until then. */
  lemma OrphanedKeepsResources(r: Record, message: Message, now: Time)
    requires !r.status.Deleted?
    ensures Mutate(MarkOrphaned(message), r, now)
         == r.(status := Orphaned, claim := NoWork, lastError := message, nextAttemptAt := ZERO_TIME, updatedAt := now)
  {
    assert Mutate(MarkOrphaned(message), r, now) == Stamped(OnMarkOrphaned(r, message), now);
  }

  /** An absent instance is released only from the orphan that holds that very instance. */
  lemma AbsentOrphanReleased(r: Record, instanceID: InstanceID, now: Time)
    ensures Mutate(ReleaseAbsentOrphan(instanceID), r, now) ==
      if r.status.Orphaned? && !instanceID.NoInstance? && r.instanceID == instanceID
      then r.(instanceID := NoInstance, claim := NoWork, updatedAt := now) else r.(updatedAt := now)
  {
    assert Mutate(ReleaseAbsentOrphan(instanceID), r, now) == Stamped(OnReleaseAbsentOrphan(r, instanceID), now);
  }

  /** A removed registration is forgotten, by an orphan too. */
  lemma RegistrationForgotten(r: Record, now: Time)
    requires !r.status.Deleted?
    ensures Mutate(ClearJIT, r, now) == r.(runnerID := 0, runnerOwned := false, updatedAt := now)
  {
    assert Mutate(ClearJIT, r, now) == Stamped(OnClearJIT(r), now);
  }

  /** A provision worker that finds an instance under its claim hands it over: the next due scan can delete it. */
  lemma CompletedIsHandedOver(r: Record, completed: Record, released: Record, scheduled: Record,
                              completedAt: Time, releasedAt: Time, scheduledAt: Time, maxAttempts: int)
    requires LifecycleInv(false, r, maxAttempts) && r.claim.Provision?
    requires completed == Mutate(MarkCompleted, r, completedAt)
    requires released == Mutate(ReleaseClaim(Provision), completed, releasedAt)
    requires scheduled == Mutate(ScheduleDeletion, released, scheduledAt)
    ensures scheduled == r.(status := Completed, claim := NoWork, attempts := r.attempts - 1, deferDeletion := false,
                            nextAttemptAt := ZERO_TIME, updatedAt := scheduledAt)
  {
    CompletedUnderClaim(r, completedAt);
    ReleasedWhenCompleted(completed, releasedAt);
    ScheduledIsDueAtOnce(released, scheduledAt);
  }

  lemma ReleasedWhenCompleted(r: Record, now: Time)
    requires r.claim.Provision? && r.status.Completed? && 0 < r.attempts && r.nextAttemptAt == ZERO_TIME
    ensures Mutate(ReleaseClaim(Provision), r, now)
         == r.(claim := NoWork, attempts := r.attempts - 1, updatedAt := now)
  {
    assert Mutate(ReleaseClaim(Provision), r, now) == Stamped(OnReleaseClaim(r, Provision), now);
  }

  lemma CompletedUnderClaim(r: Record, now: Time)
    requires !r.Terminal()
    ensures Mutate(MarkCompleted, r, now) == r.(status := Completed, nextAttemptAt := ZERO_TIME, updatedAt := now)
  {
    assert Mutate(MarkCompleted, r, now) == Stamped(OnMarkCompleted(r), now);
  }

  /** Acceptance is recorded only for the instance the record holds while it is being deleted. */
  lemma AcceptanceRecorded(r: Record, instanceID: InstanceID, now: Time)
    ensures Mutate(AcceptDeletion(instanceID), r, now) ==
      if !instanceID.NoInstance? && r.instanceID == instanceID && r.status.Deleting? && r.claim.Delete?
      then r.(acceptedID := instanceID, updatedAt := now) else r
  {
  }

  /** The first sighting of a provisioned runner is dated once, every sighting is, and absence is forgotten. */
  lemma SightingRecorded(r: Record, now: Time)
    requires r.status.Provisioned?
    ensures Mutate(RecordRunnerSeen, r, now)
         == r.(registeredAt := if r.registeredAt == ZERO_TIME then now else r.registeredAt, reconciledAt := now,
               missingSince := ZERO_TIME, missingChecks := 0, githubMissingSince := ZERO_TIME,
               githubMissingChecks := 0, updatedAt := now)
  {
    assert Mutate(RecordRunnerSeen, r, now) == Stamped(OnRecordRunnerSeen(r, now), now);
  }

  /** A check that goes well starts over: no absence, no failure, no error and no delay are left of earlier ones. */
  lemma CheckStartsOver(r: Record, now: Time)
    requires r.status.Provisioned?
    ensures Mutate(ClearRunnerMissing, r, now)
         == r.(reconciledAt := now, missingSince := ZERO_TIME, missingChecks := 0, githubMissingSince := ZERO_TIME,
               githubMissingChecks := 0, deleteAttempts := 0, reconcileFailures := 0, throttleFailures := 0,
               lastError := NoMessage, nextAttemptAt := ZERO_TIME, updatedAt := now)
  {
    assert Mutate(ClearRunnerMissing, r, now) == Stamped(OnClearRunnerMissing(r, now), now);
  }

  /** A cleanup without an instance is charged for before it begins, and given up when no attempt is left. */
  lemma CleanupCharged(r: Record, maxAttempts: int, now: Time)
    requires !r.Terminal() && r.claim.NoWork? && r.nextAttemptAt <= now
    ensures Mutate(BeginCleanupAttempt(maxAttempts), r, now) ==
      if r.deleteAttempts < maxAttempts then r.(deleteAttempts := r.deleteAttempts + 1, updatedAt := now)
      else r.(status := Orphaned, lastError := CleanupExhausted, nextAttemptAt := ZERO_TIME, updatedAt := now)
  {
  }

  // Starting over

  /** A job queued anew: of its former life only its epoch and the time it was first recorded remain. */
  function QueuedAnew(r: Record, now: Time): Record {
    Record(
      job := r.job, provider := r.provider, runnerName := "", runnerID := 0, runnerOwned := false,
      instanceID := NoInstance, jobCompleted := false, recheckDemand := false, acceptedID := NoInstance, dropletID := 0,
      status := Pending, claim := NoWork, deferDeletion := false, attempts := 0, epoch := r.epoch + 1,
      deleteAttempts := 0, reconcileFailures := 0, throttleFailures := 0, lastError := NoMessage,
      nextAttemptAt := ZERO_TIME, missingSince := ZERO_TIME, missingChecks := 0, githubMissingSince := ZERO_TIME,
      githubMissingChecks := 0, createdAt := r.createdAt, provisionedAt := ZERO_TIME, registeredAt := ZERO_TIME,
      reconciledAt := ZERO_TIME, updatedAt := now)
  }

  /** A job whose cleaned-up runner served another one is queued anew, and otherwise its record is deleted. */
  lemma FinishedOrQueuedAnew(r: Record, queued: bool, now: Time, maxAttempts: int)
    requires LifecycleInv(false, r, maxAttempts) && !r.Terminal()
    ensures Mutate(FinishDeletedRunner(queued), r, now) ==
      if queued && r.recheckDemand then QueuedAnew(r, now)
      else r.(status := Deleted, claim := NoWork, recheckDemand := false, deferDeletion := false,
              lastError := NoMessage, nextAttemptAt := ZERO_TIME, updatedAt := now)
  {
    assert Mutate(FinishDeletedRunner(queued), r, now) == Stamped(OnFinishDeletedRunner(r, queued), now);
  }

  /**
   A runner that has disappeared is replaced: its record names neither runner nor instance, has observed
   nothing, and is due at once, in a new epoch; with its attempts spent it has failed instead.
   */
  lemma RequeuedAtOnce(r: Record, maxAttempts: int, now: Time)
    requires LifecycleInv(false, r, maxAttempts) && r.status.Provisioned?
    ensures var r' := Mutate(RequeueMissingRunner(maxAttempts), r, now);
      && r'.instanceID.NoInstance? && r'.acceptedID.NoInstance? && r'.runnerID == 0 && !r'.runnerOwned
      && r'.missingChecks == 0 && r'.githubMissingChecks == 0 && r'.provisionedAt == r'.registeredAt == ZERO_TIME
      && r'.reconciledAt == ZERO_TIME && r'.epoch == r.epoch + 1 && r'.claim.NoWork? && r'.attempts == r.attempts
      && (if r.attempts < maxAttempts then r'.status.Pending? && r'.nextAttemptAt == ZERO_TIME
          else r'.status.Failed? && r'.nextAttemptAt == r.nextAttemptAt)
  {
    assert Mutate(RequeueMissingRunner(maxAttempts), r, now) == Stamped(OnRequeueMissingRunner(r, maxAttempts), now);
  }

  // Reopening

  /** Opening the store again over a claim leaves the work due at once, unless a completion had overtaken it. */
  lemma InterruptedIsDueAtOnce(r: Record, now: Time, retention: nat, maxAttempts: int)
    requires LifecycleInv(false, r, maxAttempts) && !r.claim.NoWork? && !r.Terminal()
    ensures RecoverRecord(r, now, retention).Keep?
    ensures var r' := RecoverRecord(r, now, retention).record;
      && r'.claim.NoWork? && r'.nextAttemptAt == ZERO_TIME
      && (r.status.Provisioning? ==> r'.status.Pending?) && (!r.status.Provisioning? ==> r'.status.Completed?)
      && r'.deferDeletion == r.deferDeletion && r'.instanceID == r.instanceID && r'.runnerID == r.runnerID
  {
  }

  /** Records of older versions are brought up to date: provider, instance id and provisioning time are filled in. */
  lemma OldFormatsAreBroughtUp(r: Record, now: Time, retention: nat)
    requires RecoverRecord(r, now, retention).Keep?
    ensures var r' := RecoverRecord(r, now, retention).record;
      && r'.provider == (if r.provider.Unbound? then DigitalOcean else r.provider)
      && (if r.instanceID.NoInstance? && r.dropletID != 0
          then r'.instanceID == Instance(FormatInt(r.dropletID)) && r'.dropletID == 0
          else r'.instanceID == r.instanceID && r'.dropletID == r.dropletID)
      && r'.provisionedAt ==
         if !(r.status.Provisioned? && r.provisionedAt == ZERO_TIME) then r.provisionedAt
         else if r.updatedAt == ZERO_TIME then r.createdAt else r.updatedAt
  {
  }
}
