/**
 What every record of the store satisfies in every run, and the discipline the
 controller's calls follow. Each clause of RecordInv is a promise about the lifecycle
 that no single mutation states by itself.
 */
module Invariants {
  import opened Names
  import opened Lifecycle

  datatype Limits = Limits(maxAttempts: int, maxLive: nat)

  /** A claim is in flight exactly when the status says so, unless a completion overtook it. */
  predicate ClaimMatchesStatus(r: Record) {
    && (r.status.Provisioning? ==> r.claim.Provision?)
    && (r.status.Deleting? ==> r.claim.Delete?)
    && (r.status.Pending? || r.status.Provisioned? || r.status.Failed? || r.status.Deleted? ==> r.claim.NoWork?)
    && (r.status.Orphaned? ==> !r.claim.Provision?)
  }

  /** An instance is held only after provisioning succeeded; nothing is left of the formats of older versions. */
  predicate InstanceMatchesPhase(r: Record) {
    && r.dropletID == 0 && !r.provider.Unbound?
    && (r.status.Pending? || r.status.Provisioning? || r.status.Failed? ==> r.instanceID.NoInstance?)
    && (r.claim.Provision? ==> r.instanceID.NoInstance?)
    && (r.status.Provisioned? ==> !r.instanceID.NoInstance?)
    && (r.claim.Delete? && !r.status.Orphaned? ==> !r.instanceID.NoInstance?)
  }

  /** Retry counters stay within the budget, and a held claim has paid for itself. */
  predicate BudgetsHold(r: Record, maxAttempts: int) {
    && 0 <= r.attempts <= maxAttempts && 0 <= r.deleteAttempts <= maxAttempts
    && (r.claim.Provision? ==> 1 <= r.attempts)
    && (r.claim.Delete? ==> 1 <= r.deleteAttempts)
  }

  /** Authoritative completion and a pending demand recheck exclude each other. */
  predicate DemandConsistent(r: Record) { !(r.jobCompleted && r.recheckDemand) }

  /** An accepted deletion is bound to the instance the record holds now. */
  predicate AcceptanceBound(r: Record) {
    !r.instanceID.NoInstance? ==> r.acceptedID.NoInstance? || r.acceptedID == r.instanceID
  }

  predicate WindowConsistent(since: Time, checks: int) {
    0 <= checks && (since == ZERO_TIME <==> checks == 0)
  }

  /** Absence counters describe the current instance only. */
  predicate DebounceConsistent(r: Record) {
    && WindowConsistent(r.missingSince, r.missingChecks)
    && WindowConsistent(r.githubMissingSince, r.githubMissingChecks)
    && (r.status.Pending? || r.status.Provisioning? || r.status.Failed? || r.claim.Provision?
        ==> r.missingChecks == 0 && r.githubMissingChecks == 0)
  }

  /** Completion markers own nothing: they are never claimed, counted or indexed. */
  predicate MarkerInert(r: Record) {
    && !r.runnerOwned && r.instanceID.NoInstance? && r.claim.NoWork? && !r.recheckDemand
    && (r.status.Completed? || r.status.Deleted? || r.status.Orphaned?)
  }

  /** What holds of a record whatever its key spells; marker says whether it is a completion marker. */
  predicate LifecycleInv(marker: bool, r: Record, maxAttempts: int) {
    && ClaimMatchesStatus(r)
    && InstanceMatchesPhase(r)
    && BudgetsHold(r, maxAttempts)
    && DemandConsistent(r)
    && AcceptanceBound(r)
    && DebounceConsistent(r)
    && 0 <= r.epoch
    && (if marker then MarkerInert(r) else r.runnerOwned <==> r.runnerID != 0)
  }

  /** The key spells the job of the record, or the runner a marker stands for. */
  predicate KeyBound(key: string, r: Record) {
    && r.job.key == key && '/' !in r.job.repository
    && key == if IsMarkerKey(key) then MarkerKey(r.job.owner, r.job.repository, r.runnerID)
              else JobKey(r.job.owner, r.job.repository, r.job.jobID)
  }

  predicate RecordInv(key: string, r: Record, maxAttempts: int) {
    KeyBound(key, r) && LifecycleInv(IsMarkerKey(key), r, maxAttempts)
  }

  // The discipline of the callers

  /** The fields of a webhook event: everything the lifecycle owns is still unset. */
  predicate FreshEvent(r: Record) {
    && !r.runnerOwned && r.instanceID.NoInstance? && !r.jobCompleted && !r.recheckDemand && r.acceptedID.NoInstance?
    && r.dropletID == 0 && !r.provider.Unbound? && r.claim.NoWork? && !r.deferDeletion && r.lastError.NoMessage?
    && r.attempts == 0 && r.epoch == 0 && r.deleteAttempts == 0
    && r.reconcileFailures == 0 && r.throttleFailures == 0
    && r.missingSince == ZERO_TIME && r.missingChecks == 0
    && r.githubMissingSince == ZERO_TIME && r.githubMissingChecks == 0
    && r.provisionedAt == ZERO_TIME && r.registeredAt == ZERO_TIME && r.reconciledAt == ZERO_TIME
    && '/' !in r.job.repository && !IsMarkerKey(r.job.key)
    && r.job.key == JobKey(r.job.owner, r.job.repository, r.job.jobID)
  }

  /** What the controller guarantees about a record when it commits a mutation to it. */
  predicate Disciplined(marker: bool, r: Record, m: Mutation, now: Time, maxAttempts: int) {
    match m
    case MarkProvisioned(instanceID, runnerID, _) =>
      r.claim.Provision? && !instanceID.NoInstance? && runnerID != 0 && r.runnerOwned && r.runnerID == runnerID
    case MarkProvisionFailed(_, _, max) => r.claim.Provision? && max == maxAttempts
    case MarkDeleteFailed(_, _, _) => !r.claim.Provision?
    case DeferReconciliation(_, _, _, _, _) => !r.claim.Provision?
    case DeferRateLimitedCleanup(_, _, _, _) => r.Terminal() || r.claim.NoWork?
    case BeginCleanupAttempt(max) => max == maxAttempts
    case ClearJIT => !marker
    case DeferRateLimitedWork(kind, _, _, _) => !kind.NoWork?
    case ObserveRunnerMissing => now != ZERO_TIME
    case ObserveGitHubRunnerMissing => now != ZERO_TIME
    case GrantProvision(max) => max == maxAttempts
    case GrantDelete(max) => max == maxAttempts
    case _ => true
  }

  // How one disciplined mutation may change a record

  /** The fields a key is spelled from. */
  predicate SameJob(r: Record, r': Record) {
    r'.job == r.job
  }

  /** Provisioning of this epoch is over: no worker will attach an instance or a runner to the record. */
  predicate Settled(r: Record) {
    !r.claim.Provision? && !r.status.Pending? && !r.status.Provisioning?
  }

  /** A slot of the fleet is in use: an instance is recorded, or one may be under creation. */
  predicate HoldsSlot(r: Record) {
    !r.status.Deleted? && (!r.instanceID.NoInstance? || r.claim.Provision?)
  }

  /** What a record looks like when a replacement may be provisioned for it. */
  predicate Replaceable(r: Record) {
    && r.instanceID.NoInstance? && r.acceptedID.NoInstance? && r.runnerID == 0 && !r.runnerOwned
    && r.claim.NoWork? && (r.status.Pending? || r.status.Failed?)
  }

  predicate Replaces(m: Mutation) { m.FinishDeletedRunner? || m.RequeueMissingRunner? }

  /** The mutations that may end a claim. */
  predicate Releases(m: Mutation) {
    || m.ReleaseClaim? || m.DeferRateLimitedWork? || m.DeferProvisioningDemand? || m.MarkProvisioned?
    || m.MarkProvisionFailed? || m.DeferDeletionConfirmation? || m.MarkDeleted? || m.FinishDeletedRunner?
    || m.DeferReassignmentDemand? || m.MarkDeleteFailed? || m.MarkOrphaned? || m.ReleaseAbsentOrphan?
  }

  predicate Grants(m: Mutation) { m.GrantProvision? || m.GrantDelete? }

  predicate RunnerKept(r: Record, r': Record) {
    (r'.runnerID == r.runnerID && r'.runnerOwned == r.runnerOwned) || (r'.runnerID == 0 && !r'.runnerOwned)
  }

  // Absence observations come from two sources that are debounced independently

  datatype Source = Provider | GitHub

  function Since(r: Record, source: Source): Time {
    if source.Provider? then r.missingSince else r.githubMissingSince
  }

  function Checks(r: Record, source: Source): int {
    if source.Provider? then r.missingChecks else r.githubMissingChecks
  }

  predicate Observes(m: Mutation, r: Record, source: Source) {
    r.status.Provisioned? && (if source.Provider? then m.ObserveRunnerMissing? else m.ObserveGitHubRunnerMissing?)
  }

  predicate Resets(m: Mutation, r: Record, source: Source) {
    match m
    case ClearProviderMissing => source.Provider?
    case ClearGitHubMissing => source.GitHub?
    case MarkProvisioned(_, _, _) => source.Provider? && !r.Terminal()
    case RecordRunnerSeen => r.status.Provisioned?
    case ClearRunnerMissing => r.status.Provisioned?
    case RequeueMissingRunner(_) => r.status.Provisioned?
    case FinishDeletedRunner(queued) => Restores(r, queued)
    case _ => false
  }

  predicate WindowEvolves(m: Mutation, r: Record, r': Record, source: Source, now: Time) {
    if Observes(m, r, source) then
      && Checks(r', source) == Checks(r, source) + 1
      && Since(r', source) == if Since(r, source) == ZERO_TIME then now else Since(r, source)
    else if Resets(m, r, source) then Checks(r', source) == 0 && Since(r', source) == ZERO_TIME
    else Checks(r', source) == Checks(r, source) && Since(r', source) == Since(r, source)
  }

  /** Within an epoch a runner or an instance is only ever dropped, unless provisioning has just attached it. */
  predicate StaysInEpoch(m: Mutation, r: Record, r': Record) {
    && RunnerKept(r, r')
    && (m.MarkProvisioned? || r'.instanceID == r.instanceID || r'.instanceID.NoInstance?)
    && (m.MarkProvisioned? || r'.acceptedID == r.acceptedID
         || (m.AcceptDeletion? && r'.acceptedID == r.instanceID != NoInstance))
    && (Settled(r) ==> Settled(r'))
  }

  /** Only a pending record is claimed for provisioning, and only one with an instance for deletion. */
  predicate GrantFits(r: Record, claim: Work) {
    (claim.Provision? ==> r.status.Pending?) && (claim.Delete? ==> !r.instanceID.NoInstance?)
  }

  predicate ClaimMoves(m: Mutation, r: Record, r': Record) {
    || r'.claim == r.claim
    || (Releases(m) && r'.claim.NoWork?)
    || (Grants(m) && r.claim.NoWork? && GrantFits(r, r'.claim))
  }

  predicate Evolves(marker: bool, m: Mutation, r: Record, r': Record, now: Time) {
    && SameJob(r, r') && r'.provider == r.provider
    && r'.jobCompleted == r.jobCompleted && (r'.recheckDemand ==> r.recheckDemand)
    && (r.status.Deleted? ==> r'.status.Deleted?)
    && (marker ==> r'.runnerID == r.runnerID)
    && (HoldsSlot(r') ==> HoldsSlot(r) || m.GrantProvision?)
    && ClaimMoves(m, r, r')
    && (if r'.epoch == r.epoch then StaysInEpoch(m, r, r')
        else r'.epoch == r.epoch + 1 && Replaceable(r') && Replaces(m))
    && WindowEvolves(m, r, r', Provider, now) && WindowEvolves(m, r, r', GitHub, now)
  }

  predicate Sound(marker: bool, m: Mutation, r: Record, r': Record, now: Time, maxAttempts: int) {
    LifecycleInv(marker, r', maxAttempts) && Evolves(marker, m, r, r', now)
  }

  predicate WindowsKept(r: Record, r': Record) {
    && r'.missingSince == r.missingSince && r'.missingChecks == r.missingChecks
    && r'.githubMissingSince == r.githubMissingSince && r'.githubMissingChecks == r.githubMissingChecks
  }

  /** How a record may change in any step that keeps it: by mutation, completion or recovery. */
  predicate Follows(marker: bool, r: Record, r': Record) {
    && SameJob(r, r')
    && r'.provider == r.provider
    && (r.jobCompleted ==> r'.jobCompleted)
    && (r.status.Deleted? ==> r'.status.Deleted?)
    && (marker ==> r'.runnerID == r.runnerID)
    && (r'.claim == r.claim || r'.claim.NoWork? || GrantFits(r, r'.claim))
    && (r'.epoch == r.epoch || (r'.epoch == r.epoch + 1 && Replaceable(r')))
    && (r'.epoch == r.epoch && Settled(r) ==>
         && Settled(r') && RunnerKept(r, r')
         && (r'.instanceID == r.instanceID || r'.instanceID.NoInstance?)
         && (!r.acceptedID.NoInstance? ==> r'.acceptedID == r.acceptedID))
  }

  /** A record that owns a runner keeps owning the one it had; nothing else is promoted to an owner. */
  predicate OwnershipKept(r: Record, r': Record) {
    && (r'.runnerID == 0 || r'.runnerID == r.runnerID)
    && (r'.runnerOwned && !r'.status.Deleted? ==> r.runnerOwned && !r.status.Deleted?)
  }
}
