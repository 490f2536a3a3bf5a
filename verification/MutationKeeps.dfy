/**
 Every disciplined mutation keeps the record invariant: first mutation by mutation, then for
 whichever is applied.
 */
module MutationKeeps {
  import opened Lifecycle
  import opened Invariants

  lemma ReleaseClaimKeeps(marker: bool, r: Record, kind: Work, now: Time, maxAttempts: int)
    requires LifecycleInv(marker, r, maxAttempts)
    ensures LifecycleInv(marker, OnReleaseClaim(r, kind), maxAttempts)
  {
    if r.Terminal() || r.claim != kind {} else if kind.Provision? {} else {}
  }

  lemma DeferRateLimitedWorkKeeps(
    marker: bool, r: Record, kind: Work, message: Message, at: Time, max: int, now: Time, maxAttempts: int)
    requires LifecycleInv(marker, r, maxAttempts) && !kind.NoWork?
    ensures LifecycleInv(marker, OnDeferRateLimitedWork(r, kind, message, at, max), maxAttempts)
  {
    if r.Terminal() || r.claim != kind {} else {}
  }

  lemma DeferProvisioningDemandKeeps(
    marker: bool, r: Record, message: Message, at: Time, now: Time, maxAttempts: int)
    requires LifecycleInv(marker, r, maxAttempts)
    ensures LifecycleInv(marker, OnDeferProvisioningDemand(r, message, at), maxAttempts)
  {
    if r.Terminal() || !r.claim.Provision? {} else {}
  }

  lemma ClearJITKeeps(marker: bool, r: Record, now: Time, maxAttempts: int)
    requires LifecycleInv(marker, r, maxAttempts) && !marker
    ensures LifecycleInv(marker, OnClearJIT(r), maxAttempts)
  {
  }

  lemma MarkProvisionedKeeps(
    marker: bool, r: Record, instanceID: InstanceID, name: string, now: Time, maxAttempts: int)
    requires LifecycleInv(marker, r, maxAttempts) && r.claim.Provision? && !instanceID.NoInstance? && r.runnerOwned
    ensures LifecycleInv(marker, OnMarkProvisioned(r, instanceID, r.runnerID, name, now), maxAttempts)
  {
  }

  lemma MarkProvisionFailedKeeps(
    marker: bool, r: Record, message: Message, at: Time, max: int, now: Time, maxAttempts: int)
    requires LifecycleInv(marker, r, maxAttempts) && r.claim.Provision? && max == maxAttempts
    ensures LifecycleInv(marker, OnMarkProvisionFailed(r, message, at, max), maxAttempts)
  {
    if r.Terminal() {} else {}
  }

  lemma MarkCompletedKeeps(marker: bool, r: Record, now: Time, maxAttempts: int)
    requires LifecycleInv(marker, r, maxAttempts)
    ensures LifecycleInv(marker, OnMarkCompleted(r), maxAttempts)
  {
    if r.Terminal() {} else {}
  }

  lemma ScheduleDeletionKeeps(marker: bool, r: Record, now: Time, maxAttempts: int)
    requires LifecycleInv(marker, r, maxAttempts)
    ensures LifecycleInv(marker, OnScheduleDeletion(r), maxAttempts)
  {
    if r.Terminal() || !r.claim.NoWork? {} else {}
  }

  lemma DeferDeletionConfirmationKeeps(
    marker: bool, r: Record, message: Message, at: Time, now: Time, maxAttempts: int)
    requires LifecycleInv(marker, r, maxAttempts)
    ensures LifecycleInv(marker, OnDeferDeletionConfirmation(r, message, at), maxAttempts)
  {
    if r.status.Deleting? {} else {}
  }

  lemma MarkDeletedKeeps(marker: bool, r: Record, now: Time, maxAttempts: int)
    requires LifecycleInv(marker, r, maxAttempts)
    ensures LifecycleInv(marker, OnMarkDeleted(r), maxAttempts)
  {
  }

  lemma FinishDeletedRunnerKeeps(marker: bool, r: Record, queued: bool, now: Time, maxAttempts: int)
    requires LifecycleInv(marker, r, maxAttempts)
    ensures LifecycleInv(marker, OnFinishDeletedRunner(r, queued), maxAttempts)
  {
    if r.Terminal() {} else if Restores(r, queued) {} else {}
  }

  lemma DeferReassignmentDemandKeeps(
    marker: bool, r: Record, message: Message, at: Time, now: Time, maxAttempts: int)
    requires LifecycleInv(marker, r, maxAttempts)
    ensures LifecycleInv(marker, OnDeferReassignmentDemand(r, message, at), maxAttempts)
  {
    if r.claim.Delete? {} else {}
  }

  lemma MarkDeleteFailedKeeps(
    marker: bool, r: Record, message: Message, at: Time, max: int, now: Time, maxAttempts: int)
    requires LifecycleInv(marker, r, maxAttempts) && !r.claim.Provision?
    ensures LifecycleInv(marker, OnMarkDeleteFailed(r, message, at, max), maxAttempts)
  {
    if r.Terminal() {} else {}
  }

  lemma MarkOrphanedKeeps(marker: bool, r: Record, message: Message, now: Time, maxAttempts: int)
    requires LifecycleInv(marker, r, maxAttempts)
    ensures LifecycleInv(marker, OnMarkOrphaned(r, message), maxAttempts)
  {
  }

  lemma ReleaseAbsentOrphanKeeps(marker: bool, r: Record, instanceID: InstanceID, now: Time, maxAttempts: int)
    requires LifecycleInv(marker, r, maxAttempts)
    ensures LifecycleInv(marker, OnReleaseAbsentOrphan(r, instanceID), maxAttempts)
  {
    if r.status.Orphaned? {} else {}
  }

  lemma ClearProviderMissingKeeps(marker: bool, r: Record, now: Time, maxAttempts: int)
    requires LifecycleInv(marker, r, maxAttempts)
    ensures LifecycleInv(marker, ResetProviderMissing(r), maxAttempts)
  {
  }

  lemma ClearGitHubMissingKeeps(marker: bool, r: Record, now: Time, maxAttempts: int)
    requires LifecycleInv(marker, r, maxAttempts)
    ensures LifecycleInv(marker, ResetGitHubMissing(r), maxAttempts)
  {
  }

  lemma RecordRunnerSeenKeeps(marker: bool, r: Record, now: Time, maxAttempts: int)
    requires LifecycleInv(marker, r, maxAttempts)
    ensures LifecycleInv(marker, OnRecordRunnerSeen(r, now), maxAttempts)
  {
    if r.status.Provisioned? {} else {}
  }

  lemma ClearRunnerMissingKeeps(marker: bool, r: Record, now: Time, maxAttempts: int)
    requires LifecycleInv(marker, r, maxAttempts)
    ensures LifecycleInv(marker, OnClearRunnerMissing(r, now), maxAttempts)
  {
    if r.status.Provisioned? {} else {}
  }

  lemma DeferReconciliationKeeps(
    marker: bool, r: Record, message: Message, at: Time, max: int, failure: bool, throttle: bool, now: Time,
      maxAttempts: int)
    requires LifecycleInv(marker, r, maxAttempts) && !r.claim.Provision?
    ensures LifecycleInv(marker, OnDeferReconciliation(r, message, at, max, failure, throttle), maxAttempts)
  {
    if r.Terminal() {} else {}
  }

  lemma DeferRateLimitedCleanupKeeps(
    marker: bool, r: Record, message: Message, at: Time, max: int, throttle: bool, now: Time, maxAttempts: int)
    requires LifecycleInv(marker, r, maxAttempts) && (r.Terminal() || r.claim.NoWork?)
    ensures LifecycleInv(marker, OnDeferRateLimitedCleanup(r, message, at, max, throttle), maxAttempts)
  {
    if r.Terminal() {} else {}
  }

  lemma DeferOrphanCleanupKeeps(marker: bool, r: Record, message: Message, at: Time, now: Time, maxAttempts: int)
    requires LifecycleInv(marker, r, maxAttempts)
    ensures LifecycleInv(marker, OnDeferOrphanCleanup(r, message, at), maxAttempts)
  {
    if r.status.Orphaned? {} else {}
  }

  lemma RequeueMissingRunnerKeeps(marker: bool, r: Record, max: int, now: Time, maxAttempts: int)
    requires LifecycleInv(marker, r, maxAttempts)
    ensures LifecycleInv(marker, OnRequeueMissingRunner(r, max), maxAttempts)
  {
    if r.status.Provisioned? {} else {}
  }

  lemma AcceptDeletionKeeps(marker: bool, r: Record, instanceID: InstanceID, now: Time, maxAttempts: int)
    requires LifecycleInv(marker, r, maxAttempts)
    ensures LifecycleInv(marker, OnAcceptDeletion(r, instanceID, now), maxAttempts)
  {
    if AcceptsDeletion(r, instanceID) {} else {}
  }

  lemma BeginCleanupAttemptKeeps(marker: bool, r: Record, max: int, now: Time, maxAttempts: int)
    requires LifecycleInv(marker, r, maxAttempts) && max == maxAttempts
    ensures LifecycleInv(marker, OnBeginCleanupAttempt(r, max, now), maxAttempts)
  {
    if CleanupReady(r, now) {} else {}
  }

  lemma ObserveRunnerMissingKeeps(marker: bool, r: Record, now: Time, maxAttempts: int)
    requires LifecycleInv(marker, r, maxAttempts) && now != ZERO_TIME
    ensures LifecycleInv(marker, OnObserveRunnerMissing(r, now), maxAttempts)
  {
    if !r.status.Provisioned? {} else if r.missingSince == ZERO_TIME {} else {}
  }

  lemma ObserveGitHubRunnerMissingKeeps(marker: bool, r: Record, now: Time, maxAttempts: int)
    requires LifecycleInv(marker, r, maxAttempts) && now != ZERO_TIME
    ensures LifecycleInv(marker, OnObserveGitHubRunnerMissing(r, now), maxAttempts)
  {
    if !r.status.Provisioned? {} else if r.githubMissingSince == ZERO_TIME {} else {}
  }

  lemma ExhaustProvisioningKeeps(marker: bool, r: Record, max: int, now: Time, maxAttempts: int)
    requires LifecycleInv(marker, r, maxAttempts)
    ensures LifecycleInv(marker, OnExhaustProvisioning(r, max, now), maxAttempts)
  {
    if ProvisioningExhausted(r, max) && Due(r, now) {} else {}
  }

  lemma ExhaustDeletionKeeps(marker: bool, r: Record, max: int, now: Time, maxAttempts: int)
    requires LifecycleInv(marker, r, maxAttempts)
    ensures LifecycleInv(marker, OnExhaustDeletion(r, max, now), maxAttempts)
  {
    if DeletionExhausted(r, max) && Due(r, now) {} else {}
  }

  lemma GrantProvisionKeeps(marker: bool, r: Record, max: int, now: Time, maxAttempts: int)
    requires LifecycleInv(marker, r, maxAttempts) && max == maxAttempts
    ensures LifecycleInv(marker, OnGrantProvision(r, max, now), maxAttempts)
  {
    if ProvisionEligible(r, max) && Due(r, now) {} else {}
  }

  lemma GrantDeleteKeeps(marker: bool, r: Record, max: int, now: Time, maxAttempts: int)
    requires LifecycleInv(marker, r, maxAttempts) && max == maxAttempts
    ensures LifecycleInv(marker, OnGrantDelete(r, max, now), maxAttempts)
  {
    if DeleteEligible(r, max) && Due(r, now) {} else {}
  }

  /** The mutations applied through the generic update. */
  lemma UpdateKeeps(marker: bool, m: Mutation, r: Record, now: Time, maxAttempts: int)
    requires LifecycleInv(marker, r, maxAttempts) && Stamps(m)
    requires Disciplined(marker, r, m, now, maxAttempts)
    ensures LifecycleInv(marker, Unstamped(m, r, now), maxAttempts)
  {
    match m
    case ReleaseClaim(kind) => ReleaseClaimKeeps(marker, r, kind, now, maxAttempts);
    case DeferRateLimitedWork(kind, message, at, max) =>
      DeferRateLimitedWorkKeeps(marker, r, kind, message, at, max, now, maxAttempts);
    case DeferProvisioningDemand(message, at) =>
      DeferProvisioningDemandKeeps(marker, r, message, at, now, maxAttempts);
    case ClearJIT => ClearJITKeeps(marker, r, now, maxAttempts);
    case MarkProvisioned(instanceID, _, name) => MarkProvisionedKeeps(marker, r, instanceID, name, now, maxAttempts);
    case MarkProvisionFailed(message, at, max) =>
      MarkProvisionFailedKeeps(marker, r, message, at, max, now, maxAttempts);
    case MarkCompleted => MarkCompletedKeeps(marker, r, now, maxAttempts);
    case ScheduleDeletion => ScheduleDeletionKeeps(marker, r, now, maxAttempts);
    case DeferDeletionConfirmation(message, at) =>
      DeferDeletionConfirmationKeeps(marker, r, message, at, now, maxAttempts);
    case MarkDeleted => MarkDeletedKeeps(marker, r, now, maxAttempts);
    case FinishDeletedRunner(queued) => FinishDeletedRunnerKeeps(marker, r, queued, now, maxAttempts);
    case DeferReassignmentDemand(message, at) =>
      DeferReassignmentDemandKeeps(marker, r, message, at, now, maxAttempts);
    case MarkDeleteFailed(message, at, max) => MarkDeleteFailedKeeps(marker, r, message, at, max, now, maxAttempts);
    case MarkOrphaned(message) => MarkOrphanedKeeps(marker, r, message, now, maxAttempts);
    case ReleaseAbsentOrphan(instanceID) => ReleaseAbsentOrphanKeeps(marker, r, instanceID, now, maxAttempts);
    case ClearProviderMissing => ClearProviderMissingKeeps(marker, r, now, maxAttempts);
    case ClearGitHubMissing => ClearGitHubMissingKeeps(marker, r, now, maxAttempts);
    case RecordRunnerSeen => RecordRunnerSeenKeeps(marker, r, now, maxAttempts);
    case ClearRunnerMissing => ClearRunnerMissingKeeps(marker, r, now, maxAttempts);
    case DeferReconciliation(message, at, max, failure, throttle) =>
      DeferReconciliationKeeps(marker, r, message, at, max, failure, throttle, now, maxAttempts);
    case DeferRateLimitedCleanup(message, at, max, throttle) =>
      DeferRateLimitedCleanupKeeps(marker, r, message, at, max, throttle, now, maxAttempts);
    case DeferOrphanCleanup(message, at) => DeferOrphanCleanupKeeps(marker, r, message, at, now, maxAttempts);
    case RequeueMissingRunner(max) => RequeueMissingRunnerKeeps(marker, r, max, now, maxAttempts);
  }

  /** The mutations with a commit condition of their own. */
  lemma ConditionalKeeps(marker: bool, m: Mutation, r: Record, now: Time, maxAttempts: int)
    requires LifecycleInv(marker, r, maxAttempts) && !Stamps(m)
    requires Disciplined(marker, r, m, now, maxAttempts)
    ensures LifecycleInv(marker, Unstamped(m, r, now), maxAttempts)
  {
    match m
    case AcceptDeletion(instanceID) => AcceptDeletionKeeps(marker, r, instanceID, now, maxAttempts);
    case BeginCleanupAttempt(max) => BeginCleanupAttemptKeeps(marker, r, max, now, maxAttempts);
    case ObserveRunnerMissing => ObserveRunnerMissingKeeps(marker, r, now, maxAttempts);
    case ObserveGitHubRunnerMissing => ObserveGitHubRunnerMissingKeeps(marker, r, now, maxAttempts);
    case ExhaustProvisioning(max) => ExhaustProvisioningKeeps(marker, r, max, now, maxAttempts);
    case ExhaustDeletion(max) => ExhaustDeletionKeeps(marker, r, max, now, maxAttempts);
    case GrantProvision(max) => GrantProvisionKeeps(marker, r, max, now, maxAttempts);
    case GrantDelete(max) => GrantDeleteKeeps(marker, r, max, now, maxAttempts);
  }

  lemma StampKeeps(marker: bool, r: Record, now: Time, maxAttempts: int)
    requires LifecycleInv(marker, r, maxAttempts)
    ensures LifecycleInv(marker, Stamped(r, now), maxAttempts)
  {
  }

  lemma MutationKeepsLifecycle(marker: bool, m: Mutation, r: Record, now: Time, maxAttempts: int)
    requires LifecycleInv(marker, r, maxAttempts)
    requires Disciplined(marker, r, m, now, maxAttempts)
    ensures LifecycleInv(marker, Mutate(m, r, now), maxAttempts)
  {
    if Stamps(m) {
      UpdateKeeps(marker, m, r, now, maxAttempts);
      StampKeeps(marker, Unstamped(m, r, now), now, maxAttempts);
    } else {
      ConditionalKeeps(marker, m, r, now, maxAttempts);
    }
  }
}
