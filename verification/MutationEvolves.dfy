/**
 Every disciplined mutation changes a record only in the ways Evolves allows: first mutation by
 mutation, then for whichever is applied.
 */
module MutationEvolves {
  import opened Lifecycle
  import opened Invariants

  lemma ReleaseClaimEvolves(marker: bool, r: Record, kind: Work, now: Time, maxAttempts: int)
    requires LifecycleInv(marker, r, maxAttempts)
    ensures Evolves(marker, ReleaseClaim(kind), r, OnReleaseClaim(r, kind), now)
  {
    if r.Terminal() || r.claim != kind {} else if kind.Provision? {} else {}
  }

  lemma DeferRateLimitedWorkEvolves(
    marker: bool, r: Record, kind: Work, message: Message, at: Time, max: int, now: Time, maxAttempts: int)
    requires LifecycleInv(marker, r, maxAttempts) && !kind.NoWork?
    ensures Evolves(marker, DeferRateLimitedWork(kind, message, at, max), r,
                    OnDeferRateLimitedWork(r, kind, message, at, max), now)
  {
    if r.Terminal() || r.claim != kind {} else {}
  }

  lemma DeferProvisioningDemandEvolves(
    marker: bool, r: Record, message: Message, at: Time, now: Time, maxAttempts: int)
    requires LifecycleInv(marker, r, maxAttempts)
    ensures Evolves(marker, DeferProvisioningDemand(message, at), r, OnDeferProvisioningDemand(r, message, at), now)
  {
    if r.Terminal() || !r.claim.Provision? {} else {}
  }

  lemma ClearJITEvolves(marker: bool, r: Record, now: Time, maxAttempts: int)
    requires LifecycleInv(marker, r, maxAttempts) && !marker
    ensures Evolves(marker, ClearJIT, r, OnClearJIT(r), now)
  {
  }

  lemma MarkProvisionedEvolves(
    marker: bool, r: Record, instanceID: InstanceID, name: string, now: Time, maxAttempts: int)
    requires LifecycleInv(marker, r, maxAttempts) && r.claim.Provision? && !instanceID.NoInstance? && r.runnerOwned
    ensures Evolves(marker, MarkProvisioned(instanceID, r.runnerID, name), r,
                    OnMarkProvisioned(r, instanceID, r.runnerID, name, now), now)
  {
  }

  lemma MarkProvisionFailedEvolves(
    marker: bool, r: Record, message: Message, at: Time, max: int, now: Time, maxAttempts: int)
    requires LifecycleInv(marker, r, maxAttempts) && r.claim.Provision? && max == maxAttempts
    ensures Evolves(marker, MarkProvisionFailed(message, at, max), r,
                    OnMarkProvisionFailed(r, message, at, max), now)
  {
    if r.Terminal() {} else {}
  }

  lemma MarkCompletedEvolves(marker: bool, r: Record, now: Time, maxAttempts: int)
    requires LifecycleInv(marker, r, maxAttempts)
    ensures Evolves(marker, MarkCompleted, r, OnMarkCompleted(r), now)
  {
    if r.Terminal() {} else {}
  }

  lemma ScheduleDeletionEvolves(marker: bool, r: Record, now: Time, maxAttempts: int)
    requires LifecycleInv(marker, r, maxAttempts)
    ensures Evolves(marker, ScheduleDeletion, r, OnScheduleDeletion(r), now)
  {
    if r.Terminal() || !r.claim.NoWork? {} else {}
  }

  lemma DeferDeletionConfirmationEvolves(
    marker: bool, r: Record, message: Message, at: Time, now: Time, maxAttempts: int)
    requires LifecycleInv(marker, r, maxAttempts)
    ensures Evolves(marker, DeferDeletionConfirmation(message, at), r,
                    OnDeferDeletionConfirmation(r, message, at), now)
  {
    if r.status.Deleting? {} else {}
  }

  lemma MarkDeletedEvolves(marker: bool, r: Record, now: Time, maxAttempts: int)
    requires LifecycleInv(marker, r, maxAttempts)
    ensures Evolves(marker, MarkDeleted, r, OnMarkDeleted(r), now)
  {
  }

  lemma FinishDeletedRunnerEvolves(marker: bool, r: Record, queued: bool, now: Time, maxAttempts: int)
    requires LifecycleInv(marker, r, maxAttempts)
    ensures Evolves(marker, FinishDeletedRunner(queued), r, OnFinishDeletedRunner(r, queued), now)
  {
    if r.Terminal() {} else if Restores(r, queued) {} else {}
  }

  lemma DeferReassignmentDemandEvolves(
    marker: bool, r: Record, message: Message, at: Time, now: Time, maxAttempts: int)
    requires LifecycleInv(marker, r, maxAttempts)
    ensures Evolves(marker, DeferReassignmentDemand(message, at), r, OnDeferReassignmentDemand(r, message, at), now)
  {
    if r.claim.Delete? {} else {}
  }

  lemma MarkDeleteFailedEvolves(
    marker: bool, r: Record, message: Message, at: Time, max: int, now: Time, maxAttempts: int)
    requires LifecycleInv(marker, r, maxAttempts) && !r.claim.Provision?
    ensures Evolves(marker, MarkDeleteFailed(message, at, max), r, OnMarkDeleteFailed(r, message, at, max), now)
  {
    if r.Terminal() {} else {}
  }

  lemma MarkOrphanedEvolves(marker: bool, r: Record, message: Message, now: Time, maxAttempts: int)
    requires LifecycleInv(marker, r, maxAttempts)
    ensures Evolves(marker, MarkOrphaned(message), r, OnMarkOrphaned(r, message), now)
  {
  }

  lemma ReleaseAbsentOrphanEvolves(marker: bool, r: Record, instanceID: InstanceID, now: Time, maxAttempts: int)
    requires LifecycleInv(marker, r, maxAttempts)
    ensures Evolves(marker, ReleaseAbsentOrphan(instanceID), r, OnReleaseAbsentOrphan(r, instanceID), now)
  {
    if r.status.Orphaned? {} else {}
  }

  lemma ClearProviderMissingEvolves(marker: bool, r: Record, now: Time, maxAttempts: int)
    requires LifecycleInv(marker, r, maxAttempts)
    ensures Evolves(marker, ClearProviderMissing, r, ResetProviderMissing(r), now)
  {
  }

  lemma ClearGitHubMissingEvolves(marker: bool, r: Record, now: Time, maxAttempts: int)
    requires LifecycleInv(marker, r, maxAttempts)
    ensures Evolves(marker, ClearGitHubMissing, r, ResetGitHubMissing(r), now)
  {
  }

  lemma RecordRunnerSeenEvolves(marker: bool, r: Record, now: Time, maxAttempts: int)
    requires LifecycleInv(marker, r, maxAttempts)
    ensures Evolves(marker, RecordRunnerSeen, r, OnRecordRunnerSeen(r, now), now)
  {
    if r.status.Provisioned? {} else {}
  }

  lemma ClearRunnerMissingEvolves(marker: bool, r: Record, now: Time, maxAttempts: int)
    requires LifecycleInv(marker, r, maxAttempts)
    ensures Evolves(marker, ClearRunnerMissing, r, OnClearRunnerMissing(r, now), now)
  {
    if r.status.Provisioned? {} else {}
  }

  lemma DeferReconciliationEvolves(
    marker: bool, r: Record, message: Message, at: Time, max: int, failure: bool, throttle: bool, now: Time,
      maxAttempts: int)
    requires LifecycleInv(marker, r, maxAttempts) && !r.claim.Provision?
    ensures Evolves(marker, DeferReconciliation(message, at, max, failure, throttle), r,
                    OnDeferReconciliation(r, message, at, max, failure, throttle), now)
  {
    if r.Terminal() {} else {}
  }

  lemma DeferRateLimitedCleanupEvolves(
    marker: bool, r: Record, message: Message, at: Time, max: int, throttle: bool, now: Time, maxAttempts: int)
    requires LifecycleInv(marker, r, maxAttempts) && (r.Terminal() || r.claim.NoWork?)
    ensures Evolves(marker, DeferRateLimitedCleanup(message, at, max, throttle), r,
                    OnDeferRateLimitedCleanup(r, message, at, max, throttle), now)
  {
    if r.Terminal() {} else {}
  }

  lemma DeferOrphanCleanupEvolves(marker: bool, r: Record, message: Message, at: Time, now: Time, maxAttempts: int)
    requires LifecycleInv(marker, r, maxAttempts)
    ensures Evolves(marker, DeferOrphanCleanup(message, at), r, OnDeferOrphanCleanup(r, message, at), now)
  {
    if r.status.Orphaned? {} else {}
  }

  lemma RequeueMissingRunnerEvolves(marker: bool, r: Record, max: int, now: Time, maxAttempts: int)
    requires LifecycleInv(marker, r, maxAttempts)
    ensures Evolves(marker, RequeueMissingRunner(max), r, OnRequeueMissingRunner(r, max), now)
  {
    if r.status.Provisioned? {} else {}
  }

  lemma AcceptDeletionEvolves(marker: bool, r: Record, instanceID: InstanceID, now: Time, maxAttempts: int)
    requires LifecycleInv(marker, r, maxAttempts)
    ensures Evolves(marker, AcceptDeletion(instanceID), r, OnAcceptDeletion(r, instanceID, now), now)
  {
    if AcceptsDeletion(r, instanceID) {} else {}
  }

  lemma BeginCleanupAttemptEvolves(marker: bool, r: Record, max: int, now: Time, maxAttempts: int)
    requires LifecycleInv(marker, r, maxAttempts) && max == maxAttempts
    ensures Evolves(marker, BeginCleanupAttempt(max), r, OnBeginCleanupAttempt(r, max, now), now)
  {
    if CleanupReady(r, now) {} else {}
  }

  lemma ObserveRunnerMissingEvolves(marker: bool, r: Record, now: Time, maxAttempts: int)
    requires LifecycleInv(marker, r, maxAttempts) && now != ZERO_TIME
    ensures Evolves(marker, ObserveRunnerMissing, r, OnObserveRunnerMissing(r, now), now)
  {
    if !r.status.Provisioned? {} else if r.missingSince == ZERO_TIME {} else {}
  }

  lemma ObserveGitHubRunnerMissingEvolves(marker: bool, r: Record, now: Time, maxAttempts: int)
    requires LifecycleInv(marker, r, maxAttempts) && now != ZERO_TIME
    ensures Evolves(marker, ObserveGitHubRunnerMissing, r, OnObserveGitHubRunnerMissing(r, now), now)
  {
    if !r.status.Provisioned? {} else if r.githubMissingSince == ZERO_TIME {} else {}
  }

  lemma ExhaustProvisioningEvolves(marker: bool, r: Record, max: int, now: Time, maxAttempts: int)
    requires LifecycleInv(marker, r, maxAttempts)
    ensures Evolves(marker, ExhaustProvisioning(max), r, OnExhaustProvisioning(r, max, now), now)
  {
    if ProvisioningExhausted(r, max) && Due(r, now) {} else {}
  }

  lemma ExhaustDeletionEvolves(marker: bool, r: Record, max: int, now: Time, maxAttempts: int)
    requires LifecycleInv(marker, r, maxAttempts)
    ensures Evolves(marker, ExhaustDeletion(max), r, OnExhaustDeletion(r, max, now), now)
  {
    if DeletionExhausted(r, max) && Due(r, now) {} else {}
  }

  lemma GrantProvisionEvolves(marker: bool, r: Record, max: int, now: Time, maxAttempts: int)
    requires LifecycleInv(marker, r, maxAttempts) && max == maxAttempts
    ensures Evolves(marker, GrantProvision(max), r, OnGrantProvision(r, max, now), now)
  {
    if ProvisionEligible(r, max) && Due(r, now) {} else {}
  }

  lemma GrantDeleteEvolves(marker: bool, r: Record, max: int, now: Time, maxAttempts: int)
    requires LifecycleInv(marker, r, maxAttempts) && max == maxAttempts
    ensures Evolves(marker, GrantDelete(max), r, OnGrantDelete(r, max, now), now)
  {
    if DeleteEligible(r, max) && Due(r, now) {} else {}
  }

  /** The mutations applied through the generic update. */
  lemma UpdateEvolves(marker: bool, m: Mutation, r: Record, now: Time, maxAttempts: int)
    requires LifecycleInv(marker, r, maxAttempts) && Stamps(m)
    requires Disciplined(marker, r, m, now, maxAttempts)
    ensures Evolves(marker, m, r, Unstamped(m, r, now), now)
  {
    match m
    case ReleaseClaim(kind) => ReleaseClaimEvolves(marker, r, kind, now, maxAttempts);
    case DeferRateLimitedWork(kind, message, at, max) =>
      DeferRateLimitedWorkEvolves(marker, r, kind, message, at, max, now, maxAttempts);
    case DeferProvisioningDemand(message, at) =>
      DeferProvisioningDemandEvolves(marker, r, message, at, now, maxAttempts);
    case ClearJIT => ClearJITEvolves(marker, r, now, maxAttempts);
    case MarkProvisioned(instanceID, _, name) =>
      MarkProvisionedEvolves(marker, r, instanceID, name, now, maxAttempts);
    case MarkProvisionFailed(message, at, max) =>
      MarkProvisionFailedEvolves(marker, r, message, at, max, now, maxAttempts);
    case MarkCompleted => MarkCompletedEvolves(marker, r, now, maxAttempts);
    case ScheduleDeletion => ScheduleDeletionEvolves(marker, r, now, maxAttempts);
    case DeferDeletionConfirmation(message, at) =>
      DeferDeletionConfirmationEvolves(marker, r, message, at, now, maxAttempts);
    case MarkDeleted => MarkDeletedEvolves(marker, r, now, maxAttempts);
    case FinishDeletedRunner(queued) => FinishDeletedRunnerEvolves(marker, r, queued, now, maxAttempts);
    case DeferReassignmentDemand(message, at) =>
      DeferReassignmentDemandEvolves(marker, r, message, at, now, maxAttempts);
    case MarkDeleteFailed(message, at, max) =>
      MarkDeleteFailedEvolves(marker, r, message, at, max, now, maxAttempts);
    case MarkOrphaned(message) => MarkOrphanedEvolves(marker, r, message, now, maxAttempts);
    case ReleaseAbsentOrphan(instanceID) => ReleaseAbsentOrphanEvolves(marker, r, instanceID, now, maxAttempts);
    case ClearProviderMissing => ClearProviderMissingEvolves(marker, r, now, maxAttempts);
    case ClearGitHubMissing => ClearGitHubMissingEvolves(marker, r, now, maxAttempts);
    case RecordRunnerSeen => RecordRunnerSeenEvolves(marker, r, now, maxAttempts);
    case ClearRunnerMissing => ClearRunnerMissingEvolves(marker, r, now, maxAttempts);
    case DeferReconciliation(message, at, max, failure, throttle) =>
      DeferReconciliationEvolves(marker, r, message, at, max, failure, throttle, now, maxAttempts);
    case DeferRateLimitedCleanup(message, at, max, throttle) =>
      DeferRateLimitedCleanupEvolves(marker, r, message, at, max, throttle, now, maxAttempts);
    case DeferOrphanCleanup(message, at) => DeferOrphanCleanupEvolves(marker, r, message, at, now, maxAttempts);
    case RequeueMissingRunner(max) => RequeueMissingRunnerEvolves(marker, r, max, now, maxAttempts);
  }

  /** The mutations with a commit condition of their own. */
  lemma ConditionalEvolves(marker: bool, m: Mutation, r: Record, now: Time, maxAttempts: int)
    requires LifecycleInv(marker, r, maxAttempts) && !Stamps(m)
    requires Disciplined(marker, r, m, now, maxAttempts)
    ensures Evolves(marker, m, r, Unstamped(m, r, now), now)
  {
    match m
    case AcceptDeletion(instanceID) => AcceptDeletionEvolves(marker, r, instanceID, now, maxAttempts);
    case BeginCleanupAttempt(max) => BeginCleanupAttemptEvolves(marker, r, max, now, maxAttempts);
    case ObserveRunnerMissing => ObserveRunnerMissingEvolves(marker, r, now, maxAttempts);
    case ObserveGitHubRunnerMissing => ObserveGitHubRunnerMissingEvolves(marker, r, now, maxAttempts);
    case ExhaustProvisioning(max) => ExhaustProvisioningEvolves(marker, r, max, now, maxAttempts);
    case ExhaustDeletion(max) => ExhaustDeletionEvolves(marker, r, max, now, maxAttempts);
    case GrantProvision(max) => GrantProvisionEvolves(marker, r, max, now, maxAttempts);
    case GrantDelete(max) => GrantDeleteEvolves(marker, r, max, now, maxAttempts);
  }

  lemma StampKeepsWindow(m: Mutation, r: Record, r': Record, source: Source, now: Time)
    requires WindowEvolves(m, r, r', source, now)
    ensures WindowEvolves(m, r, Stamped(r', now), source, now)
  {
  }

  lemma StampStaysInEpoch(m: Mutation, r: Record, r': Record, now: Time)
    requires StaysInEpoch(m, r, r')
    ensures StaysInEpoch(m, r, Stamped(r', now))
  {
  }

  lemma StampKeepsHoldings(r: Record, now: Time)
    ensures Replaceable(r) ==> Replaceable(Stamped(r, now))
    ensures HoldsSlot(Stamped(r, now)) ==> HoldsSlot(r)
  {
  }

  lemma StampEvolves(marker: bool, m: Mutation, r: Record, r': Record, now: Time)
    requires Evolves(marker, m, r, r', now)
    ensures Evolves(marker, m, r, Stamped(r', now), now)
  {
    StampKeepsWindow(m, r, r', Provider, now);
    StampKeepsWindow(m, r, r', GitHub, now);
    StampKeepsHoldings(r', now);
    if r'.epoch == r.epoch {
      StampStaysInEpoch(m, r, r', now);
    }
  }

  lemma MutationEvolvesRecord(marker: bool, m: Mutation, r: Record, now: Time, maxAttempts: int)
    requires LifecycleInv(marker, r, maxAttempts)
    requires Disciplined(marker, r, m, now, maxAttempts)
    ensures Evolves(marker, m, r, Mutate(m, r, now), now)
  {
    if Stamps(m) {
      UpdateEvolves(marker, m, r, now, maxAttempts);
      StampEvolves(marker, m, r, Unstamped(m, r, now), now);
    } else {
      ConditionalEvolves(marker, m, r, now, maxAttempts);
    }
  }
}
