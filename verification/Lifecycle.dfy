/**
 The durable record of one workflow job and every mutation the store applies to a
 single record. A mutation is a function from the old record to the new one, so the
 store methods, the invariants and the controller protocol all speak of the same thing.
 */
module Lifecycle {
  import opened Names

  // Instants since the zero time. The zero time itself means "not set".
  type Time = nat
  const ZERO_TIME: Time := 0

  datatype Status = Pending | Provisioning | Provisioned | Completed | Deleting | Deleted | Failed | Orphaned

  datatype Work = NoWork | Provision | Delete

  /** The recorded error. Only its presence and the two cancellation texts of older versions matter. */
  datatype Message =
    | NoMessage
    | Canceled
    | DeadlineExceeded
    | AttemptsExhausted
    | DeletionsExhausted
    | CleanupExhausted
    | InstanceDisappeared
    | Cause(text: string)

  /** The cloud a record is bound to; older versions of the state file left it unbound. */
  datatype Cloud = Unbound | DigitalOcean | AWS | GCP | Azure

  /** What the webhook event said about the job; only a marker's key ever differs from it. */
  datatype Job = Job(
    key: string,
    deliveryID: string,
    jobID: int,
    owner: string,
    repository: string,
    labels: seq<string>)

  /** A provider instance id; the state file spells NoInstance as the empty string. */
  datatype InstanceID = NoInstance | Instance(id: string)

  datatype Record = Record(
    job: Job,
    provider: Cloud,
    runnerName: string,
    runnerID: int,
    runnerOwned: bool,
    instanceID: InstanceID,
    jobCompleted: bool,
    recheckDemand: bool,
    acceptedID: InstanceID,
    dropletID: int,
    status: Status,
    claim: Work,
    deferDeletion: bool,
    attempts: int,
    epoch: int,
    deleteAttempts: int,
    reconcileFailures: int,
    throttleFailures: int,
    lastError: Message,
    nextAttemptAt: Time,
    missingSince: Time,
    missingChecks: int,
    githubMissingSince: Time,
    githubMissingChecks: int,
    createdAt: Time,
    provisionedAt: Time,
    registeredAt: Time,
    reconciledAt: Time,
    updatedAt: Time)
  {
    predicate Terminal() { status.Deleted? || status.Orphaned? }

    predicate OwnsRunnerID() { runnerOwned && runnerID != 0 }

    function Identity(): string { RunnerIdentity(job.owner, job.repository, runnerID) }
  }

  /** Every change the store makes to a single record. */
  datatype Mutation =
    | ReleaseClaim(kind: Work)
    | DeferRateLimitedWork(kind: Work, message: Message, retryAt: Time, maxAttempts: int)
    | DeferProvisioningDemand(message: Message, retryAt: Time)
    | ClearJIT
    | MarkProvisioned(instanceID: InstanceID, runnerID: int, runnerName: string)
    | MarkProvisionFailed(message: Message, retryAt: Time, maxAttempts: int)
    | MarkCompleted
    | ScheduleDeletion
    | AcceptDeletion(instanceID: InstanceID)
    | DeferDeletionConfirmation(message: Message, retryAt: Time)
    | MarkDeleted
    | FinishDeletedRunner(queued: bool)
    | DeferReassignmentDemand(message: Message, retryAt: Time)
    | BeginCleanupAttempt(maxAttempts: int)
    | MarkDeleteFailed(message: Message, retryAt: Time, maxAttempts: int)
    | MarkOrphaned(message: Message)
    | ReleaseAbsentOrphan(instanceID: InstanceID)
    | ObserveRunnerMissing
    | ObserveGitHubRunnerMissing
    | ClearProviderMissing
    | ClearGitHubMissing
    | RecordRunnerSeen
    | ClearRunnerMissing
    | DeferReconciliation(message: Message, retryAt: Time, maxAttempts: int, countFailure: bool, countThrottle: bool)
    | DeferRateLimitedCleanup(message: Message, retryAt: Time, maxAttempts: int, countThrottle: bool)
    | DeferOrphanCleanup(message: Message, retryAt: Time)
    | RequeueMissingRunner(maxAttempts: int)
    | ExhaustProvisioning(maxAttempts: int)
    | ExhaustDeletion(maxAttempts: int)
    | GrantProvision(maxAttempts: int)
    | GrantDelete(maxAttempts: int)

  // Refunds

  function RefundedAttempts(r: Record, kind: Work): int {
    if kind.Provision? && r.attempts > 0 then r.attempts - 1 else r.attempts
  }

  function RefundedDeleteAttempts(r: Record, kind: Work): int {
    if kind.Delete? && r.deleteAttempts > 0 then r.deleteAttempts - 1 else r.deleteAttempts
  }

  function ReleasedStatus(r: Record, kind: Work): Status {
    if kind.Provision? && r.status.Provisioning? then Pending
    else if kind.Delete? && r.status.Deleting? then Completed
    else r.status
  }

  /** Ends a claim without consuming its attempt; a completion that arrived meanwhile stays. */
  function Refund(r: Record, kind: Work): Record {
    r.(claim := NoWork,
       attempts := RefundedAttempts(r, kind),
       deleteAttempts := RefundedDeleteAttempts(r, kind),
       status := ReleasedStatus(r, kind))
  }

  // Mutations applied through the store's generic update

  function OnReleaseClaim(r: Record, kind: Work): Record {
    if r.Terminal() || r.claim != kind || kind.NoWork? then r
    else Refund(r.(nextAttemptAt := ZERO_TIME), kind)
  }

  function OnDeferRateLimitedWork(r: Record, kind: Work, message: Message, retryAt: Time, maxAttempts: int): Record {
    if r.Terminal() || r.claim != kind then r
    else
      var completed := kind.Provision? && r.status.Completed?;
      var spent := !completed && r.throttleFailures + 1 >= maxAttempts;
      r.(
        claim := NoWork,
        attempts := RefundedAttempts(r, kind),
        deleteAttempts := RefundedDeleteAttempts(r, kind),
        throttleFailures := if completed then r.throttleFailures else r.throttleFailures + 1,
        lastError := if completed then r.lastError else message,
        status := if spent then Orphaned else ReleasedStatus(r, kind),
        nextAttemptAt := if completed || spent then ZERO_TIME else retryAt)
  }

  function OnDeferProvisioningDemand(r: Record, message: Message, retryAt: Time): Record {
    if r.Terminal() || !r.claim.Provision? then r
    else r.(
      claim := NoWork,
      attempts := RefundedAttempts(r, Provision),
      status := ReleasedStatus(r, Provision),
      lastError := message,
      nextAttemptAt := if r.status.Completed? then r.nextAttemptAt else retryAt,
      deferDeletion := r.deferDeletion || !r.status.Completed?)
  }

  function OnClearJIT(r: Record): Record {
    if r.status.Deleted? then r else r.(runnerID := 0, runnerOwned := false)
  }

  function OnMarkProvisioned(r: Record, instanceID: InstanceID, runnerID: int, runnerName: string, now: Time): Record {
    if r.Terminal() then r
    else r.(
      instanceID := instanceID,
      acceptedID := if r.acceptedID != instanceID then NoInstance else r.acceptedID,
      dropletID := 0,
      runnerID := runnerID,
      runnerOwned := true,
      runnerName := runnerName,
      lastError := NoMessage,
      throttleFailures := 0,
      provisionedAt := if r.provisionedAt == ZERO_TIME then now else r.provisionedAt,
      claim := NoWork,
      missingSince := ZERO_TIME,
      missingChecks := 0,
      status := if !r.status.Completed? then Provisioned else Completed)
  }

  function OnMarkProvisionFailed(r: Record, message: Message, retryAt: Time, maxAttempts: int): Record {
    if r.Terminal() then r
    else
      var spent := r.attempts >= maxAttempts;
      r.(
        lastError := message,
        throttleFailures := 0,
        claim := NoWork,
        status := if r.status.Completed? then Completed else if spent then Failed else Pending,
        nextAttemptAt := if r.status.Completed? || spent then r.nextAttemptAt else retryAt)
  }

  function OnMarkCompleted(r: Record): Record {
    if r.Terminal() then r else r.(status := Completed, nextAttemptAt := ZERO_TIME)
  }

  function OnScheduleDeletion(r: Record): Record {
    if r.Terminal() || !r.claim.NoWork? then r
    else r.(status := Completed, deferDeletion := false, nextAttemptAt := ZERO_TIME)
  }

  function OnDeferDeletionConfirmation(r: Record, message: Message, retryAt: Time): Record {
    if !r.status.Deleting? || !r.claim.Delete? || r.acceptedID.NoInstance? || r.acceptedID != r.instanceID then r
    else Refund(r.(lastError := message, nextAttemptAt := retryAt), Delete)
  }

  function OnMarkDeleted(r: Record): Record {
    r.(status := Deleted, claim := NoWork, deferDeletion := false, lastError := NoMessage, nextAttemptAt := ZERO_TIME)
  }

  /** Whether original demand is restored when the cleaned-up runner is finished. */
  predicate Restores(r: Record, queued: bool) {
    !r.Terminal() && queued && r.recheckDemand && !r.jobCompleted
  }

  function OnFinishDeletedRunner(r: Record, queued: bool): Record {
    if r.Terminal() then r
    else if !Restores(r, queued) then OnMarkDeleted(r.(recheckDemand := false))
    else
      r.(
        status := Pending,
        claim := NoWork,
        deferDeletion := false,
        lastError := NoMessage,
        nextAttemptAt := ZERO_TIME,
        recheckDemand := false,
        instanceID := NoInstance,
        acceptedID := NoInstance,
        runnerID := 0,
        runnerOwned := false,
        runnerName := "",
        provisionedAt := ZERO_TIME,
        registeredAt := ZERO_TIME,
        reconciledAt := ZERO_TIME,
        missingSince := ZERO_TIME,
        githubMissingSince := ZERO_TIME,
        missingChecks := 0,
        githubMissingChecks := 0,
        attempts := 0,
        deleteAttempts := 0,
        reconcileFailures := 0,
        throttleFailures := 0,
        epoch := r.epoch + 1)
  }

  function OnDeferReassignmentDemand(r: Record, message: Message, retryAt: Time): Record {
    if !r.claim.Delete? then r
    else Refund(r.(lastError := message, nextAttemptAt := retryAt), Delete)
  }

  function OnMarkDeleteFailed(r: Record, message: Message, retryAt: Time, maxAttempts: int): Record {
    if r.Terminal() then r
    else
      var spent := r.deleteAttempts >= maxAttempts;
      r.(
        lastError := message,
        throttleFailures := 0,
        claim := NoWork,
        status := if spent then Orphaned else Completed,
        nextAttemptAt := if spent then r.nextAttemptAt else retryAt)
  }

  function OnMarkOrphaned(r: Record, message: Message): Record {
    if r.status.Deleted? then r
    else r.(status := Orphaned, claim := NoWork, lastError := message, nextAttemptAt := ZERO_TIME)
  }

  function OnReleaseAbsentOrphan(r: Record, instanceID: InstanceID): Record {
    if instanceID.NoInstance? || !r.status.Orphaned? || r.instanceID != instanceID then r
    else r.(instanceID := NoInstance, claim := NoWork)
  }

  function ResetProviderMissing(r: Record): Record {
    r.(missingSince := ZERO_TIME, missingChecks := 0)
  }

  function ResetGitHubMissing(r: Record): Record {
    r.(githubMissingSince := ZERO_TIME, githubMissingChecks := 0)
  }

  function OnRecordRunnerSeen(r: Record, now: Time): Record {
    if !r.status.Provisioned? then r
    else ResetGitHubMissing(ResetProviderMissing(r.(
      registeredAt := if r.registeredAt == ZERO_TIME then now else r.registeredAt, reconciledAt := now)))
  }

  function OnClearRunnerMissing(r: Record, now: Time): Record {
    if !r.status.Provisioned? then r
    else ResetGitHubMissing(ResetProviderMissing(r.(
      reconciledAt := now, deleteAttempts := 0, reconcileFailures := 0, throttleFailures := 0,
      lastError := NoMessage, nextAttemptAt := ZERO_TIME)))
  }

  function OnDeferReconciliation(r: Record, message: Message, retryAt: Time, maxAttempts: int,
                                 countFailure: bool, countThrottle: bool): Record {
    if r.Terminal() then r
    else
      var failed := countFailure && r.reconcileFailures + 1 >= maxAttempts;
      var throttled := countThrottle && r.throttleFailures + 1 >= maxAttempts;
      r.(
        reconcileFailures := if countFailure then r.reconcileFailures + 1 else r.reconcileFailures,
        throttleFailures := if failed then r.throttleFailures
                            else if countThrottle then r.throttleFailures + 1 else 0,
        status := if failed || throttled then Orphaned else r.status,
        lastError := message,
        nextAttemptAt := if failed || throttled then ZERO_TIME else retryAt)
  }

  function OnDeferRateLimitedCleanup(r: Record, message: Message, retryAt: Time, maxAttempts: int,
                                     countThrottle: bool): Record {
    if r.Terminal() then r
    else
      var throttled := countThrottle && r.throttleFailures + 1 >= maxAttempts;
      r.(
        deleteAttempts := if r.deleteAttempts > 0 then r.deleteAttempts - 1 else r.deleteAttempts,
        throttleFailures := if countThrottle then r.throttleFailures + 1 else 0,
        status := if throttled then Orphaned else r.status,
        lastError := message,
        nextAttemptAt := if throttled then ZERO_TIME else retryAt)
  }

  function OnDeferOrphanCleanup(r: Record, message: Message, retryAt: Time): Record {
    if !r.status.Orphaned? then r
    else r.(reconcileFailures := r.reconcileFailures + 1, lastError := message, nextAttemptAt := retryAt)
  }

  function OnRequeueMissingRunner(r: Record, maxAttempts: int): Record {
    if !r.status.Provisioned? then r
    else
      r.(
        status := if r.attempts >= maxAttempts then Failed else Pending,
        nextAttemptAt := if r.attempts >= maxAttempts then r.nextAttemptAt else ZERO_TIME,
        instanceID := NoInstance,
        acceptedID := NoInstance,
        provisionedAt := ZERO_TIME,
        registeredAt := ZERO_TIME,
        reconciledAt := ZERO_TIME,
        epoch := r.epoch + 1,
        runnerID := 0,
        runnerOwned := false,
        runnerName := "",
        missingSince := ZERO_TIME,
        missingChecks := 0,
        githubMissingSince := ZERO_TIME,
        githubMissingChecks := 0,
        lastError := InstanceDisappeared)
  }

  // Mutations with a commit condition of their own; a no-op leaves the record untouched

  predicate AcceptsDeletion(r: Record, instanceID: InstanceID) {
    !instanceID.NoInstance? && r.instanceID == instanceID && r.status.Deleting? && r.claim.Delete?
  }

  function OnAcceptDeletion(r: Record, instanceID: InstanceID, now: Time): Record {
    if AcceptsDeletion(r, instanceID) then r.(acceptedID := instanceID, updatedAt := now) else r
  }

  predicate CleanupReady(r: Record, now: Time) {
    !r.Terminal() && r.claim.NoWork? && r.nextAttemptAt <= now
  }

  function OnBeginCleanupAttempt(r: Record, maxAttempts: int, now: Time): Record {
    if !CleanupReady(r, now) then r
    else
      var spent := r.deleteAttempts >= maxAttempts;
      r.(
        deleteAttempts := if spent then r.deleteAttempts else r.deleteAttempts + 1,
        status := if spent then Orphaned else r.status,
        lastError := if spent then CleanupExhausted else r.lastError,
        nextAttemptAt := if spent then ZERO_TIME else r.nextAttemptAt,
        updatedAt := now)
  }

  function OnObserveRunnerMissing(r: Record, now: Time): Record {
    if !r.status.Provisioned? then r
    else if r.missingSince == ZERO_TIME then r.(missingSince := now, missingChecks := 1, updatedAt := now)
    else r.(missingChecks := r.missingChecks + 1, updatedAt := now)
  }

  function OnObserveGitHubRunnerMissing(r: Record, now: Time): Record {
    if !r.status.Provisioned? then r
    else if r.githubMissingSince == ZERO_TIME then
      r.(githubMissingSince := now, githubMissingChecks := 1, updatedAt := now)
    else r.(githubMissingChecks := r.githubMissingChecks + 1, updatedAt := now)
  }

  // Claiming

  predicate Due(r: Record, now: Time) { r.nextAttemptAt <= now }

  predicate ProvisioningExhausted(r: Record, maxAttempts: int) {
    r.status.Pending? && r.attempts >= maxAttempts
  }

  predicate DeletionExhausted(r: Record, maxAttempts: int) {
    r.status.Completed? && !r.deferDeletion && !r.instanceID.NoInstance? && r.deleteAttempts >= maxAttempts
  }

  predicate ProvisionEligible(r: Record, maxAttempts: int) {
    r.claim.NoWork? && r.status.Pending? && r.attempts < maxAttempts
  }

  predicate DeleteEligible(r: Record, maxAttempts: int) {
    && r.claim.NoWork? && r.status.Completed? && !r.deferDeletion
    && !r.instanceID.NoInstance? && r.deleteAttempts < maxAttempts
  }

  /** A record that already occupies an admission slot of its own. */
  predicate ReservedSlot(r: Record) { !r.instanceID.NoInstance? || r.OwnsRunnerID() }

  function OnGrantProvision(r: Record, maxAttempts: int, now: Time): Record {
    if !(ProvisionEligible(r, maxAttempts) && Due(r, now)) then r
    else r.(status := Provisioning, attempts := r.attempts + 1, updatedAt := now, nextAttemptAt := ZERO_TIME,
            claim := Provision)
  }

  function OnGrantDelete(r: Record, maxAttempts: int, now: Time): Record {
    if !(DeleteEligible(r, maxAttempts) && Due(r, now)) then r
    else r.(status := Deleting, deleteAttempts := r.deleteAttempts + 1, updatedAt := now, nextAttemptAt := ZERO_TIME,
            claim := Delete)
  }

  function OnExhaustProvisioning(r: Record, maxAttempts: int, now: Time): Record {
    if !(ProvisioningExhausted(r, maxAttempts) && Due(r, now)) then r
    else r.(status := Failed, lastError := AttemptsExhausted, updatedAt := now)
  }

  function OnExhaustDeletion(r: Record, maxAttempts: int, now: Time): Record {
    if !(DeletionExhausted(r, maxAttempts) && Due(r, now)) then r
    else r.(status := Orphaned, lastError := DeletionsExhausted,
            updatedAt := now)
  }

  /** Whether a mutation goes through the store's generic update, which always stamps the record. */
  predicate Stamps(m: Mutation) {
    !(m.AcceptDeletion? || m.BeginCleanupAttempt? || m.ObserveRunnerMissing? || m.ObserveGitHubRunnerMissing?
      || m.ExhaustProvisioning? || m.ExhaustDeletion? || m.GrantProvision? || m.GrantDelete?)
  }

  function Unstamped(m: Mutation, r: Record, now: Time): Record {
    match m
    case ReleaseClaim(kind) => OnReleaseClaim(r, kind)
    case DeferRateLimitedWork(kind, message, retryAt, max) => OnDeferRateLimitedWork(r, kind, message, retryAt, max)
    case DeferProvisioningDemand(message, retryAt) => OnDeferProvisioningDemand(r, message, retryAt)
    case ClearJIT => OnClearJIT(r)
    case MarkProvisioned(instanceID, runnerID, name) => OnMarkProvisioned(r, instanceID, runnerID, name, now)
    case MarkProvisionFailed(message, retryAt, max) => OnMarkProvisionFailed(r, message, retryAt, max)
    case MarkCompleted => OnMarkCompleted(r)
    case ScheduleDeletion => OnScheduleDeletion(r)
    case AcceptDeletion(instanceID) => OnAcceptDeletion(r, instanceID, now)
    case DeferDeletionConfirmation(message, retryAt) => OnDeferDeletionConfirmation(r, message, retryAt)
    case MarkDeleted => OnMarkDeleted(r)
    case FinishDeletedRunner(queued) => OnFinishDeletedRunner(r, queued)
    case DeferReassignmentDemand(message, retryAt) => OnDeferReassignmentDemand(r, message, retryAt)
    case BeginCleanupAttempt(max) => OnBeginCleanupAttempt(r, max, now)
    case MarkDeleteFailed(message, retryAt, max) => OnMarkDeleteFailed(r, message, retryAt, max)
    case MarkOrphaned(message) => OnMarkOrphaned(r, message)
    case ReleaseAbsentOrphan(instanceID) => OnReleaseAbsentOrphan(r, instanceID)
    case ObserveRunnerMissing => OnObserveRunnerMissing(r, now)
    case ObserveGitHubRunnerMissing => OnObserveGitHubRunnerMissing(r, now)
    case ClearProviderMissing => ResetProviderMissing(r)
    case ClearGitHubMissing => ResetGitHubMissing(r)
    case RecordRunnerSeen => OnRecordRunnerSeen(r, now)
    case ClearRunnerMissing => OnClearRunnerMissing(r, now)
    case DeferReconciliation(message, retryAt, max, failure, throttle) =>
      OnDeferReconciliation(r, message, retryAt, max, failure, throttle)
    case DeferRateLimitedCleanup(message, retryAt, max, throttle) =>
      OnDeferRateLimitedCleanup(r, message, retryAt, max, throttle)
    case DeferOrphanCleanup(message, retryAt) => OnDeferOrphanCleanup(r, message, retryAt)
    case RequeueMissingRunner(max) => OnRequeueMissingRunner(r, max)
    case ExhaustProvisioning(max) => OnExhaustProvisioning(r, max, now)
    case ExhaustDeletion(max) => OnExhaustDeletion(r, max, now)
    case GrantProvision(max) => OnGrantProvision(r, max, now)
    case GrantDelete(max) => OnGrantDelete(r, max, now)
  }

  function Mutate(m: Mutation, r: Record, now: Time): Record {
    if Stamps(m) then Stamped(Unstamped(m, r, now), now) else Unstamped(m, r, now)
  }

  function Stamped(r: Record, now: Time): Record { r.(updatedAt := now) }

  // Recovery when the store is opened

  datatype Recovery = Drop | Keep(record: Record, changed: bool)

  /** Older controllers recorded shutdown cancellation as a deletion failure; that attempt is refunded. */
  predicate LegacyCancellation(r: Record) {
    r.status.Completed? && r.deleteAttempts > 0 && (r.lastError.Canceled? || r.lastError.DeadlineExceeded?)
  }

  predicate Interrupted(r: Record) {
    r.status.Provisioning? || r.status.Deleting? || LegacyCancellation(r)
  }

  predicate Undated(r: Record) { r.status.Provisioned? && r.provisionedAt == ZERO_TIME }

  predicate Migrates(r: Record) { r.instanceID.NoInstance? && r.dropletID != 0 }

  predicate NeedsRecovery(r: Record) {
    !r.claim.NoWork? || r.provider.Unbound? || Undated(r) || Interrupted(r) || Migrates(r)
  }

  predicate PastRetention(r: Record, now: Time, retention: nat) {
    r.status.Deleted? && r.updatedAt < now - retention
  }

  /**
   Drops the claim, returns interrupted work to a claimable state with its attempt refunded,
   and fills what older versions of the state file left out.
   */
  function Recovered(r: Record, now: Time): Record {
    var refundsDelete := (r.status.Deleting? && r.deleteAttempts > 0) || LegacyCancellation(r);
    r.(
      claim := NoWork,
      provider := if r.provider.Unbound? then DigitalOcean else r.provider,
      provisionedAt := if !Undated(r) then r.provisionedAt
                       else if r.updatedAt == ZERO_TIME then r.createdAt else r.updatedAt,
      status := if r.status.Provisioning? then Pending else if r.status.Deleting? then Completed else r.status,
      attempts := if r.status.Provisioning? && r.attempts > 0 then r.attempts - 1 else r.attempts,
      deleteAttempts := if refundsDelete then r.deleteAttempts - 1 else r.deleteAttempts,
      lastError := if LegacyCancellation(r) then NoMessage else r.lastError,
      instanceID := if Migrates(r) then Instance(FormatInt(r.dropletID)) else r.instanceID,
      dropletID := if Migrates(r) then 0 else r.dropletID,
      nextAttemptAt := ZERO_TIME,
      updatedAt := now)
  }

  function RecoverRecord(r: Record, now: Time, retention: nat): Recovery {
    if PastRetention(r, now, retention) then Drop
    else if NeedsRecovery(r) then Keep(Recovered(r, now), true)
    else Keep(r, false)
  }

  /** Recovery drops the record or has something to repair in it. */
  predicate Recovers(r: Record, now: Time, retention: nat) {
    PastRetention(r, now, retention) || NeedsRecovery(r)
  }

  predicate AnyRecovers(records: map<string, Record>, now: Time, retention: nat) {
    exists k | k in records :: Recovers(records[k], now, retention)
  }
}
