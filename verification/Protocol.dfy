/**
 The controller's routines as programs over the store and the outside world, and the rules
 every action of a routine must meet given what the routine has seen and done so far.
 */
module Protocol {
  import opened Wrappers
  import opened Lifecycle
  import opened Invariants
  import opened RunProperties

  // The outside world: every request may be answered in any plausible way

  datatype Fault =
    | Cancelled
    | RateLimited(resetAt: Time)
    | OutcomeUnknown
    | OwnershipMismatch
    | Duplicates
    | ClientRejected
    | OtherFailure

  datatype JobStatus = JobQueued | JobInProgress | JobDone

  datatype RunnerStatus = RunnerOnline | RunnerOffline | RunnerMissing

  datatype Request =
    | FindRunner(key: string)
    | CreateRunner(key: string, epoch: int, runnerName: string)
    | DeleteRunner(instanceID: InstanceID, key: string)
    | RunnerAbsent(instanceID: InstanceID)
    | CleanupRunner(key: string)
    | CleanupRunnerExcept(key: string, instanceID: InstanceID)
    | GenerateJITConfig(owner: string, repository: string, runnerName: string)
    | RemoveRunner(owner: string, repository: string, runnerID: int)
    | AskJob(owner: string, repository: string, jobID: int)
    | AskRunner(owner: string, repository: string, runnerID: int)

  datatype Answer =
    | Faulted(fault: Fault)
    | Agreed
    | Located(instanceID: InstanceID, name: string)
    | NotLocated
    | Created(instanceID: InstanceID)
    | IsAbsent(absent: bool)
    | Issued(runnerID: int)
    | JobIs(job: JobStatus)
    | RunnerIs(runner: RunnerStatus)

  predicate Plausible(request: Request, answer: Answer) {
    || answer.Faulted?
    || match request
       case FindRunner(_) => answer.NotLocated? || (answer.Located? && !answer.instanceID.NoInstance?)
       case CreateRunner(_, _, _) => answer.Created? && !answer.instanceID.NoInstance?
       case RunnerAbsent(_) => answer.IsAbsent?
       case GenerateJITConfig(_, _, _) => answer.Issued? && answer.runnerID != 0
       case AskJob(_, _, _) => answer.JobIs?
       case AskRunner(_, _, _) => answer.RunnerIs?
       case _ => answer.Agreed?
  }

  // Programs

  datatype Action = Register(runnerID: int, runnerName: string) | Alter(mutation: Mutation)

  /** A committed action: the record before and after it, and the time it was made. */
  datatype Commitment = Commitment(before: Record, after: Record, now: Time)

  /** The clock, and whether the routine's own deadline has passed. */
  datatype Tick = Tick(now: Time, expired: bool)

  datatype Program =
    | Done
    | Get(next: (Option<Record>, Tick) -> Program)
    | Call(request: Request, answered: (Answer, Tick) -> Program)
    | Commit(action: Action, saved: Commitment -> Program, failed: Tick -> Program)

  /** The controller's settings; backoff stands for every retry delay, nameOf for the runner names. */
  datatype Config = Config(
    maxAttempts: int,
    provider: Cloud,
    confirmsAbsence: bool,
    settle: nat,
    confirmations: int,
    checkInterval: nat,
    registrationTimeout: nat,
    backoff: Time -> Time,
    nameOf: Job -> string)

  // What a routine has seen and done

  datatype Happening =
    | Asked(request: Request, answer: Answer, tick: Tick)
    | Read(current: Option<Record>, tick: Tick)
    | Did(action: Action, commitment: Commitment)
    | DidNot(action: Action, tick: Tick)

  datatype History = Begin | Then(past: History, last: Happening)

  /** The last thing that happened: this request got this answer. */
  predicate Answered(h: History, request: Request, answer: Answer) {
    h.Then? && h.last.Asked? && h.last.request == request && h.last.answer == answer
  }

  predicate Heard(h: History, request: Request, answer: Answer) {
    h.Then? && (Answered(h, request, answer) || Heard(h.past, request, answer))
  }

  /** A runner id GitHub issued to this routine. */
  predicate IssuedIn(h: History, runnerID: int) {
    h.Then? && ((h.last.Asked? && h.last.request.GenerateJITConfig? && h.last.answer == Issued(runnerID))
                || IssuedIn(h.past, runnerID))
  }

  /** The routine has not committed anything that may end its claim. */
  predicate Holds(h: History) {
    h.Then? ==> Holds(h.past) && !(h.last.Did? && h.last.action.Alter? && Releases(h.last.action.mutation))
  }

  /** The runner registration the record carries, as far as the routine's own commits tell. */
  function RegisteredID(start: Record, h: History): int {
    if h.Begin? then start.runnerID
    else if h.last.Did? && h.last.action.Register? then h.last.action.runnerID
    else if h.last.Did? && h.last.action == Alter(ClearJIT) then 0
    else RegisteredID(start, h.past)
  }

  /** Provider absence was observed and the store confirmed it across the settle window. */
  predicate ConfirmedMissing(cfg: Config, h: History) {
    h.Then? &&
    ((h.last.Did? && h.last.action == Alter(ObserveRunnerMissing)
      && AbsenceConfirmed(h.last.commitment.after, Provider, h.last.commitment.now, cfg.settle, cfg.confirmations))
     || ConfirmedMissing(cfg, h.past))
  }

  /** The routine has journaled the provider's acceptance of the deletion. */
  predicate AcceptanceJournaled(h: History) {
    h.Then? && ((h.last.Did? && h.last.action.Alter? && h.last.action.mutation.AcceptDeletion?)
        || AcceptanceJournaled(h.past))
  }

  /** Why the reaper listed a record. */
  datatype Listing = ListedProvisioned | ListedExpired(cutoff: Time) | ListedInstance | ListedRunner

  predicate Selected(r: Record, listing: Listing, now: Time) {
    match listing
    case ListedProvisioned => r.status.Provisioned?
    case ListedExpired(cutoff) => ListedAsExpired(r, now, cutoff)
    case ListedInstance => r.status.Orphaned?
    case ListedRunner => r.status.Orphaned?
  }

  /** What the routine was started for; a worker knows whether the controller was shutting down. */
  datatype Role = Provisioner(canceled: bool) | Deleter(canceled: bool) | Reaper(listing: Listing, listed: Time)

  /** A routine works on the record it was started with: its claim-time or listing-time snapshot. */
  datatype Facts = Facts(role: Role, start: Record, history: History)
  {
    function Now(x: Happening): Facts { this.(history := Then(history, x)) }
  }

  /** The registration the snapshot names is gone. */
  predicate RunnerRemoved(f: Facts) {
    f.start.OwnsRunnerID() ==>
      Heard(f.history, RemoveRunner(f.start.job.owner, f.start.job.repository, f.start.runnerID), Agreed)
  }

  /**
   The provider told this routine that the snapshot's instance is absent, or that its deletion is
   done or accepted.
   */
  predicate InstanceGone(cfg: Config, f: Facts) {
    || Heard(f.history, DeleteRunner(f.start.instanceID, f.start.job.key), Agreed)
    || Heard(f.history, RunnerAbsent(f.start.instanceID), IsAbsent(true))
    || Heard(f.history, CleanupRunner(f.start.job.key), Agreed)
    || (Heard(f.history, FindRunner(f.start.job.key), NotLocated) && ConfirmedMissing(cfg, f.history))
  }

  /** The provider's resources are gone; where absence can be checked, only confirmed absence counts. */
  predicate ProviderCleaned(cfg: Config, f: Facts) {
    if cfg.confirmsAbsence
    then Heard(f.history, RunnerAbsent(f.start.instanceID), IsAbsent(true))
         && Heard(f.history, CleanupRunnerExcept(f.start.job.key, f.start.instanceID), Agreed)
    else Heard(f.history, DeleteRunner(f.start.instanceID, f.start.job.key), Agreed)
         && Heard(f.history, CleanupRunner(f.start.job.key), Agreed)
  }

  predicate CleanedUp(cfg: Config, f: Facts) { ProviderCleaned(cfg, f) && RunnerRemoved(f) }

  /** The last thing the routine did was to read the record as not completed and hear that the job is queued. */
  predicate DemandConfirmed(f: Facts) {
    && f.history.Then? && f.history.last.Asked?
    && f.history.last.request == AskJob(f.start.job.owner, f.start.job.repository, f.start.job.jobID)
    && f.history.last.answer == JobIs(JobQueued)
    && f.history.past.Then? && f.history.past.last.Read?
    && f.history.past.last.current.Some? && !f.history.past.last.current.value.jobCompleted
  }

  /** Demand was confirmed, and before that the registration had been made durable. */
  predicate Gated(f: Facts) {
    && DemandConfirmed(f)
    && f.history.past.past.Then? && f.history.past.past.last.Did? && f.history.past.past.last.action.Register?
  }

  // The rules

  predicate MayProvision(cfg: Config, f: Facts, m: Mutation) {
    match m
    case ReleaseClaim(kind) => kind.Provision?
    case DeferRateLimitedWork(kind, _, _, _) => kind.Provision?
    case DeferProvisioningDemand(_, _) => true
    case MarkProvisioned(instanceID, runnerID, _) =>
      !instanceID.NoInstance? && runnerID != 0 && runnerID == RegisteredID(f.start, f.history)
    case MarkProvisionFailed(_, _, max) => max == cfg.maxAttempts
    case ClearJIT => true
    case MarkDeleted => true
    case MarkOrphaned(_) => true
    case _ => false
  }

  predicate MayDelete(cfg: Config, f: Facts, m: Mutation) {
    match m
    case ReleaseClaim(kind) => kind.Delete?
    case ClearJIT => true
    case MarkOrphaned(_) => true
    case DeferRateLimitedWork(kind, _, _, _) => kind.Delete? && f.start.provider == cfg.provider
    case AcceptDeletion(instanceID) =>
      && f.start.provider == cfg.provider && cfg.confirmsAbsence && instanceID == f.start.instanceID
      && Heard(f.history, DeleteRunner(instanceID, f.start.job.key), Agreed)
    case DeferDeletionConfirmation(_, _) => f.start.provider == cfg.provider
    case DeferReassignmentDemand(_, _) => f.start.provider == cfg.provider && CleanedUp(cfg, f)
    case MarkDeleteFailed(_, _, max) => f.start.provider == cfg.provider && max == cfg.maxAttempts
    case FinishDeletedRunner(queued) =>
      && f.start.provider == cfg.provider && CleanedUp(cfg, f)
      && (queued <==> f.start.recheckDemand && !f.start.jobCompleted && DemandConfirmed(f))
    case _ => false
  }

  /** Listed without a claim and without an instance. */
  predicate Untracked(r: Record) { r.instanceID.NoInstance? && r.claim.NoWork? }

  predicate MayReap(cfg: Config, f: Facts, m: Mutation) {
    match m
    case ScheduleDeletion => true
    case ObserveRunnerMissing => true
    case ObserveGitHubRunnerMissing => true
    case ClearProviderMissing => true
    case ClearGitHubMissing => true
    case RecordRunnerSeen => true
    case ClearRunnerMissing => true
    case DeferReconciliation(_, _, max, _, _) => max == cfg.maxAttempts
    case DeferOrphanCleanup(_, _) => true
    case BeginCleanupAttempt(max) => max == cfg.maxAttempts
    case DeferRateLimitedCleanup(_, _, max, _) => max == cfg.maxAttempts && Untracked(f.start)
    case MarkDeleteFailed(_, _, max) => max == cfg.maxAttempts && Untracked(f.start)
    case MarkDeleted =>
      && Untracked(f.start) && RunnerRemoved(f)
      && Heard(f.history, CleanupRunner(f.start.job.key), Agreed)
    case MarkOrphaned(_) => Untracked(f.start) || f.start.provider != cfg.provider
    case ClearJIT =>
      f.start.OwnsRunnerID() && RunnerRemoved(f)
    case ReleaseAbsentOrphan(instanceID) =>
      instanceID == f.start.instanceID && Heard(f.history, RunnerAbsent(instanceID), IsAbsent(true))
    case RequeueMissingRunner(max) =>
      f.start.provider == cfg.provider && max == cfg.maxAttempts && InstanceGone(cfg, f) && RunnerRemoved(f)
    case _ => false
  }

  predicate MayDo(cfg: Config, f: Facts, action: Action) {
    match f.role
    case Provisioner(_) =>
      Holds(f.history) && (match action
        case Register(runnerID, _) => runnerID != 0 && IssuedIn(f.history, runnerID)
        case Alter(m) => MayProvision(cfg, f, m))
    case Deleter(_) => Holds(f.history) && action.Alter? && MayDelete(cfg, f, action.mutation)
    case Reaper(_, _) => action.Alter? && MayReap(cfg, f, action.mutation)
  }

  predicate MayAsk(cfg: Config, f: Facts, request: Request) {
    match request
    case RemoveRunner(owner, repository, runnerID) =>
      && owner == f.start.job.owner && repository == f.start.job.repository && runnerID != 0
      && ((f.start.runnerOwned && runnerID == f.start.runnerID) || IssuedIn(f.history, runnerID))
    case GenerateJITConfig(owner, repository, _) =>
      f.role.Provisioner? && Holds(f.history) && owner == f.start.job.owner && repository == f.start.job.repository
    case CreateRunner(key, epoch, _) =>
      f.role.Provisioner? && Holds(f.history) && Gated(f) && key == f.start.job.key && epoch == f.start.epoch
    case DeleteRunner(instanceID, key) =>
      && key == f.start.job.key
      && (f.role.Deleter? ==>
           && Holds(f.history) && f.start.provider == cfg.provider && instanceID == f.start.instanceID
           && (cfg.confirmsAbsence ==> f.start.acceptedID != instanceID && !AcceptanceJournaled(f.history)))
    case CleanupRunner(key) => key == f.start.job.key
    case CleanupRunnerExcept(key, instanceID) => key == f.start.job.key && instanceID == f.start.instanceID
    case _ => true
  }

  /** What a routine can rely on when it reads its record. */
  predicate Readable(f: Facts, current: Option<Record>) {
    f.role.Provisioner? && Holds(f.history) ==> current.Some? && current.value.instanceID.NoInstance?
  }
}
