/**
 Why a routine does what it does: every commit, every request and every stop has a cause in what the
 routine has learnt, and the causes of different actions exclude each other. The rules of module
 Protocol say what keeps the store and the outside world sound; these say what each step is for.
 */
module Causes {
  import opened Lifecycle
  import opened Invariants
  import opened RunProperties
  import opened Protocol

  // What went wrong

  /** A request failed, absence is not confirmed, the record is gone, or a save failed. */
  predicate WentWrong(x: Happening) {
    match x
    case Asked(_, answer, _) => answer.Faulted? || answer == IsAbsent(false)
    case Read(current, _) => current.None?
    case Did(_, _) => false
    case DidNot(_, _) => true
  }

  /** The fault reported; whatever else goes wrong is an ordinary failure. */
  function FaultIn(x: Happening): Fault {
    if x.Asked? && x.answer.Faulted? then x.answer.fault else OtherFailure
  }

  /** It failed because the controller is stopping or the routine's deadline has passed. */
  predicate CutShort(x: Happening) {
    WentWrong(x) && (x.tick.expired || FaultIn(x).Cancelled?)
  }

  /** A throttled request is repeated when the throttle ends, anything else after the controller's delay. */
  function RetryTime(cfg: Config, x: Happening): Time
    requires WentWrong(x)
  {
    if FaultIn(x).RateLimited? then FaultIn(x).resetAt else cfg.backoff(x.tick.now)
  }

  // What the routine asks for

  function OwnJob(start: Record): Request { AskJob(start.job.owner, start.job.repository, start.job.jobID) }

  function Removal(start: Record, runnerID: int): Request {
    RemoveRunner(start.job.owner, start.job.repository, runnerID)
  }

  function OwnRunner(start: Record): Request {
    AskRunner(start.job.owner, start.job.repository, start.runnerID)
  }

  predicate Foreign(cfg: Config, f: Facts) { f.start.provider != cfg.provider }

  predicate Requested(h: History, request: Request) {
    h.Then? && ((h.last.Asked? && h.last.request == request) || Requested(h.past, request))
  }

  /** The registration the record carries now, if any, was given to GitHub to remove. */
  predicate RemovalTried(f: Facts) {
    var id := RegisteredID(f.start, f.history);
    id == 0 || (id == f.start.runnerID && !f.start.runnerOwned) || Requested(f.history, Removal(f.start, id))
  }

  /** GitHub has just removed the registration; one that was cleared before may be removed once more. */
  predicate JustRemoved(f: Facts) {
    && f.history.Then? && f.history.last.Asked? && f.history.last.answer == Agreed
    && f.history.last.request.RemoveRunner?
    && f.history.last.request == Removal(f.start, f.history.last.request.runnerID)
    && (RegisteredID(f.start, f.history) == 0 || RegisteredID(f.start, f.history) == f.history.last.request.runnerID)
  }

  /** GitHub has just removed the snapshot's registration. */
  predicate OwnJustRemoved(f: Facts) { Answered(f.history, Removal(f.start, f.start.runnerID), Agreed) }

  // Demand

  datatype Demand = Unasked | Wanted | Unwanted

  /** What the routine has last learnt about its job: from its record, or from GitHub. */
  function DemandOf(start: Record, h: History): Demand {
    if h.Begin? then Unasked
    else match h.last
      case Read(current, _) =>
        if current.Some? && current.value.jobCompleted then Unwanted else DemandOf(start, h.past)
      case Asked(request, answer, _) =>
        if request == OwnJob(start) && answer.JobIs? then (if answer.job.JobQueued? then Wanted else Unwanted)
        else DemandOf(start, h.past)
      case _ => DemandOf(start, h.past)
  }

  // Provisioning

  datatype Failure = NoFailure | Failure(fault: Fault, tick: Tick)

  predicate FailedToRegister(h: History) { h.Then? && h.last.DidNot? && h.last.action.Register? }

  /**
   Something about the job's demand is unclear, and there is time left: the routine cannot learn
   whether the job is queued, or cannot give up the registration of a job that is not.
   */
  predicate DemandUnclear(start: Record, h: History) {
    && h.Then? && WentWrong(h.last) && !h.last.tick.expired
    && match h.last
       case Asked(request, _, _) => request.AskJob? || (request.RemoveRunner? && DemandOf(start, h).Unwanted?)
       case Read(_, _) => true
       case DidNot(action, _) => action == Alter(ClearJIT) && DemandOf(start, h).Unwanted?
       case _ => false
  }

  /** The failure that ends a provision attempt. Whatever comes after it only cleans up. */
  function FailureOf(start: Record, h: History): Failure {
    if h.Begin? then NoFailure
    else if FailureOf(start, h.past).Failure? then FailureOf(start, h.past)
    else match h.last
      case Asked(request, answer, tick) =>
        if request.DeleteRunner? then Failure(FaultIn(h.last), tick)
        else if request.RemoveRunner? && FailedToRegister(h.past) then Failure(OtherFailure, tick)
        else if answer.Faulted? && !DemandUnclear(start, h) then Failure(answer.fault, tick)
        else NoFailure
      case DidNot(action, tick) =>
        if action.Register? || DemandUnclear(start, h) then NoFailure else Failure(OtherFailure, tick)
      case _ => NoFailure
  }

  /** An attempt failed for a reason that counts: it was neither cut short nor throttled, and nothing is left open. */
  predicate AttemptFailed(f: Facts) {
    var failure := FailureOf(f.start, f.history);
    failure.Failure? && !failure.fault.Cancelled? && !failure.fault.RateLimited? && !failure.fault.OutcomeUnknown?
  }

  predicate LastAttempt(cfg: Config, f: Facts) { f.start.attempts >= cfg.maxAttempts }

  /** The provider has just named the instance: found under the record's name, or created for its registration. */
  predicate JustNamed(f: Facts, instanceID: InstanceID, name: string) {
    || Answered(f.history, FindRunner(f.start.job.key), Located(instanceID, name))
    || Answered(f.history, CreateRunner(f.start.job.key, f.start.epoch, name), Created(instanceID))
  }

  predicate CauseToProvision(cfg: Config, f: Facts, m: Mutation)
    requires f.role.Provisioner?
  {
    var failure := FailureOf(f.start, f.history);
    match m
    case ReleaseClaim(_) => f.role.canceled || (failure.Failure? && failure.fault.Cancelled?)
    case DeferRateLimitedWork(_, _, retryAt, max) =>
      max == cfg.maxAttempts && failure.Failure? && failure.fault == RateLimited(retryAt)
    case DeferProvisioningDemand(_, retryAt) =>
      failure.NoFailure? && DemandUnclear(f.start, f.history) && retryAt == RetryTime(cfg, f.history.last)
    case MarkProvisioned(instanceID, _, name) => JustNamed(f, instanceID, name)
    case MarkProvisionFailed(_, retryAt, _) =>
      && AttemptFailed(f) && retryAt == cfg.backoff(failure.tick.now)
      && (LastAttempt(cfg, f) ==>
           && Requested(f.history, CleanupRunner(f.start.job.key))
           && !Heard(f.history, CleanupRunner(f.start.job.key), Faulted(OwnershipMismatch)) && RemovalTried(f))
    case ClearJIT => JustRemoved(f)
    case MarkDeleted =>
      && DemandOf(f.start, f.history).Unwanted? && failure.NoFailure? && RegisteredID(f.start, f.history) == 0
      && f.history.last.Read? && f.history.last.current.Some? && f.history.last.current.value.instanceID.NoInstance?
    case MarkOrphaned(_) =>
      && RemovalTried(f)
      && (|| Foreign(cfg, f) || (failure.Failure? && failure.fault.OutcomeUnknown?)
          || (AttemptFailed(f) && LastAttempt(cfg, f)
              && Heard(f.history, CleanupRunner(f.start.job.key), Faulted(OwnershipMismatch))))
    case _ => false
  }

  predicate CauseToRegister(f: Facts, runnerID: int, name: string) {
    && RegisteredID(f.start, f.history) == 0
    && Answered(f.history, GenerateJITConfig(f.start.job.owner, f.start.job.repository, name), Issued(runnerID))
  }

  predicate ProvisionerMayAsk(cfg: Config, f: Facts, request: Request) {
    var failure := FailureOf(f.start, f.history);
    match request
    case RemoveRunner(_, _, runnerID) =>
      || Foreign(cfg, f) || failure.Failure? || FailedToRegister(f.history)
      || (runnerID == RegisteredID(f.start, f.history) && !DemandUnclear(f.start, f.history) && !Gated(f)
          && !DemandOf(f.start, f.history).Unasked?)
    case CleanupRunner(_) => AttemptFailed(f) && LastAttempt(cfg, f)
    case FindRunner(key) => key == f.start.job.key && f.history.Begin? && !Foreign(cfg, f)
    case DeleteRunner(instanceID, _) =>
      && !Foreign(cfg, f) && f.start.runnerID == 0
      && f.history.Then? && f.history.last.Asked? && f.history.last.answer.Located?
      && f.history.last.request == FindRunner(f.start.job.key) && f.history.last.answer.instanceID == instanceID
    case AskJob(_, _, _) =>
      && request == OwnJob(f.start) && failure.NoFailure? && !Foreign(cfg, f)
      && f.history.Then? && f.history.last.Read? && f.history.last.current.Some?
      && !f.history.last.current.value.jobCompleted
    case GenerateJITConfig(_, _, name) =>
      && DemandOf(f.start, f.history).Wanted? && failure.NoFailure? && !DemandUnclear(f.start, f.history)
      && RegisteredID(f.start, f.history) == 0 && name == cfg.nameOf(f.start.job)
    case CreateRunner(_, _, name) =>
      failure.NoFailure? && Gated(f) && name == f.history.past.past.last.action.runnerName
    case _ => false
  }

  /** A provision worker reads its record at a gate, and again before it deletes a record nobody wants. */
  predicate ProvisionerMayLook(cfg: Config, f: Facts) {
    && !Foreign(cfg, f) && FailureOf(f.start, f.history).NoFailure? && f.history.Then?
    && (|| Answered(f.history, FindRunner(f.start.job.key), NotLocated)
        || (f.history.last.Did? && f.history.last.action.Register?)
        || (DemandOf(f.start, f.history).Unwanted? && RegisteredID(f.start, f.history) == 0
            && !WentWrong(f.history.last)
            && !(f.history.last.Read? && DemandOf(f.start, f.history.past).Unwanted?)))
  }

  // Deleting

  /** The record was claimed owing a recheck of its job's demand. */
  predicate Owed(f: Facts) { f.start.recheckDemand && !f.start.jobCompleted }

  /** The provider refused to delete the instance because it is not the controller's. */
  predicate Refused(start: Record, h: History) {
    h.Then? && ((Answered(h, DeleteRunner(start.instanceID, start.job.key), Faulted(OwnershipMismatch))
                 && !h.last.tick.expired) || Refused(start, h.past))
  }

  predicate Accepted(f: Facts) { f.start.acceptedID == f.start.instanceID || AcceptanceJournaled(f.history) }

  predicate FailedToFinish(h: History) {
    h.Then? && h.last.DidNot? && h.last.action.Alter? && h.last.action.mutation.FinishDeletedRunner?
  }

  predicate DemandRead(f: Facts) {
    f.history.Then? && f.history.last.Read? && f.history.last.current.Some? && f.history.last.current.value.jobCompleted
  }

  predicate DemandAnswered(f: Facts) {
    && f.history.Then?
    && f.history.last.Asked? && f.history.last.request == OwnJob(f.start) && f.history.last.answer.JobIs?
  }

  /** What may fail a deletion so that its attempt counts. */
  predicate DeletionFailed(f: Facts, x: Happening) {
    && WentWrong(x) && !CutShort(x)
    && match x
       case Asked(request, _, _) =>
         && (request.DeleteRunner? || request.CleanupRunner? || request.CleanupRunnerExcept? || request.RemoveRunner?)
         && (request.RemoveRunner? ==> !FaultIn(x).RateLimited?)
       case DidNot(action, _) => action.Alter? && action.mutation.AcceptDeletion?
       case _ => false
  }

  predicate CauseToDelete(cfg: Config, f: Facts, m: Mutation)
    requires f.role.Deleter?
  {
    match m
    case ReleaseClaim(_) =>
      || f.role.canceled
      || (f.history.Then? && (CutShort(f.history.last) || (f.history.last.DidNot? && ReleasesAfter(f.history))))
    case MarkDeleteFailed(_, retryAt, _) =>
      && f.history.Then? && !Refused(f.start, f.history)
      && (DeletionFailed(f, f.history.last) || FailedToFinish(f.history))
      && retryAt == cfg.backoff(f.history.last.tick.now)
    case AcceptDeletion(instanceID) => Answered(f.history, DeleteRunner(instanceID, f.start.job.key), Agreed)
    case DeferDeletionConfirmation(_, retryAt) =>
      && cfg.confirmsAbsence && Accepted(f) && f.history.Then? && f.history.last.Asked?
      && f.history.last.request == RunnerAbsent(f.start.instanceID) && WentWrong(f.history.last)
      && !CutShort(f.history.last) && retryAt == cfg.backoff(f.history.last.tick.now)
    case DeferReassignmentDemand(_, retryAt) =>
      && Owed(f) && f.history.Then? && WentWrong(f.history.last) && !CutShort(f.history.last)
      && (f.history.last.Read? || (f.history.last.Asked? && f.history.last.request == OwnJob(f.start)))
      && retryAt == RetryTime(cfg, f.history.last)
    case DeferRateLimitedWork(_, _, retryAt, max) =>
      && max == cfg.maxAttempts && ProviderCleaned(cfg, f) && f.history.Then? && !CutShort(f.history.last)
      && Answered(f.history, Removal(f.start, f.start.runnerID), Faulted(RateLimited(retryAt)))
    case FinishDeletedRunner(_) => Owed(f) ==> DemandRead(f) || DemandAnswered(f)
    case MarkOrphaned(_) => RemovalTried(f) && (Foreign(cfg, f) || Refused(f.start, f.history))
    case ClearJIT => OwnJustRemoved(f) && (Foreign(cfg, f) || Refused(f.start, f.history))
    case _ => false
  }

  /** The claim is released where even the note about the failure cannot be saved. */
  predicate ReleasesAfter(h: History)
    requires h.Then? && h.last.DidNot?
  {
    && h.last.action.Alter?
    && (h.last.action.mutation.DeferDeletionConfirmation?
        || (h.last.action.mutation.MarkDeleteFailed? && FailedToFinish(h.past)))
  }

  predicate DeleterMayAsk(cfg: Config, f: Facts, request: Request) {
    match request
    case DeleteRunner(_, _) => f.history.Begin?
    case RunnerAbsent(instanceID) => instanceID == f.start.instanceID && cfg.confirmsAbsence && Accepted(f)
    case CleanupRunnerExcept(_, instanceID) =>
      cfg.confirmsAbsence && Answered(f.history, RunnerAbsent(instanceID), IsAbsent(true))
    case CleanupRunner(_) =>
      !cfg.confirmsAbsence && Answered(f.history, DeleteRunner(f.start.instanceID, f.start.job.key), Agreed)
    case RemoveRunner(_, _, _) => Foreign(cfg, f) || Refused(f.start, f.history) || ProviderCleaned(cfg, f)
    case AskJob(_, _, _) =>
      && request == OwnJob(f.start) && CleanedUp(cfg, f) && Owed(f) && f.history.Then? && f.history.last.Read?
      && f.history.last.current.Some? && !f.history.last.current.value.jobCompleted
    case _ => false
  }

  /** A delete worker reads its record once, to recheck a demand it owes behind the whole cleanup. */
  predicate DeleterMayLook(cfg: Config, f: Facts) {
    CleanedUp(cfg, f) && Owed(f) && f.history.Then? && !f.history.last.Read? && !WentWrong(f.history.last)
  }

  // Liveness

  /** The snapshot was due for a check when it was listed. */
  predicate CheckDue(cfg: Config, f: Facts)
    requires f.role.Reaper?
  {
    && f.start.nextAttemptAt <= f.role.listed
    && (f.start.registeredAt == ZERO_TIME || f.start.reconciledAt + cfg.checkInterval <= f.role.listed)
  }

  predicate HeardLocated(h: History, key: string) {
    h.Then? && ((h.last.Asked? && h.last.request == FindRunner(key) && h.last.answer.Located?)
                || HeardLocated(h.past, key))
  }

  /** The instance is there, and its job is over: the record says so, or GitHub does. */
  predicate JobOver(f: Facts) {
    && HeardLocated(f.history, f.start.job.key)
    && (f.start.jobCompleted || Heard(f.history, OwnJob(f.start), JobIs(JobDone)))
  }

  /** The instance is there, and its job is queued or running. */
  predicate JobOpen(f: Facts) {
    && HeardLocated(f.history, f.start.job.key) && !f.start.jobCompleted
    && (Heard(f.history, OwnJob(f.start), JobIs(JobQueued)) || Heard(f.history, OwnJob(f.start), JobIs(JobInProgress)))
  }

  predicate ProviderMisses(f: Facts) { Heard(f.history, FindRunner(f.start.job.key), NotLocated) }

  /** The runner has registered before, or has had its time to do so. */
  predicate GraceOver(cfg: Config, start: Record, now: Time) {
    start.registeredAt != ZERO_TIME || start.provisionedAt + cfg.registrationTimeout <= now
  }

  predicate JustDid(h: History, m: Mutation) { h.Then? && h.last.Did? && h.last.action == Alter(m) }

  /** GitHub has been missing the runner of an open job across the settle window, and the startup grace is over. */
  predicate GitHubGone(cfg: Config, start: Record, h: History) {
    && JustDid(h, ObserveGitHubRunnerMissing) && Answered(h.past, OwnRunner(start), RunnerIs(RunnerMissing))
    && h.last.commitment.before.status.Provisioned?
    && AbsenceConfirmed(h.last.commitment.after, GitHub, h.last.commitment.now, cfg.settle, cfg.confirmations)
    && GraceOver(cfg, start, h.last.commitment.now)
  }

  predicate ProviderGone(cfg: Config, h: History) {
    && JustDid(h, ObserveRunnerMissing) && h.last.commitment.before.status.Provisioned?
    && AbsenceConfirmed(h.last.commitment.after, Provider, h.last.commitment.now, cfg.settle, cfg.confirmations)
  }

  predicate ProviderWasGone(cfg: Config, h: History) {
    h.Then? && (ProviderGone(cfg, h) || ProviderWasGone(cfg, h.past))
  }

  /** GitHub has seen the runner, so it is not missing; this is what it saw. */
  predicate JustSeen(start: Record, h: History, status: RunnerStatus) {
    JustDid(h, ClearRunnerMissing) && Answered(h.past, OwnRunner(start), RunnerIs(status))
  }

  /** The runner has never come online, and its time to do so is over. */
  predicate NeverOnline(cfg: Config, start: Record, h: History) {
    h.Then? && ((JustSeen(start, h, RunnerOffline) && start.registeredAt == ZERO_TIME
                 && GraceOver(cfg, start, h.last.commitment.now)) || NeverOnline(cfg, start, h.past))
  }

  /** The removed registration is forgotten before the deletion is scheduled. */
  predicate RegistrationCleared(f: Facts) { f.start.OwnsRunnerID() ==> RegisteredID(f.start, f.history) == 0 }

  predicate CauseToReconcile(cfg: Config, f: Facts, m: Mutation) {
    match m
    case ScheduleDeletion =>
      || (JobOver(f) && RunnerRemoved(f) && RegistrationCleared(f))
      || GitHubGone(cfg, f.start, f.history)
    case ObserveRunnerMissing =>
      ProviderMisses(f) && (f.start.githubMissingChecks != 0 ==> JustDid(f.history, ClearGitHubMissing))
    case ClearGitHubMissing => ProviderMisses(f) && f.start.githubMissingChecks != 0
    case ClearProviderMissing => JobOpen(f) && f.start.missingChecks != 0
    case ObserveGitHubRunnerMissing => Answered(f.history, OwnRunner(f.start), RunnerIs(RunnerMissing))
    case ClearRunnerMissing =>
      || Answered(f.history, OwnRunner(f.start), RunnerIs(RunnerOnline))
      || Answered(f.history, OwnRunner(f.start), RunnerIs(RunnerOffline))
    case RecordRunnerSeen => JustSeen(f.start, f.history, RunnerOnline) && f.start.registeredAt == ZERO_TIME
    case DeferReconciliation(_, _, _, _, _) => BacksOff(cfg, f, m)
    case RequeueMissingRunner(_) =>
      || ProviderWasGone(cfg, f.history)
      || Heard(f.history, CleanupRunner(f.start.job.key), Agreed)
      || (NeverOnline(cfg, f.start, f.history)
          && Heard(f.history, DeleteRunner(f.start.instanceID, f.start.job.key), Agreed))
    case ClearJIT => OwnJustRemoved(f) && JobOver(f)
    case _ => false
  }

  /** The check could not be made: it is repeated later, and rejections and throttles are counted. */
  predicate BacksOff(cfg: Config, f: Facts, m: Mutation)
    requires m.DeferReconciliation?
  {
    && f.history.Then? && WentWrong(f.history.last) && m.retryAt == RetryTime(cfg, f.history.last)
    && (m.countFailure <==> FaultIn(f.history.last).ClientRejected?)
    && (m.countThrottle <==> FaultIn(f.history.last).RateLimited?)
    && match f.history.last
       case Asked(request, answer, _) =>
         || request.AskJob? || request.AskRunner? || request.RemoveRunner?
         || (request.FindRunner? && answer != Faulted(Duplicates))
       case DidNot(action, _) => action == Alter(ClearJIT)
       case _ => false
  }

  predicate ReconcilerMayAsk(cfg: Config, f: Facts, request: Request)
    requires f.role.Reaper?
  {
    match request
    case FindRunner(key) => key == f.start.job.key && f.history.Begin? && !Foreign(cfg, f) && CheckDue(cfg, f)
    case AskJob(_, _, _) =>
      && request == OwnJob(f.start) && !f.start.jobCompleted && f.history.Then? && f.history.last.Asked?
      && f.history.last.request == FindRunner(f.start.job.key) && f.history.last.answer.Located?
    case AskRunner(_, _, _) =>
      && request == OwnRunner(f.start) && JobOpen(f) && f.history.Then?
      && (if f.start.missingChecks != 0 then JustDid(f.history, ClearProviderMissing)
          else f.history.last.Asked? && f.history.last.request == OwnJob(f.start))
    case RemoveRunner(_, _, runnerID) =>
      && runnerID == f.start.runnerID && !Requested(f.history, request)
      && (|| JobOver(f) || ProviderGone(cfg, f.history) || NeverOnline(cfg, f.start, f.history)
          || Answered(f.history, CleanupRunner(f.start.job.key), Agreed))
    case DeleteRunner(instanceID, _) =>
      && instanceID == f.start.instanceID && NeverOnline(cfg, f.start, f.history) && RunnerRemoved(f)
      && !Requested(f.history, request)
    case CleanupRunner(_) => Answered(f.history, FindRunner(f.start.job.key), Faulted(Duplicates))
    case _ => false
  }

  predicate ReconcilerMayStop(cfg: Config, f: Facts)
    requires f.role.Reaper?
  {
    if f.history.Begin? then Foreign(cfg, f) || !CheckDue(cfg, f)
    else match f.history.last
      case Did(action, c) =>
        && action.Alter?
        && (match action.mutation
           case ScheduleDeletion => true
           case RequeueMissingRunner(_) => true
           case DeferReconciliation(_, _, _, _, _) => true
           case RecordRunnerSeen => true
           case ObserveRunnerMissing => !ProviderGone(cfg, f.history)
           case ObserveGitHubRunnerMissing => !GitHubGone(cfg, f.start, f.history)
           case ClearRunnerMissing =>
             && !(JustSeen(f.start, f.history, RunnerOnline) && f.start.registeredAt == ZERO_TIME)
             && !(JustSeen(f.start, f.history, RunnerOffline) && f.start.registeredAt == ZERO_TIME
                  && GraceOver(cfg, f.start, c.now))
           case _ => false)
      case DidNot(action, _) => action != Alter(ClearJIT)
      case Asked(request, answer, _) => answer.Faulted? && (request.DeleteRunner? || request.CleanupRunner?)
      case _ => false
  }

  // Expiry

  /** The cleanup of a record without an instance has been charged for. */
  predicate CleanupBegun(cfg: Config, h: History) {
    h.Then? && (CleanupReserved(cfg, h) || CleanupBegun(cfg, h.past))
  }

  predicate CleanupReserved(cfg: Config, h: History) {
    && JustDid(h, BeginCleanupAttempt(cfg.maxAttempts))
    && var c := h.last.commitment;
       && !c.before.Terminal() && c.before.claim.NoWork? && c.before.nextAttemptAt <= c.now
       && c.before.deleteAttempts < cfg.maxAttempts
  }

  predicate NotOwned(h: History) {
    h.Then? && ((h.last.Asked? && (h.last.request.RemoveRunner? || h.last.request.CleanupRunner?)
                 && h.last.answer == Faulted(OwnershipMismatch)) || NotOwned(h.past))
  }

  /** Expiry on a record with an instance, whose runner must first be deregistered if its deletion is deferred. */
  predicate ExpiresInstance(cfg: Config, f: Facts) { !Foreign(cfg, f) && !f.start.instanceID.NoInstance? }

  predicate CleansUntracked(cfg: Config, f: Facts) {
    && !Foreign(cfg, f) && Untracked(f.start) && CleanupBegun(cfg, f.history) && f.history.Then?
    && f.history.last.Asked? && (f.history.last.request.RemoveRunner? || f.history.last.request.CleanupRunner?)
  }

  predicate CauseToExpire(cfg: Config, f: Facts, m: Mutation) {
    match m
    case ScheduleDeletion =>
      ExpiresInstance(cfg, f) && (f.start.deferDeletion ==> RunnerRemoved(f) && RegistrationCleared(f))
    case DeferReconciliation(_, _, _, _, _) => ExpiresInstance(cfg, f) && f.start.deferDeletion && BacksOff(cfg, f, m)
    case BeginCleanupAttempt(_) => !Foreign(cfg, f) && Untracked(f.start) && f.history.Begin?
    case DeferRateLimitedCleanup(_, retryAt, _, throttled) =>
      && CleansUntracked(cfg, f) && WentWrong(f.history.last) && !FaultIn(f.history.last).OwnershipMismatch?
      && (throttled <==> FaultIn(f.history.last).RateLimited?) && (throttled || CutShort(f.history.last))
      && retryAt == RetryTime(cfg, f.history.last)
    case MarkDeleteFailed(_, retryAt, _) =>
      && CleansUntracked(cfg, f) && WentWrong(f.history.last) && !CutShort(f.history.last)
      && !FaultIn(f.history.last).OwnershipMismatch? && !FaultIn(f.history.last).RateLimited?
      && retryAt == cfg.backoff(f.history.last.tick.now)
    case MarkDeleted => CleansUntracked(cfg, f) && Answered(f.history, CleanupRunner(f.start.job.key), Agreed)
    case MarkOrphaned(_) =>
      RemovalTried(f) && (Foreign(cfg, f) || (CleanupBegun(cfg, f.history) && NotOwned(f.history)))
    case ClearJIT =>
      && OwnJustRemoved(f)
      && (|| Foreign(cfg, f) || (ExpiresInstance(cfg, f) && f.start.deferDeletion)
          || (CleanupBegun(cfg, f.history) && NotOwned(f.history)))
    case _ => false
  }

  predicate ExpiryMayAsk(cfg: Config, f: Facts, request: Request) {
    match request
    case RemoveRunner(_, _, _) =>
      || Foreign(cfg, f) || (ExpiresInstance(cfg, f) && f.start.deferDeletion)
      || (Untracked(f.start) && CleanupBegun(cfg, f.history))
    case CleanupRunner(_) =>
      !Foreign(cfg, f) && Untracked(f.start) && CleanupBegun(cfg, f.history) && RunnerRemoved(f)
    case _ => false
  }

  predicate ExpiryMayStop(cfg: Config, f: Facts) {
    && f.history.Then?
    && match f.history.last
       case Did(action, _) => action.Alter? && (ConcludesExpiry(action.mutation)
         || (action.mutation.BeginCleanupAttempt? && !CleanupReserved(cfg, f.history)))
       case DidNot(action, _) =>
         action.Alter? && (ConcludesExpiry(action.mutation) || action.mutation.BeginCleanupAttempt?)
       case _ => false
  }

  predicate ConcludesExpiry(m: Mutation) {
    || m.ScheduleDeletion? || m.DeferReconciliation? || m.DeferRateLimitedCleanup? || m.MarkDeleteFailed?
    || m.MarkDeleted? || m.MarkOrphaned?
  }

  // Orphans

  predicate CauseToTend(cfg: Config, f: Facts, m: Mutation)
    requires f.role.Reaper?
  {
    match m
    case ReleaseAbsentOrphan(instanceID) =>
      f.role.listing.ListedInstance? && Answered(f.history, RunnerAbsent(instanceID), IsAbsent(true))
    case DeferOrphanCleanup(_, retryAt) =>
      && f.role.listing.ListedRunner? && f.history.Then? && f.history.last.Asked?
      && f.history.last.request == Removal(f.start, f.start.runnerID) && WentWrong(f.history.last)
      && retryAt == RetryTime(cfg, f.history.last)
    case ClearJIT => f.role.listing.ListedRunner? && OwnJustRemoved(f)
    case _ => false
  }

  predicate TendsInstance(cfg: Config, f: Facts) {
    cfg.confirmsAbsence && !Foreign(cfg, f) && !f.start.instanceID.NoInstance?
  }

  predicate TendsRunner(f: Facts)
    requires f.role.Reaper?
  {
    f.start.OwnsRunnerID() && f.start.nextAttemptAt <= f.role.listed
  }

  predicate TenderMayAsk(cfg: Config, f: Facts, request: Request)
    requires f.role.Reaper?
  {
    && f.history.Begin?
    && match request
       case RunnerAbsent(instanceID) =>
         f.role.listing.ListedInstance? && TendsInstance(cfg, f) && instanceID == f.start.instanceID
       case RemoveRunner(_, _, _) => f.role.listing.ListedRunner? && TendsRunner(f)
       case _ => false
  }

  predicate TenderMayStop(cfg: Config, f: Facts)
    requires f.role.Reaper?
  {
    if f.history.Begin? then
      if f.role.listing.ListedInstance? then !TendsInstance(cfg, f) else !TendsRunner(f)
    else match f.history.last
      case Asked(request, answer, _) => request.RunnerAbsent? && answer != IsAbsent(true)
      case Read(_, _) => false
      case _ => true
  }

  // All roles

  predicate HasCause(cfg: Config, f: Facts, action: Action) {
    match f.role
    case Provisioner(canceled) =>
      && (canceled ==> f.history.Begin? && action == Alter(ReleaseClaim(Provision)))
      && (match action
          case Register(runnerID, name) => CauseToRegister(f, runnerID, name)
          case Alter(m) => CauseToProvision(cfg, f, m))
    case Deleter(canceled) =>
      && (canceled ==> f.history.Begin? && action == Alter(ReleaseClaim(Delete)))
      && action.Alter? && CauseToDelete(cfg, f, action.mutation)
    case Reaper(listing, _) =>
      && action.Alter?
      && match listing
         case ListedProvisioned => CauseToReconcile(cfg, f, action.mutation)
         case ListedExpired(_) => CauseToExpire(cfg, f, action.mutation)
         case _ => CauseToTend(cfg, f, action.mutation)
  }

  predicate HasReason(cfg: Config, f: Facts, request: Request) {
    match f.role
    case Provisioner(canceled) => !canceled && ProvisionerMayAsk(cfg, f, request)
    case Deleter(canceled) => !canceled && DeleterMayAsk(cfg, f, request)
    case Reaper(listing, _) =>
      match listing
      case ListedProvisioned => ReconcilerMayAsk(cfg, f, request)
      case ListedExpired(_) => ExpiryMayAsk(cfg, f, request)
      case _ => TenderMayAsk(cfg, f, request)
  }

  predicate MayLook(cfg: Config, f: Facts) {
    match f.role
    case Provisioner(canceled) => !canceled && ProvisionerMayLook(cfg, f)
    case Deleter(canceled) => !canceled && DeleterMayLook(cfg, f)
    case Reaper(_, _) => false
  }

  /** The commits a worker may end with although they were not saved. */
  predicate Concludes(h: History)
    requires h.Then? && h.last.DidNot?
  {
    && h.last.action.Alter?
    && match h.last.action.mutation
       case ReleaseClaim(_) => true
       case DeferRateLimitedWork(_, _, _, _) => true
       case DeferProvisioningDemand(_, _) => true
       case DeferReassignmentDemand(_, _) => true
       case MarkProvisionFailed(_, _, _) => true
       case MarkDeleteFailed(_, _, _) => !FailedToFinish(h.past)
       case MarkOrphaned(_) => true
       case _ => false
  }

  /** A worker stops when its claim is given up, or when giving it up could not be saved. */
  predicate WorkerMayStop(f: Facts) {
    !Holds(f.history) || (f.history.Then? && f.history.last.DidNot? && Concludes(f.history))
  }

  predicate MayStop(cfg: Config, f: Facts) {
    match f.role
    case Provisioner(_) => WorkerMayStop(f)
    case Deleter(_) => WorkerMayStop(f)
    case Reaper(listing, _) =>
      match listing
      case ListedProvisioned => ReconcilerMayStop(cfg, f)
      case ListedExpired(_) => ExpiryMayStop(cfg, f)
      case _ => TenderMayStop(cfg, f)
  }

  /** The action meets the rules and has its cause. */
  predicate Justified(cfg: Config, f: Facts, action: Action) { MayDo(cfg, f, action) && HasCause(cfg, f, action) }

  predicate Warranted(cfg: Config, f: Facts, request: Request) { MayAsk(cfg, f, request) && HasReason(cfg, f, request) }

  /**
   Whatever is answered and whether or not saves succeed: every action of the program meets the rules
   and has its cause, and the program stops only where it may. The rules are quoted over equal facts,
   so that they unfold only where they are spoken of.
   */
  greatest predicate Safe(cfg: Config, f: Facts, p: Program) {
    match p
    case Done => forall g {:trigger MayStop(cfg, g)} :: g == f ==> MayStop(cfg, g)
    case Get(next) =>
      && (forall g {:trigger MayLook(cfg, g)} :: g == f ==> MayLook(cfg, g))
      && forall current, t :: Readable(f, current) ==> Safe(cfg, f.Now(Read(current, t)), next(current, t))
    case Call(request, answered) =>
      && (forall g {:trigger Warranted(cfg, g, request)} :: g == f ==> Warranted(cfg, g, request))
      && forall answer, t ::
           Plausible(request, answer) ==> Safe(cfg, f.Now(Asked(request, answer, t)), answered(answer, t))
    case Commit(action, saved, failed) =>
      && (forall g {:trigger Justified(cfg, g, action)} :: g == f ==> Justified(cfg, g, action))
      && (forall c :: Safe(cfg, f.Now(Did(action, c)), saved(c)))
      && (forall t :: Safe(cfg, f.Now(DidNot(action, t)), failed(t)))
  }

  /** What a safe program does next meets the rules. */
  lemma SafeCommits(cfg: Config, f: Facts, p: Program)
    requires Safe(cfg, f, p) && p.Commit?
    ensures MayDo(cfg, f, p.action)
  {
    assert Justified(cfg, f, p.action);
  }

  lemma SafeAsks(cfg: Config, f: Facts, p: Program)
    requires Safe(cfg, f, p) && p.Call?
    ensures MayAsk(cfg, f, p.request)
  {
    assert Warranted(cfg, f, p.request);
  }

  /** What a safe program does next has its cause. */
  lemma SafeHasCause(cfg: Config, f: Facts, p: Program)
    requires Safe(cfg, f, p) && p.Commit?
    ensures HasCause(cfg, f, p.action)
  {
    assert Justified(cfg, f, p.action);
  }

  lemma SafeHasReason(cfg: Config, f: Facts, p: Program)
    requires Safe(cfg, f, p) && p.Call?
    ensures HasReason(cfg, f, p.request)
  {
    assert Warranted(cfg, f, p.request);
  }

  lemma SafeLooks(cfg: Config, f: Facts, p: Program)
    requires Safe(cfg, f, p) && p.Get?
    ensures MayLook(cfg, f)
  {
  }

  lemma SafeStops(cfg: Config, f: Facts, p: Program)
    requires Safe(cfg, f, p) && p.Done?
    ensures MayStop(cfg, f)
  {
  }
}
