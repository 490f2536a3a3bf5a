/**
 The worker routines of the controller: provisioning a claimed job and deleting a claimed
 instance, with every branch on a failed call or save.
 */
module Workers {
  import opened Wrappers
  import opened Lifecycle
  import opened Protocol

  /** Commits the action and stops, whether or not the save succeeds. */
  function Last(action: Action): Program { Commit(action, _ => Done, _ => Done) }

  /** When to retry after a fault: at the announced reset, or after the controller's own delay. */
  function RetryAt(cfg: Config, fault: Fault, t: Tick): Time {
    if fault.RateLimited? then fault.resetAt else cfg.backoff(t.now)
  }

  function FaultOf(answer: Answer): Fault { if answer.Faulted? then answer.fault else OtherFailure }

  function Deregister(r: Record, answered: (Answer, Tick) -> Program): Program {
    Call(RemoveRunner(r.job.owner, r.job.repository, r.runnerID), answered)
  }

  /** Terminal: the resource needs an operator. The registration is removed if that still works. */
  function MarkOrphanedLast(r: Record, cause: string): Program {
    var orphan := Last(Alter(MarkOrphaned(Cause(cause))));
    if r.OwnsRunnerID() then
      Deregister(r, (answer: Answer, t: Tick) =>
        if answer.Faulted? then orphan else Commit(Alter(ClearJIT), _ => orphan, _ => orphan))
    else orphan
  }

  /** Removes an idle runner's registration; GitHub refuses while it executes a job. */
  function RemoveIdleJIT(r: Record, removed: Program, refused: (Fault, Tick) -> Program): Program {
    if r.OwnsRunnerID() then
      Deregister(r, (answer: Answer, t: Tick) =>
        if answer.Faulted? then refused(answer.fault, t)
        else Commit(Alter(ClearJIT), _ => removed, (t: Tick) => refused(OtherFailure, t)))
    else removed
  }

  // Provisioning

  function MarkFailed(cfg: Config, t: Tick): Program {
    Last(Alter(MarkProvisionFailed(Cause("provision"), cfg.backoff(t.now), cfg.maxAttempts)))
  }

  /** The last attempt failed: nothing may be left behind. */
  function GiveUpProvisioning(cfg: Config, r: Record, t: Tick): Program {
    Call(CleanupRunner(r.job.key), (answer: Answer, _: Tick) =>
      if answer == Faulted(OwnershipMismatch) then MarkOrphanedLast(r, "failed provision requires operator cleanup")
      else if r.OwnsRunnerID() then
        Deregister(r, (answer: Answer, _: Tick) =>
          if answer.Faulted? then MarkFailed(cfg, t)
          else Commit(Alter(ClearJIT), _ => MarkFailed(cfg, t), _ => MarkFailed(cfg, t)))
      else MarkFailed(cfg, t))
  }

  function ProvisionFailed(cfg: Config, r: Record, fault: Fault, t: Tick): Program {
    if fault.Cancelled? then Last(Alter(ReleaseClaim(Provision)))
    else if fault.RateLimited? then
      Last(Alter(DeferRateLimitedWork(Provision, Cause("provision"), fault.resetAt, cfg.maxAttempts)))
    else if fault.OutcomeUnknown? then MarkOrphanedLast(r, "provider create outcome unknown")
    else if r.attempts >= cfg.maxAttempts then GiveUpProvisioning(cfg, r, t)
    else MarkFailed(cfg, t)
  }

  /** Demand cannot be confirmed now: the claim is refunded and the job waits. */
  function DeferDemandCheck(cfg: Config, r: Record, fault: Fault, t: Tick): Program {
    if t.expired then ProvisionFailed(cfg, r, fault, t)
    else Last(Alter(DeferProvisioningDemand(Cause("demand"), RetryAt(cfg, fault, t))))
  }

  /** The job no longer wants a runner, and no instance has been created for it. */
  function RetireProvisioning(cfg: Config, r: Record): Program {
    var failed := (t: Tick) => ProvisionFailed(cfg, r, OtherFailure, t);
    Get((current: Option<Record>, t: Tick) =>
      match current
      case None => failed(t)
      case Some(record) =>
        if record.instanceID.NoInstance? then Commit(Alter(MarkDeleted), _ => Done, failed)
        else
          Commit(Alter(MarkCompleted),
                 _ => Commit(Alter(ReleaseClaim(Provision)),
                             _ => Commit(Alter(ScheduleDeletion), _ => Done, failed), failed), failed))
  }

  function RetireIdle(cfg: Config, r: Record): Program {
    RemoveIdleJIT(r, RetireProvisioning(cfg, r), (fault: Fault, t: Tick) => DeferDemandCheck(cfg, r, fault, t))
  }

  /** The demand gate: proceed only if the store has no completion and GitHub says the job is queued. */
  function RequireQueuedJob(cfg: Config, r: Record, proceed: Program): Program {
    Get((current: Option<Record>, t: Tick) =>
      match current
      case None => DeferDemandCheck(cfg, r, OtherFailure, t)
      case Some(record) =>
        if record.jobCompleted then RetireIdle(cfg, r)
        else
          Call(AskJob(r.job.owner, r.job.repository, r.job.jobID), (answer: Answer, t: Tick) =>
            if answer.Faulted? then DeferDemandCheck(cfg, r, answer.fault, t)
            else if answer == JobIs(JobQueued) then proceed
            else RetireIdle(cfg, r)))
  }

  function RecordInstance(cfg: Config, r: Record, instanceID: InstanceID, name: string): Program {
    Commit(Alter(MarkProvisioned(instanceID, r.runnerID, name)), _ => Done,
           (t: Tick) => ProvisionFailed(cfg, r, OtherFailure, t))
  }

  function CreateInstance(cfg: Config, r: Record): Program {
    Call(CreateRunner(r.job.key, r.epoch, r.runnerName), (answer: Answer, t: Tick) =>
      if answer.Created? then RecordInstance(cfg, r, answer.instanceID, r.runnerName)
      else ProvisionFailed(cfg, r, FaultOf(answer), t))
  }

  function GenerateConfig(cfg: Config, r: Record): Program {
    var name := cfg.nameOf(r.job);
    Call(GenerateJITConfig(r.job.owner, r.job.repository, name), (answer: Answer, t: Tick) =>
      if answer.Issued? then
        var registered := r.(runnerID := answer.runnerID, runnerOwned := true, runnerName := name);
        Commit(Register(answer.runnerID, name),
               _ => RequireQueuedJob(cfg, registered, CreateInstance(cfg, registered)),
               _ => Deregister(registered, (_: Answer, t: Tick) => ProvisionFailed(cfg, r, OtherFailure, t)))
      else ProvisionFailed(cfg, r, FaultOf(answer), t))
  }

  /** A registration left by an earlier attempt is replaced, not leaked. */
  function ReplaceStaleRunner(cfg: Config, r: Record): Program {
    if r.OwnsRunnerID() then
      Deregister(r, (answer: Answer, t: Tick) =>
        if answer.Faulted? then ProvisionFailed(cfg, r, answer.fault, t)
        else
          Commit(Alter(ClearJIT), _ => GenerateConfig(cfg, r),
                 (t: Tick) => ProvisionFailed(cfg, r, OtherFailure, t)))
    else GenerateConfig(cfg, r)
  }

  function ProvisionJob(cfg: Config, r: Record): Program {
    Call(FindRunner(r.job.key), (answer: Answer, t: Tick) =>
      match answer
      case Located(instanceID, name) =>
        if r.runnerID == 0 then
          Call(DeleteRunner(instanceID, r.job.key),
               (answer: Answer, t: Tick) => ProvisionFailed(cfg, r, FaultOf(answer), t))
        else RecordInstance(cfg, r, instanceID, name)
      case NotLocated => RequireQueuedJob(cfg, r, ReplaceStaleRunner(cfg, r))
      case _ => ProvisionFailed(cfg, r, FaultOf(answer), t))
  }

  // Deleting

  predicate TimedOut(fault: Fault, t: Tick) { fault.Cancelled? || t.expired }

  function ReleaseDelete(): Program { Last(Alter(ReleaseClaim(Delete))) }

  function RetryDelete(cfg: Config, fault: Fault, t: Tick): Program {
    if TimedOut(fault, t) then ReleaseDelete()
    else Last(Alter(MarkDeleteFailed(Cause("delete"), cfg.backoff(t.now), cfg.maxAttempts)))
  }

  function DeleteFailed(cfg: Config, r: Record, fault: Fault, t: Tick): Program {
    if !TimedOut(fault, t) && fault.OwnershipMismatch? then MarkOrphanedLast(r, "runner requires operator cleanup")
    else RetryDelete(cfg, fault, t)
  }

  function FinishDeleted(cfg: Config, queued: bool): Program {
    Commit(Alter(FinishDeletedRunner(queued)), _ => Done, (t: Tick) =>
      Commit(Alter(MarkDeleteFailed(Cause("persist"), cfg.backoff(t.now), cfg.maxAttempts)),
             _ => Done, _ => ReleaseDelete()))
  }

  function RecheckFailed(cfg: Config, fault: Fault, t: Tick): Program {
    if TimedOut(fault, t) then ReleaseDelete()
    else Last(Alter(DeferReassignmentDemand(Cause("recheck"), RetryAt(cfg, fault, t))))
  }

  /** Whether the original job still wants a runner; the claim-time snapshot decides whether to ask at all. */
  function RecheckDemand(cfg: Config, r: Record): Program {
    if !r.recheckDemand || r.jobCompleted then FinishDeleted(cfg, false)
    else
      Get((current: Option<Record>, t: Tick) =>
        match current
        case None => RecheckFailed(cfg, OtherFailure, t)
        case Some(record) =>
          if record.jobCompleted then FinishDeleted(cfg, false)
          else
            Call(AskJob(r.job.owner, r.job.repository, r.job.jobID), (answer: Answer, t: Tick) =>
              if answer.Faulted? then RecheckFailed(cfg, answer.fault, t)
              else FinishDeleted(cfg, answer == JobIs(JobQueued))))
  }

  function RemoveDeletedRunner(cfg: Config, r: Record): Program {
    if r.OwnsRunnerID() then
      Deregister(r, (answer: Answer, t: Tick) =>
        if !answer.Faulted? then RecheckDemand(cfg, r)
        else if !TimedOut(answer.fault, t) && answer.fault.RateLimited? then
          Last(Alter(DeferRateLimitedWork(Delete, Cause("deregister"), answer.fault.resetAt, cfg.maxAttempts)))
        else RetryDelete(cfg, answer.fault, t))
    else RecheckDemand(cfg, r)
  }

  function CleanUpDuplicates(cfg: Config, r: Record): Program {
    Call(if cfg.confirmsAbsence then CleanupRunnerExcept(r.job.key, r.instanceID) else CleanupRunner(r.job.key),
         (answer: Answer, t: Tick) =>
           if answer.Faulted? then RetryDelete(cfg, answer.fault, t) else RemoveDeletedRunner(cfg, r))
  }

  /** Deletion is asynchronous: nothing else happens before the instance is known to be absent. */
  function ConfirmAbsence(cfg: Config, r: Record): Program {
    Call(RunnerAbsent(r.instanceID), (answer: Answer, t: Tick) =>
      if answer == IsAbsent(true) then CleanUpDuplicates(cfg, r)
      else if TimedOut(FaultOf(answer), t) then ReleaseDelete()
      else Commit(Alter(DeferDeletionConfirmation(Cause("awaiting absence"), cfg.backoff(t.now))),
                  _ => Done, _ => ReleaseDelete()))
  }

  function DeleteInstance(cfg: Config, r: Record): Program {
    if cfg.confirmsAbsence && r.acceptedID == r.instanceID then ConfirmAbsence(cfg, r)
    else
      Call(DeleteRunner(r.instanceID, r.job.key), (answer: Answer, t: Tick) =>
        if answer.Faulted? then DeleteFailed(cfg, r, answer.fault, t)
        else if cfg.confirmsAbsence then
          Commit(Alter(AcceptDeletion(r.instanceID)), _ => ConfirmAbsence(cfg, r),
                 (t: Tick) => DeleteFailed(cfg, r, OtherFailure, t))
        else CleanUpDuplicates(cfg, r))
  }

  /** What a worker does with the work it claimed; canceled says that the controller is shutting down. */
  function Process(cfg: Config, r: Record, kind: Work, canceled: bool): Program {
    if canceled then Last(Alter(ReleaseClaim(kind)))
    else if r.provider != cfg.provider then MarkOrphanedLast(r, "record belongs to another provider")
    else if kind.Provision? then ProvisionJob(cfg, r)
    else DeleteInstance(cfg, r)
  }
}
