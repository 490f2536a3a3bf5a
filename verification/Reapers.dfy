/**
 The reaper's routines for one listed record: liveness reconciliation, expiry, and the
 cleanup of orphans. Each works on the snapshot the listing returned.
 */
module Reapers {
  import opened Lifecycle
  import opened Invariants
  import opened RunProperties
  import opened Protocol
  import opened Workers

  function Defer(cfg: Config, fault: Fault, t: Tick): Program {
    Last(Alter(DeferReconciliation(Cause("reconcile"), RetryAt(cfg, fault, t), cfg.maxAttempts,
                                   fault.ClientRejected?, fault.RateLimited?)))
  }

  function ScheduleLast(): Program { Last(Alter(ScheduleDeletion)) }

  // Provisioned records

  function Requeue(cfg: Config): Program { Last(Alter(RequeueMissingRunner(cfg.maxAttempts))) }

  function RemoveAndRequeue(cfg: Config, r: Record): Program {
    if r.OwnsRunnerID() then
      Deregister(r, (answer: Answer, t: Tick) => if answer.Faulted? then Defer(cfg, answer.fault, t) else Requeue(cfg))
    else Requeue(cfg)
  }

  function Confirmed(cfg: Config, c: Commitment, source: Source): bool {
    c.before.status.Provisioned? && AbsenceConfirmed(c.after, source, c.now, cfg.settle, cfg.confirmations)
  }

  function ObserveMissing(cfg: Config, r: Record): Program {
    Commit(Alter(ObserveRunnerMissing),
           (c: Commitment) => if Confirmed(cfg, c, Provider) then RemoveAndRequeue(cfg, r) else Done, _ => Done)
  }

  function ProviderMissing(cfg: Config, r: Record): Program {
    if r.githubMissingChecks != 0
    then Commit(Alter(ClearGitHubMissing), _ => ObserveMissing(cfg, r), _ => Done)
    else ObserveMissing(cfg, r)
  }

  predicate StillStarting(cfg: Config, r: Record, now: Time) {
    r.registeredAt == ZERO_TIME && now < r.provisionedAt + cfg.registrationTimeout
  }

  function GitHubMissing(cfg: Config, r: Record): Program {
    Commit(Alter(ObserveGitHubRunnerMissing),
           (c: Commitment) =>
             if Confirmed(cfg, c, GitHub) && !StillStarting(cfg, r, c.now) then ScheduleLast() else Done, _ => Done)
  }

  function DeleteAndRequeue(cfg: Config, r: Record): Program {
    Call(DeleteRunner(r.instanceID, r.job.key), (answer: Answer, t: Tick) =>
      if answer.Faulted? then Done else Requeue(cfg))
  }

  function ReplaceUnregistered(cfg: Config, r: Record): Program {
    if r.OwnsRunnerID() then
      Deregister(r, (answer: Answer, t: Tick) =>
        if answer.Faulted? then Defer(cfg, answer.fault, t) else DeleteAndRequeue(cfg, r))
    else DeleteAndRequeue(cfg, r)
  }

  function CheckRegistration(cfg: Config, r: Record): Program {
    Call(AskRunner(r.job.owner, r.job.repository, r.runnerID), (answer: Answer, t: Tick) =>
      match answer
      case RunnerIs(status) =>
        if status.RunnerMissing? then GitHubMissing(cfg, r)
        else
          Commit(Alter(ClearRunnerMissing),
                 (c: Commitment) =>
                   if status.RunnerOffline? && r.registeredAt == ZERO_TIME && !StillStarting(cfg, r, c.now)
                   then ReplaceUnregistered(cfg, r)
                   else if status.RunnerOnline? && r.registeredAt == ZERO_TIME then Last(Alter(RecordRunnerSeen))
                   else Done,
                 _ => Done)
      case _ => Defer(cfg, FaultOf(answer), t))
  }

  function RetireFound(cfg: Config, r: Record): Program {
    RemoveIdleJIT(r, ScheduleLast(), (fault: Fault, t: Tick) => Defer(cfg, fault, t))
  }

  function StillWanted(cfg: Config, r: Record): Program {
    if r.missingChecks != 0
    then Commit(Alter(ClearProviderMissing), _ => CheckRegistration(cfg, r), _ => Done)
    else CheckRegistration(cfg, r)
  }

  function ProviderFound(cfg: Config, r: Record): Program {
    if r.jobCompleted then RetireFound(cfg, r)
    else
      Call(AskJob(r.job.owner, r.job.repository, r.job.jobID), (answer: Answer, t: Tick) =>
        if answer.Faulted? then Defer(cfg, answer.fault, t)
        else if answer == JobIs(JobDone) then RetireFound(cfg, r)
        else StillWanted(cfg, r))
  }

  function ReplaceDuplicates(cfg: Config, r: Record): Program {
    Call(CleanupRunner(r.job.key), (answer: Answer, t: Tick) =>
      if answer.Faulted? then Done else RemoveAndRequeue(cfg, r))
  }

  function ReconcileProvisioned(cfg: Config, r: Record, now: Time): Program {
    if r.nextAttemptAt > now || (r.registeredAt != ZERO_TIME && now < r.reconciledAt + cfg.checkInterval) then Done
    else
      Call(FindRunner(r.job.key), (answer: Answer, t: Tick) =>
        match answer
        case Located(_, _) => ProviderFound(cfg, r)
        case NotLocated => ProviderMissing(cfg, r)
        case _ =>
          if answer == Faulted(Duplicates) then ReplaceDuplicates(cfg, r) else Defer(cfg, FaultOf(answer), t))
  }

  // Expired records

  function UntrackedCleanupFailed(cfg: Config, r: Record, fault: Fault, t: Tick): Program {
    if fault.OwnershipMismatch? then MarkOrphanedLast(r, "cleanup requires an operator")
    else if fault.RateLimited? then
      Last(Alter(DeferRateLimitedCleanup(Cause("cleanup"), fault.resetAt, cfg.maxAttempts, true)))
    else if TimedOut(fault, t) then
      Last(Alter(DeferRateLimitedCleanup(Cause("cleanup"), cfg.backoff(t.now), cfg.maxAttempts, false)))
    else Last(Alter(MarkDeleteFailed(Cause("cleanup"), cfg.backoff(t.now), cfg.maxAttempts)))
  }

  function CleanUpUntracked(cfg: Config, r: Record): Program {
    Call(CleanupRunner(r.job.key), (answer: Answer, t: Tick) =>
      if answer.Faulted? then UntrackedCleanupFailed(cfg, r, answer.fault, t) else Last(Alter(MarkDeleted)))
  }

  function RemoveUntracked(cfg: Config, r: Record): Program {
    if r.OwnsRunnerID() then
      Deregister(r, (answer: Answer, t: Tick) =>
        if answer.Faulted? then UntrackedCleanupFailed(cfg, r, answer.fault, t) else CleanUpUntracked(cfg, r))
    else CleanUpUntracked(cfg, r)
  }

  function DeleteUntracked(cfg: Config, r: Record): Program {
    Commit(Alter(BeginCleanupAttempt(cfg.maxAttempts)),
           (c: Commitment) =>
             if CleanupReady(c.before, c.now) && c.before.deleteAttempts < cfg.maxAttempts
             then RemoveUntracked(cfg, r) else Done,
           _ => Done)
  }

  function ExpireRunner(cfg: Config, r: Record): Program {
    if r.provider != cfg.provider then MarkOrphanedLast(r, "runner belongs to another provider")
    else if r.instanceID.NoInstance? then DeleteUntracked(cfg, r)
    else if r.deferDeletion then RetireFound(cfg, r)
    else ScheduleLast()
  }

  // Orphans

  function ReconcileOrphanedInstance(cfg: Config, r: Record): Program {
    if !cfg.confirmsAbsence || r.provider != cfg.provider || r.instanceID.NoInstance? then Done
    else
      Call(RunnerAbsent(r.instanceID), (answer: Answer, t: Tick) =>
        if answer == IsAbsent(true) then Last(Alter(ReleaseAbsentOrphan(r.instanceID))) else Done)
  }

  function ReconcileOrphanedRunner(cfg: Config, r: Record, now: Time): Program {
    if !r.OwnsRunnerID() || r.nextAttemptAt > now then Done
    else
      Deregister(r, (answer: Answer, t: Tick) =>
        if answer.Faulted? then Last(Alter(DeferOrphanCleanup(Cause("deregister"), RetryAt(cfg, answer.fault, t))))
        else Last(Alter(ClearJIT)))
  }

  function Reap(cfg: Config, r: Record, listing: Listing, now: Time): Program {
    match listing
    case ListedProvisioned => if r.provider == cfg.provider then ReconcileProvisioned(cfg, r, now) else Done
    case ListedExpired(_) => ExpireRunner(cfg, r)
    case ListedInstance => ReconcileOrphanedInstance(cfg, r)
    case ListedRunner => ReconcileOrphanedRunner(cfg, r, now)
  }
}
