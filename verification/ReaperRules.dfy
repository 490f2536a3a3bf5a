/**
 The reaper's routines meet the rules of the protocol and have a cause for every step, on every path:
 each lemma covers one function of module Reapers, for every answer and every failed save.
 */
module ReaperRules {
  import opened Lifecycle
  import opened Invariants
  import opened Protocol
  import opened Causes
  import opened Workers
  import opened Reapers
  import opened WorkerRules

  function Backoff(cfg: Config, fault: Fault, t: Tick): Mutation {
    DeferReconciliation(Cause("reconcile"), RetryAt(cfg, fault, t), cfg.maxAttempts, fault.ClientRejected?,
                        fault.RateLimited?)
  }

  lemma DeferIsSafe(cfg: Config, f: Facts, fault: Fault, t: Tick)
    requires f.role.Reaper? && BacksOff(cfg, f, Backoff(cfg, fault, t))
    requires f.role.listing.ListedProvisioned?
      || (f.role.listing.ListedExpired? && ExpiresInstance(cfg, f) && f.start.deferDeletion)
    ensures Safe(cfg, f, Defer(cfg, fault, t))
  {
    LastIsSafe(cfg, f, Alter(Backoff(cfg, fault, t)));
  }

  lemma SchedulingIsSafe(cfg: Config, f: Facts)
    requires f.role.Reaper? && HasCause(cfg, f, Alter(ScheduleDeletion))
    ensures Safe(cfg, f, ScheduleLast())
  {
    LastIsSafe(cfg, f, Alter(ScheduleDeletion));
  }

  // Replacing a provisioned runner

  predicate Listed(cfg: Config, f: Facts) {
    f.role.Reaper? && f.role.listing.ListedProvisioned? && f.start.provider == cfg.provider
  }

  /** Nothing has been removed yet. */
  predicate Reconciling(cfg: Config, f: Facts) {
    && Listed(cfg, f) && !Requested(f.history, Removal(f.start, f.start.runnerID))
    && !Requested(f.history, DeleteRunner(f.start.instanceID, f.start.job.key))
  }

  /** The provider has nothing under the record's name any more: why the record may be requeued. */
  predicate Replacing(cfg: Config, f: Facts) {
    && InstanceGone(cfg, f)
    && (|| ProviderWasGone(cfg, f.history)
        || Heard(f.history, CleanupRunner(f.start.job.key), Agreed)
        || (NeverOnline(cfg, f.start, f.history)
            && Heard(f.history, DeleteRunner(f.start.instanceID, f.start.job.key), Agreed)))
  }

  lemma RequeueingIsSafe(cfg: Config, f: Facts)
    requires Listed(cfg, f) && Replacing(cfg, f) && RunnerRemoved(f)
    ensures Safe(cfg, f, Requeue(cfg))
  {
    LastIsSafe(cfg, f, Alter(RequeueMissingRunner(cfg.maxAttempts)));
  }

  lemma RemoveAndRequeueIsSafe(cfg: Config, f: Facts)
    requires Reconciling(cfg, f) && Replacing(cfg, f)
    requires ProviderGone(cfg, f.history) || Answered(f.history, CleanupRunner(f.start.job.key), Agreed)
    ensures Safe(cfg, f, RemoveAndRequeue(cfg, f.start))
  {
    var r := f.start;
    if r.OwnsRunnerID() {
      var request := Removal(r, r.runnerID);
      forall answer, t | Plausible(request, answer)
        ensures Safe(cfg, f.Now(Asked(request, answer, t)), RemoveAndRequeue(cfg, r).answered(answer, t))
      {
        var heard := f.Now(Asked(request, answer, t));
        if answer.Faulted? {
          DeferIsSafe(cfg, heard, answer.fault, t);
        } else {
          RequeueingIsSafe(cfg, heard);
        }
      }
    } else {
      RequeueingIsSafe(cfg, f);
    }
  }

  /** After a failed save of an observation the check is simply made again. */
  lemma GivingUpCheckIsSafe(cfg: Config, f: Facts, m: Mutation)
    requires Reconciling(cfg, f) && !m.ClearJIT?
    ensures forall t :: Safe(cfg, f.Now(DidNot(Alter(m), t)), Done)
  {
    forall t ensures Safe(cfg, f.Now(DidNot(Alter(m), t)), Done) {
      assert MayStop(cfg, f.Now(DidNot(Alter(m), t)));
    }
  }

  lemma ObservedIsSafe(cfg: Config, f: Facts, c: Commitment)
    requires Reconciling(cfg, f) && ProviderMisses(f)
    ensures Safe(cfg, f.Now(Did(Alter(ObserveRunnerMissing), c)), ObserveMissing(cfg, f.start).saved(c))
  {
    var did := f.Now(Did(Alter(ObserveRunnerMissing), c));
    if Confirmed(cfg, c, Provider) {
      assert ProviderGone(cfg, did.history) && ConfirmedMissing(cfg, did.history);
      RemoveAndRequeueIsSafe(cfg, did);
    } else {
      assert MayStop(cfg, did);
    }
  }

  lemma ObservingIsSafe(cfg: Config, f: Facts)
    requires Reconciling(cfg, f) && ProviderMisses(f)
    requires f.start.githubMissingChecks != 0 ==> JustDid(f.history, ClearGitHubMissing)
    ensures Safe(cfg, f, ObserveMissing(cfg, f.start))
  {
    forall c ensures Safe(cfg, f.Now(Did(Alter(ObserveRunnerMissing), c)), ObserveMissing(cfg, f.start).saved(c)) {
      ObservedIsSafe(cfg, f, c);
    }
    GivingUpCheckIsSafe(cfg, f, ObserveRunnerMissing);
  }

  lemma MissingIsSafe(cfg: Config, f: Facts)
    requires Reconciling(cfg, f) && ProviderMisses(f)
    ensures Safe(cfg, f, ProviderMissing(cfg, f.start))
  {
    if f.start.githubMissingChecks != 0 {
      forall c ensures Safe(cfg, f.Now(Did(Alter(ClearGitHubMissing), c)), ObserveMissing(cfg, f.start)) {
        ObservingIsSafe(cfg, f.Now(Did(Alter(ClearGitHubMissing), c)));
      }
      GivingUpCheckIsSafe(cfg, f, ClearGitHubMissing);
    } else {
      ObservingIsSafe(cfg, f);
    }
  }

  lemma GitHubMissingIsSafe(cfg: Config, f: Facts)
    requires Reconciling(cfg, f) && Answered(f.history, OwnRunner(f.start), RunnerIs(RunnerMissing))
    ensures Safe(cfg, f, GitHubMissing(cfg, f.start))
  {
    forall c ensures Safe(cfg, f.Now(Did(Alter(ObserveGitHubRunnerMissing), c)), GitHubMissing(cfg, f.start).saved(c)) {
      var did := f.Now(Did(Alter(ObserveGitHubRunnerMissing), c));
      if Confirmed(cfg, c, GitHub) && !StillStarting(cfg, f.start, c.now) {
        SchedulingIsSafe(cfg, did);
      } else {
        assert MayStop(cfg, did);
      }
    }
    GivingUpCheckIsSafe(cfg, f, ObserveGitHubRunnerMissing);
  }

  lemma DeleteAndRequeueIsSafe(cfg: Config, f: Facts)
    requires Listed(cfg, f) && RunnerRemoved(f) && NeverOnline(cfg, f.start, f.history)
    requires !Requested(f.history, DeleteRunner(f.start.instanceID, f.start.job.key))
    ensures Safe(cfg, f, DeleteAndRequeue(cfg, f.start))
  {
    var request := DeleteRunner(f.start.instanceID, f.start.job.key);
    forall answer, t | Plausible(request, answer)
      ensures Safe(cfg, f.Now(Asked(request, answer, t)), DeleteAndRequeue(cfg, f.start).answered(answer, t))
    {
      var heard := f.Now(Asked(request, answer, t));
      if answer.Faulted? {
        assert MayStop(cfg, heard);
      } else {
        RequeueingIsSafe(cfg, heard);
      }
    }
  }

  lemma UnregisteredIsSafe(cfg: Config, f: Facts)
    requires Reconciling(cfg, f) && NeverOnline(cfg, f.start, f.history)
    ensures Safe(cfg, f, ReplaceUnregistered(cfg, f.start))
  {
    var r := f.start;
    if r.OwnsRunnerID() {
      var request := Removal(r, r.runnerID);
      forall answer, t | Plausible(request, answer)
        ensures Safe(cfg, f.Now(Asked(request, answer, t)), ReplaceUnregistered(cfg, r).answered(answer, t))
      {
        var heard := f.Now(Asked(request, answer, t));
        if answer.Faulted? {
          DeferIsSafe(cfg, heard, answer.fault, t);
        } else {
          DeleteAndRequeueIsSafe(cfg, heard);
        }
      }
    } else {
      DeleteAndRequeueIsSafe(cfg, f);
    }
  }

  lemma SeenIsSafe(cfg: Config, f: Facts, status: RunnerStatus, t: Tick, c: Commitment)
    requires Reconciling(cfg, f) && !status.RunnerMissing?
    requires Answered(f.history, OwnRunner(f.start), RunnerIs(status))
    ensures Safe(cfg, f.Now(Did(Alter(ClearRunnerMissing), c)),
                 CheckRegistration(cfg, f.start).answered(RunnerIs(status), t).saved(c))
  {
    var did := f.Now(Did(Alter(ClearRunnerMissing), c));
    assert JustSeen(f.start, did.history, status);
    if status.RunnerOffline? && f.start.registeredAt == ZERO_TIME && !StillStarting(cfg, f.start, c.now) {
      UnregisteredIsSafe(cfg, did);
    } else if status.RunnerOnline? && f.start.registeredAt == ZERO_TIME {
      LastIsSafe(cfg, did, Alter(RecordRunnerSeen));
    } else {
      assert MayStop(cfg, did);
    }
  }

  lemma RunnerStatusIsSafe(cfg: Config, f: Facts, status: RunnerStatus, t: Tick)
    requires Reconciling(cfg, f) && Answered(f.history, OwnRunner(f.start), RunnerIs(status))
    ensures Safe(cfg, f, CheckRegistration(cfg, f.start).answered(RunnerIs(status), t))
  {
    var p := CheckRegistration(cfg, f.start).answered(RunnerIs(status), t);
    if status.RunnerMissing? {
      GitHubMissingIsSafe(cfg, f);
    } else {
      forall c ensures Safe(cfg, f.Now(Did(Alter(ClearRunnerMissing), c)), p.saved(c)) {
        SeenIsSafe(cfg, f, status, t, c);
      }
      GivingUpCheckIsSafe(cfg, f, ClearRunnerMissing);
    }
  }

  lemma RegistrationIsSafe(cfg: Config, f: Facts)
    requires Reconciling(cfg, f) && JobOpen(f)
    requires f.history.Then?
    requires if f.start.missingChecks != 0 then JustDid(f.history, ClearProviderMissing)
             else f.history.last.Asked? && f.history.last.request == OwnJob(f.start)
    ensures Safe(cfg, f, CheckRegistration(cfg, f.start))
  {
    var p := CheckRegistration(cfg, f.start);
    forall answer, t | Plausible(p.request, answer)
      ensures Safe(cfg, f.Now(Asked(p.request, answer, t)), p.answered(answer, t))
    {
      var heard := f.Now(Asked(p.request, answer, t));
      if answer.RunnerIs? {
        RunnerStatusIsSafe(cfg, heard, answer.runner, t);
      } else {
        DeferIsSafe(cfg, heard, FaultOf(answer), t);
      }
    }
  }

  lemma WantedIsSafe(cfg: Config, f: Facts)
    requires Reconciling(cfg, f) && JobOpen(f) && f.history.Then? && f.history.last.Asked?
    requires f.history.last.request == OwnJob(f.start)
    ensures Safe(cfg, f, StillWanted(cfg, f.start))
  {
    if f.start.missingChecks != 0 {
      forall c ensures Safe(cfg, f.Now(Did(Alter(ClearProviderMissing), c)), CheckRegistration(cfg, f.start)) {
        RegistrationIsSafe(cfg, f.Now(Did(Alter(ClearProviderMissing), c)));
      }
      GivingUpCheckIsSafe(cfg, f, ClearProviderMissing);
    } else {
      RegistrationIsSafe(cfg, f);
    }
  }

  /** A runner with nothing left to do is deregistered before its deletion is scheduled. */
  predicate RetiringFound(cfg: Config, f: Facts) {
    && f.role.Reaper?
    && ((f.role.listing.ListedProvisioned? && JobOver(f))
        || (f.role.listing.ListedExpired? && ExpiresInstance(cfg, f) && f.start.deferDeletion))
  }

  lemma FoundRemovedIsSafe(cfg: Config, f: Facts, p: Program)
    requires RetiringFound(cfg, f) && OwnJustRemoved(f) && f.start.OwnsRunnerID() && RunnerRemoved(f)
    requires p.Commit? && p.action == Alter(ClearJIT)
    requires (forall c :: p.saved(c) == ScheduleLast()) && forall t :: p.failed(t) == Defer(cfg, OtherFailure, t)
    ensures Safe(cfg, f, p)
  {
    forall c ensures Safe(cfg, f.Now(Did(Alter(ClearJIT), c)), p.saved(c)) {
      SchedulingIsSafe(cfg, f.Now(Did(Alter(ClearJIT), c)));
    }
    forall tick ensures Safe(cfg, f.Now(DidNot(Alter(ClearJIT), tick)), p.failed(tick)) {
      DeferIsSafe(cfg, f.Now(DidNot(Alter(ClearJIT), tick)), OtherFailure, tick);
    }
  }

  lemma RetiringFoundIsSafe(cfg: Config, f: Facts)
    requires RetiringFound(cfg, f) && RegisteredID(f.start, f.history) == f.start.runnerID
    requires !Requested(f.history, Removal(f.start, f.start.runnerID))
    ensures Safe(cfg, f, RetireFound(cfg, f.start))
  {
    var r := f.start;
    if r.OwnsRunnerID() {
      var request := Removal(r, r.runnerID);
      forall answer, t | Plausible(request, answer)
        ensures Safe(cfg, f.Now(Asked(request, answer, t)), RetireFound(cfg, r).answered(answer, t))
      {
        var heard := f.Now(Asked(request, answer, t));
        if answer.Faulted? {
          DeferIsSafe(cfg, heard, answer.fault, t);
        } else {
          FoundRemovedIsSafe(cfg, heard, RetireFound(cfg, r).answered(answer, t));
        }
      }
    } else {
      SchedulingIsSafe(cfg, f);
    }
  }

  lemma FoundIsSafe(cfg: Config, f: Facts)
    requires Reconciling(cfg, f) && HeardLocated(f.history, f.start.job.key)
    requires RegisteredID(f.start, f.history) == f.start.runnerID && f.history.last.Asked?
    requires f.history.last.request == FindRunner(f.start.job.key) && f.history.last.answer.Located?
    ensures Safe(cfg, f, ProviderFound(cfg, f.start))
  {
    var r := f.start;
    if r.jobCompleted {
      RetiringFoundIsSafe(cfg, f);
    } else {
      forall answer, t | Plausible(OwnJob(r), answer)
        ensures Safe(cfg, f.Now(Asked(OwnJob(r), answer, t)), ProviderFound(cfg, r).answered(answer, t))
      {
        var heard := f.Now(Asked(OwnJob(r), answer, t));
        if answer.Faulted? {
          DeferIsSafe(cfg, heard, answer.fault, t);
        } else if answer == JobIs(JobDone) {
          RetiringFoundIsSafe(cfg, heard);
        } else {
          assert answer.JobIs? && (answer.job.JobQueued? || answer.job.JobInProgress?);
          assert answer == JobIs(JobQueued) || answer == JobIs(JobInProgress);
          WantedIsSafe(cfg, heard);
        }
      }
    }
  }

  lemma DuplicatesAreSafe(cfg: Config, f: Facts)
    requires Reconciling(cfg, f) && Answered(f.history, FindRunner(f.start.job.key), Faulted(Duplicates))
    ensures Safe(cfg, f, ReplaceDuplicates(cfg, f.start))
  {
    var request := CleanupRunner(f.start.job.key);
    forall answer, t | Plausible(request, answer)
      ensures Safe(cfg, f.Now(Asked(request, answer, t)), ReplaceDuplicates(cfg, f.start).answered(answer, t))
    {
      var heard := f.Now(Asked(request, answer, t));
      if answer.Faulted? {
        assert MayStop(cfg, heard);
      } else {
        RemoveAndRequeueIsSafe(cfg, heard);
      }
    }
  }

  lemma ReconcilingIsSafe(cfg: Config, f: Facts, now: Time)
    requires Reconciling(cfg, f) && f.history.Begin? && f.role.listed == now
    ensures Safe(cfg, f, ReconcileProvisioned(cfg, f.start, now))
  {
    var p := ReconcileProvisioned(cfg, f.start, now);
    if p.Call? {
      forall answer, t | Plausible(p.request, answer)
        ensures Safe(cfg, f.Now(Asked(p.request, answer, t)), p.answered(answer, t))
      {
        var heard := f.Now(Asked(p.request, answer, t));
        match answer
        case Located(_, _) => FoundIsSafe(cfg, heard);
        case NotLocated => MissingIsSafe(cfg, heard);
        case _ =>
          if answer == Faulted(Duplicates) {
            DuplicatesAreSafe(cfg, heard);
          } else {
            DeferIsSafe(cfg, heard, FaultOf(answer), t);
          }
      }
    } else {
      assert MayStop(cfg, f);
    }
  }

  // Expiring

  predicate Expiring(f: Facts) { f.role.Reaper? && f.role.listing.ListedExpired? }

  /** The cleanup of a record without an instance has been charged for, and its last step has just been answered. */
  lemma UntrackedFailingIsSafe(cfg: Config, f: Facts, fault: Fault, t: Tick)
    requires Expiring(f) && CleansUntracked(cfg, f) && Views(f, f.start)
    requires WentWrong(f.history.last) && f.history.last.tick == t && f.history.last.answer == Faulted(fault)
    ensures Safe(cfg, f, UntrackedCleanupFailed(cfg, f.start, fault, t))
  {
    if fault.OwnershipMismatch? {
      OrphaningIsSafe(cfg, f, f.start, "cleanup requires an operator");
    } else {
      LastIsSafe(cfg, f, UntrackedCleanupFailed(cfg, f.start, fault, t).action);
    }
  }

  /** The charged cleanup is under way. */
  predicate CleaningUp(cfg: Config, f: Facts) {
    && Expiring(f) && !Foreign(cfg, f) && Untracked(f.start) && CleanupBegun(cfg, f.history)
    && RegisteredID(f.start, f.history) == f.start.runnerID
  }

  lemma CleaningUntrackedIsSafe(cfg: Config, f: Facts)
    requires CleaningUp(cfg, f) && RunnerRemoved(f)
    ensures Safe(cfg, f, CleanUpUntracked(cfg, f.start))
  {
    var request := CleanupRunner(f.start.job.key);
    forall answer, t | Plausible(request, answer)
      ensures Safe(cfg, f.Now(Asked(request, answer, t)), CleanUpUntracked(cfg, f.start).answered(answer, t))
    {
      var heard := f.Now(Asked(request, answer, t));
      if answer.Faulted? {
        UntrackedFailingIsSafe(cfg, heard, answer.fault, t);
      } else {
        LastIsSafe(cfg, heard, Alter(MarkDeleted));
      }
    }
  }

  lemma RemovingUntrackedIsSafe(cfg: Config, f: Facts)
    requires CleaningUp(cfg, f)
    ensures Safe(cfg, f, RemoveUntracked(cfg, f.start))
  {
    var r := f.start;
    if r.OwnsRunnerID() {
      var request := Removal(r, r.runnerID);
      forall answer, t | Plausible(request, answer)
        ensures Safe(cfg, f.Now(Asked(request, answer, t)), RemoveUntracked(cfg, r).answered(answer, t))
      {
        var heard := f.Now(Asked(request, answer, t));
        if answer.Faulted? {
          UntrackedFailingIsSafe(cfg, heard, answer.fault, t);
        } else {
          CleaningUntrackedIsSafe(cfg, heard);
        }
      }
    } else {
      CleaningUntrackedIsSafe(cfg, f);
    }
  }

  lemma UntrackedIsSafe(cfg: Config, f: Facts)
    requires Expiring(f) && !Foreign(cfg, f) && Untracked(f.start) && f.history.Begin?
    ensures Safe(cfg, f, DeleteUntracked(cfg, f.start))
  {
    var p := DeleteUntracked(cfg, f.start);
    forall c ensures Safe(cfg, f.Now(Did(p.action, c)), p.saved(c)) {
      var did := f.Now(Did(p.action, c));
      if CleanupReady(c.before, c.now) && c.before.deleteAttempts < cfg.maxAttempts {
        assert CleanupReserved(cfg, did.history);
        RemovingUntrackedIsSafe(cfg, did);
      } else {
        assert MayStop(cfg, did);
      }
    }
    forall t ensures Safe(cfg, f.Now(DidNot(p.action, t)), Done) {
      assert MayStop(cfg, f.Now(DidNot(p.action, t)));
    }
  }

  lemma ExpiringIsSafe(cfg: Config, f: Facts)
    requires Expiring(f) && f.start.claim.NoWork? && f.history.Begin?
    ensures Safe(cfg, f, ExpireRunner(cfg, f.start))
  {
    if f.start.provider != cfg.provider {
      OrphaningIsSafe(cfg, f, f.start, "runner belongs to another provider");
    } else if f.start.instanceID.NoInstance? {
      UntrackedIsSafe(cfg, f);
    } else if f.start.deferDeletion {
      RetiringFoundIsSafe(cfg, f);
    } else {
      SchedulingIsSafe(cfg, f);
    }
  }

  // Orphans

  lemma OrphanedInstanceIsSafe(cfg: Config, f: Facts)
    requires f.role.Reaper? && f.role.listing.ListedInstance? && f.history.Begin?
    ensures Safe(cfg, f, ReconcileOrphanedInstance(cfg, f.start))
  {
    var p := ReconcileOrphanedInstance(cfg, f.start);
    if p.Call? {
      forall answer, t | Plausible(p.request, answer)
        ensures Safe(cfg, f.Now(Asked(p.request, answer, t)), p.answered(answer, t))
      {
        var heard := f.Now(Asked(p.request, answer, t));
        if answer == IsAbsent(true) {
          LastIsSafe(cfg, heard, Alter(ReleaseAbsentOrphan(f.start.instanceID)));
        } else {
          assert MayStop(cfg, heard);
        }
      }
    } else {
      assert MayStop(cfg, f);
    }
  }

  lemma OrphanedRunnerIsSafe(cfg: Config, f: Facts, now: Time)
    requires f.role.Reaper? && f.role.listing.ListedRunner? && f.history.Begin? && f.role.listed == now
    ensures Safe(cfg, f, ReconcileOrphanedRunner(cfg, f.start, now))
  {
    var p := ReconcileOrphanedRunner(cfg, f.start, now);
    if p.Call? {
      forall answer, t | Plausible(p.request, answer)
        ensures Safe(cfg, f.Now(Asked(p.request, answer, t)), p.answered(answer, t))
      {
        var heard := f.Now(Asked(p.request, answer, t));
        if answer.Faulted? {
          LastIsSafe(cfg, heard, Alter(DeferOrphanCleanup(Cause("deregister"), RetryAt(cfg, answer.fault, t))));
        } else {
          LastIsSafe(cfg, heard, Alter(ClearJIT));
        }
      }
    } else {
      assert MayStop(cfg, f);
    }
  }

  /** Whatever the reaper does with a listed record meets the rules and has its cause. */
  lemma ReapingIsSafe(cfg: Config, f: Facts, listing: Listing, now: Time)
    requires f.role == Reaper(listing, now) && f.history.Begin? && Selected(f.start, listing, now)
    ensures Safe(cfg, f, Reap(cfg, f.start, listing, now))
  {
    match listing
    case ListedProvisioned =>
      if f.start.provider == cfg.provider {
        ReconcilingIsSafe(cfg, f, now);
      } else {
        assert MayStop(cfg, f);
      }
    case ListedExpired(_) => ExpiringIsSafe(cfg, f);
    case ListedInstance => OrphanedInstanceIsSafe(cfg, f);
    case ListedRunner => OrphanedRunnerIsSafe(cfg, f, now);
  }
}
