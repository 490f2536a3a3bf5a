/**
 The worker routines meet the rules of the protocol and have a cause for every step, on every path:
 each lemma covers one function of module Workers, for every answer and every failed save.
 */
module WorkerRules {
  import opened Wrappers
  import opened Lifecycle
  import opened Invariants
  import opened Protocol
  import opened Causes
  import opened Workers

  /** A last commit is safe if the routine may stop after it. */
  lemma LastIsSafe(cfg: Config, f: Facts, action: Action)
    requires MayDo(cfg, f, action) && HasCause(cfg, f, action)
    requires forall c :: MayStop(cfg, f.Now(Did(action, c)))
    requires forall t :: MayStop(cfg, f.Now(DidNot(action, t)))
    ensures Safe(cfg, f, Last(action))
  {
  }

  /** A worker may stop after a commit that gives up its claim. */
  lemma EndingIsSafe(cfg: Config, f: Facts, m: Mutation)
    requires !f.role.Reaper? && MayDo(cfg, f, Alter(m)) && HasCause(cfg, f, Alter(m))
    requires Releases(m) && forall t :: Concludes(Then(f.history, DidNot(Alter(m), t)))
    ensures Safe(cfg, f, Last(Alter(m)))
  {
    forall c ensures MayStop(cfg, f.Now(Did(Alter(m), c))) {
      assert !Holds(f.Now(Did(Alter(m), c)).history);
    }
    forall t ensures MayStop(cfg, f.Now(DidNot(Alter(m), t))) {
      assert Concludes(Then(f.history, DidNot(Alter(m), t)));
    }
    LastIsSafe(cfg, f, Alter(m));
  }

  // Orphaning

  /** r is the routine's view of the record: the snapshot, or the snapshot with a registration issued since. */
  predicate Views(f: Facts, r: Record) {
    var id := RegisteredID(f.start, f.history);
    && r.job == f.start.job
    && (if r.OwnsRunnerID()
        then (id == 0 || id == r.runnerID)
             && ((f.start.runnerOwned && r.runnerID == f.start.runnerID) || IssuedIn(f.history, r.runnerID))
        else id == 0 || (id == f.start.runnerID && !f.start.runnerOwned))
  }

  /** Why an operator has to step in. */
  predicate NeedsOperator(cfg: Config, f: Facts) {
    || Foreign(cfg, f)
    || match f.role
       case Provisioner(_) =>
         var failure := FailureOf(f.start, f.history);
         || (failure.Failure? && failure.fault.OutcomeUnknown?)
         || (AttemptFailed(f) && LastAttempt(cfg, f)
             && Heard(f.history, CleanupRunner(f.start.job.key), Faulted(OwnershipMismatch)))
       case Deleter(_) => Refused(f.start, f.history)
       case Reaper(_, _) => Untracked(f.start) && CleanupBegun(cfg, f.history) && NotOwned(f.history)
  }

  predicate Orphaning(cfg: Config, f: Facts, r: Record) {
    && Views(f, r) && NeedsOperator(cfg, f)
    && match f.role
       case Provisioner(canceled) => !canceled && Holds(f.history)
       case Deleter(canceled) => !canceled && Holds(f.history) && r == f.start
       case Reaper(listing, _) => listing.ListedExpired? && r == f.start
  }

  lemma StaysOrphaning(cfg: Config, f: Facts, r: Record, x: Happening)
    requires Orphaning(cfg, f, r) && (x.Did? ==> x.action == Alter(ClearJIT))
    ensures Orphaning(cfg, f.Now(x), r)
  {
  }

  lemma OrphanIsSafe(cfg: Config, f: Facts, r: Record, cause: string)
    requires Orphaning(cfg, f, r) && RemovalTried(f)
    ensures Safe(cfg, f, Last(Alter(MarkOrphaned(Cause(cause)))))
  {
    LastIsSafe(cfg, f, Alter(MarkOrphaned(Cause(cause))));
  }

  lemma RemovalIsTried(f: Facts, r: Record)
    requires Views(f, r) && (r.OwnsRunnerID() ==> Requested(f.history, Removal(f.start, r.runnerID)))
    ensures RemovalTried(f)
  {
  }

  lemma OrphaningIsSafe(cfg: Config, f: Facts, r: Record, cause: string)
    requires Orphaning(cfg, f, r)
    ensures Safe(cfg, f, MarkOrphanedLast(r, cause))
  {
    if r.OwnsRunnerID() {
      var request := Removal(f.start, r.runnerID);
      forall answer, t | Plausible(request, answer)
        ensures Safe(cfg, f.Now(Asked(request, answer, t)), MarkOrphanedLast(r, cause).answered(answer, t))
      {
        var heard := f.Now(Asked(request, answer, t));
        StaysOrphaning(cfg, f, r, Asked(request, answer, t));
        RemovedThenOrphanedIsSafe(cfg, heard, r, cause, MarkOrphanedLast(r, cause).answered(answer, t));
      }
    } else {
      RemovalIsTried(f, r);
      OrphanIsSafe(cfg, f, r, cause);
    }
  }

  lemma RemovedThenOrphanedIsSafe(cfg: Config, f: Facts, r: Record, cause: string, p: Program)
    requires Orphaning(cfg, f, r) && r.OwnsRunnerID()
    requires f.history.Then? && f.history.last.Asked? && f.history.last.request == Removal(f.start, r.runnerID)
    requires f.history.last.answer.Faulted? || f.history.last.answer == Agreed
    requires var orphan := Last(Alter(MarkOrphaned(Cause(cause))));
      if f.history.last.answer.Faulted? then p == orphan
      else p.Commit? && p.action == Alter(ClearJIT) && (forall c :: p.saved(c) == orphan)
           && forall t :: p.failed(t) == orphan
    ensures Safe(cfg, f, p)
  {
    if f.history.last.answer.Faulted? {
      RemovalIsTried(f, r);
      OrphanIsSafe(cfg, f, r, cause);
    } else {
      forall c ensures Safe(cfg, f.Now(Did(Alter(ClearJIT), c)), p.saved(c)) {
        StaysOrphaning(cfg, f, r, Did(Alter(ClearJIT), c));
        OrphanIsSafe(cfg, f.Now(Did(Alter(ClearJIT), c)), r, cause);
      }
      forall t ensures Safe(cfg, f.Now(DidNot(Alter(ClearJIT), t)), p.failed(t)) {
        StaysOrphaning(cfg, f, r, DidNot(Alter(ClearJIT), t));
        RemovalIsTried(f.Now(DidNot(Alter(ClearJIT), t)), r);
        OrphanIsSafe(cfg, f.Now(DidNot(Alter(ClearJIT), t)), r, cause);
      }
    }
  }

  // Provisioning

  /** The worker holds its claim, and sees the registration its record carries or one it has cleared. */
  predicate Holding(cfg: Config, f: Facts, r: Record) {
    && f.role == Provisioner(false) && Holds(f.history) && Views(f, r) && r.epoch == f.start.epoch
    && r.attempts == f.start.attempts && (r.runnerOwned <==> r.runnerID != 0)
    && (f.start.runnerOwned <==> f.start.runnerID != 0) && !Foreign(cfg, f)
  }

  /** Nothing has been cleaned up yet. */
  predicate Provisioning(cfg: Config, f: Facts, r: Record) {
    Holding(cfg, f, r) && !Requested(f.history, CleanupRunner(f.start.job.key))
  }

  predicate Unfailed(f: Facts) { FailureOf(f.start, f.history).NoFailure? }

  predicate FailedWith(f: Facts, fault: Fault, t: Tick) {
    FailureOf(f.start, f.history) == Failure(fault, t)
  }

  /** Learning and clearing keep the claim; a failure stays the failure. */
  lemma StillHolding(cfg: Config, f: Facts, r: Record, x: Happening)
    requires Holding(cfg, f, r) && (x.Did? ==> x.action == Alter(ClearJIT))
    ensures Holding(cfg, f.Now(x), r)
    ensures !Unfailed(f) ==> FailureOf(f.start, f.Now(x).history) == FailureOf(f.start, f.history)
    ensures !x.Did? ==> RegisteredID(f.start, f.Now(x).history) == RegisteredID(f.start, f.history)
    ensures Provisioning(cfg, f, r) && (x.Asked? ==> !x.request.CleanupRunner?) ==> Provisioning(cfg, f.Now(x), r)
  {
  }

  lemma HeardWasRequested(h: History, request: Request, answer: Answer)
    requires Heard(h, request, answer)
    ensures Requested(h, request)
  {
  }

  lemma MarkFailedIsSafe(cfg: Config, f: Facts, r: Record, fault: Fault, t: Tick)
    requires Holding(cfg, f, r) && FailedWith(f, fault, t) && AttemptFailed(f)
    requires LastAttempt(cfg, f) ==>
      && Requested(f.history, CleanupRunner(f.start.job.key))
      && !Heard(f.history, CleanupRunner(f.start.job.key), Faulted(OwnershipMismatch)) && RemovalTried(f)
    ensures Safe(cfg, f, MarkFailed(cfg, t))
  {
    EndingIsSafe(cfg, f, MarkProvisionFailed(Cause("provision"), cfg.backoff(t.now), cfg.maxAttempts));
  }

  /** Cleaned up behind the last attempt. */
  predicate Tidying(cfg: Config, f: Facts, r: Record, fault: Fault, t: Tick) {
    && Holding(cfg, f, r) && FailedWith(f, fault, t) && AttemptFailed(f)
    && Requested(f.history, CleanupRunner(f.start.job.key))
    && !Heard(f.history, CleanupRunner(f.start.job.key), Faulted(OwnershipMismatch))
  }

  lemma StaysTidying(cfg: Config, f: Facts, r: Record, fault: Fault, t: Tick, x: Happening)
    requires Tidying(cfg, f, r, fault, t) && (x.Did? ==> x.action == Alter(ClearJIT))
    requires x.Asked? ==> x.request.RemoveRunner?
    ensures Tidying(cfg, f.Now(x), r, fault, t)
  {
    StillHolding(cfg, f, r, x);
  }

  lemma TidiedIsSafe(cfg: Config, f: Facts, r: Record, fault: Fault, t: Tick)
    requires Tidying(cfg, f, r, fault, t) && RemovalTried(f)
    ensures Safe(cfg, f, MarkFailed(cfg, t))
  {
    MarkFailedIsSafe(cfg, f, r, fault, t);
  }

  lemma ClearingThenFailingIsSafe(cfg: Config, f: Facts, r: Record, fault: Fault, t: Tick)
    requires Tidying(cfg, f, r, fault, t) && JustRemoved(f) && r.OwnsRunnerID()
    requires f.history.last.request == Removal(f.start, r.runnerID)
    ensures Safe(cfg, f, Commit(Alter(ClearJIT), _ => MarkFailed(cfg, t), _ => MarkFailed(cfg, t)))
  {
    forall c ensures Safe(cfg, f.Now(Did(Alter(ClearJIT), c)), MarkFailed(cfg, t)) {
      StaysTidying(cfg, f, r, fault, t, Did(Alter(ClearJIT), c));
      TidiedIsSafe(cfg, f.Now(Did(Alter(ClearJIT), c)), r, fault, t);
    }
    forall tick ensures Safe(cfg, f.Now(DidNot(Alter(ClearJIT), tick)), MarkFailed(cfg, t)) {
      StaysTidying(cfg, f, r, fault, t, DidNot(Alter(ClearJIT), tick));
      RemovalIsTried(f.Now(DidNot(Alter(ClearJIT), tick)), r);
      TidiedIsSafe(cfg, f.Now(DidNot(Alter(ClearJIT), tick)), r, fault, t);
    }
  }

  lemma DeregisteringThenFailingIsSafe(cfg: Config, f: Facts, r: Record, fault: Fault, t: Tick, p: Program)
    requires Tidying(cfg, f, r, fault, t) && r.OwnsRunnerID()
    requires p.Call? && p.request == Removal(f.start, r.runnerID)
    requires forall answer: Answer, tick :: p.answered(answer, tick) == if answer.Faulted? then MarkFailed(cfg, t)
      else Commit(Alter(ClearJIT), _ => MarkFailed(cfg, t), _ => MarkFailed(cfg, t))
    ensures Safe(cfg, f, p)
  {
    forall answer, tick | Plausible(p.request, answer)
      ensures Safe(cfg, f.Now(Asked(p.request, answer, tick)), p.answered(answer, tick))
    {
      var heard := f.Now(Asked(p.request, answer, tick));
      StaysTidying(cfg, f, r, fault, t, Asked(p.request, answer, tick));
      RemovalIsTried(heard, r);
      if answer.Faulted? {
        TidiedIsSafe(cfg, heard, r, fault, t);
      } else {
        ClearingThenFailingIsSafe(cfg, heard, r, fault, t);
      }
    }
  }

  lemma CleanedIsSafe(cfg: Config, f: Facts, r: Record, fault: Fault, t: Tick, answer: Answer, tick: Tick)
    requires Provisioning(cfg, f, r) && FailedWith(f, fault, t) && AttemptFailed(f) && LastAttempt(cfg, f)
    requires Plausible(CleanupRunner(r.job.key), answer)
    ensures Safe(cfg, f.Now(Asked(CleanupRunner(r.job.key), answer, tick)),
                 GiveUpProvisioning(cfg, r, t).answered(answer, tick))
  {
    var x := Asked(CleanupRunner(r.job.key), answer, tick);
    var cleaned := f.Now(x);
    StillHolding(cfg, f, r, x);
    if answer == Faulted(OwnershipMismatch) {
      OrphaningIsSafe(cfg, cleaned, r, "failed provision requires operator cleanup");
    } else {
      if Heard(f.history, CleanupRunner(f.start.job.key), Faulted(OwnershipMismatch)) {
        HeardWasRequested(f.history, CleanupRunner(f.start.job.key), Faulted(OwnershipMismatch));
      }
      assert Tidying(cfg, cleaned, r, fault, t);
      if r.OwnsRunnerID() {
        DeregisteringThenFailingIsSafe(cfg, cleaned, r, fault, t, GiveUpProvisioning(cfg, r, t).answered(answer, tick));
      } else {
        RemovalIsTried(cleaned, r);
        TidiedIsSafe(cfg, cleaned, r, fault, t);
      }
    }
  }

  lemma GivingUpIsSafe(cfg: Config, f: Facts, r: Record, fault: Fault, t: Tick)
    requires Provisioning(cfg, f, r) && FailedWith(f, fault, t) && AttemptFailed(f) && LastAttempt(cfg, f)
    ensures Safe(cfg, f, GiveUpProvisioning(cfg, r, t))
  {
    var request := CleanupRunner(r.job.key);
    forall answer, tick | Plausible(request, answer)
      ensures Safe(cfg, f.Now(Asked(request, answer, tick)), GiveUpProvisioning(cfg, r, t).answered(answer, tick))
    {
      CleanedIsSafe(cfg, f, r, fault, t, answer, tick);
    }
  }

  /** Every failure of an attempt is answered as its fault demands. */
  lemma FailingIsSafe(cfg: Config, f: Facts, r: Record, fault: Fault, t: Tick)
    requires Provisioning(cfg, f, r) && FailedWith(f, fault, t)
    ensures Safe(cfg, f, ProvisionFailed(cfg, r, fault, t))
  {
    if fault.Cancelled? {
      EndingIsSafe(cfg, f, ReleaseClaim(Provision));
    } else if fault.RateLimited? {
      EndingIsSafe(cfg, f, DeferRateLimitedWork(Provision, Cause("provision"), fault.resetAt, cfg.maxAttempts));
    } else if fault.OutcomeUnknown? {
      OrphaningIsSafe(cfg, f, r, "provider create outcome unknown");
    } else if r.attempts >= cfg.maxAttempts {
      GivingUpIsSafe(cfg, f, r, fault, t);
    } else {
      MarkFailedIsSafe(cfg, f, r, fault, t);
    }
  }

  /** The last happening failed, in one of the ways that leave the job's demand unclear. */
  predicate FailedCheck(f: Facts, fault: Fault, t: Tick) {
    && f.history.Then? && WentWrong(f.history.last) && f.history.last.tick == t && FaultIn(f.history.last) == fault
    && (if t.expired then FailedWith(f, fault, t) else Unfailed(f) && DemandUnclear(f.start, f.history))
  }

  lemma DeferringIsSafe(cfg: Config, f: Facts, r: Record, fault: Fault, t: Tick)
    requires Provisioning(cfg, f, r) && FailedCheck(f, fault, t)
    ensures Safe(cfg, f, DeferDemandCheck(cfg, r, fault, t))
  {
    if t.expired {
      FailingIsSafe(cfg, f, r, fault, t);
    } else {
      EndingIsSafe(cfg, f, DeferProvisioningDemand(Cause("demand"), RetryAt(cfg, fault, t)));
    }
  }

  /** The job is not wanted any more, as the worker has last learnt, and nothing has failed. */
  predicate Retiring(cfg: Config, f: Facts, r: Record) {
    && Provisioning(cfg, f, r) && Unfailed(f) && DemandOf(f.start, f.history).Unwanted?
    && RegisteredID(f.start, f.history) == r.runnerID
  }

  /** While the claim is held the record has no instance, so retiring it never takes the branch that keeps one. */
  lemma RetiringIsSafe(cfg: Config, f: Facts, r: Record)
    requires Provisioning(cfg, f, r) && Unfailed(f) && DemandOf(f.start, f.history).Unwanted?
    requires RegisteredID(f.start, f.history) == 0 && MayLook(cfg, f)
    ensures Safe(cfg, f, RetireProvisioning(cfg, r))
  {
    forall current, t | Readable(f, current)
      ensures Safe(cfg, f.Now(Read(current, t)), RetireProvisioning(cfg, r).next(current, t))
    {
      var read := f.Now(Read(current, t));
      StillHolding(cfg, f, r, Read(current, t));
      forall tick
        ensures Safe(cfg, read.Now(DidNot(Alter(MarkDeleted), tick)), ProvisionFailed(cfg, r, OtherFailure, tick))
      {
        StillHolding(cfg, read, r, DidNot(Alter(MarkDeleted), tick));
        FailingIsSafe(cfg, read.Now(DidNot(Alter(MarkDeleted), tick)), r, OtherFailure, tick);
      }
    }
  }

  lemma RemovedIdleIsSafe(cfg: Config, f: Facts, r: Record, answer: Answer, t: Tick)
    requires Retiring(cfg, f, r) && r.OwnsRunnerID() && Plausible(Removal(f.start, r.runnerID), answer)
    requires !FailedToRegister(f.history)
    ensures Safe(cfg, f.Now(Asked(Removal(f.start, r.runnerID), answer, t)), RetireIdle(cfg, r).answered(answer, t))
  {
    var x := Asked(Removal(f.start, r.runnerID), answer, t);
    var heard := f.Now(x);
    StillHolding(cfg, f, r, x);
    if answer.Faulted? {
      DeferringIsSafe(cfg, heard, r, answer.fault, t);
    } else {
      ClearedThenRetiringIsSafe(cfg, heard, r, RetireIdle(cfg, r).answered(answer, t));
    }
  }

  lemma ClearedThenRetiringIsSafe(cfg: Config, f: Facts, r: Record, p: Program)
    requires Retiring(cfg, f, r) && JustRemoved(f)
    requires p.Commit? && p.action == Alter(ClearJIT)
    requires forall c :: p.saved(c) == RetireProvisioning(cfg, r)
    requires forall t :: p.failed(t) == DeferDemandCheck(cfg, r, OtherFailure, t)
    ensures Safe(cfg, f, p)
  {
    forall c ensures Safe(cfg, f.Now(Did(Alter(ClearJIT), c)), p.saved(c)) {
      StillHolding(cfg, f, r, Did(Alter(ClearJIT), c));
      RetiringIsSafe(cfg, f.Now(Did(Alter(ClearJIT), c)), r);
    }
    forall tick ensures Safe(cfg, f.Now(DidNot(Alter(ClearJIT), tick)), p.failed(tick)) {
      StillHolding(cfg, f, r, DidNot(Alter(ClearJIT), tick));
      DeferringIsSafe(cfg, f.Now(DidNot(Alter(ClearJIT), tick)), r, OtherFailure, tick);
    }
  }

  lemma RetiringIdleIsSafe(cfg: Config, f: Facts, r: Record)
    requires Retiring(cfg, f, r) && !FailedToRegister(f.history) && !DemandUnclear(f.start, f.history)
    requires !r.OwnsRunnerID() ==> MayLook(cfg, f)
    ensures Safe(cfg, f, RetireIdle(cfg, r))
  {
    if r.OwnsRunnerID() {
      var request := Removal(f.start, r.runnerID);
      forall answer, t | Plausible(request, answer)
        ensures Safe(cfg, f.Now(Asked(request, answer, t)), RetireIdle(cfg, r).answered(answer, t))
      {
        RemovedIdleIsSafe(cfg, f, r, answer, t);
      }
    } else {
      RetiringIsSafe(cfg, f, r);
    }
  }

  /** The facts after a passed gate. */
  function GatePassed(f: Facts, r: Record, current: Option<Record>, t: Tick, tick: Tick): Facts {
    f.Now(Read(current, t)).Now(Asked(OwnJob(r), JobIs(JobQueued), tick))
  }

  lemma StillProvisioningGated(cfg: Config, f: Facts, r: Record, current: Option<Record>, t: Tick, tick: Tick)
    requires Provisioning(cfg, f, r) && Unfailed(f)
    ensures var g := GatePassed(f, r, current, t, tick);
      && Provisioning(cfg, g, r) && Unfailed(g) && DemandOf(g.start, g.history).Wanted?
      && RegisteredID(g.start, g.history) == RegisteredID(f.start, f.history)
  {
    StillHolding(cfg, f, r, Read(current, t));
    StillHolding(cfg, f.Now(Read(current, t)), r, Asked(OwnJob(r), JobIs(JobQueued), tick));
  }

  lemma JobAnsweredIsSafe(cfg: Config, f: Facts, r: Record, proceed: Program, answer: Answer, t: Tick, p: Program)
    requires Provisioning(cfg, f, r) && Unfailed(f) && f.history.Then? && f.history.last.Read?
    requires f.history.last.current.Some? && !f.history.last.current.value.jobCompleted
    requires Plausible(OwnJob(r), answer) && RegisteredID(f.start, f.history) == r.runnerID
    requires p == if answer.Faulted? then DeferDemandCheck(cfg, r, answer.fault, t)
                  else if answer == JobIs(JobQueued) then proceed else RetireIdle(cfg, r)
    requires answer == JobIs(JobQueued) ==> Safe(cfg, f.Now(Asked(OwnJob(r), answer, t)), proceed)
    ensures Safe(cfg, f.Now(Asked(OwnJob(r), answer, t)), p)
  {
    var x := Asked(OwnJob(r), answer, t);
    StillHolding(cfg, f, r, x);
    if answer.Faulted? {
      DeferringIsSafe(cfg, f.Now(x), r, answer.fault, t);
    } else if answer != JobIs(JobQueued) {
      RetiringIdleIsSafe(cfg, f.Now(x), r);
    }
  }

  lemma GateReadIsSafe(cfg: Config, f: Facts, r: Record, proceed: Program, current: Option<Record>, t: Tick)
    requires Provisioning(cfg, f, r) && Unfailed(f) && Readable(f, current)
    requires RegisteredID(f.start, f.history) == r.runnerID && !DemandOf(f.start, f.history).Unwanted?
    requires current.Some? && !current.value.jobCompleted ==>
      forall tick :: Safe(cfg, GatePassed(f, r, current, t, tick), proceed)
    ensures Safe(cfg, f.Now(Read(current, t)), RequireQueuedJob(cfg, r, proceed).next(current, t))
  {
    var read := f.Now(Read(current, t));
    var p := RequireQueuedJob(cfg, r, proceed).next(current, t);
    StillHolding(cfg, f, r, Read(current, t));
    if current.value.jobCompleted {
      RetiringIdleIsSafe(cfg, read, r);
    } else {
      forall answer, tick | Plausible(OwnJob(r), answer)
        ensures Safe(cfg, read.Now(Asked(OwnJob(r), answer, tick)), p.answered(answer, tick))
      {
        assert answer == JobIs(JobQueued) ==> Safe(cfg, GatePassed(f, r, current, t, tick), proceed);
        JobAnsweredIsSafe(cfg, read, r, proceed, answer, tick, p.answered(answer, tick));
      }
    }
  }

  /** The demand gate is safe if what follows it is safe once demand has been confirmed. */
  lemma GateIsSafe(cfg: Config, f: Facts, r: Record, proceed: Program)
    requires Provisioning(cfg, f, r) && Unfailed(f) && MayLook(cfg, f)
    requires RegisteredID(f.start, f.history) == r.runnerID && !DemandOf(f.start, f.history).Unwanted?
    requires forall current: Option<Record>, t, tick | current.Some? && !current.value.jobCompleted ::
      Safe(cfg, GatePassed(f, r, current, t, tick), proceed)
    ensures Safe(cfg, f, RequireQueuedJob(cfg, r, proceed))
  {
    forall current, t | Readable(f, current)
      ensures Safe(cfg, f.Now(Read(current, t)), RequireQueuedJob(cfg, r, proceed).next(current, t))
    {
      GateReadIsSafe(cfg, f, r, proceed, current, t);
    }
  }

  lemma RecordingIsSafe(cfg: Config, f: Facts, r: Record, instanceID: InstanceID, name: string)
    requires Provisioning(cfg, f, r) && Unfailed(f) && !instanceID.NoInstance? && r.runnerID != 0
    requires r.runnerID == RegisteredID(f.start, f.history) && JustNamed(f, instanceID, name)
    ensures Safe(cfg, f, RecordInstance(cfg, r, instanceID, name))
  {
    var action := Alter(MarkProvisioned(instanceID, r.runnerID, name));
    forall t ensures Safe(cfg, f.Now(DidNot(action, t)), ProvisionFailed(cfg, r, OtherFailure, t)) {
      StillHolding(cfg, f, r, DidNot(action, t));
      FailingIsSafe(cfg, f.Now(DidNot(action, t)), r, OtherFailure, t);
    }
    forall c ensures MayStop(cfg, f.Now(Did(action, c))) {
      assert !Holds(f.Now(Did(action, c)).history);
    }
  }

  /** The worker is right behind its second gate. */
  predicate Creating(cfg: Config, f: Facts, r: Record) {
    && Provisioning(cfg, f, r) && Unfailed(f) && Gated(f) && r.runnerID != 0
    && r.runnerID == RegisteredID(f.start, f.history)
    && f.history.past.past.last.action.runnerName == r.runnerName
  }

  lemma CreatingIsSafe(cfg: Config, f: Facts, r: Record)
    requires Creating(cfg, f, r)
    ensures Safe(cfg, f, CreateInstance(cfg, r))
  {
    var request := CreateRunner(r.job.key, r.epoch, r.runnerName);
    forall answer, t | Plausible(request, answer)
      ensures Safe(cfg, f.Now(Asked(request, answer, t)), CreateInstance(cfg, r).answered(answer, t))
    {
      StillHolding(cfg, f, r, Asked(request, answer, t));
      if answer.Created? {
        RecordingIsSafe(cfg, f.Now(Asked(request, answer, t)), r, answer.instanceID, r.runnerName);
      } else {
        FailingIsSafe(cfg, f.Now(Asked(request, answer, t)), r, answer.fault, t);
      }
    }
  }

  /** The job is wanted, and no registration is left from an earlier attempt. */
  predicate Generating(cfg: Config, f: Facts, r: Record) {
    && Provisioning(cfg, f, r) && Unfailed(f) && DemandOf(f.start, f.history).Wanted?
    && RegisteredID(f.start, f.history) == 0 && !DemandUnclear(f.start, f.history)
  }

  lemma GeneratingIsSafe(cfg: Config, f: Facts, r: Record)
    requires Generating(cfg, f, r)
    ensures Safe(cfg, f, GenerateConfig(cfg, r))
  {
    var name := cfg.nameOf(r.job);
    var request := GenerateJITConfig(r.job.owner, r.job.repository, name);
    forall answer, t | Plausible(request, answer)
      ensures Safe(cfg, f.Now(Asked(request, answer, t)), GenerateConfig(cfg, r).answered(answer, t))
    {
      var heard := f.Now(Asked(request, answer, t));
      StillHolding(cfg, f, r, Asked(request, answer, t));
      if answer.Issued? {
        RegistrationProgram(cfg, r, answer.runnerID, t);
        RegisteringIsSafe(cfg, heard, r, answer.runnerID, name, GenerateConfig(cfg, r).answered(answer, t));
      } else {
        FailingIsSafe(cfg, heard, r, FaultOf(answer), t);
        assert GenerateConfig(cfg, r).answered(answer, t) == ProvisionFailed(cfg, r, FaultOf(answer), t);
      }
    }
  }

  /** The issued registration is saved before anything is created for it, and removed if that fails. */
  ghost predicate Registers(cfg: Config, r: Record, runnerID: int, p: Program) {
    var registered := WithRunner(r, runnerID, cfg.nameOf(r.job));
    && p.Commit? && p.action == Register(runnerID, cfg.nameOf(r.job))
    && (forall c :: p.saved(c) == RequireQueuedJob(cfg, registered, CreateInstance(cfg, registered)))
    && (forall t :: p.failed(t).Call? && p.failed(t).request == Removal(r, runnerID))
    && (forall t, answer, t' :: p.failed(t).answered(answer, t') == ProvisionFailed(cfg, r, OtherFailure, t'))
  }

  lemma RegistrationProgram(cfg: Config, r: Record, runnerID: int, t: Tick)
    ensures Registers(cfg, r, runnerID, GenerateConfig(cfg, r).answered(Issued(runnerID), t))
  {
    var p := GenerateConfig(cfg, r).answered(Issued(runnerID), t);
    var name := cfg.nameOf(r.job);
    var registered := WithRunner(r, runnerID, name);
    assert registered == r.(runnerID := runnerID, runnerOwned := true, runnerName := name);
    forall t
      ensures p.failed(t).Call? && p.failed(t).request == Removal(r, runnerID)
      ensures forall answer, t' :: p.failed(t).answered(answer, t') == ProvisionFailed(cfg, r, OtherFailure, t')
    {
      assert p.failed(t)
          == Deregister(registered, (_: Answer, t: Tick) => ProvisionFailed(cfg, r, OtherFailure, t));
    }
  }

  function WithRunner(r: Record, runnerID: int, name: string): Record {
    r.(runnerID := runnerID, runnerOwned := true, runnerName := name)
  }

  lemma RegisteredIsSafe(cfg: Config, f: Facts, r: Record, runnerID: int, name: string, c: Commitment)
    requires Provisioning(cfg, f, r) && Unfailed(f) && runnerID != 0 && IssuedIn(f.history, runnerID)
    requires DemandOf(f.start, f.history).Wanted?
    ensures Safe(cfg, f.Now(Did(Register(runnerID, name), c)),
                 RequireQueuedJob(cfg, WithRunner(r, runnerID, name),
                                  CreateInstance(cfg, WithRunner(r, runnerID, name))))
  {
    var registered := WithRunner(r, runnerID, name);
    var did := f.Now(Did(Register(runnerID, name), c));
    assert Provisioning(cfg, did, registered) && Unfailed(did);
    forall current: Option<Record>, t, tick | current.Some? && !current.value.jobCompleted
      ensures Safe(cfg, GatePassed(did, registered, current, t, tick), CreateInstance(cfg, registered))
    {
      StillProvisioningGated(cfg, did, registered, current, t, tick);
      CreatingIsSafe(cfg, GatePassed(did, registered, current, t, tick), registered);
    }
    GateIsSafe(cfg, did, registered, CreateInstance(cfg, registered));
  }

  lemma UnregisteredIsSafe(cfg: Config, f: Facts, r: Record, runnerID: int, name: string, p: Program)
    requires Generating(cfg, f, r) && runnerID != 0 && IssuedIn(f.history, runnerID)
    requires p.Call? && p.request == Removal(f.start, runnerID)
    requires forall answer, t :: p.answered(answer, t) == ProvisionFailed(cfg, r, OtherFailure, t)
    ensures forall t :: Safe(cfg, f.Now(DidNot(Register(runnerID, name), t)), p)
  {
    forall t ensures Safe(cfg, f.Now(DidNot(Register(runnerID, name), t)), p) {
      var failed := f.Now(DidNot(Register(runnerID, name), t));
      StillHolding(cfg, f, r, DidNot(Register(runnerID, name), t));
      forall answer, tick ensures Safe(cfg, failed.Now(Asked(p.request, answer, tick)), p.answered(answer, tick)) {
        StillHolding(cfg, failed, r, Asked(p.request, answer, tick));
        FailingIsSafe(cfg, failed.Now(Asked(p.request, answer, tick)), r, OtherFailure, tick);
      }
    }
  }

  lemma RegisteringIsSafe(cfg: Config, f: Facts, r: Record, runnerID: int, name: string, p: Program)
    requires Generating(cfg, f, r) && runnerID != 0
    requires Answered(f.history, GenerateJITConfig(r.job.owner, r.job.repository, name), Issued(runnerID))
    requires name == cfg.nameOf(r.job) && Registers(cfg, r, runnerID, p)
    ensures Safe(cfg, f, p)
  {
    forall c ensures Safe(cfg, f.Now(Did(p.action, c)), p.saved(c)) {
      RegisteredIsSafe(cfg, f, r, runnerID, name, c);
    }
    forall t ensures Safe(cfg, f.Now(DidNot(p.action, t)), p.failed(t)) {
      UnregisteredIsSafe(cfg, f, r, runnerID, name, p.failed(t));
    }
  }

  /** The first gate has been passed. */
  predicate Replacing(cfg: Config, f: Facts, r: Record) {
    && Provisioning(cfg, f, r) && Unfailed(f) && DemandOf(f.start, f.history).Wanted? && !FailedToRegister(f.history)
    && RegisteredID(f.start, f.history) == r.runnerID && !Gated(f) && !DemandUnclear(f.start, f.history)
  }

  lemma StaleRemovedIsSafe(cfg: Config, f: Facts, r: Record, p: Program)
    requires Provisioning(cfg, f, r) && Unfailed(f) && DemandOf(f.start, f.history).Wanted? && JustRemoved(f)
    requires p.Commit? && p.action == Alter(ClearJIT)
    requires forall c :: p.saved(c) == GenerateConfig(cfg, r)
    requires forall t :: p.failed(t) == ProvisionFailed(cfg, r, OtherFailure, t)
    ensures Safe(cfg, f, p)
  {
    forall c ensures Safe(cfg, f.Now(Did(Alter(ClearJIT), c)), p.saved(c)) {
      StillHolding(cfg, f, r, Did(Alter(ClearJIT), c));
      GeneratingIsSafe(cfg, f.Now(Did(Alter(ClearJIT), c)), r);
    }
    forall tick ensures Safe(cfg, f.Now(DidNot(Alter(ClearJIT), tick)), p.failed(tick)) {
      StillHolding(cfg, f, r, DidNot(Alter(ClearJIT), tick));
      FailingIsSafe(cfg, f.Now(DidNot(Alter(ClearJIT), tick)), r, OtherFailure, tick);
    }
  }

  lemma ReplacingIsSafe(cfg: Config, f: Facts, r: Record)
    requires Replacing(cfg, f, r)
    ensures Safe(cfg, f, ReplaceStaleRunner(cfg, r))
  {
    if r.OwnsRunnerID() {
      var request := Removal(f.start, r.runnerID);
      forall answer, t | Plausible(request, answer)
        ensures Safe(cfg, f.Now(Asked(request, answer, t)), ReplaceStaleRunner(cfg, r).answered(answer, t))
      {
        var heard := f.Now(Asked(request, answer, t));
        StillHolding(cfg, f, r, Asked(request, answer, t));
        if answer.Faulted? {
          FailingIsSafe(cfg, heard, r, answer.fault, t);
        } else {
          StaleRemovedIsSafe(cfg, heard, r, ReplaceStaleRunner(cfg, r).answered(answer, t));
        }
      }
    } else {
      GeneratingIsSafe(cfg, f, r);
    }
  }

  lemma FoundIsSafe(cfg: Config, f: Facts, answer: Answer, t: Tick)
    requires Provisioning(cfg, f, f.start) && Unfailed(f) && answer.Located? && !answer.instanceID.NoInstance?
    requires Answered(f.history, FindRunner(f.start.job.key), answer)
    requires RegisteredID(f.start, f.history) == f.start.runnerID
    ensures Safe(cfg, f, ProvisionJob(cfg, f.start).answered(answer, t))
  {
    var r := f.start;
    if r.runnerID == 0 {
      var removal := DeleteRunner(answer.instanceID, r.job.key);
      forall reply, tick | Plausible(removal, reply)
        ensures Safe(cfg, f.Now(Asked(removal, reply, tick)), ProvisionFailed(cfg, r, FaultOf(reply), tick))
      {
        StillHolding(cfg, f, r, Asked(removal, reply, tick));
        FailingIsSafe(cfg, f.Now(Asked(removal, reply, tick)), r, FaultOf(reply), tick);
      }
    } else {
      RecordingIsSafe(cfg, f, r, answer.instanceID, answer.name);
    }
  }

  lemma NotFoundIsSafe(cfg: Config, f: Facts)
    requires Provisioning(cfg, f, f.start) && Unfailed(f) && DemandOf(f.start, f.history).Unasked?
    requires Answered(f.history, FindRunner(f.start.job.key), NotLocated)
    requires RegisteredID(f.start, f.history) == f.start.runnerID
    ensures Safe(cfg, f, RequireQueuedJob(cfg, f.start, ReplaceStaleRunner(cfg, f.start)))
  {
    forall current: Option<Record>, t, tick | current.Some? && !current.value.jobCompleted
      ensures Safe(cfg, GatePassed(f, f.start, current, t, tick), ReplaceStaleRunner(cfg, f.start))
    {
      StillProvisioningGated(cfg, f, f.start, current, t, tick);
      ReplacingIsSafe(cfg, GatePassed(f, f.start, current, t, tick), f.start);
    }
    GateIsSafe(cfg, f, f.start, ReplaceStaleRunner(cfg, f.start));
  }

  /** Everything a provision worker may do after its claim was granted. */
  lemma ProvisioningIsSafe(cfg: Config, f: Facts)
    requires f.role == Provisioner(false) && f.history.Begin? && !Foreign(cfg, f)
    requires (f.start.runnerOwned <==> f.start.runnerID != 0)
    ensures Safe(cfg, f, ProvisionJob(cfg, f.start))
  {
    var r := f.start;
    var request := FindRunner(r.job.key);
    forall answer, t | Plausible(request, answer)
      ensures Safe(cfg, f.Now(Asked(request, answer, t)), ProvisionJob(cfg, r).answered(answer, t))
    {
      var heard := f.Now(Asked(request, answer, t));
      StillHolding(cfg, f, r, Asked(request, answer, t));
      match answer
      case Located(_, _) => FoundIsSafe(cfg, heard, answer, t);
      case NotLocated => NotFoundIsSafe(cfg, heard);
      case _ => FailingIsSafe(cfg, heard, r, FaultOf(answer), t);
    }
  }

  // Deleting

  predicate Deleting(cfg: Config, f: Facts) {
    && f.role == Deleter(false) && Holds(f.history) && f.start.provider == cfg.provider
    && (f.start.runnerOwned <==> f.start.runnerID != 0)
  }

  lemma ReleasingIsSafe(cfg: Config, f: Facts)
    requires f.role.Deleter? && Holds(f.history) && HasCause(cfg, f, Alter(ReleaseClaim(Delete)))
    ensures Safe(cfg, f, ReleaseDelete())
  {
    EndingIsSafe(cfg, f, ReleaseClaim(Delete));
  }

  /** The last happening failed with this fault at this time. */
  predicate FailedAt(f: Facts, fault: Fault, t: Tick) {
    && f.history.Then? && WentWrong(f.history.last) && f.history.last.tick == t && FaultIn(f.history.last) == fault
  }

  lemma RetryingIsSafe(cfg: Config, f: Facts, fault: Fault, t: Tick)
    requires Deleting(cfg, f) && FailedAt(f, fault, t) && !Refused(f.start, f.history)
    requires !CutShort(f.history.last) ==> DeletionFailed(f, f.history.last)
    ensures Safe(cfg, f, RetryDelete(cfg, fault, t))
  {
    if TimedOut(fault, t) {
      ReleasingIsSafe(cfg, f);
    } else {
      EndingIsSafe(cfg, f, MarkDeleteFailed(Cause("delete"), cfg.backoff(t.now), cfg.maxAttempts));
    }
  }

  /** Ending the deletion needs the whole cleanup behind it. It restores the job exactly if the snapshot owes
   the recheck and the demand was confirmed, and it never ignores an owed recheck. */
  lemma FinishingIsSafe(cfg: Config, f: Facts, queued: bool)
    requires Deleting(cfg, f) && CleanedUp(cfg, f) && !Refused(f.start, f.history)
    requires queued <==> f.start.recheckDemand && !f.start.jobCompleted && DemandConfirmed(f)
    requires Owed(f) ==> DemandRead(f) || DemandAnswered(f)
    ensures Safe(cfg, f, FinishDeleted(cfg, queued))
  {
    var action := Alter(FinishDeletedRunner(queued));
    forall c ensures MayStop(cfg, f.Now(Did(action, c))) {
      assert !Holds(f.Now(Did(action, c)).history);
    }
    forall t: Tick ensures Safe(cfg, f.Now(DidNot(action, t)), FinishDeleted(cfg, queued).failed(t)) {
      UnfinishedIsSafe(cfg, f.Now(DidNot(action, t)), t, FinishDeleted(cfg, queued).failed(t));
    }
  }

  lemma UnfinishedIsSafe(cfg: Config, f: Facts, t: Tick, p: Program)
    requires Deleting(cfg, f) && !Refused(f.start, f.history) && FailedToFinish(f.history) && f.history.last.tick == t
    requires p.Commit? && p.action == Alter(MarkDeleteFailed(Cause("persist"), cfg.backoff(t.now), cfg.maxAttempts))
    requires (forall c :: p.saved(c) == Done) && forall tick :: p.failed(tick) == ReleaseDelete()
    ensures Safe(cfg, f, p)
  {
    forall c ensures MayStop(cfg, f.Now(Did(p.action, c))) {
      assert !Holds(f.Now(Did(p.action, c)).history);
    }
    forall tick ensures Safe(cfg, f.Now(DidNot(p.action, tick)), ReleaseDelete()) {
      ReleasingIsSafe(cfg, f.Now(DidNot(p.action, tick)));
    }
  }

  lemma RecheckFailingIsSafe(cfg: Config, f: Facts, fault: Fault, t: Tick)
    requires Deleting(cfg, f) && CleanedUp(cfg, f) && Owed(f) && FailedAt(f, fault, t)
    requires f.history.last.Read? || (f.history.last.Asked? && f.history.last.request == OwnJob(f.start))
    ensures Safe(cfg, f, RecheckFailed(cfg, fault, t))
  {
    if TimedOut(fault, t) {
      ReleasingIsSafe(cfg, f);
    } else {
      EndingIsSafe(cfg, f, DeferReassignmentDemand(Cause("recheck"), RetryAt(cfg, fault, t)));
    }
  }

  /** Hearing more never undoes a cleanup. */
  lemma StaysCleanedUp(cfg: Config, f: Facts, x: Happening)
    requires Deleting(cfg, f) && CleanedUp(cfg, f) && !Refused(f.start, f.history)
    requires x.Read? || (x.Asked? && x.request.AskJob?)
    ensures Deleting(cfg, f.Now(x)) && CleanedUp(cfg, f.Now(x)) && !Refused(f.start, f.Now(x).history)
  {
  }

  lemma RecheckingIsSafe(cfg: Config, f: Facts)
    requires Deleting(cfg, f) && CleanedUp(cfg, f) && !Refused(f.start, f.history)
    requires f.history.Then? && !f.history.last.Read? && !WentWrong(f.history.last)
    ensures Safe(cfg, f, RecheckDemand(cfg, f.start))
  {
    var r := f.start;
    if !(r.recheckDemand && !r.jobCompleted) {
      FinishingIsSafe(cfg, f, false);
    } else {
      forall current, t | Readable(f, current)
        ensures Safe(cfg, f.Now(Read(current, t)), RecheckDemand(cfg, r).next(current, t))
      {
        StaysCleanedUp(cfg, f, Read(current, t));
        RecheckReadIsSafe(cfg, f.Now(Read(current, t)), current, t);
      }
    }
  }

  lemma RecheckReadIsSafe(cfg: Config, f: Facts, current: Option<Record>, t: Tick)
    requires Deleting(cfg, f) && CleanedUp(cfg, f) && !Refused(f.start, f.history)
    requires f.history.Then? && f.history.last == Read(current, t)
    requires f.start.recheckDemand && !f.start.jobCompleted
    ensures Safe(cfg, f, RecheckDemand(cfg, f.start).next(current, t))
  {
    var r := f.start;
    if current.None? {
      RecheckFailingIsSafe(cfg, f, OtherFailure, t);
    } else if current.value.jobCompleted {
      FinishingIsSafe(cfg, f, false);
    } else {
      forall answer, tick | Plausible(OwnJob(r), answer)
        ensures Safe(cfg, f.Now(Asked(OwnJob(r), answer, tick)),
                     RecheckDemand(cfg, r).next(current, t).answered(answer, tick))
      {
        StaysCleanedUp(cfg, f, Asked(OwnJob(r), answer, tick));
        if answer.Faulted? {
          RecheckFailingIsSafe(cfg, f.Now(Asked(OwnJob(r), answer, tick)), answer.fault, tick);
        } else {
          FinishingIsSafe(cfg, f.Now(Asked(OwnJob(r), answer, tick)), answer == JobIs(JobQueued));
        }
      }
    }
  }

  lemma RemovalFailedIsSafe(cfg: Config, f: Facts, fault: Fault, t: Tick)
    requires Deleting(cfg, f) && ProviderCleaned(cfg, f) && !Refused(f.start, f.history)
    requires f.start.OwnsRunnerID() && f.history.Then?
    requires f.history.last == Asked(Removal(f.start, f.start.runnerID), Faulted(fault), t)
    ensures Safe(cfg, f, RemoveDeletedRunner(cfg, f.start).answered(Faulted(fault), t))
  {
    if !TimedOut(fault, t) && fault.RateLimited? {
      EndingIsSafe(cfg, f, DeferRateLimitedWork(Delete, Cause("deregister"), fault.resetAt, cfg.maxAttempts));
    } else {
      RetryingIsSafe(cfg, f, fault, t);
    }
  }

  lemma RemovingIsSafe(cfg: Config, f: Facts)
    requires Deleting(cfg, f) && ProviderCleaned(cfg, f) && !Refused(f.start, f.history)
    requires f.history.Then? && !f.history.last.Read? && !WentWrong(f.history.last)
    ensures Safe(cfg, f, RemoveDeletedRunner(cfg, f.start))
  {
    var r := f.start;
    if r.OwnsRunnerID() {
      var request := Removal(r, r.runnerID);
      forall answer, t | Plausible(request, answer)
        ensures Safe(cfg, f.Now(Asked(request, answer, t)), RemoveDeletedRunner(cfg, r).answered(answer, t))
      {
        var heard := f.Now(Asked(request, answer, t));
        if answer.Faulted? {
          RemovalFailedIsSafe(cfg, heard, answer.fault, t);
        } else {
          RecheckingIsSafe(cfg, heard);
        }
      }
    } else {
      RecheckingIsSafe(cfg, f);
    }
  }

  lemma CleaningIsSafe(cfg: Config, f: Facts)
    requires Deleting(cfg, f) && !Refused(f.start, f.history)
    requires if cfg.confirmsAbsence then Answered(f.history, RunnerAbsent(f.start.instanceID), IsAbsent(true))
             else Answered(f.history, DeleteRunner(f.start.instanceID, f.start.job.key), Agreed)
    ensures Safe(cfg, f, CleanUpDuplicates(cfg, f.start))
  {
    var p := CleanUpDuplicates(cfg, f.start);
    forall answer, t | Plausible(p.request, answer)
      ensures Safe(cfg, f.Now(Asked(p.request, answer, t)), p.answered(answer, t))
    {
      if answer.Faulted? {
        RetryingIsSafe(cfg, f.Now(Asked(p.request, answer, t)), answer.fault, t);
      } else {
        RemovingIsSafe(cfg, f.Now(Asked(p.request, answer, t)));
      }
    }
  }

  lemma AwaitingIsSafe(cfg: Config, f: Facts, answer: Answer, t: Tick)
    requires Deleting(cfg, f) && cfg.confirmsAbsence && Accepted(f) && f.history.Then?
    requires f.history.last == Asked(RunnerAbsent(f.start.instanceID), answer, t)
    requires answer.Faulted? || answer == IsAbsent(false)
    ensures Safe(cfg, f, ConfirmAbsence(cfg, f.start).answered(answer, t))
  {
    if TimedOut(FaultOf(answer), t) {
      ReleasingIsSafe(cfg, f);
    } else {
      var action := Alter(DeferDeletionConfirmation(Cause("awaiting absence"), cfg.backoff(t.now)));
      forall c ensures MayStop(cfg, f.Now(Did(action, c))) {
        assert !Holds(f.Now(Did(action, c)).history);
      }
      forall tick ensures Safe(cfg, f.Now(DidNot(action, tick)), ReleaseDelete()) {
        ReleasingIsSafe(cfg, f.Now(DidNot(action, tick)));
      }
    }
  }

  lemma ConfirmingIsSafe(cfg: Config, f: Facts)
    requires Deleting(cfg, f) && cfg.confirmsAbsence && Accepted(f) && !Refused(f.start, f.history)
    ensures Safe(cfg, f, ConfirmAbsence(cfg, f.start))
  {
    var request := RunnerAbsent(f.start.instanceID);
    forall answer, t | Plausible(request, answer)
      ensures Safe(cfg, f.Now(Asked(request, answer, t)), ConfirmAbsence(cfg, f.start).answered(answer, t))
    {
      if answer == IsAbsent(true) {
        CleaningIsSafe(cfg, f.Now(Asked(request, answer, t)));
      } else {
        AwaitingIsSafe(cfg, f.Now(Asked(request, answer, t)), answer, t);
      }
    }
  }

  lemma DeleteFailingIsSafe(cfg: Config, f: Facts, fault: Fault, t: Tick)
    requires Deleting(cfg, f) && FailedAt(f, fault, t)
    requires !TimedOut(fault, t) && fault.OwnershipMismatch? <==> Refused(f.start, f.history)
    requires !CutShort(f.history.last) ==> DeletionFailed(f, f.history.last)
    requires Views(f, f.start)
    ensures Safe(cfg, f, DeleteFailed(cfg, f.start, fault, t))
  {
    if !TimedOut(fault, t) && fault.OwnershipMismatch? {
      OrphaningIsSafe(cfg, f, f.start, "runner requires operator cleanup");
    } else {
      RetryingIsSafe(cfg, f, fault, t);
    }
  }

  lemma AcceptingIsSafe(cfg: Config, f: Facts, p: Program)
    requires Deleting(cfg, f) && cfg.confirmsAbsence && Views(f, f.start) && !Refused(f.start, f.history)
    requires Answered(f.history, DeleteRunner(f.start.instanceID, f.start.job.key), Agreed)
    requires p.Commit? && p.action == Alter(AcceptDeletion(f.start.instanceID))
    requires forall c :: p.saved(c) == ConfirmAbsence(cfg, f.start)
    requires forall t :: p.failed(t) == DeleteFailed(cfg, f.start, OtherFailure, t)
    ensures Safe(cfg, f, p)
  {
    forall c ensures Safe(cfg, f.Now(Did(p.action, c)), p.saved(c)) {
      ConfirmingIsSafe(cfg, f.Now(Did(p.action, c)));
    }
    forall t ensures Safe(cfg, f.Now(DidNot(p.action, t)), p.failed(t)) {
      DeleteFailingIsSafe(cfg, f.Now(DidNot(p.action, t)), OtherFailure, t);
    }
  }

  lemma DeletedIsSafe(cfg: Config, f: Facts, answer: Answer, t: Tick)
    requires Deleting(cfg, f) && f.history.Then? && f.history.past.Begin?
    requires !(cfg.confirmsAbsence && f.start.acceptedID == f.start.instanceID)
    requires Plausible(DeleteRunner(f.start.instanceID, f.start.job.key), answer)
    requires f.history.last == Asked(DeleteRunner(f.start.instanceID, f.start.job.key), answer, t)
    ensures Safe(cfg, f, DeleteInstance(cfg, f.start).answered(answer, t))
  {
    if answer.Faulted? {
      DeleteFailingIsSafe(cfg, f, answer.fault, t);
    } else if cfg.confirmsAbsence {
      AcceptingIsSafe(cfg, f, DeleteInstance(cfg, f.start).answered(answer, t));
    } else {
      CleaningIsSafe(cfg, f);
    }
  }

  /** Everything a delete worker may do after its claim was granted. */
  lemma DeletingIsSafe(cfg: Config, f: Facts)
    requires Deleting(cfg, f) && f.history.Begin?
    ensures Safe(cfg, f, DeleteInstance(cfg, f.start))
  {
    var r := f.start;
    if cfg.confirmsAbsence && r.acceptedID == r.instanceID {
      ConfirmingIsSafe(cfg, f);
    } else {
      var request := DeleteRunner(r.instanceID, r.job.key);
      forall answer, t | Plausible(request, answer)
        ensures Safe(cfg, f.Now(Asked(request, answer, t)), DeleteInstance(cfg, r).answered(answer, t))
      {
        DeletedIsSafe(cfg, f.Now(Asked(request, answer, t)), answer, t);
      }
    }
  }

  /** Whatever a worker does with the work it claimed meets the rules and has its cause. */
  lemma ProcessingIsSafe(cfg: Config, f: Facts, kind: Work, canceled: bool)
    requires f.history.Begin? && (f.start.runnerOwned <==> f.start.runnerID != 0)
    requires (kind.Provision? && f.role == Provisioner(canceled)) || (kind.Delete? && f.role == Deleter(canceled))
    ensures Safe(cfg, f, Process(cfg, f.start, kind, canceled))
  {
    if canceled {
      EndingIsSafe(cfg, f, ReleaseClaim(kind));
    } else if f.start.provider != cfg.provider {
      OrphaningIsSafe(cfg, f, f.start, "record belongs to another provider");
    } else if kind.Provision? {
      ProvisioningIsSafe(cfg, f);
    } else {
      DeletingIsSafe(cfg, f);
    }
  }
}
