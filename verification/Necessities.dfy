/**
 What the rules leave a routine to do: at the turning points of its work a safe program has exactly one
 next step, and some steps are only ever taken for a reason that lies in the routine's history.
 */
module Necessities {
  import opened Lifecycle
  import opened Protocol
  import opened Causes

  // Learning that a job is not wanted

  predicate ReadCompleted(h: History) {
    h.Then? && ((h.last.Read? && h.last.current.Some? && h.last.current.value.jobCompleted) || ReadCompleted(h.past))
  }

  /** A job is taken to be unwanted only after its record was read as completed, or GitHub said it has begun. */
  lemma UnwantedWasLearnt(start: Record, h: History)
    requires DemandOf(start, h).Unwanted?
    ensures ReadCompleted(h) || Heard(h, OwnJob(start), JobIs(JobInProgress)) || Heard(h, OwnJob(start), JobIs(JobDone))
  {
    if h.last.Asked? && h.last.request == OwnJob(start) && h.last.answer.JobIs? {
      assert h.last.answer == JobIs(h.last.answer.job);
      assert h.last.answer.job.JobInProgress? || h.last.answer.job.JobDone?;
    } else if !(h.last.Read? && h.last.current.Some? && h.last.current.value.jobCompleted) {
      UnwantedWasLearnt(start, h.past);
    }
  }

  // An unclear demand

  lemma UnclearIsNoEnd(cfg: Config, f: Facts)
    requires f.role == Provisioner(false) && Holds(f.history) && DemandUnclear(f.start, f.history)
    ensures !MayStop(cfg, f) && !MayLook(cfg, f)
  {
  }

  lemma UnclearAsksNothing(cfg: Config, f: Facts, request: Request)
    requires f.role == Provisioner(false) && FailureOf(f.start, f.history).NoFailure? && !Foreign(cfg, f)
    requires DemandUnclear(f.start, f.history)
    ensures !HasReason(cfg, f, request)
  {
  }

  lemma UnclearOnlyDefers(cfg: Config, f: Facts, action: Action)
    requires f.role == Provisioner(false) && FailureOf(f.start, f.history).NoFailure? && !Foreign(cfg, f)
    requires DemandUnclear(f.start, f.history) && HasCause(cfg, f, action)
    ensures action.Alter? && action.mutation.DeferProvisioningDemand?
    ensures action.mutation.retryAt == RetryTime(cfg, f.history.last)
  {
  }

  /** A provision worker that cannot confirm the demand in time defers it: it can do nothing else. */
  lemma UnclearIsDeferred(cfg: Config, f: Facts, p: Program)
    requires Safe(cfg, f, p) && f.role == Provisioner(false) && Holds(f.history) && !Foreign(cfg, f)
    requires FailureOf(f.start, f.history).NoFailure? && DemandUnclear(f.start, f.history)
    ensures p.Commit? && p.action.Alter? && p.action.mutation.DeferProvisioningDemand?
    ensures p.action.mutation.retryAt == RetryTime(cfg, f.history.last)
  {
    UnclearIsNoEnd(cfg, f);
    match p
    case Call(request, _) =>
      SafeHasReason(cfg, f, p);
      UnclearAsksNothing(cfg, f, request);
    case Commit(action, _, _) =>
      SafeHasCause(cfg, f, p);
      UnclearOnlyDefers(cfg, f, action);
    case Get(_) => SafeLooks(cfg, f, p);
    case Done => SafeStops(cfg, f, p);
  }

  // A passed gate

  /** Right behind its second gate a provision worker can only create the instance. */
  lemma GatedCreates(cfg: Config, f: Facts, p: Program)
    requires Safe(cfg, f, p) && f.role == Provisioner(false) && Holds(f.history) && !Foreign(cfg, f)
    requires FailureOf(f.start, f.history).NoFailure? && Gated(f) && RegisteredID(f.start, f.history) != 0
    ensures p.Call? && p.request == CreateRunner(f.start.job.key, f.start.epoch,
                                                 f.history.past.past.last.action.runnerName)
  {
    match p
    case Call(request, _) =>
      SafeAsks(cfg, f, p);
      SafeHasReason(cfg, f, p);
    case Commit(_, _, _) => SafeHasCause(cfg, f, p);
    case Get(_) => SafeLooks(cfg, f, p);
    case Done => SafeStops(cfg, f, p);
  }

  // A runner whose job is over

  predicate Found(start: Record, h: History) {
    && h.Then? && h.past.Begin? && h.last.Asked? && h.last.request == FindRunner(start.job.key)
    && h.last.answer.Located?
  }

  /** The reaper found the instance, and its job is over: by its record, or by GitHub's answer. */
  predicate FoundOver(start: Record, h: History) {
    if start.jobCompleted then Found(start, h)
    else Answered(h, OwnJob(start), JobIs(JobDone)) && Found(start, h.past)
  }

  /** Then the registration is removed. */
  predicate OverRemoved(start: Record, h: History) {
    Answered(h, Removal(start, start.runnerID), Agreed) && FoundOver(start, h.past)
  }

  /** Then the removal is recorded. */
  predicate OverCleared(start: Record, h: History) { JustDid(h, ClearJIT) && OverRemoved(start, h.past) }

  predicate Reconciles(cfg: Config, f: Facts) {
    f.role.Reaper? && f.role.listing.ListedProvisioned? && !Foreign(cfg, f)
  }

  predicate IsScheduling(p: Program) { p.Commit? && p.action == Alter(ScheduleDeletion) }

  /** All the reaper has learnt is that the instance is there, and perhaps that its job is over. */
  predicate KnowsNoMore(cfg: Config, start: Record, h: History) {
    && HeardLocated(h, start.job.key) && !Heard(h, FindRunner(start.job.key), NotLocated)
    && !Heard(h, CleanupRunner(start.job.key), Agreed) && !NeverOnline(cfg, start, h) && !ProviderWasGone(cfg, h)
    && !Heard(h, OwnJob(start), JobIs(JobQueued)) && !Heard(h, OwnJob(start), JobIs(JobInProgress))
    && !IssuedIn(h, start.runnerID)
  }

  lemma FoundKnows(cfg: Config, start: Record, h: History)
    requires Found(start, h)
    ensures KnowsNoMore(cfg, start, h) && !Requested(h, Removal(start, start.runnerID))
    ensures !Heard(h, Removal(start, start.runnerID), Agreed) && RegisteredID(start, h) == start.runnerID
  {
    assert !Heard(h.past, FindRunner(start.job.key), NotLocated);
  }

  lemma FoundOverKnows(cfg: Config, start: Record, h: History)
    requires FoundOver(start, h)
    ensures KnowsNoMore(cfg, start, h) && !Requested(h, Removal(start, start.runnerID))
    ensures !Heard(h, Removal(start, start.runnerID), Agreed) && RegisteredID(start, h) == start.runnerID
  {
    if start.jobCompleted {
      FoundKnows(cfg, start, h);
    } else {
      FoundKnows(cfg, start, h.past);
    }
  }

  lemma OverRemovedKnows(cfg: Config, start: Record, h: History)
    requires OverRemoved(start, h)
    ensures KnowsNoMore(cfg, start, h) && Requested(h, Removal(start, start.runnerID))
    ensures RegisteredID(start, h) == start.runnerID
  {
    FoundOverKnows(cfg, start, h.past);
  }

  lemma OverClearedKnows(cfg: Config, start: Record, h: History)
    requires OverCleared(start, h)
    ensures KnowsNoMore(cfg, start, h) && Requested(h, Removal(start, start.runnerID))
  {
    OverRemovedKnows(cfg, start, h.past);
  }

  lemma OverIsNoEnd(cfg: Config, f: Facts)
    requires Reconciles(cfg, f)
    requires FoundOver(f.start, f.history) || OverRemoved(f.start, f.history) || OverCleared(f.start, f.history)
    ensures !MayStop(cfg, f) && !MayLook(cfg, f)
  {
  }

  lemma FoundOverCommits(cfg: Config, f: Facts, action: Action)
    requires Reconciles(cfg, f) && FoundOver(f.start, f.history) && HasCause(cfg, f, action)
    ensures action == Alter(ScheduleDeletion) && !f.start.OwnsRunnerID()
  {
    FoundOverKnows(cfg, f.start, f.history);
  }

  lemma FoundOverAsks(cfg: Config, f: Facts, request: Request)
    requires Reconciles(cfg, f) && FoundOver(f.start, f.history) && Warranted(cfg, f, request)
    ensures request == Removal(f.start, f.start.runnerID) && f.start.OwnsRunnerID()
  {
    FoundOverKnows(cfg, f.start, f.history);
  }

  lemma OverRemovedOnlyClears(cfg: Config, f: Facts, p: Program)
    requires Safe(cfg, f, p) && Reconciles(cfg, f) && OverRemoved(f.start, f.history)
    requires f.start.OwnsRunnerID()
    ensures p.Commit? && p.action == Alter(ClearJIT)
  {
    OverIsNoEnd(cfg, f);
    OverRemovedKnows(cfg, f.start, f.history);
    match p
    case Call(_, _) =>
      SafeAsks(cfg, f, p);
      SafeHasReason(cfg, f, p);
    case Commit(_, _, _) => SafeHasCause(cfg, f, p);
    case Get(_) => SafeLooks(cfg, f, p);
    case Done => SafeStops(cfg, f, p);
  }

  lemma OverClearedOnlySchedules(cfg: Config, f: Facts, p: Program)
    requires Safe(cfg, f, p) && Reconciles(cfg, f) && OverCleared(f.start, f.history)
    ensures IsScheduling(p)
  {
    OverIsNoEnd(cfg, f);
    OverClearedKnows(cfg, f.start, f.history);
    match p
    case Call(_, _) =>
      SafeAsks(cfg, f, p);
      SafeHasReason(cfg, f, p);
    case Commit(_, _, _) => SafeHasCause(cfg, f, p);
    case Get(_) => SafeLooks(cfg, f, p);
    case Done => SafeStops(cfg, f, p);
  }

  /**
   A runner that is found with its job over is retired, step by step: a registration it owns is removed,
   the removal is recorded, and its deletion is scheduled. Nothing else can come next, as long as GitHub
   agrees and saves succeed.
   */
  lemma OverIsRetired(cfg: Config, f: Facts, p: Program)
    requires Safe(cfg, f, p) && Reconciles(cfg, f)
    ensures FoundOver(f.start, f.history) ==>
      if f.start.OwnsRunnerID() then p.Call? && p.request == Removal(f.start, f.start.runnerID) else IsScheduling(p)
    ensures OverRemoved(f.start, f.history) && f.start.OwnsRunnerID() ==> p.Commit? && p.action == Alter(ClearJIT)
    ensures OverCleared(f.start, f.history) ==> IsScheduling(p)
  {
    if FoundOver(f.start, f.history) {
      FoundOverNext(cfg, f, p);
    }
    if OverRemoved(f.start, f.history) && f.start.OwnsRunnerID() {
      OverRemovedOnlyClears(cfg, f, p);
    }
    if OverCleared(f.start, f.history) {
      OverClearedOnlySchedules(cfg, f, p);
    }
  }

  lemma FoundOverNext(cfg: Config, f: Facts, p: Program)
    requires Safe(cfg, f, p) && Reconciles(cfg, f) && FoundOver(f.start, f.history)
    ensures if f.start.OwnsRunnerID() then p.Call? && p.request == Removal(f.start, f.start.runnerID)
            else IsScheduling(p)
  {
    OverIsNoEnd(cfg, f);
    match p
    case Call(request, _) =>
      SafeAsks(cfg, f, p);
      SafeHasReason(cfg, f, p);
      FoundOverAsks(cfg, f, request);
    case Commit(action, _, _) =>
      SafeHasCause(cfg, f, p);
      FoundOverCommits(cfg, f, action);
    case Get(_) => SafeLooks(cfg, f, p);
    case Done => SafeStops(cfg, f, p);
  }
}
