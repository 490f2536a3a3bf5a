/**
 Why things happen in a run of the controller: every next step of every routine has its cause, in every
 interleaving, and what that means for jobs that are given up, deferred and retired.
 */
module ControllerReasons {
  import opened Names
  import opened Lifecycle
  import opened Invariants
  import opened StoreInvariant
  import opened Retention
  import opened Resources
  import opened Protocol
  import opened Causes
  import opened Necessities
  import opened Controller
  import opened ControllerInvariant
  import opened ControllerLaws
  import opened ControllerPromises

  /** The step is warranted by what the routine has learnt and done. */
  ghost predicate NextStepIsCaused(cfg: Config, f: Facts, p: Program) {
    match p
    case Done => MayStop(cfg, f)
    case Get(_) => MayLook(cfg, f)
    case Call(request, _) => Warranted(cfg, f, request)
    case Commit(action, _, _) => Justified(cfg, f, action)
  }

  lemma SafeIsCaused(cfg: Config, f: Facts, p: Program)
    requires Safe(cfg, f, p)
    ensures NextStepIsCaused(cfg, f, p)
  {
    match p
    case Done => SafeStops(cfg, f, p);
    case Get(_) => SafeLooks(cfg, f, p);
    case Call(request, _) => assert Warranted(cfg, f, request);
    case Commit(action, _, _) => assert Justified(cfg, f, action);
  }

  lemma RoutineIsSafe(cfg: Config, limits: Limits, worlds: seq<World>, turns: seq<Turn>, n: nat, i: nat)
    requires IsControllerRun(cfg, limits, worlds, turns) && n < |worlds| && i in worlds[n].routines
    ensures var rt := worlds[n].routines[i]; Safe(cfg, rt.facts, rt.program)
    ensures var rt := worlds[n].routines[i];
      rt.facts.role.Reaper? ==> Selected(rt.facts.start, rt.facts.role.listing, rt.facts.role.listed)
  {
    ControllerRunHolds(cfg, limits, worlds, turns, n);
    RoutineHolds(cfg, limits, worlds[n], i);
  }

  /** In every interleaving each routine's next request, commit, reading or end has its cause. */
  lemma EveryStepHasItsCause(cfg: Config, limits: Limits, worlds: seq<World>, turns: seq<Turn>, n: nat, i: nat)
    requires IsControllerRun(cfg, limits, worlds, turns) && n < |worlds| && i in worlds[n].routines
    ensures NextStepIsCaused(cfg, worlds[n].routines[i].facts, worlds[n].routines[i].program)
  {
    RoutineIsSafe(cfg, limits, worlds, turns, n, i);
    SafeIsCaused(cfg, worlds[n].routines[i].facts, worlds[n].routines[i].program);
  }

  // Workers

  predicate About(rt: Routine, m: Mutation) { rt.program.Commit? && rt.program.action == Alter(m) }

  lemma CausedDeletion(cfg: Config, f: Facts)
    requires f.role.Provisioner? && Justified(cfg, f, Alter(MarkDeleted))
    ensures RegisteredID(f.start, f.history) == 0
    ensures ReadCompleted(f.history) || Heard(f.history, OwnJob(f.start), JobIs(JobInProgress))
      || Heard(f.history, OwnJob(f.start), JobIs(JobDone))
  {
    UnwantedWasLearnt(f.start, f.history);
  }

  /**
   A provision worker gives a job up only after it read the job's record as completed, or heard from
   GitHub that the job has begun or is done; and it leaves no registration behind.
   */
  lemma JobsAreGivenUpOnlyUnwanted(cfg: Config, limits: Limits, worlds: seq<World>, turns: seq<Turn>, n: nat, i: nat)
    requires IsControllerRun(cfg, limits, worlds, turns) && n < |worlds| && i in worlds[n].routines
    requires worlds[n].routines[i].facts.role.Provisioner? && About(worlds[n].routines[i], MarkDeleted)
    ensures var f := worlds[n].routines[i].facts;
      && RegisteredID(f.start, f.history) == 0
      && (ReadCompleted(f.history) || Heard(f.history, OwnJob(f.start), JobIs(JobInProgress))
          || Heard(f.history, OwnJob(f.start), JobIs(JobDone)))
  {
    EveryStepHasItsCause(cfg, limits, worlds, turns, n, i);
    CausedDeletion(cfg, worlds[n].routines[i].facts);
  }

  /** The worker still holds its claim, nothing has failed, but it could not confirm the demand in time. */
  predicate CannotTell(cfg: Config, f: Facts) {
    && f.role == Provisioner(false) && Holds(f.history) && !Foreign(cfg, f)
    && FailureOf(f.start, f.history).NoFailure? && DemandUnclear(f.start, f.history)
  }

  /** A provision worker that cannot confirm the demand defers the job, until a throttle ends or its delay is over. */
  lemma UnclearDemandIsDeferred(cfg: Config, limits: Limits, worlds: seq<World>, turns: seq<Turn>, n: nat, i: nat)
    requires IsControllerRun(cfg, limits, worlds, turns) && n < |worlds| && i in worlds[n].routines
    requires CannotTell(cfg, worlds[n].routines[i].facts)
    ensures var rt := worlds[n].routines[i];
      && rt.program.Commit? && rt.program.action.Alter? && rt.program.action.mutation.DeferProvisioningDemand?
      && rt.program.action.mutation.retryAt == RetryTime(cfg, rt.facts.history.last)
  {
    RoutineIsSafe(cfg, limits, worlds, turns, n, i);
    UnclearIsDeferred(cfg, worlds[n].routines[i].facts, worlds[n].routines[i].program);
  }

  lemma DeferralUnderClaim(r: Record, message: Message, retryAt: Time, now: Time, maxAttempts: int)
    requires LifecycleInv(false, r, maxAttempts) && r.claim.Provision?
    ensures var r' := Mutate(DeferProvisioningDemand(message, retryAt), r, now);
      && r'.claim.NoWork? && r'.attempts == r.attempts - 1 && r'.epoch == r.epoch
      && (if r.status.Completed? then r'.status.Completed? && r'.nextAttemptAt == r.nextAttemptAt
          else r'.status.Pending? && r'.nextAttemptAt == retryAt)
  {
    assert Mutate(DeferProvisioningDemand(message, retryAt), r, now)
        == Stamped(OnDeferProvisioningDemand(r, message, retryAt), now);
  }

  /** The deferral that is saved refunds the attempt, and leaves the job pending unless a completion has come in. */
  lemma DeferralRefunds(cfg: Config, limits: Limits, worlds: seq<World>, turns: seq<Turn>, n: nat)
    requires IsControllerRun(cfg, limits, worlds, turns) && n < |turns| && turns[n].Saves?
    requires turns[n].id in worlds[n].routines
    requires var rt := worlds[n].routines[turns[n].id];
      && CannotTell(cfg, rt.facts) && !IsMarkerKey(rt.key)
      && rt.key in Records(worlds[n]) && rt.key in Records(worlds[n + 1])
    ensures var rt := worlds[n].routines[turns[n].id];
      var r, r' := Records(worlds[n])[rt.key], Records(worlds[n + 1])[rt.key];
      && r'.claim.NoWork? && r'.attempts == r.attempts - 1 && r'.epoch == r.epoch
      && (if r.status.Completed? then r'.status.Completed? && r'.nextAttemptAt == r.nextAttemptAt
          else r'.status.Pending? && r'.nextAttemptAt == RetryTime(cfg, rt.facts.history.last))
  {
    var i := turns[n].id;
    UnclearDemandIsDeferred(cfg, limits, worlds, turns, n, i);
    ControllerRunHolds(cfg, limits, worlds, turns, n);
    RunTurn(cfg, limits, worlds, turns, n);
    HolderKnows(cfg, limits, worlds[n], i);
    DeferralTurn(cfg, limits, worlds, turns, n);
  }

  lemma DeferralTurn(cfg: Config, limits: Limits, worlds: seq<World>, turns: seq<Turn>, n: nat)
    requires |worlds| == |turns| + 1 && n < |turns| && TurnAt(cfg, limits, worlds, turns, n) && turns[n].Saves?
    requires turns[n].id in worlds[n].routines
    requires RecordsHold(worlds[n], limits)
    requires var rt := worlds[n].routines[turns[n].id];
      && rt.program.Commit? && rt.program.action.Alter? && rt.program.action.mutation.DeferProvisioningDemand?
      && rt.key in Records(worlds[n]) && rt.key in Records(worlds[n + 1]) && !IsMarkerKey(rt.key)
      && Records(worlds[n])[rt.key].claim.Provision?
    ensures var rt := worlds[n].routines[turns[n].id];
      var r, r' := Records(worlds[n])[rt.key], Records(worlds[n + 1])[rt.key];
      && r'.claim.NoWork? && r'.attempts == r.attempts - 1 && r'.epoch == r.epoch
      && (if r.status.Completed? then r'.status.Completed? && r'.nextAttemptAt == r.nextAttemptAt
          else r'.status.Pending? && r'.nextAttemptAt == rt.program.action.mutation.retryAt)
  {
    var rt := worlds[n].routines[turns[n].id];
    assert Takes(cfg, limits, worlds[n], turns[n], worlds[n + 1]);
    CommitChangesRecord(cfg, limits, worlds[n], turns[n], worlds[n + 1], rt.key);
    var m := rt.program.action.mutation;
    DeferralUnderClaim(Records(worlds[n])[rt.key], m.message, m.retryAt, turns[n].now, limits.maxAttempts);
  }

  ghost predicate RecordsHold(w: World, limits: Limits) {
    forall k | k in Records(w) && !IsMarkerKey(k) :: LifecycleInv(false, Records(w)[k], limits.maxAttempts)
  }

  lemma CausedRecording(cfg: Config, f: Facts, instanceID: InstanceID, runnerID: int, name: string)
    requires f.role.Provisioner? && Justified(cfg, f, Alter(MarkProvisioned(instanceID, runnerID, name)))
    ensures runnerID == RegisteredID(f.start, f.history) != 0
    ensures Heard(f.history, FindRunner(f.start.job.key), Located(instanceID, name))
      || Heard(f.history, CreateRunner(f.start.job.key, f.start.epoch, name), Created(instanceID))
  {
  }

  /** Only an instance that the provider named for this record is ever recorded, with the runner registered for it. */
  lemma RecordedInstancesWereNamed(cfg: Config, limits: Limits, worlds: seq<World>, turns: seq<Turn>, n: nat, i: nat,
                                   instanceID: InstanceID, runnerID: int, name: string)
    requires IsControllerRun(cfg, limits, worlds, turns) && n < |worlds| && i in worlds[n].routines
    requires About(worlds[n].routines[i], MarkProvisioned(instanceID, runnerID, name))
    ensures var f := worlds[n].routines[i].facts;
      && runnerID == RegisteredID(f.start, f.history) != 0
      && (Heard(f.history, FindRunner(f.start.job.key), Located(instanceID, name))
          || Heard(f.history, CreateRunner(f.start.job.key, f.start.epoch, name), Created(instanceID)))
  {
    EveryStepHasItsCause(cfg, limits, worlds, turns, n, i);
    CausedRecording(cfg, worlds[n].routines[i].facts, instanceID, runnerID, name);
  }

  /** A worker stops only when its claim is given up, or when giving it up could not be saved at last. */
  lemma WorkersStopUnclaimed(cfg: Config, limits: Limits, worlds: seq<World>, turns: seq<Turn>, n: nat, i: nat)
    requires IsControllerRun(cfg, limits, worlds, turns) && n < |worlds| && i in worlds[n].routines
    requires worlds[n].routines[i].program.Done? && !worlds[n].routines[i].facts.role.Reaper?
    ensures var h := worlds[n].routines[i].facts.history;
      !Holds(h) || (h.Then? && h.last.DidNot? && h.last.action.Alter? && Releases(h.last.action.mutation))
  {
    EveryStepHasItsCause(cfg, limits, worlds, turns, n, i);
  }

  // The reaper

  lemma CausedScheduling(cfg: Config, f: Facts)
    requires f.role.Reaper? && Justified(cfg, f, Alter(ScheduleDeletion))
    requires Selected(f.start, f.role.listing, f.role.listed)
    ensures f.role.listing.ListedProvisioned? ==>
      || (JobOver(f) && RunnerRemoved(f))
      || GitHubGone(cfg, f.start, f.history)
    ensures f.role.listing.ListedExpired? ==>
      && !Foreign(cfg, f) && !f.start.instanceID.NoInstance? && f.start.claim.NoWork?
      && (f.start.status.Provisioned? ==> OlderThan(f.start, f.role.listing.cutoff))
      && (f.start.deferDeletion ==> RunnerRemoved(f))
    ensures f.role.listing.ListedProvisioned? || f.role.listing.ListedExpired?
  {
    if f.role.listing.ListedExpired? {
      ListedExactly(f.start, f.role.listed, f.role.listing.cutoff);
    }
  }

  /**
   The reaper schedules a runner's deletion only if it found the instance and its job is over, after
   removing its registration; or if GitHub has been missing the runner across the settle window and the
   startup grace; or if the runner has passed its age, after removing a deferred runner's registration.
   */
  lemma RunnersAreRetiredForReasons(cfg: Config, limits: Limits, worlds: seq<World>, turns: seq<Turn>, n: nat, i: nat)
    requires IsControllerRun(cfg, limits, worlds, turns) && n < |worlds| && i in worlds[n].routines
    requires worlds[n].routines[i].facts.role.Reaper? && About(worlds[n].routines[i], ScheduleDeletion)
    ensures var f := worlds[n].routines[i].facts;
      && (f.role.listing.ListedProvisioned? ==>
           || (JobOver(f) && RunnerRemoved(f))
           || GitHubGone(cfg, f.start, f.history))
      && (f.role.listing.ListedExpired? ==>
           && !Foreign(cfg, f) && !f.start.instanceID.NoInstance? && f.start.claim.NoWork?
           && (f.start.status.Provisioned? ==> OlderThan(f.start, f.role.listing.cutoff))
           && (f.start.deferDeletion ==> RunnerRemoved(f)))
      && (f.role.listing.ListedProvisioned? || f.role.listing.ListedExpired?)
  {
    RoutineIsSafe(cfg, limits, worlds, turns, n, i);
    SafeIsCaused(cfg, worlds[n].routines[i].facts, worlds[n].routines[i].program);
    CausedScheduling(cfg, worlds[n].routines[i].facts);
  }

  /** And where it finds the instance with its job over, that is what it does, step by step. */
  lemma OverRunnersAreRetired(cfg: Config, limits: Limits, worlds: seq<World>, turns: seq<Turn>, n: nat, i: nat)
    requires IsControllerRun(cfg, limits, worlds, turns) && n < |worlds| && i in worlds[n].routines
    requires Reconciles(cfg, worlds[n].routines[i].facts)
    ensures var f, p := worlds[n].routines[i].facts, worlds[n].routines[i].program;
      && (FoundOver(f.start, f.history) ==>
            if f.start.OwnsRunnerID() then p.Call? && p.request == Removal(f.start, f.start.runnerID)
            else IsScheduling(p))
      && (OverRemoved(f.start, f.history) && f.start.OwnsRunnerID() ==> p.Commit? && p.action == Alter(ClearJIT))
      && (OverCleared(f.start, f.history) ==> IsScheduling(p))
  {
    RoutineIsSafe(cfg, limits, worlds, turns, n, i);
    OverIsRetired(cfg, worlds[n].routines[i].facts, worlds[n].routines[i].program);
  }

  // What records name

  /** Which turn makes this change to the record of k. */
  lemma ChangeIsCommit(w: World, turn: Turn, limits: Limits, k: string)
    requires Enabled(w, turn, limits) && StoreOp(w, turn, limits).Change? && StoreOp(w, turn, limits).key == k
    requires var m := StoreOp(w, turn, limits).mutation; m.ClearJIT? || m.ReleaseAbsentOrphan?
    ensures CommitsTo(w, turn, k)
    ensures w.routines[turn.id].program.action == Alter(StoreOp(w, turn, limits).mutation)
  {
  }

  lemma RegistrationIsCommit(w: World, turn: Turn, limits: Limits, k: string)
    requires Enabled(w, turn, limits) && StoreOp(w, turn, limits).MarkJIT? && StoreOp(w, turn, limits).key == k
    ensures turn.Saves? && turn.id in w.routines && w.routines[turn.id].key == k
    ensures w.routines[turn.id].program.Commit? && w.routines[turn.id].program.action.Register?
  {
  }

  /** The routine has just heard GitHub remove the registration the record carries. */
  lemma ClearedWasRemoved(cfg: Config, limits: Limits, w: World, rt: Routine)
    requires StoreInv(w.moment.state, w.moment.ledger, limits) && RoutineInv(cfg, w.moment, rt) && Timely(w, rt)
    requires !IsMarkerKey(rt.key) && rt.key in Records(w) && About(rt, ClearJIT)
    ensures var r := Records(w)[rt.key];
      r.runnerOwned ==> Answered(rt.facts.history, RemoveRunner(r.job.owner, r.job.repository, r.runnerID), Agreed)
  {
    assert RecordInv(rt.key, Records(w)[rt.key], limits.maxAttempts);
    SafeCommits(cfg, rt.facts, rt.program);
    SafeHasCause(cfg, rt.facts, rt.program);
  }

  /** A registration is saved only over a record that carries none. */
  lemma RegisteredWasClear(cfg: Config, limits: Limits, w: World, rt: Routine)
    requires StoreInv(w.moment.state, w.moment.ledger, limits) && RoutineInv(cfg, w.moment, rt)
    requires !IsMarkerKey(rt.key) && rt.key in Records(w) && rt.program.Commit? && rt.program.action.Register?
    ensures !Records(w)[rt.key].runnerOwned
  {
    assert RecordInv(rt.key, Records(w)[rt.key], limits.maxAttempts);
    SafeCommits(cfg, rt.facts, rt.program);
    SafeHasCause(cfg, rt.facts, rt.program);
  }

  lemma RunnerDropped(cfg: Config, limits: Limits, w: World, turn: Turn, k: string)
    requires WorldInv(cfg, limits, w) && Enabled(w, turn, limits)
    requires !IsMarkerKey(k) && k in Records(w) && Records(w)[k].runnerOwned
    requires DropsRunner(StoreOp(w, turn, limits), k)
    ensures CommitsTo(w, turn, k) && About(w.routines[turn.id], ClearJIT)
    ensures Answered(w.routines[turn.id].facts.history,
                     RemoveRunner(Records(w)[k].job.owner, Records(w)[k].job.repository, Records(w)[k].runnerID),
                     Agreed)
  {
    if StoreOp(w, turn, limits).MarkJIT? {
      RegistrationIsCommit(w, turn, limits, k);
      RoutineHolds(cfg, limits, w, turn.id);
      RegisteredWasClear(cfg, limits, w, w.routines[turn.id]);
    } else {
      ChangeIsCommit(w, turn, limits, k);
      RoutineHolds(cfg, limits, w, turn.id);
      ClearedWasRemoved(cfg, limits, w, w.routines[turn.id]);
    }
  }

  /** The store's part in a run of the controller, at one record. */
  lemma RecordInRun(cfg: Config, limits: Limits, worlds: seq<World>, turns: seq<Turn>, n: nat, k: string)
    requires IsControllerRun(cfg, limits, worlds, turns) && n < |turns| && !IsMarkerKey(k)
    requires k in Records(worlds[n]) && k in Records(worlds[n + 1])
    requires Records(worlds[n + 1])[k].epoch == Records(worlds[n])[k].epoch
    ensures var r, r', op := Records(worlds[n])[k], Records(worlds[n + 1])[k], StoreOp(worlds[n], turns[n], limits);
      && (!SameInstance(r, r') && !r.instanceID.NoInstance? ==> DropsInstance(op, k, r))
      && (!SameRunner(r, r') ==> DropsRunner(op, k))
  {
    ControllerRunIsStoreRun(cfg, limits, worlds, turns);
    ResourcesAreKept(Moments(worlds), StoreOps(worlds, turns, limits), limits, k, n);
  }

  /**
   No registration is lost: in every interleaving a record loses the registration it carries, within its
   epoch, only in a commit of a routine that has just heard GitHub remove that very registration.
   */
  lemma RegistrationsAreForgottenOnlyRemoved(cfg: Config, limits: Limits, worlds: seq<World>, turns: seq<Turn>, n: nat,
                                             k: string)
    requires IsControllerRun(cfg, limits, worlds, turns) && n < |turns| && !IsMarkerKey(k)
    requires k in Records(worlds[n]) && k in Records(worlds[n + 1])
    requires Records(worlds[n + 1])[k].epoch == Records(worlds[n])[k].epoch && Records(worlds[n])[k].runnerOwned
    requires !SameRunner(Records(worlds[n])[k], Records(worlds[n + 1])[k])
    ensures CommitsTo(worlds[n], turns[n], k) && About(worlds[n].routines[turns[n].id], ClearJIT)
    ensures var r := Records(worlds[n])[k];
      Answered(worlds[n].routines[turns[n].id].facts.history,
               RemoveRunner(r.job.owner, r.job.repository, r.runnerID), Agreed)
  {
    RecordInRun(cfg, limits, worlds, turns, n, k);
    ControllerRunHolds(cfg, limits, worlds, turns, n);
    RunTurn(cfg, limits, worlds, turns, n);
    EnabledAt(cfg, limits, worlds, turns, n);
    RunnerDropped(cfg, limits, worlds[n], turns[n], k);
  }

  lemma InstanceDropped(cfg: Config, limits: Limits, w: World, turn: Turn, k: string)
    requires WorldInv(cfg, limits, w) && Enabled(w, turn, limits)
    requires k in Records(w) && DropsInstance(StoreOp(w, turn, limits), k, Records(w)[k])
    ensures (turn.Outside? && SweptAway(turn.op, Records(w)[k]))
      || (CommitsTo(w, turn, k) && About(w.routines[turn.id], ReleaseAbsentOrphan(Records(w)[k].instanceID))
          && Answered(w.routines[turn.id].facts.history, RunnerAbsent(Records(w)[k].instanceID), IsAbsent(true)))
  {
    if StoreOp(w, turn, limits).Change? {
      ChangeIsCommit(w, turn, limits, k);
      RoutineHolds(cfg, limits, w, turn.id);
      AbsentWasHeard(cfg, w.routines[turn.id].facts, w.routines[turn.id].program, Records(w)[k].instanceID);
    } else {
      assert turn.Outside?;
    }
  }

  lemma AbsentWasHeard(cfg: Config, f: Facts, p: Program, instanceID: InstanceID)
    requires Safe(cfg, f, p) && p.Commit? && p.action == Alter(ReleaseAbsentOrphan(instanceID))
    ensures Answered(f.history, RunnerAbsent(instanceID), IsAbsent(true))
  {
    SafeHasCause(cfg, f, p);
    SafeCommits(cfg, f, p);
  }

  /**
   No instance is lost: in every interleaving a record loses its instance, within its epoch, only to a
   sweep that has accounted for it, or in a commit of a routine that has just heard that it is absent.
   */
  lemma InstancesAreForgottenOnlyGone(cfg: Config, limits: Limits, worlds: seq<World>, turns: seq<Turn>, n: nat,
                                      k: string)
    requires IsControllerRun(cfg, limits, worlds, turns) && n < |turns| && !IsMarkerKey(k)
    requires k in Records(worlds[n]) && k in Records(worlds[n + 1])
    requires Records(worlds[n + 1])[k].epoch == Records(worlds[n])[k].epoch
    requires !Records(worlds[n])[k].instanceID.NoInstance?
    requires !SameInstance(Records(worlds[n])[k], Records(worlds[n + 1])[k])
    ensures var instanceID := Records(worlds[n])[k].instanceID;
      || (turns[n].Outside? && SweptAway(turns[n].op, Records(worlds[n])[k]))
      || (CommitsTo(worlds[n], turns[n], k)
          && About(worlds[n].routines[turns[n].id], ReleaseAbsentOrphan(instanceID))
          && Answered(worlds[n].routines[turns[n].id].facts.history, RunnerAbsent(instanceID), IsAbsent(true)))
  {
    RecordInRun(cfg, limits, worlds, turns, n, k);
    ControllerRunHolds(cfg, limits, worlds, turns, n);
    RunTurn(cfg, limits, worlds, turns, n);
    EnabledAt(cfg, limits, worlds, turns, n);
    InstanceDropped(cfg, limits, worlds[n], turns[n], k);
  }

  lemma EnabledAt(cfg: Config, limits: Limits, worlds: seq<World>, turns: seq<Turn>, n: nat)
    requires |worlds| == |turns| + 1 && n < |turns| && TurnAt(cfg, limits, worlds, turns, n)
    ensures Enabled(worlds[n], turns[n], limits)
  {
    assert Takes(cfg, limits, worlds[n], turns[n], worlds[n + 1]);
  }
}
