/**
 What the interleaved controller promises about its actions on the outside world.
 */
module ControllerPromises {
  import opened Names
  import opened Lifecycle
  import opened Store
  import opened Invariants
  import opened MutationEvolves
  import opened StoreInvariant
  import opened RunProperties
  import opened Protocol
  import opened Causes
  import opened Workers
  import opened Controller
  import opened ControllerInvariant
  import opened ControllerSteps
  import opened ControllerLaws

  // Exclusive workers

  /** At most one worker holds a record, and a held provision claim means that the record has no instance yet. */
  lemma WorkersAreAlone(cfg: Config, limits: Limits, worlds: seq<World>, turns: seq<Turn>, n: nat, i: nat, j: nat)
    requires IsControllerRun(cfg, limits, worlds, turns) && n < |worlds|
    requires i in worlds[n].routines && j in worlds[n].routines
    requires Holder(cfg, worlds[n].routines[i]) && Holder(cfg, worlds[n].routines[j])
    requires worlds[n].routines[i].key == worlds[n].routines[j].key
    ensures i == j
    ensures var rt := worlds[n].routines[i];
      rt.key in Records(worlds[n]) && var r := Records(worlds[n])[rt.key];
      && r.epoch == rt.facts.start.epoch
      && (rt.facts.role.Provisioner? ==> r.claim.Provision? && r.instanceID.NoInstance?)
      && (rt.facts.role.Deleter? ==> Retired(r))
  {
    ControllerRunHolds(cfg, limits, worlds, turns, n);
    HolderKnows(cfg, limits, worlds[n], i);
  }

  lemma HolderKnows(cfg: Config, limits: Limits, w: World, i: nat)
    requires Configured(cfg, limits) && WorldInv(cfg, limits, w) && i in w.routines && Holder(cfg, w.routines[i])
    ensures var rt := w.routines[i];
      rt.key in Records(w) && var r := Records(w)[rt.key];
      && r.epoch == rt.facts.start.epoch
      && (rt.facts.role.Provisioner? ==> r.claim.Provision? && r.instanceID.NoInstance?)
      && (rt.facts.role.Deleter? ==> Retired(r))
  {
    assert RoutineInv(cfg, w.moment, w.routines[i]);
    assert RecordInv(w.routines[i].key, Records(w)[w.routines[i].key], limits.maxAttempts);
  }

  // Requests to the outside world

  /** The routine that is answered in this turn, about its own request. */
  ghost predicate Asks(cfg: Config, limits: Limits, worlds: seq<World>, turns: seq<Turn>, n: nat)
    requires |worlds| == |turns| + 1
  {
    n < |turns| && turns[n].Answers? && turns[n].id in worlds[n].routines
      && worlds[n].routines[turns[n].id].program.Call?
  }

  lemma AskedByRules(cfg: Config, limits: Limits, w: World, i: nat)
    requires WorldInv(cfg, limits, w) && i in w.routines && w.routines[i].program.Call?
    ensures RoutineInv(cfg, w.moment, w.routines[i]) && MayAsk(cfg, w.routines[i].facts, w.routines[i].program.request)
  {
    assert RoutineInv(cfg, w.moment, w.routines[i]);
    SafeAsks(cfg, w.routines[i].facts, w.routines[i].program);
  }

  /** Only runners that GitHub issued for this repository and job are ever deregistered. */
  lemma OnlyIssuedRunnersAreRemoved(cfg: Config, limits: Limits, worlds: seq<World>, turns: seq<Turn>, n: nat)
    requires IsControllerRun(cfg, limits, worlds, turns) && Asks(cfg, limits, worlds, turns, n)
    requires worlds[n].routines[turns[n].id].program.request.RemoveRunner?
    ensures var rt := worlds[n].routines[turns[n].id];
      var request := rt.program.request;
      IssuedTo(worlds[n].moment.ledger, RunnerIdentity(request.owner, request.repository, request.runnerID), rt.key)
  {
    ControllerRunHolds(cfg, limits, worlds, turns, n);
    AskedByRules(cfg, limits, worlds[n], turns[n].id);
  }

  /**
   An instance is created only by the holder of the provision claim, for the registration its
   record carries, and right behind a gate that read the job as not completed and heard that it
   is queued after that registration had been saved.
   */
  lemma CreatesOnlyBehindGate(cfg: Config, limits: Limits, worlds: seq<World>, turns: seq<Turn>, n: nat)
    requires IsControllerRun(cfg, limits, worlds, turns) && Asks(cfg, limits, worlds, turns, n)
    requires worlds[n].routines[turns[n].id].program.request.CreateRunner?
    ensures var rt := worlds[n].routines[turns[n].id];
      && Gated(rt.facts) && rt.program.request.key == rt.key && rt.key in Records(worlds[n])
      && var r := Records(worlds[n])[rt.key];
         && r.claim.Provision? && r.instanceID.NoInstance? && r.epoch == rt.program.request.epoch
         && r.runnerID == RegisteredID(rt.facts.start, rt.facts.history)
  {
    ControllerRunHolds(cfg, limits, worlds, turns, n);
    AskedByRules(cfg, limits, worlds[n], turns[n].id);
    HolderKnows(cfg, limits, worlds[n], turns[n].id);
  }

  /** Where absence can be checked, a delete worker never repeats a deletion whose acceptance is journaled. */
  lemma AcceptedIsNotDeletedAgain(cfg: Config, limits: Limits, worlds: seq<World>, turns: seq<Turn>, n: nat)
    requires IsControllerRun(cfg, limits, worlds, turns) && Asks(cfg, limits, worlds, turns, n) && cfg.confirmsAbsence
    requires worlds[n].routines[turns[n].id].program.request.DeleteRunner?
    requires worlds[n].routines[turns[n].id].facts.role.Deleter?
    ensures var rt := worlds[n].routines[turns[n].id];
      rt.key in Records(worlds[n]) && Records(worlds[n])[rt.key].acceptedID != rt.program.request.instanceID
  {
    ControllerRunHolds(cfg, limits, worlds, turns, n);
    AskedByRules(cfg, limits, worlds[n], turns[n].id);
  }

  /**
   Across the whole run, restarts included: once the acceptance of an instance's deletion is
   journaled, no delete worker that can check absence asks for that deletion again in this epoch.
   */
  lemma AcceptedOnceForAll(cfg: Config, limits: Limits, worlds: seq<World>, turns: seq<Turn>, i: nat, n: nat)
    requires IsControllerRun(cfg, limits, worlds, turns) && Asks(cfg, limits, worlds, turns, n) && i <= n
    requires cfg.confirmsAbsence
    requires worlds[n].routines[turns[n].id].program.request.DeleteRunner?
    requires worlds[n].routines[turns[n].id].facts.role.Deleter?
    requires var k := worlds[n].routines[turns[n].id].key;
      && (forall m | i <= m <= n :: k in Records(worlds[m])) && !IsMarkerKey(k)
      && Settled(Records(worlds[i])[k]) && !Records(worlds[i])[k].acceptedID.NoInstance?
      && Records(worlds[n])[k].epoch == Records(worlds[i])[k].epoch
    ensures var rt := worlds[n].routines[turns[n].id];
      rt.program.request.instanceID != Records(worlds[i])[rt.key].acceptedID
  {
    AcceptedIsNotDeletedAgain(cfg, limits, worlds, turns, n);
    ControllerRunIsStoreRun(cfg, limits, worlds, turns);
    var k, trace := worlds[n].routines[turns[n].id].key, Moments(worlds);
    assert forall m | i <= m <= n :: trace[m].state.records == Records(worlds[m]);
    AcceptancePersists(trace, StoreOps(worlds, turns, limits), limits, k, i, n);
  }

  // Replacements

  /** What a routine has been told about everything the record still names. */
  predicate CleanedFor(cfg: Config, f: Facts, r: Record) {
    && (r.runnerID != 0 ==> Heard(f.history, RemoveRunner(r.job.owner, r.job.repository, r.runnerID), Agreed))
    && (!r.instanceID.NoInstance? ==>
         && r.instanceID == f.start.instanceID
         && (f.role.Deleter? ==> ProviderCleaned(cfg, f)) && (f.role.Reaper? ==> InstanceGone(cfg, f)))
  }

  lemma ReplacingMutation(cfg: Config, f: Facts, m: Mutation, r: Record, now: Time, maxAttempts: int)
    requires MayDo(cfg, f, Alter(m)) && LifecycleInv(false, r, maxAttempts)
    requires Disciplined(false, r, m, now, maxAttempts)
    requires !f.role.Provisioner? ==> Descends(f.start, r) && r.epoch == f.start.epoch
    requires f.start.runnerID != 0 ==> f.start.runnerOwned
    requires Mutate(m, r, now).epoch != r.epoch
    ensures !f.role.Provisioner? && CleanedFor(cfg, f, r) && Replaceable(Mutate(m, r, now))
  {
    MutationEvolvesRecord(false, m, r, now, maxAttempts);
  }

  /** The commits that may start a new epoch come after a finished cleanup of this very record. */
  lemma ReplacementIsClean(cfg: Config, limits: Limits, w: World, rt: Routine, now: Time)
    requires Configured(cfg, limits) && StoreInv(w.moment.state, w.moment.ledger, limits)
    requires RoutineInv(cfg, w.moment, rt) && Commits(w, rt) && Timely(w, rt) && now != ZERO_TIME
    requires !IsMarkerKey(rt.key)
    requires rt.program.action.Alter?
    requires Mutate(rt.program.action.mutation, Records(w)[rt.key], now).epoch != Records(w)[rt.key].epoch
    ensures !rt.facts.role.Provisioner? && CleanedFor(cfg, rt.facts, Records(w)[rt.key])
    ensures Replaceable(Mutate(rt.program.action.mutation, Records(w)[rt.key], now))
  {
    var r := Records(w)[rt.key];
    assert RecordInv(rt.key, r, limits.maxAttempts);
    CommitIsDisciplined(cfg, limits, w, rt, now);
    SafeCommits(cfg, rt.facts, rt.program);
    ReplacingMutation(cfg, rt.facts, rt.program.action.mutation, r, now, limits.maxAttempts);
  }

  predicate CommitsTo(w: World, turn: Turn, k: string) {
    && turn.Saves? && turn.id in w.routines && w.routines[turn.id].key == k
    && w.routines[turn.id].program.Commit? && w.routines[turn.id].program.action.Alter?
  }

  lemma AmbientKeepsEpoch(w: World, op: Op, limits: Limits, k: string)
    requires StoreInv(w.moment.state, w.moment.ledger, limits) && Ambient(w, op)
    requires k in Records(w) && !IsMarkerKey(k) && k in Apply(w.moment.state, op).records
    ensures Apply(w.moment.state, op).records[k].epoch == Records(w)[k].epoch
  {
    AmbientUndisturbs(w, op, limits, k);
    assert Undisturbed(false, Records(w)[k], Apply(w.moment.state, op).records[k]);
  }

  lemma RegistrationKeepsEpoch(s: State, key: string, runnerID: int, name: string, now: Time, k: string)
    requires k in s.records && !IsMarkerKey(k)
    ensures k in MarkJITCreated(s, key, runnerID, name, now).records
    ensures MarkJITCreated(s, key, runnerID, name, now).records[k].epoch == s.records[k].epoch
  {
    if key in s.records {
      MarkerKeyInjective(s.records[key].job.owner, s.records[key].job.repository, runnerID, "", "", 0);
    }
  }

  lemma SavingMovesOwnEpoch(cfg: Config, limits: Limits, w: World, i: nat, now: Time, w': World, k: string)
    requires Takes(cfg, limits, w, Saves(i, now), w') && k in Records(w) && k in Records(w') && !IsMarkerKey(k)
    ensures Records(w')[k].epoch == Records(w)[k].epoch || CommitsTo(w, Saves(i, now), k)
  {
    var rt := w.routines[i];
    if rt.program.action.Register? {
      RegistrationKeepsEpoch(w.moment.state, rt.key, rt.program.action.runnerID, rt.program.action.runnerName, now, k);
    }
  }

  lemma ClaimingKeepsEpoch(w: World, key: string, kind: Work, now: Time, limits: Limits, k: string)
    requires Claimable(w, key, kind, now, limits) && k in Records(w)
    ensures k in Store.Update(w.moment.state, key, Grant(kind, limits.maxAttempts), now).records
    ensures Store.Update(w.moment.state, key, Grant(kind, limits.maxAttempts), now).records[k].epoch
      == Records(w)[k].epoch
  {
    if key == k {
      GrantUndisturbs(w, key, kind, now, limits, false);
    }
  }

  /** Nothing but a commit of the record's own routine starts a new epoch. */
  lemma OnlyCommitsMoveEpoch(cfg: Config, limits: Limits, w: World, turn: Turn, w': World, k: string)
    requires Configured(cfg, limits) && WorldInv(cfg, limits, w) && Takes(cfg, limits, w, turn, w')
    requires k in Records(w) && k in Records(w') && !IsMarkerKey(k)
    ensures Records(w')[k].epoch == Records(w)[k].epoch || CommitsTo(w, turn, k)
  {
    if turn.Saves? {
      SavingMovesOwnEpoch(cfg, limits, w, turn.id, turn.now, w', k);
    } else if ActsOnStore(turn) {
      OthersKeepEpoch(w, turn, w', limits, k);
    } else {
      QuietTurn(w.moment.state, w'.moment.state);
    }
  }

  predicate ActsOnStore(turn: Turn) { turn.Outside? || turn.Claims? || turn.Reopens? }

  lemma OthersKeepEpoch(w: World, turn: Turn, w': World, limits: Limits, k: string)
    requires StoreInv(w.moment.state, w.moment.ledger, limits) && Enabled(w, turn, limits) && ActsOnStore(turn)
    requires Step(w.moment.state, StoreOp(w, turn, limits), w'.moment.state)
    requires k in Records(w) && k in Records(w') && !IsMarkerKey(k)
    ensures Records(w')[k].epoch == Records(w)[k].epoch
  {
    match turn
    case Outside(op) => AmbientKeepsEpoch(w, op, limits, k);
    case Claims(_, key, kind, _, now) => ClaimingKeepsEpoch(w, key, kind, now, limits, k);
    case Reopens(now, retention) => RecoverKeeps(Records(w), now, retention, limits, k);
  }

  lemma CommitChangesRecord(cfg: Config, limits: Limits, w: World, turn: Turn, w': World, k: string)
    requires Takes(cfg, limits, w, turn, w') && CommitsTo(w, turn, k)
    requires k in Records(w) && k in Records(w')
    ensures Commits(w, w.routines[turn.id]) && Timely(w, w.routines[turn.id]) && turn.now != ZERO_TIME
    ensures Records(w')[k] == Mutate(w.routines[turn.id].program.action.mutation, Records(w)[k], turn.now)
  {
  }

  lemma EpochMoves(cfg: Config, limits: Limits, w: World, turn: Turn, w': World, k: string)
    requires Configured(cfg, limits) && WorldInv(cfg, limits, w) && Takes(cfg, limits, w, turn, w')
    requires k in Records(w) && k in Records(w') && !IsMarkerKey(k) && Records(w')[k].epoch != Records(w)[k].epoch
    ensures CommitsTo(w, turn, k) && CleanedFor(cfg, w.routines[turn.id].facts, Records(w)[k])
    ensures !w.routines[turn.id].facts.role.Provisioner? && Replaceable(Records(w')[k])
  {
    OnlyCommitsMoveEpoch(cfg, limits, w, turn, w', k);
    CommitChangesRecord(cfg, limits, w, turn, w', k);
    assert RoutineInv(cfg, w.moment, w.routines[turn.id]);
    ReplacementIsClean(cfg, limits, w, w.routines[turn.id], turn.now);
  }

  /**
   Replacement only after cleanup: whenever a record enters a new epoch, it does so in a commit of
   a routine that itself heard GitHub remove the runner and the provider report the instance gone
   that the record named until then; where absence can be checked, a delete worker heard confirmed
   absence. The record it leaves names neither.
   */
  lemma ReplacementOnlyAfterCleanup(cfg: Config, limits: Limits, worlds: seq<World>, turns: seq<Turn>, n: nat,
                                    k: string)
    requires IsControllerRun(cfg, limits, worlds, turns) && n < |turns| && !IsMarkerKey(k)
    requires k in Records(worlds[n]) && k in Records(worlds[n + 1])
    requires Records(worlds[n + 1])[k].epoch != Records(worlds[n])[k].epoch
    ensures CommitsTo(worlds[n], turns[n], k)
    ensures CleanedFor(cfg, worlds[n].routines[turns[n].id].facts, Records(worlds[n])[k])
    ensures !worlds[n].routines[turns[n].id].facts.role.Provisioner? && Replaceable(Records(worlds[n + 1])[k])
  {
    ControllerRunHolds(cfg, limits, worlds, turns, n);
    EpochMovesAt(cfg, limits, worlds, turns, n, k);
  }

  lemma EpochMovesAt(cfg: Config, limits: Limits, worlds: seq<World>, turns: seq<Turn>, n: nat, k: string)
    requires Configured(cfg, limits) && |worlds| == |turns| + 1 && n < |turns| && TurnAt(cfg, limits, worlds, turns, n)
    requires WorldInv(cfg, limits, worlds[n]) && !IsMarkerKey(k)
    requires k in Records(worlds[n]) && k in Records(worlds[n + 1])
    requires Records(worlds[n + 1])[k].epoch != Records(worlds[n])[k].epoch
    ensures CommitsTo(worlds[n], turns[n], k)
    ensures CleanedFor(cfg, worlds[n].routines[turns[n].id].facts, Records(worlds[n])[k])
    ensures !worlds[n].routines[turns[n].id].facts.role.Provisioner? && Replaceable(Records(worlds[n + 1])[k])
  {
    assert Takes(cfg, limits, worlds[n], turns[n], worlds[n + 1]);
    EpochMoves(cfg, limits, worlds[n], turns[n], worlds[n + 1], k);
  }

  // Restored demand

  predicate Finishes(w: World, turn: Turn) {
    && turn.Saves? && turn.id in w.routines && w.routines[turn.id].program.Commit?
    && w.routines[turn.id].program.action.Alter? && w.routines[turn.id].program.action.mutation.FinishDeletedRunner?
  }

  /**
   A finished deletion restores its job exactly if the worker's claim-time snapshot owed the recheck, the
   worker then read the job as not completed and heard that it is queued, and the record still owes the
   recheck, is not completed and is not terminal at the commit. A debt that the snapshot had is never
   ignored once its demand is confirmed; a debt that arises while the deletion runs is dropped.
   */
  lemma RestoredExactlyOnConfirmedDemand(cfg: Config, limits: Limits, worlds: seq<World>, turns: seq<Turn>, n: nat)
    requires IsControllerRun(cfg, limits, worlds, turns) && n < |turns| && Finishes(worlds[n], turns[n])
    ensures var rt := worlds[n].routines[turns[n].id];
      && rt.key in Records(worlds[n]) && rt.key in Records(worlds[n + 1])
      && var r, r' := Records(worlds[n])[rt.key], Records(worlds[n + 1])[rt.key];
         && (r'.status.Pending? <==> DebtConfirmed(rt.facts) && r.recheckDemand && !r.jobCompleted && !r.Terminal())
         && (!r.Terminal() && !r'.status.Pending? ==> r'.status.Deleted?)
  {
    ControllerRunHolds(cfg, limits, worlds, turns, n);
    assert TurnAt(cfg, limits, worlds, turns, n);
    FinishingTurn(cfg, limits, worlds, turns, n);
    FinishesByRules(cfg, limits, worlds[n], turns[n]);
  }

  /** What the worker knew: a debt in its snapshot, and its demand confirmed. */
  predicate DebtConfirmed(f: Facts) { f.start.recheckDemand && !f.start.jobCompleted && DemandConfirmed(f) }

  lemma FinishesByRules(cfg: Config, limits: Limits, w: World, turn: Turn)
    requires WorldInv(cfg, limits, w) && Finishes(w, turn)
    ensures var rt := w.routines[turn.id];
      rt.program.action.mutation.queued <==> DebtConfirmed(rt.facts)
  {
    assert RoutineInv(cfg, w.moment, w.routines[turn.id]);
    SafeFinish(cfg, w.routines[turn.id].facts, w.routines[turn.id].program);
  }

  lemma SafeFinish(cfg: Config, f: Facts, p: Program)
    requires Safe(cfg, f, p) && p.Commit? && p.action.Alter? && p.action.mutation.FinishDeletedRunner?
    ensures p.action.mutation.queued <==> DebtConfirmed(f)
  {
    SafeCommits(cfg, f, p);
  }

  lemma FinishingTurn(cfg: Config, limits: Limits, worlds: seq<World>, turns: seq<Turn>, n: nat)
    requires |worlds| == |turns| + 1 && n < |turns| && TurnAt(cfg, limits, worlds, turns, n)
    requires Finishes(worlds[n], turns[n])
    ensures var rt := worlds[n].routines[turns[n].id];
      && rt.key in Records(worlds[n]) && rt.key in Records(worlds[n + 1])
      && Records(worlds[n + 1])[rt.key] == Mutate(rt.program.action.mutation, Records(worlds[n])[rt.key], turns[n].now)
    ensures var rt := worlds[n].routines[turns[n].id];
      var r, r' := Records(worlds[n])[rt.key], Records(worlds[n + 1])[rt.key];
      && (r'.status.Pending? <==>
            rt.program.action.mutation.queued && r.recheckDemand && !r.jobCompleted && !r.Terminal())
      && (!r.Terminal() && !r'.status.Pending? ==> r'.status.Deleted?)
  {
    assert Takes(cfg, limits, worlds[n], turns[n], worlds[n + 1]);
    var rt := worlds[n].routines[turns[n].id];
    FinishingRestores(Records(worlds[n])[rt.key], rt.program.action.mutation.queued, turns[n].now);
  }

  lemma FinishingRestores(r: Record, queued: bool, now: Time)
    ensures var r' := Mutate(FinishDeletedRunner(queued), r, now);
      && (r'.status.Pending? <==> queued && r.recheckDemand && !r.jobCompleted && !r.Terminal())
      && (!r.Terminal() && !r'.status.Pending? ==> r'.status.Deleted?)
  {
  }

  // An unknown creation outcome

  /** The program commits nothing but the loss of the registration and the orphan, and creates nothing. */
  greatest predicate OnlyOrphans(p: Program) {
    match p
    case Done => true
    case Get(next) => forall current, t :: OnlyOrphans(next(current, t))
    case Call(request, answered) =>
      !request.CreateRunner? && !request.GenerateJITConfig? && forall answer, t :: OnlyOrphans(answered(answer, t))
    case Commit(action, saved, failed) =>
      && (action == Alter(ClearJIT) || (action.Alter? && action.mutation.MarkOrphaned?))
      && (forall c :: OnlyOrphans(saved(c))) && (forall t :: OnlyOrphans(failed(t)))
  }

  /** Once it hears that the outcome is unknown, this worker only gives up the registration and orphans the record. */
  lemma UnknownOutcomeOnlyOrphans(cfg: Config, r: Record, t: Tick)
    ensures OnlyOrphans(CreateInstance(cfg, r).answered(Faulted(OutcomeUnknown), t))
  {
    OrphaningOnlyOrphans(r, "provider create outcome unknown");
    UnknownOutcomeOrphans(cfg, r, t);
  }

  lemma UnknownOutcomeOrphans(cfg: Config, r: Record, t: Tick)
    ensures CreateInstance(cfg, r).answered(Faulted(OutcomeUnknown), t)
         == MarkOrphanedLast(r, "provider create outcome unknown")
  {
    var p := CreateInstance(cfg, r);
    assert FaultOf(Faulted(OutcomeUnknown)) == OutcomeUnknown;
    assert p.answered(Faulted(OutcomeUnknown), t) == ProvisionFailed(cfg, r, OutcomeUnknown, t);
  }

  lemma OrphaningOnlyOrphans(r: Record, cause: string)
    ensures OnlyOrphans(MarkOrphanedLast(r, cause))
  {
    var p := MarkOrphanedLast(r, cause);
    assert OnlyOrphans(Last(Alter(MarkOrphaned(Cause(cause)))));
    if r.OwnsRunnerID() {
      forall answer, t ensures OnlyOrphans(p.answered(answer, t)) {
      }
    }
  }
}
