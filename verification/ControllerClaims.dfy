/**
 What becomes of claims in whole runs of the controller: which steps can end a claim whose worker is
 gone, and when a job whose creation had an unknown outcome may be created again.
 */
module ControllerClaims {
  import opened Names
  import opened Lifecycle
  import opened Store
  import opened Invariants
  import opened StoreInvariant
  import opened Runs
  import opened RunProperties
  import opened Protocol
  import opened Causes
  import opened Controller
  import opened ControllerInvariant
  import opened ControllerCommits
  import opened ControllerLaws
  import opened ControllerPromises

  // Claims that no worker holds

  /** No worker acts under the claim on k any more. */
  predicate Unheld(w: World, k: string) {
    forall i | i in w.routines && w.routines[i].key == k && Holds(w.routines[i].facts.history) ::
      w.routines[i].facts.role.Reaper?
  }

  /** The reaper gives the claim up together with an orphan's absent instance, or with another provider's record. */
  predicate ReaperReleases(cfg: Config, w: World, turn: Turn, k: string) {
    && CommitsTo(w, turn, k) && w.routines[turn.id].facts.role.Reaper? && k in Records(w)
    && match w.routines[turn.id].program.action.mutation
       case ReleaseAbsentOrphan(instanceID) =>
         !instanceID.NoInstance? && Records(w)[k].status.Orphaned? && Records(w)[k].instanceID == instanceID
       case MarkOrphaned(_) => w.routines[turn.id].facts.start.provider != cfg.provider
       case _ => false
  }

  lemma ReaperReleaseEnds(cfg: Config, limits: Limits, w: World, rt: Routine, now: Time)
    requires Configured(cfg, limits) && StoreInv(w.moment.state, w.moment.ledger, limits)
    requires RoutineInv(cfg, w.moment, rt) && Commits(w, rt) && Timely(w, rt) && !IsMarkerKey(rt.key)
    requires rt.facts.role.Reaper? && !Records(w)[rt.key].claim.NoWork?
    ensures rt.program.action.Alter?
    ensures Mutate(rt.program.action.mutation, Records(w)[rt.key], now).claim.NoWork? <==>
      match rt.program.action.mutation
      case ReleaseAbsentOrphan(instanceID) =>
        !instanceID.NoInstance? && Records(w)[rt.key].status.Orphaned? && Records(w)[rt.key].instanceID == instanceID
      case MarkOrphaned(_) => rt.facts.start.provider != cfg.provider
      case _ => false
  {
    assert RecordInv(rt.key, Records(w)[rt.key], limits.maxAttempts);
    SafeReaperCommit(cfg, rt.facts, rt.program);
    ReaperMutationReleases(cfg, rt.facts, rt.program.action.mutation, Records(w)[rt.key], now, limits.maxAttempts);
  }

  lemma SafeReaperCommit(cfg: Config, f: Facts, p: Program)
    requires Safe(cfg, f, p) && p.Commit? && f.role.Reaper?
    ensures p.action.Alter? && MayReap(cfg, f, p.action.mutation)
  {
    SafeCommits(cfg, f, p);
  }

  lemma ReaperMutationReleases(cfg: Config, f: Facts, m: Mutation, r: Record, now: Time, maxAttempts: int)
    requires MayReap(cfg, f, m) && Descends(f.start, r) && r.epoch == f.start.epoch && !r.claim.NoWork?
    requires LifecycleInv(false, r, maxAttempts)
    ensures Mutate(m, r, now).claim.NoWork? <==>
      match m
      case ReleaseAbsentOrphan(instanceID) =>
        !instanceID.NoInstance? && r.status.Orphaned? && r.instanceID == instanceID
      case MarkOrphaned(_) => f.start.provider != cfg.provider
      case _ => false
  {
    match m
    case ReleaseAbsentOrphan(instanceID) =>
      assert Mutate(m, r, now) == Stamped(OnReleaseAbsentOrphan(r, instanceID), now);
    case MarkOrphaned(message) =>
      assert Mutate(m, r, now) == Stamped(OnMarkOrphaned(r, message), now);
    case _ => ReaperKeepsClaim(cfg, f, m, r, now);
  }

  lemma ReaperKeepsClaim(cfg: Config, f: Facts, m: Mutation, r: Record, now: Time)
    requires MayReap(cfg, f, m) && Descends(f.start, r) && r.epoch == f.start.epoch && !r.claim.NoWork?
    requires !m.ReleaseAbsentOrphan? && !m.MarkOrphaned?
    ensures Mutate(m, r, now).claim == r.claim
  {
    if NeedsProvisioned(m) {
      ObservationKeepsClaim(m, r, now);
    } else {
      assert !m.MarkDeleted? && !m.MarkDeleteFailed?;
      BackoffKeepsClaim(cfg, f, m, r, now);
    }
  }

  lemma ObservationKeepsClaim(m: Mutation, r: Record, now: Time)
    requires NeedsProvisioned(m)
    ensures Mutate(m, r, now).claim == r.claim
  {
  }

  lemma BackoffKeepsClaim(cfg: Config, f: Facts, m: Mutation, r: Record, now: Time)
    requires MayReap(cfg, f, m) && !NeedsProvisioned(m)
    requires !m.ReleaseAbsentOrphan? && !m.MarkOrphaned? && !m.MarkDeleted? && !m.MarkDeleteFailed?
    ensures Mutate(m, r, now).claim == r.claim
  {
  }

  lemma WorkersCommitUnderClaim(cfg: Config, f: Facts, p: Program)
    requires Safe(cfg, f, p) && p.Commit? && !f.role.Reaper?
    ensures Holds(f.history)
  {
    SafeCommits(cfg, f, p);
  }

  lemma UnheldOwnCommit(cfg: Config, limits: Limits, w: World, i: nat, now: Time)
    requires Configured(cfg, limits) && StoreInv(w.moment.state, w.moment.ledger, limits)
    requires i in w.routines && RoutineInv(cfg, w.moment, w.routines[i]) && !IsMarkerKey(w.routines[i].key)
    requires Commits(w, w.routines[i]) && Timely(w, w.routines[i]) && Unheld(w, w.routines[i].key)
    requires !Records(w)[w.routines[i].key].claim.NoWork?
    ensures var rt := w.routines[i];
      && rt.program.action.Alter?
      && (Mutate(rt.program.action.mutation, Records(w)[rt.key], now).claim.NoWork?
          <==> ReaperReleases(cfg, w, Saves(i, now), rt.key))
  {
    var rt := w.routines[i];
    if !rt.facts.role.Reaper? {
      WorkersCommitUnderClaim(cfg, rt.facts, rt.program);
    }
    ReaperReleaseEnds(cfg, limits, w, rt, now);
  }

  lemma UnheldCommit(cfg: Config, limits: Limits, w: World, i: nat, now: Time, s': State, k: string)
    requires Configured(cfg, limits) && StoreInv(w.moment.state, w.moment.ledger, limits)
    requires i in w.routines && RoutineInv(cfg, w.moment, w.routines[i])
    requires Commits(w, w.routines[i]) && Timely(w, w.routines[i])
    requires Step(w.moment.state, OpOf(w.routines[i].key, w.routines[i].program.action, now), s')
    requires k in Records(w) && k in s'.records && !IsMarkerKey(k) && !Records(w)[k].claim.NoWork? && Unheld(w, k)
    ensures s'.records[k].claim.NoWork? <==> ReaperReleases(cfg, w, Saves(i, now), k)
  {
    var rt := w.routines[i];
    if rt.key == k {
      UnheldOwnCommit(cfg, limits, w, i, now);
    } else {
      CommitElsewhere(w.moment.state, rt.key, rt.program.action, now, k);
    }
  }

  lemma UnheldSave(cfg: Config, limits: Limits, w: World, i: nat, now: Time, w': World, k: string)
    requires Configured(cfg, limits) && WorldInv(cfg, limits, w) && Takes(cfg, limits, w, Saves(i, now), w')
    requires k in Records(w) && k in Records(w') && !IsMarkerKey(k)
    requires !Records(w)[k].claim.NoWork? && Unheld(w, k)
    ensures Records(w')[k].claim.NoWork? <==> ReaperReleases(cfg, w, Saves(i, now), k)
  {
    SavingTurn(cfg, limits, w, i, now, w');
    RoutineHolds(cfg, limits, w, i);
    UnheldCommit(cfg, limits, w, i, now, w'.moment.state, k);
  }

  lemma OthersEndNoClaim(w: World, turn: Turn, limits: Limits, k: string)
    requires Enabled(w, turn, limits) && !turn.Saves? && !turn.Reopens?
    ensures !ClaimEnds(StoreOp(w, turn, limits), k)
  {
  }

  lemma OthersKeepClaim(cfg: Config, limits: Limits, w: World, turn: Turn, w': World, k: string)
    requires Configured(cfg, limits) && WorldInv(cfg, limits, w) && Takes(cfg, limits, w, turn, w')
    requires !turn.Saves? && !turn.Reopens?
    requires k in Records(w) && k in Records(w') && !IsMarkerKey(k) && !Records(w)[k].claim.NoWork?
    ensures Records(w')[k].claim == Records(w)[k].claim
  {
    TurnIsStoreStep(cfg, limits, w, turn, w');
    OthersEndNoClaim(w, turn, limits, k);
    StoreStepKeepsClaim(w.moment, StoreOp(w, turn, limits), w'.moment, limits, k);
  }

  lemma StoreStepKeepsClaim(m: Moment, op: Op, m': Moment, limits: Limits, k: string)
    requires StoreInv(m.state, m.ledger, limits) && RunStep(m, op, m', limits) && !ClaimEnds(op, k)
    requires k in m.state.records && k in m'.state.records && !IsMarkerKey(k) && !m.state.records[k].claim.NoWork?
    ensures m'.state.records[k].claim == m.state.records[k].claim
  {
    StepOnRecord(m.state, op, m'.state, m.ledger, limits, k);
  }

  lemma ReopeningEndsClaims(s: State, now: Time, retention: nat, s': State, limits: Limits, k: string)
    requires RecordsInv(s.records, limits.maxAttempts) && Step(s, Restart(now, retention), s') && k in s'.records
    ensures s'.records[k].claim.NoWork?
  {
    RecoverKeeps(s.records, now, retention, limits, k);
  }

  lemma UnheldTurn(cfg: Config, limits: Limits, w: World, turn: Turn, w': World, k: string)
    requires Configured(cfg, limits) && WorldInv(cfg, limits, w) && Takes(cfg, limits, w, turn, w')
    requires k in Records(w) && k in Records(w') && !IsMarkerKey(k)
    requires !Records(w)[k].claim.NoWork? && Unheld(w, k)
    ensures Records(w')[k].claim.NoWork? <==> turn.Reopens? || ReaperReleases(cfg, w, turn, k)
  {
    if turn.Saves? {
      UnheldSave(cfg, limits, w, turn.id, turn.now, w', k);
    } else if turn.Reopens? {
      ReopeningEndsClaims(w.moment.state, turn.now, turn.retention, w'.moment.state, limits, k);
    } else {
      OthersKeepClaim(cfg, limits, w, turn, w', k);
    }
  }

  /**
   In every run, a claim that no worker holds ends in exactly three ways: the store is opened again,
   the reaper hears that the instance of the orphaned record is absent and releases it, or the reaper
   orphans the record of another provider.
   */
  lemma UnheldClaimEnds(cfg: Config, limits: Limits, worlds: seq<World>, turns: seq<Turn>, n: nat, k: string)
    requires IsControllerRun(cfg, limits, worlds, turns) && n < |turns| && !IsMarkerKey(k)
    requires k in Records(worlds[n]) && k in Records(worlds[n + 1])
    requires !Records(worlds[n])[k].claim.NoWork? && Unheld(worlds[n], k)
    ensures Records(worlds[n + 1])[k].claim.NoWork? <==>
      turns[n].Reopens? || ReaperReleases(cfg, worlds[n], turns[n], k)
  {
    ControllerRunHolds(cfg, limits, worlds, turns, n);
    RunTurn(cfg, limits, worlds, turns, n);
    UnheldTurnAt(cfg, limits, worlds, turns, n, k);
  }

  lemma UnheldTurnAt(cfg: Config, limits: Limits, worlds: seq<World>, turns: seq<Turn>, n: nat, k: string)
    requires Configured(cfg, limits) && |worlds| == |turns| + 1 && n < |turns| && TurnAt(cfg, limits, worlds, turns, n)
    requires WorldInv(cfg, limits, worlds[n]) && !IsMarkerKey(k)
    requires k in Records(worlds[n]) && k in Records(worlds[n + 1])
    requires !Records(worlds[n])[k].claim.NoWork? && Unheld(worlds[n], k)
    ensures Records(worlds[n + 1])[k].claim.NoWork? <==>
      turns[n].Reopens? || ReaperReleases(cfg, worlds[n], turns[n], k)
  {
    assert Takes(cfg, limits, worlds[n], turns[n], worlds[n + 1]);
    UnheldTurn(cfg, limits, worlds[n], turns[n], worlds[n + 1], k);
  }

  // A creation whose outcome is unknown

  predicate HeardUnknownOutcome(h: History) {
    h.Then? && ((h.last.Asked? && h.last.request.CreateRunner? && h.last.answer == Faulted(OutcomeUnknown))
                || HeardUnknownOutcome(h.past))
  }

  /** Once a record is settled, an instance is created for it only in a later epoch. */
  lemma SettledIsNotCreatedAgain(cfg: Config, limits: Limits, worlds: seq<World>, turns: seq<Turn>, m: nat, n: nat)
    requires IsControllerRun(cfg, limits, worlds, turns) && Asks(cfg, limits, worlds, turns, n) && m <= n
    requires worlds[n].routines[turns[n].id].program.request.CreateRunner?
    requires var k := worlds[n].routines[turns[n].id].key;
      && !IsMarkerKey(k) && (forall i | m <= i <= n :: k in Records(worlds[i])) && Settled(Records(worlds[m])[k])
    ensures var rt := worlds[n].routines[turns[n].id];
      rt.program.request.epoch > Records(worlds[m])[rt.key].epoch
  {
    var k, trace, ops := worlds[n].routines[turns[n].id].key, Moments(worlds), StoreOps(worlds, turns, limits);
    CreatesOnlyBehindGate(cfg, limits, worlds, turns, n);
    ControllerRunIsStoreRun(cfg, limits, worlds, turns);
    assert forall i | m <= i <= n :: trace[i].state.records == Records(worlds[i]);
    EpochsGrow(trace, ops, limits, k, m, n);
    if Records(worlds[n])[k].epoch == Records(worlds[m])[k].epoch {
      SettledPersists(trace, ops, limits, k, m, n);
    }
  }

  /** The worker that heard of an unknown outcome has its orphan saved in this turn. */
  predicate SavesOrphan(w: World, turn: Turn, k: string) {
    && CommitsTo(w, turn, k) && w.routines[turn.id].program.action.mutation.MarkOrphaned?
    && HeardUnknownOutcome(w.routines[turn.id].facts.history)
  }

  lemma OrphanSettles(cfg: Config, limits: Limits, worlds: seq<World>, turns: seq<Turn>, m: nat, k: string)
    requires |worlds| == |turns| + 1 && m < |turns| && TurnAt(cfg, limits, worlds, turns, m)
    requires SavesOrphan(worlds[m], turns[m], k) && RecordsInv(Records(worlds[m]), limits.maxAttempts)
    ensures k in Records(worlds[m]) && k in Records(worlds[m + 1])
    ensures Settled(Records(worlds[m + 1])[k])
    ensures Records(worlds[m + 1])[k].epoch == Records(worlds[m])[k].epoch
  {
    assert Takes(cfg, limits, worlds[m], turns[m], worlds[m + 1]);
    assert RecordInv(k, Records(worlds[m])[k], limits.maxAttempts);
    OrphanedIsSettled(Records(worlds[m])[k], worlds[m].routines[turns[m].id].program.action.mutation.message,
        turns[m].now);
  }

  lemma OrphanedIsSettled(r: Record, message: Message, now: Time)
    requires r.status.Deleted? ==> r.claim.NoWork?
    ensures var r' := Mutate(MarkOrphaned(message), r, now); Settled(r') && r'.epoch == r.epoch
  {
    assert Mutate(MarkOrphaned(message), r, now) == Stamped(OnMarkOrphaned(r, message), now);
  }

  /**
   An unknown outcome is never retried as a fresh creation, once the orphan is saved: whatever happens
   afterwards, crashes included, an instance is created for the job only in a later epoch.
   */
  lemma UnknownOutcomeIsNeverRetried(cfg: Config, limits: Limits, worlds: seq<World>, turns: seq<Turn>, m: nat, n: nat)
    requires IsControllerRun(cfg, limits, worlds, turns) && Asks(cfg, limits, worlds, turns, n) && m < n
    requires worlds[n].routines[turns[n].id].program.request.CreateRunner?
    requires var k := worlds[n].routines[turns[n].id].key;
      !IsMarkerKey(k) && SavesOrphan(worlds[m], turns[m], k) && forall i | m <= i <= n :: k in Records(worlds[i])
    ensures var rt := worlds[n].routines[turns[n].id];
      rt.program.request.epoch > Records(worlds[m])[rt.key].epoch
  {
    ControllerRunHolds(cfg, limits, worlds, turns, m);
    RunTurn(cfg, limits, worlds, turns, m);
    OrphanSettles(cfg, limits, worlds, turns, m, worlds[n].routines[turns[n].id].key);
    SettledIsNotCreatedAgain(cfg, limits, worlds, turns, m + 1, n);
  }

  /**
   So a second creation in the same epoch means that no orphan of the job was saved, or settled
   otherwise, in between.
   */
  lemma CreatedAgainWasNeverSettled(cfg: Config, limits: Limits, worlds: seq<World>, turns: seq<Turn>, m: nat,
                                    n: nat, i: nat)
    requires IsControllerRun(cfg, limits, worlds, turns) && Asks(cfg, limits, worlds, turns, n) && m <= i <= n
    requires worlds[n].routines[turns[n].id].program.request.CreateRunner?
    requires var rt := worlds[n].routines[turns[n].id];
      && !IsMarkerKey(rt.key) && (forall j | m <= j <= n :: rt.key in Records(worlds[j]))
      && rt.program.request.epoch == Records(worlds[m])[rt.key].epoch
    ensures var k := worlds[n].routines[turns[n].id].key;
      !Settled(Records(worlds[i])[k]) && (i < n ==> !SavesOrphan(worlds[i], turns[i], k))
  {
    var k, trace, ops := worlds[n].routines[turns[n].id].key, Moments(worlds), StoreOps(worlds, turns, limits);
    ControllerRunIsStoreRun(cfg, limits, worlds, turns);
    assert forall j | m <= j <= n :: trace[j].state.records == Records(worlds[j]);
    EpochsGrow(trace, ops, limits, k, m, i);
    if Settled(Records(worlds[i])[k]) {
      SettledIsNotCreatedAgain(cfg, limits, worlds, turns, i, n);
    } else if i < n && SavesOrphan(worlds[i], turns[i], k) {
      UnknownOutcomeIsNeverRetried(cfg, limits, worlds, turns, i, n);
    }
  }

  /**
   Where the orphan is lost, the retry is open: when the store is opened again over a provision claim,
   the job may be claimed for provisioning in the same epoch exactly if its record was still
   Provisioning, that is, neither orphaned nor overtaken by a completion.
   */
  lemma LostOrphanIsRetried(cfg: Config, limits: Limits, worlds: seq<World>, turns: seq<Turn>, n: nat, k: string)
    requires IsControllerRun(cfg, limits, worlds, turns) && n < |turns| && turns[n].Reopens? && !IsMarkerKey(k)
    requires k in Records(worlds[n]) && Records(worlds[n])[k].claim.Provision?
    ensures k in Records(worlds[n + 1])
    ensures var r, r' := Records(worlds[n])[k], Records(worlds[n + 1])[k];
      r'.epoch == r.epoch && (ProvisionEligible(r', limits.maxAttempts) <==> r.status.Provisioning?)
  {
    ControllerRunHolds(cfg, limits, worlds, turns, n);
    RunTurn(cfg, limits, worlds, turns, n);
    assert RecordInv(k, Records(worlds[n])[k], limits.maxAttempts);
    ReopenedClaim(Records(worlds[n])[k], turns[n].now, turns[n].retention, limits.maxAttempts);
    ReopensAt(cfg, limits, worlds, turns, n);
  }

  lemma ReopensAt(cfg: Config, limits: Limits, worlds: seq<World>, turns: seq<Turn>, n: nat)
    requires |worlds| == |turns| + 1 && n < |turns| && TurnAt(cfg, limits, worlds, turns, n) && turns[n].Reopens?
    ensures Records(worlds[n + 1]) == RecoverRecords(Records(worlds[n]), turns[n].now, turns[n].retention)
  {
    assert Takes(cfg, limits, worlds[n], turns[n], worlds[n + 1]);
  }

  lemma ReopenedClaim(r: Record, now: Time, retention: nat, maxAttempts: int)
    requires LifecycleInv(false, r, maxAttempts) && r.claim.Provision?
    ensures RecoverRecord(r, now, retention).Keep?
    ensures var r' := RecoverRecord(r, now, retention).record;
      r'.epoch == r.epoch && (ProvisionEligible(r', maxAttempts) <==> r.status.Provisioning?)
  {
  }
}
