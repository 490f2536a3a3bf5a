/**
 What every routine knows about the record it works on, in every interleaving, and why the
 store steps of a controller are always disciplined ones.
 */
module ControllerInvariant {
  import opened Names
  import opened Lifecycle
  import opened Store
  import opened Invariants
  import opened MutationEvolves
  import opened StoreInvariant
  import opened Runs
  import opened Protocol
  import opened Causes
  import opened Controller

  /** The record is on its way out: nothing but its delete claim can still act on its instance. */
  predicate Retired(r: Record) {
    && (r.status.Completed? || r.status.Deleting? || r.status.Deleted? || r.status.Orphaned?)
    && !r.claim.Provision? && (r.claim.Delete? || r.instanceID.NoInstance?)
  }

  /** The record has come from the snapshot, and in the snapshot's epoch nothing was attached to it since. */
  predicate Descends(start: Record, r: Record) {
    && SameJob(start, r) && r.provider == start.provider && start.epoch <= r.epoch
    && (start.jobCompleted ==> r.jobCompleted)
    && (r.epoch == start.epoch ==>
         && Settled(r) && RunnerKept(start, r) && (r.instanceID == start.instanceID || r.instanceID.NoInstance?)
         && (start.instanceID.NoInstance? && start.claim.NoWork? ==> r.claim.NoWork?))
  }

  /** A provision worker's claim: the record is still exactly its own. */
  predicate HeldBy(f: Facts, r: Record) {
    && SameJob(f.start, r) && r.claim.Provision? && r.epoch == f.start.epoch
    && r.runnerID == RegisteredID(f.start, f.history)
  }

  /** A delete worker's claim: the record stays in the epoch, and on the way out. */
  predicate DeletedBy(cfg: Config, f: Facts, r: Record) {
    && r.epoch == f.start.epoch
    && (f.start.provider == cfg.provider ==>
         Retired(r) && (r.acceptedID == f.start.acceptedID || AcceptanceJournaled(f.history)))
  }

  predicate Related(cfg: Config, records: map<string, Record>, rt: Routine) {
    && rt.key in records
    && match rt.facts.role
       case Provisioner(_) => !IsMarkerKey(rt.key) && (Holds(rt.facts.history) ==> HeldBy(rt.facts, records[rt.key]))
       case Deleter(_) =>
         && !IsMarkerKey(rt.key) && Descends(rt.facts.start, records[rt.key])
         && (Holds(rt.facts.history) ==> DeletedBy(cfg, rt.facts, records[rt.key]))
       case Reaper(_, _) => !IsMarkerKey(rt.key) ==> Descends(rt.facts.start, records[rt.key])
  }

  /** Where the routine came from, and the registrations it may know. */
  ghost predicate Grounded(ledger: Ledger, rt: Routine, maxAttempts: int) {
    && RecordInv(rt.key, rt.facts.start, maxAttempts)
    && (rt.facts.start.runnerOwned ==> IssuedTo(ledger, rt.facts.start.Identity(), rt.key))
    && (rt.facts.role.Deleter? ==> !rt.facts.start.instanceID.NoInstance?)
    && (rt.facts.role.Reaper? ==> Selected(rt.facts.start, rt.facts.role.listing, rt.facts.role.listed))
    && (forall id | IssuedIn(rt.facts.history, id) ::
         IssuedTo(ledger, RunnerIdentity(rt.facts.start.job.owner, rt.facts.start.job.repository, id), rt.key))
  }

  /** The routine holds a claim that it may act on. */
  predicate Holder(cfg: Config, rt: Routine) {
    Holds(rt.facts.history)
    && (rt.facts.role.Provisioner? || (rt.facts.role.Deleter? && rt.facts.start.provider == cfg.provider))
  }

  predicate Exclusive(cfg: Config, routines: map<nat, Routine>) {
    forall i, j | i in routines && j in routines && Holder(cfg, routines[i]) && Holder(cfg, routines[j])
                  && routines[i].key == routines[j].key :: i == j
  }

  ghost predicate RoutineInv(cfg: Config, m: Moment, rt: Routine) {
    && Grounded(m.ledger, rt, cfg.maxAttempts) && Related(cfg, m.state.records, rt)
    && Safe(cfg, rt.facts, rt.program)
  }

  /** Every routine's invariant, phrased so that it unfolds only for a routine that is spoken of. */
  ghost predicate RoutinesHold(cfg: Config, w: World) {
    forall id, rt {:trigger w.routines[id], RoutineInv(cfg, w.moment, rt)} ::
      id in w.routines && w.routines[id] == rt ==> RoutineInv(cfg, w.moment, rt)
  }

  ghost predicate WorldInv(cfg: Config, limits: Limits, w: World) {
    && StoreInv(w.moment.state, w.moment.ledger, limits)
    && RoutinesHold(cfg, w) && Exclusive(cfg, w.routines)
  }

  // The store steps are disciplined

  /** What the rules let a routine commit is what the store's discipline asks of it. */
  lemma CommitIsDisciplined(cfg: Config, limits: Limits, w: World, rt: Routine, now: Time)
    requires Configured(cfg, limits) && StoreInv(w.moment.state, w.moment.ledger, limits)
    requires RoutineInv(cfg, w.moment, rt) && Commits(w, rt) && Timely(w, rt) && now != ZERO_TIME
    ensures Guard(w.moment.state, OpOf(rt.key, rt.program.action, now), w.moment.ledger, limits)
  {
    var r := Records(w)[rt.key];
    assert RecordInv(rt.key, r, limits.maxAttempts);
    SafeCommits(cfg, rt.facts, rt.program);
    match rt.facts.role
    case Provisioner(_) => ProvisionerIsDisciplined(cfg, limits, w, rt, now);
    case Deleter(_) => DeleterIsDisciplined(cfg, limits, w, rt, now);
    case Reaper(_, _) => ReaperIsDisciplined(cfg, limits, w, rt, now);
  }

  lemma ProvisionerIsDisciplined(cfg: Config, limits: Limits, w: World, rt: Routine, now: Time)
    requires Configured(cfg, limits) && RoutineInv(cfg, w.moment, rt) && Commits(w, rt)
    requires RecordInv(rt.key, Records(w)[rt.key], limits.maxAttempts) && rt.facts.role.Provisioner?
    requires MayDo(cfg, rt.facts, rt.program.action)
    ensures Guard(w.moment.state, OpOf(rt.key, rt.program.action, now), w.moment.ledger, limits)
  {
  }

  lemma DeleterIsDisciplined(cfg: Config, limits: Limits, w: World, rt: Routine, now: Time)
    requires Configured(cfg, limits) && RoutineInv(cfg, w.moment, rt) && Commits(w, rt)
    requires RecordInv(rt.key, Records(w)[rt.key], limits.maxAttempts) && rt.facts.role.Deleter?
    requires MayDo(cfg, rt.facts, rt.program.action)
    ensures Guard(w.moment.state, OpOf(rt.key, rt.program.action, now), w.moment.ledger, limits)
  {
  }

  lemma ReaperIsDisciplined(cfg: Config, limits: Limits, w: World, rt: Routine, now: Time)
    requires Configured(cfg, limits) && RoutineInv(cfg, w.moment, rt) && Commits(w, rt)
    requires RecordInv(rt.key, Records(w)[rt.key], limits.maxAttempts) && rt.facts.role.Reaper?
    requires Timely(w, rt) && now != ZERO_TIME && MayDo(cfg, rt.facts, rt.program.action)
    ensures Guard(w.moment.state, OpOf(rt.key, rt.program.action, now), w.moment.ledger, limits)
  {
  }

  lemma TurnIsDisciplined(cfg: Config, limits: Limits, w: World, turn: Turn)
    requires Configured(cfg, limits) && WorldInv(cfg, limits, w) && Enabled(w, turn, limits)
    ensures Guard(w.moment.state, StoreOp(w, turn, limits), w.moment.ledger, limits)
  {
    if turn.Saves? {
      assert RoutineInv(cfg, w.moment, w.routines[turn.id]);
      CommitIsDisciplined(cfg, limits, w, w.routines[turn.id], turn.now);
    }
  }

  // What others may do to a record that is being worked on

  /** Neither a provision claim nor, for an owned record, a deletion is disturbed; other records keep their epoch. */
  predicate Undisturbed(owned: bool, r: Record, r': Record) {
    && (!owned ==> r'.epoch == r.epoch)
    && (r.claim.Provision? ==> r'.claim.Provision? && r'.epoch == r.epoch && r'.runnerID == r.runnerID)
    && (owned && Retired(r) ==> Retired(r') && r'.epoch == r.epoch && r'.acceptedID == r.acceptedID)
  }

  lemma RunnerCompletedUndisturbs(r: Record, completion: Record, now: Time)
    requires !r.status.Deleted?
    ensures forall owned :: Undisturbed(owned, r, RunnerCompleted(r, completion, now))
  {
  }

  lemma JobCompletedOnUndisturbs(r: Record, completion: Record, now: Time)
    ensures forall owned :: Undisturbed(owned, r, JobCompletedOn(r, completion, now))
  {
  }

  lemma CompletionUndisturbs(s: State, completion: Record, now: Time, k: string)
    requires k in s.records && !IsMarkerKey(k)
    ensures k in RecordCompletion(s, completion, now).records
    ensures forall owned :: Undisturbed(owned, s.records[k], RecordCompletion(s, completion, now).records[k])
  {
    var r := s.records[k];
    MarkerKeyInjective(completion.job.owner, completion.job.repository, completion.runnerID, "", "", 0);
    var middle := RunnerPhase(s, completion, now);
    assert forall owned :: Undisturbed(owned, r, middle[k]) by {
      if RunnerMatched(s, completion) && IndexedKey(s, completion) == k {
        RunnerCompletedUndisturbs(r, completion, now);
      }
    }
    JobCompletedOnUndisturbs(middle[k], completion, now);
  }

  lemma BackstopUndisturbs(r: Record, m: Mutation, now: Time)
    requires m.ExhaustProvisioning? || m.ExhaustDeletion?
    requires ClaimMatchesStatus(r)
    ensures forall owned :: Undisturbed(owned, r, Mutate(m, r, now))
  {
  }

  lemma AmbientUndisturbs(w: World, op: Op, limits: Limits, k: string)
    requires StoreInv(w.moment.state, w.moment.ledger, limits) && Ambient(w, op)
    requires k in Records(w) && !IsMarkerKey(k) && k in Apply(w.moment.state, op).records
    ensures forall owned :: Undisturbed(owned, Records(w)[k], Apply(w.moment.state, op).records[k])
  {
    assert RecordInv(k, Records(w)[k], limits.maxAttempts);
    var s := w.moment.state;
    match op
    case Create(r, now) => assert Enqueued(s, r, now).records[k] == s.records[k];
    case Complete(completion, now) => CompletionUndisturbs(s, completion, now, k);
    case SweepOrphans(provider, cutoff, now) => SweepUndisturbs(s.records, provider, cutoff, now, k);
    case Prune(cutoff) => assert PruneDeleted(s.records, cutoff)[k] == s.records[k];
    case Change(key, m, now) =>
      if key == k {
        BackstopUndisturbs(s.records[k], m, now);
      }
    case _ =>
  }

  lemma SweepUndisturbs(records: map<string, Record>, provider: Cloud, cutoff: Time, now: Time, k: string)
    requires k in records && ClaimMatchesStatus(records[k])
    ensures forall owned :: Undisturbed(owned, records[k], ReleaseSweptOrphans(records, provider, cutoff, now)[k])
  {
  }

  /** A record a worker holds is not claimable. */
  lemma HeldIsNotClaimable(w: World, key: string, kind: Work, now: Time, limits: Limits)
    requires Claimable(w, key, kind, now, limits)
    ensures !Records(w)[key].claim.Provision? && !Retired(Records(w)[key])
  {
  }

  lemma ReaperUndisturbs(cfg: Config, f: Facts, m: Mutation, r: Record, now: Time, maxAttempts: int)
    requires f.role.Reaper? && MayReap(cfg, f, m) && Descends(f.start, r) && r.epoch == f.start.epoch
    requires LifecycleInv(false, r, maxAttempts) && Disciplined(false, r, m, now, maxAttempts)
    ensures Undisturbed(r.provider == cfg.provider, r, Mutate(m, r, now))
  {
    if r.provider != cfg.provider {
      MutationEvolvesRecord(false, m, r, now, maxAttempts);
    }
    if Retired(r) && r.provider == cfg.provider {
      if NeedsProvisioned(m) {
        ProvisionedOnly(m, r, now);
      } else {
        RetiredStays(cfg, f, m, r, now);
      }
    }
  }

  predicate NeedsProvisioned(m: Mutation) {
    || m.ObserveRunnerMissing? || m.ObserveGitHubRunnerMissing? || m.RecordRunnerSeen? || m.ClearRunnerMissing?
    || m.RequeueMissingRunner?
  }

  lemma ProvisionedOnly(m: Mutation, r: Record, now: Time)
    requires NeedsProvisioned(m) && !r.status.Provisioned?
    ensures Mutate(m, r, now) == r || Mutate(m, r, now) == Stamped(r, now)
  {
  }

  predicate StaysRetired(r: Record, r': Record) {
    Retired(r') && r'.epoch == r.epoch && r'.acceptedID == r.acceptedID
  }

  lemma RetiredStays(cfg: Config, f: Facts, m: Mutation, r: Record, now: Time)
    requires MayReap(cfg, f, m) && !NeedsProvisioned(m) && Descends(f.start, r) && r.epoch == f.start.epoch
    requires InstanceMatchesPhase(r) && ClaimMatchesStatus(r) && Retired(r) && r.provider == cfg.provider
    ensures StaysRetired(r, Mutate(m, r, now))
  {
    if m.BeginCleanupAttempt? || m.DeferReconciliation? || m.DeferRateLimitedCleanup? {
      BackoffStaysRetired(m, r, now);
    } else if m.MarkDeleteFailed? {
      MarkDeleteFailedStaysRetired(m, r, now);
    } else if m.MarkOrphaned? || m.MarkDeleted? {
      TerminalStaysRetired(m, r, now);
    } else if m.ScheduleDeletion? || m.ReleaseAbsentOrphan? {
      ReleaseStaysRetired(m, r, now);
    } else {
      OthersStayRetired(m, r, now);
    }
  }

  lemma BackoffStaysRetired(m: Mutation, r: Record, now: Time)
    requires m.BeginCleanupAttempt? || m.DeferReconciliation? || m.DeferRateLimitedCleanup?
    requires Retired(r)
    ensures StaysRetired(r, Mutate(m, r, now))
  {
  }

  lemma MarkDeleteFailedStaysRetired(m: Mutation, r: Record, now: Time)
    requires m.MarkDeleteFailed? && Retired(r) && r.instanceID.NoInstance?
    ensures StaysRetired(r, Mutate(m, r, now))
  {
  }

  lemma TerminalStaysRetired(m: Mutation, r: Record, now: Time)
    requires (m.MarkOrphaned? || m.MarkDeleted?) && Retired(r) && r.instanceID.NoInstance?
    ensures StaysRetired(r, Mutate(m, r, now))
  {
    if m.MarkOrphaned? {
      assert Mutate(m, r, now) == Stamped(OnMarkOrphaned(r, m.message), now);
    } else {
      assert Mutate(m, r, now) == Stamped(OnMarkDeleted(r), now);
    }
  }

  lemma ReleaseStaysRetired(m: Mutation, r: Record, now: Time)
    requires (m.ScheduleDeletion? || m.ReleaseAbsentOrphan?) && Retired(r)
    ensures StaysRetired(r, Mutate(m, r, now))
  {
  }

  lemma OthersStayRetired(m: Mutation, r: Record, now: Time)
    requires m.ClearProviderMissing? || m.ClearGitHubMissing? || m.DeferOrphanCleanup? || m.ClearJIT?
    requires Retired(r)
    ensures StaysRetired(r, Mutate(m, r, now))
  {
    assert Unstamped(m, r, now).(runnerID := r.runnerID, runnerOwned := r.runnerOwned).status == r.status;
  }
}
