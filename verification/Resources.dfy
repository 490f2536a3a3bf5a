/**
 What a record names is not lost: over every run an instance or a registration disappears from a record
 only in the few steps that say why.
 */
module Resources {
  import opened Names
  import opened Lifecycle
  import opened Store
  import opened Invariants
  import opened StoreInvariant
  import opened Runs
  import opened Budgets
  import opened Completions

  predicate SameInstance(r: Record, r': Record) { r'.instanceID == r.instanceID }

  predicate SameRunner(r: Record, r': Record) { r'.runnerID == r.runnerID && r'.runnerOwned == r.runnerOwned }

  lemma CountersKeepResources(m: Mutation, r: Record, now: Time)
    requires Moves(m) && !m.FinishDeletedRunner?
    ensures SameInstance(r, Mutate(m, r, now)) && SameRunner(r, Mutate(m, r, now))
  {
  }

  lemma FinishKeepsResources(r: Record, queued: bool, now: Time)
    ensures var r' := Mutate(FinishDeletedRunner(queued), r, now);
      r'.epoch == r.epoch ==> SameInstance(r, r') && SameRunner(r, r')
  {
    assert Mutate(FinishDeletedRunner(queued), r, now) == Stamped(OnFinishDeletedRunner(r, queued), now);
  }

  lemma OutcomesKeepResources(m: Mutation, r: Record, now: Time)
    requires Settles(m) && !m.MarkProvisioned?
    ensures !m.ReleaseAbsentOrphan? ==> SameInstance(r, Mutate(m, r, now))
    ensures !m.ClearJIT? ==> SameRunner(r, Mutate(m, r, now))
    ensures m.ReleaseAbsentOrphan? && !SameInstance(r, Mutate(m, r, now)) ==>
      r.status.Orphaned? && r.instanceID == m.instanceID && Mutate(m, r, now).instanceID.NoInstance?
  {
  }

  lemma ObservationsKeepResources(m: Mutation, r: Record, now: Time)
    requires !Moves(m) && !Settles(m) && !m.RequeueMissingRunner?
    ensures SameInstance(r, Mutate(m, r, now)) && SameRunner(r, Mutate(m, r, now))
  {
  }

  lemma RequeueKeepsResources(r: Record, max: int, now: Time)
    ensures var r' := Mutate(RequeueMissingRunner(max), r, now);
      r'.epoch == r.epoch ==> SameInstance(r, r') && SameRunner(r, r')
  {
    assert Mutate(RequeueMissingRunner(max), r, now) == Stamped(OnRequeueMissingRunner(r, max), now);
  }

  /** Outside a new epoch, only these mutations drop an instance or a registration. */
  lemma MutationKeepsResources(m: Mutation, r: Record, now: Time, maxAttempts: int)
    requires LifecycleInv(false, r, maxAttempts) && Disciplined(false, r, m, now, maxAttempts)
    requires Mutate(m, r, now).epoch == r.epoch
    ensures !SameInstance(r, Mutate(m, r, now)) && !r.instanceID.NoInstance? ==>
      m == ReleaseAbsentOrphan(r.instanceID) && r.status.Orphaned? && Mutate(m, r, now).instanceID.NoInstance?
    ensures !SameRunner(r, Mutate(m, r, now)) ==> m.ClearJIT?
  {
    if m.MarkProvisioned? {
      assert Mutate(m, r, now)
          == Stamped(OnMarkProvisioned(r, m.instanceID, m.runnerID, m.runnerName, now), now);
    } else if m.FinishDeletedRunner? {
      FinishKeepsResources(r, m.queued, now);
    } else if m.RequeueMissingRunner? {
      RequeueKeepsResources(r, m.maxAttempts, now);
    } else if Moves(m) {
      CountersKeepResources(m, r, now);
    } else if Settles(m) {
      OutcomesKeepResources(m, r, now);
    } else {
      ObservationsKeepResources(m, r, now);
    }
  }

  // Steps

  /** The sweep's release: an orphan of the swept provider whose instance is older than the sweep's cutoff. */
  predicate SweptAway(op: Op, r: Record) {
    && op.SweepOrphans? && r.status.Orphaned? && r.provider == op.provider && !r.instanceID.NoInstance?
    && (if r.provisionedAt == ZERO_TIME then r.createdAt else r.provisionedAt) < op.cutoff
  }

  /** A sweep takes exactly those instances, and changes nothing else about any record. */
  lemma SweepTakesExactly(s: State, op: Op, k: string)
    requires op.SweepOrphans? && k in s.records
    ensures k in Apply(s, op).records
    ensures Apply(s, op).records[k] ==
      if SweptAway(op, s.records[k]) then s.records[k].(instanceID := NoInstance, updatedAt := op.now)
      else s.records[k]
  {
  }

  predicate DropsInstance(op: Op, k: string, r: Record) {
    || SweptAway(op, r)
    || (op.Change? && op.key == k && op.mutation == ReleaseAbsentOrphan(r.instanceID) && r.status.Orphaned?)
  }

  predicate DropsRunner(op: Op, k: string) {
    || (op.Change? && op.key == k && op.mutation.ClearJIT?)
    || (op.MarkJIT? && op.key == k)
  }

  lemma RecoveryKeepsResources(r: Record, now: Time, retention: nat, maxAttempts: int)
    requires LifecycleInv(false, r, maxAttempts) && RecoverRecord(r, now, retention).Keep?
    ensures var r' := RecoverRecord(r, now, retention).record; SameInstance(r, r') && SameRunner(r, r')
  {
  }

  lemma RegistrationKeepsInstance(s: State, op: Op, k: string)
    requires op.MarkJIT? && k in s.records && !IsMarkerKey(k)
    ensures k in Apply(s, op).records && SameInstance(s.records[k], Apply(s, op).records[k])
    ensures op.key != k ==> SameRunner(s.records[k], Apply(s, op).records[k])
  {
    if op.key in s.records {
      MarkerKeyInjective(s.records[op.key].job.owner, s.records[op.key].job.repository, op.runnerID, "", "", 0);
    }
  }

  lemma QuietKeepsResources(s: State, op: Op, k: string)
    requires op.Create? || op.Prune? || (op.Change? && op.key != k)
    requires k in s.records && k in Apply(s, op).records
    ensures Apply(s, op).records[k] == s.records[k]
  {
  }

  /** Within an epoch every other step leaves the record's instance and its registration alone. */
  lemma StepKeepsResources(s: State, op: Op, s': State, ledger: Ledger, limits: Limits, k: string)
    requires StoreInv(s, ledger, limits) && Guard(s, op, ledger, limits) && Step(s, op, s') && !IsMarkerKey(k)
    requires k in s.records && k in s'.records && s'.records[k].epoch == s.records[k].epoch
    ensures !SameInstance(s.records[k], s'.records[k]) && !s.records[k].instanceID.NoInstance? ==>
      DropsInstance(op, k, s.records[k]) && s'.records[k].instanceID.NoInstance?
    ensures !SameRunner(s.records[k], s'.records[k]) ==> DropsRunner(op, k)
  {
    assert RecordInv(k, s.records[k], limits.maxAttempts);
    if op.Complete? {
      CompletionReaches(s, op.completion, op.now, ledger, limits, k);
    } else if op.MarkJIT? {
      RegistrationKeepsInstance(s, op, k);
    } else if op.SweepOrphans? {
      SweepTakesExactly(s, op, k);
    } else if op.Restart? {
      RecoveryKeepsResources(s.records[k], op.now, op.retention, limits.maxAttempts);
    } else if op.Change? && op.key == k {
      MutationKeepsResources(op.mutation, s.records[k], op.now, limits.maxAttempts);
    } else {
      QuietKeepsResources(s, op, k);
    }
  }

  /**
   In every run, a record that keeps its epoch loses its instance only as an orphan: because a sweep has
   accounted for it, or because that very instance was released as absent. It loses its registration
   only where that is cleared, or replaced by a new one.
   */
  lemma ResourcesAreKept(trace: seq<Moment>, ops: seq<Op>, limits: Limits, k: string, n: nat)
    requires IsRun(trace, ops, limits) && n < |ops| && !IsMarkerKey(k)
    requires k in trace[n].state.records && k in trace[n + 1].state.records
    requires trace[n + 1].state.records[k].epoch == trace[n].state.records[k].epoch
    ensures var r, r' := trace[n].state.records[k], trace[n + 1].state.records[k];
      && (!SameInstance(r, r') && !r.instanceID.NoInstance? ==>
           DropsInstance(ops[n], k, r) && r'.instanceID.NoInstance?)
      && (!SameRunner(r, r') ==> DropsRunner(ops[n], k))
  {
    RunKeepsInvariant(trace, ops, limits, n);
    assert StepAt(trace, ops, limits, n) && RunStep(trace[n], ops[n], trace[n + 1], limits);
    StepKeepsResources(trace[n].state, ops[n], trace[n + 1].state, trace[n].ledger, limits, k);
  }
}
