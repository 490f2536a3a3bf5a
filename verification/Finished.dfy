/**
 What a grant finds, and what becomes of finished work: over every run a record that is over for its
 epoch is never provisioned in it, a finished job never again, and a deferred runner is deleted only
 after something has lifted the deferral.
 */
module Finished {
  import opened Names
  import opened Lifecycle
  import opened Store
  import opened Invariants
  import opened StoreInvariant
  import opened Runs
  import opened RunProperties
  import opened Budgets
  import opened Completions
  import opened KeyOrder
  import opened Scheduling

  // What a grant finds

  /** Ready to be provisioned, were there room for it. */
  predicate AwaitsProvisioning(r: Record, maxAttempts: int, now: Time) {
    r.status.Pending? && r.claim.NoWork? && r.nextAttemptAt <= now && r.attempts < maxAttempts
  }

  /** Ready to have its instance deleted: completed, and nobody has to deregister its runner first. */
  predicate AwaitsDeletion(r: Record, maxAttempts: int, now: Time) {
    && r.status.Completed? && r.claim.NoWork? && r.nextAttemptAt <= now && r.deleteAttempts < maxAttempts
    && !r.instanceID.NoInstance? && !r.deferDeletion
  }

  /** There is room below the limit, or the record fills a place it is already counted for. */
  predicate HasRoom(records: map<string, Record>, r: Record, maxLive: nat) {
    || |LiveKeys(records)| < maxLive
    || (|LiveKeys(records)| == maxLive && (!r.instanceID.NoInstance? || (r.runnerOwned && r.runnerID != 0)))
  }

  /** A scan takes a record up exactly if it awaits the work and, to be provisioned, there is room. */
  lemma ReadyExactly(r: Record, admitted: bool, maxAttempts: int, now: Time)
    ensures ReadyFor(r, admitted, maxAttempts, now).Provision? <==> AwaitsProvisioning(r, maxAttempts, now) && admitted
    ensures ReadyFor(r, admitted, maxAttempts, now).Delete? <==> AwaitsDeletion(r, maxAttempts, now)
  {
  }

  /** Work that is due but has no attempt left is given up when a scan passes it; nothing else is touched. */
  lemma RetiredExactly(r: Record, maxAttempts: int, now: Time)
    ensures Backstopped(r, maxAttempts, now) ==
      if r.status.Pending? && r.nextAttemptAt <= now && r.attempts >= maxAttempts
      then r.(status := Status.Failed, lastError := AttemptsExhausted, updatedAt := now)
      else if r.status.Completed? && r.nextAttemptAt <= now && r.deleteAttempts >= maxAttempts
              && !r.instanceID.NoInstance? && !r.deferDeletion
      then r.(status := Orphaned, lastError := DeletionsExhausted, updatedAt := now)
      else r
  {
  }

  /** What the record awaits, if there is room for it. */
  predicate Ready(records: map<string, Record>, k: string, maxLive: nat, maxAttempts: int, now: Time)
    requires k in records
  {
    || AwaitsDeletion(records[k], maxAttempts, now)
    || (AwaitsProvisioning(records[k], maxAttempts, now) && HasRoom(records, records[k], maxLive))
  }

  /** A scan takes the least key whose record is ready for work, for that work, and nothing only if none is ready. */
  lemma ScanTakesLeastReady(records: map<string, Record>, claim: Claim, maxLive: nat, maxAttempts: int, now: Time)
    requires IsScan(records, claim, maxLive, maxAttempts, now)
    ensures claim.NoClaim? ==> forall k | k in records :: !Ready(records, k, maxLive, maxAttempts, now)
    ensures claim.Claimed? ==>
      && claim.key in records && Ready(records, claim.key, maxLive, maxAttempts, now)
      && (claim.kind.Delete? <==> AwaitsDeletion(records[claim.key], maxAttempts, now))
      && forall k | k in records && Less(k, claim.key) :: !Ready(records, k, maxLive, maxAttempts, now)
  {
    forall k | k in records
      ensures Eligible(records, k, maxLive, maxAttempts, now) <==> Ready(records, k, maxLive, maxAttempts, now)
    {
      ReadyExactly(records[k], CanProvision(records, records[k], maxLive), maxAttempts, now);
    }
    if claim.Claimed? {
      ReadyExactly(records[claim.key], CanProvision(records, records[claim.key], maxLive), maxAttempts, now);
    }
  }

  /** A step that hands an unclaimed record to a worker finds it awaiting exactly that work. */
  lemma GrantFindsReady(s: State, op: Op, s': State, ledger: Ledger, limits: Limits, k: string)
    requires StoreInv(s, ledger, limits) && Guard(s, op, ledger, limits) && Step(s, op, s') && !IsMarkerKey(k)
    requires k in s.records && k in s'.records && s.records[k].claim.NoWork? && !s'.records[k].claim.NoWork?
    ensures op.Change? && op.key == k
    ensures var r, kind := s.records[k], s'.records[k].claim;
      && (kind.Delete? ==> AwaitsDeletion(r, limits.maxAttempts, op.now))
      && (kind.Provision? ==>
           AwaitsProvisioning(r, limits.maxAttempts, op.now) && HasRoom(s.records, r, limits.maxLive))
  {
    GrantIsMutation(s, op, s', ledger, limits, k);
    GrantedWasReady(s.records[k], op.mutation, op.now);
  }

  lemma GrantIsMutation(s: State, op: Op, s': State, ledger: Ledger, limits: Limits, k: string)
    requires StoreInv(s, ledger, limits) && Guard(s, op, ledger, limits) && Step(s, op, s') && !IsMarkerKey(k)
    requires k in s.records && k in s'.records && s.records[k].claim.NoWork? && !s'.records[k].claim.NoWork?
    ensures op.Change? && op.key == k && Grants(op.mutation)
    ensures s'.records[k] == Mutate(op.mutation, s.records[k], op.now)
    ensures op.mutation.maxAttempts == limits.maxAttempts
    ensures op.mutation.GrantProvision? ==> CanProvision(s.records, s.records[k], limits.maxLive)
  {
    StepOnRecord(s, op, s', ledger, limits, k);
    StartedByGrant(op, k, s.records[k], s'.records[k]);
    GrantIsGuarded(s, op, s', ledger, limits, k);
  }

  lemma StartedByGrant(op: Op, k: string, r: Record, r': Record)
    requires RecordSteps(op, k, r, r') && r.claim.NoWork? && !r'.claim.NoWork?
    ensures ClaimStarts(op, k)
  {
  }

  lemma GrantIsGuarded(s: State, op: Op, s': State, ledger: Ledger, limits: Limits, k: string)
    requires Guard(s, op, ledger, limits) && Step(s, op, s') && k in s.records && ClaimStarts(op, k)
    ensures s'.records == s.records[k := Mutate(op.mutation, s.records[k], op.now)]
    ensures op.mutation.maxAttempts == limits.maxAttempts
    ensures op.mutation.GrantProvision? ==> CanProvision(s.records, s.records[k], limits.maxLive)
  {
  }

  lemma GrantedWasReady(r: Record, m: Mutation, now: Time)
    requires Grants(m) && r.claim.NoWork? && !Mutate(m, r, now).claim.NoWork?
    ensures m.GrantProvision? ==> Mutate(m, r, now).claim.Provision? && AwaitsProvisioning(r, m.maxAttempts, now)
    ensures m.GrantDelete? ==> Mutate(m, r, now).claim.Delete? && AwaitsDeletion(r, m.maxAttempts, now)
  {
  }

  /** The same over runs. */
  lemma ClaimsAreReady(trace: seq<Moment>, ops: seq<Op>, limits: Limits, k: string, n: nat)
    requires IsRun(trace, ops, limits) && n < |ops| && !IsMarkerKey(k)
    requires k in trace[n].state.records && trace[n].state.records[k].claim.NoWork?
    requires k in trace[n + 1].state.records && !trace[n + 1].state.records[k].claim.NoWork?
    ensures ops[n].Change? && ops[n].key == k
    ensures var r, kind := trace[n].state.records[k], trace[n + 1].state.records[k].claim;
      && (kind.Delete? ==> AwaitsDeletion(r, limits.maxAttempts, ops[n].now))
      && (kind.Provision? ==> AwaitsProvisioning(r, limits.maxAttempts, ops[n].now)
                              && HasRoom(trace[n].state.records, r, limits.maxLive))
  {
    RunKeepsInvariant(trace, ops, limits, n);
    assert StepAt(trace, ops, limits, n) && RunStep(trace[n], ops[n], trace[n + 1], limits);
    GrantFindsReady(trace[n].state, ops[n], trace[n + 1].state, trace[n].ledger, limits, k);
  }

  // Deferred deletions

  lemma ReleasesKeepDeferral(m: Mutation, r: Record, now: Time)
    requires m.ReleaseClaim? || m.DeferRateLimitedWork? || m.DeferProvisioningDemand?
    requires r.deferDeletion
    ensures Mutate(m, r, now).deferDeletion
  {
  }

  lemma CountersKeepDeferral(m: Mutation, r: Record, now: Time)
    requires m.GrantProvision? || m.GrantDelete? || m.BeginCleanupAttempt? || m.ExhaustProvisioning?
      || m.ExhaustDeletion? || m.ClearRunnerMissing?
    requires r.deferDeletion
    ensures Mutate(m, r, now).deferDeletion
  {
  }

  lemma DeletionsKeepDeferral(m: Mutation, r: Record, now: Time)
    requires m.DeferDeletionConfirmation? || m.DeferReassignmentDemand? || m.DeferRateLimitedCleanup?
      || m.FinishDeletedRunner?
    requires r.deferDeletion && r.jobCompleted
    ensures Mutate(m, r, now).deferDeletion || Mutate(m, r, now).status.Deleted?
  {
  }

  lemma OutcomesKeepDeferral(m: Mutation, r: Record, now: Time)
    requires Settles(m) && !m.ScheduleDeletion? && r.deferDeletion
    ensures Mutate(m, r, now).deferDeletion || Mutate(m, r, now).status.Deleted?
  {
  }

  lemma ObservationsKeepDeferral(m: Mutation, r: Record, now: Time)
    requires !Moves(m) && !Settles(m) && r.deferDeletion
    ensures Mutate(m, r, now).deferDeletion
  {
  }

  lemma MutationKeepsDeferral(m: Mutation, r: Record, now: Time)
    requires !m.ScheduleDeletion? && r.deferDeletion && r.jobCompleted
    ensures Mutate(m, r, now).deferDeletion || Mutate(m, r, now).status.Deleted?
  {
    if m.ReleaseClaim? || m.DeferRateLimitedWork? || m.DeferProvisioningDemand? {
      ReleasesKeepDeferral(m, r, now);
    } else if m.DeferDeletionConfirmation? || m.DeferReassignmentDemand? || m.DeferRateLimitedCleanup?
      || m.FinishDeletedRunner?
    {
      DeletionsKeepDeferral(m, r, now);
    } else if Moves(m) {
      CountersKeepDeferral(m, r, now);
    } else if Settles(m) {
      OutcomesKeepDeferral(m, r, now);
    } else {
      ObservationsKeepDeferral(m, r, now);
    }
  }

  /** The operations that free a deferred runner for deletion: expiry, its own completion, a new registration. */
  predicate LiftsDeferral(op: Op, k: string, r: Record) {
    || (op.Change? && op.key == k && op.mutation.ScheduleDeletion?)
    || (op.Complete? && OwnsCompleted(r, op.completion))
    || (op.MarkJIT? && op.key == k)
  }

  lemma OthersKeepDeferral(s: State, op: Op, s': State, ledger: Ledger, limits: Limits, k: string)
    requires StoreInv(s, ledger, limits) && Guard(s, op, ledger, limits) && Step(s, op, s') && !IsMarkerKey(k)
    requires k in s.records && k in s'.records && s.records[k].deferDeletion && s.records[k].jobCompleted
    requires !LiftsDeferral(op, k, s.records[k]) && !op.Complete?
    ensures s'.records[k].deferDeletion || s'.records[k].status.Deleted?
  {
    if op.Change? && op.key == k {
      MutationKeepsDeferral(op.mutation, s.records[k], op.now);
    } else if op.MarkJIT? {
      RegistrationLeavesOthers(s, op, k);
    } else if op.Restart? {
      RecoveryKeepsStanding(s.records[k], op.now, op.retention);
    } else {
      UntouchedStays(s, op, k);
    }
  }

  lemma RecoveryKeepsStanding(r: Record, now: Time, retention: nat)
    requires RecoverRecord(r, now, retention).Keep?
    ensures RecoverRecord(r, now, retention).record.deferDeletion == r.deferDeletion
    ensures Over(r) ==> Over(RecoverRecord(r, now, retention).record)
  {
  }

  /** Steps about other records, sweeps and pruning. */
  lemma UntouchedStays(s: State, op: Op, k: string)
    requires op.Create? || op.SweepOrphans? || op.Prune? || (op.Change? && op.key != k)
    requires k in s.records && k in Apply(s, op).records
    ensures Apply(s, op).records[k].deferDeletion == s.records[k].deferDeletion
    ensures Apply(s, op).records[k].status == s.records[k].status
  {
  }

  lemma StepKeepsDeferral(s: State, op: Op, s': State, ledger: Ledger, limits: Limits, k: string)
    requires StoreInv(s, ledger, limits) && Guard(s, op, ledger, limits) && Step(s, op, s') && !IsMarkerKey(k)
    requires k in s.records && k in s'.records && s.records[k].deferDeletion && s.records[k].jobCompleted
    requires !LiftsDeferral(op, k, s.records[k])
    ensures s'.records[k].deferDeletion || s'.records[k].status.Deleted?
  {
    if op.Complete? {
      CompletionReaches(s, op.completion, op.now, ledger, limits, k);
    } else {
      OthersKeepDeferral(s, op, s', ledger, limits, k);
    }
  }

  ghost predicate LiftedAt(trace: seq<Moment>, ops: seq<Op>, k: string, n: nat)
    requires |trace| == |ops| + 1 && n < |ops|
  {
    k in trace[n].state.records && LiftsDeferral(ops[n], k, trace[n].state.records[k])
  }

  lemma DeferralAt(trace: seq<Moment>, ops: seq<Op>, limits: Limits, k: string, n: nat)
    requires IsRun(trace, ops, limits) && n < |ops| && !IsMarkerKey(k)
    requires k in trace[n].state.records && k in trace[n + 1].state.records && !LiftedAt(trace, ops, k, n)
    requires var r := trace[n].state.records[k]; r.jobCompleted && (r.deferDeletion || r.status.Deleted?)
    ensures var r' := trace[n + 1].state.records[k]; r'.jobCompleted && (r'.deferDeletion || r'.status.Deleted?)
  {
    RunKeepsInvariant(trace, ops, limits, n);
    RunStepOnRecord(trace, ops, limits, k, n);
    assert StepAt(trace, ops, limits, n) && RunStep(trace[n], ops[n], trace[n + 1], limits);
    if trace[n].state.records[k].deferDeletion {
      StepKeepsDeferral(trace[n].state, ops[n], trace[n + 1].state, trace[n].ledger, limits, k);
    }
  }

  lemma {:induction false} StaysDeferred(trace: seq<Moment>, ops: seq<Op>, limits: Limits, k: string, i: nat, j: nat)
    requires IsRun(trace, ops, limits) && i <= j < |trace| && !IsMarkerKey(k)
    requires forall n | i <= n <= j :: k in trace[n].state.records
    requires trace[i].state.records[k].deferDeletion && trace[i].state.records[k].jobCompleted
    requires forall n | i <= n < j :: !LiftedAt(trace, ops, k, n)
    ensures var r := trace[j].state.records[k]; r.jobCompleted && (r.deferDeletion || r.status.Deleted?)
  {
    if i < j {
      StaysDeferred(trace, ops, limits, k, i, j - 1);
      DeferralAt(trace, ops, limits, k, j - 1);
    }
  }

  /**
   A completion may find a runner that GitHub has given another job. In every run, between the moment
   a completed record is deferred and a later grant of its deletion, some step lifted the deferral.
   */
  lemma DeferredUntilLifted(trace: seq<Moment>, ops: seq<Op>, limits: Limits, k: string, i: nat, j: nat)
    requires IsRun(trace, ops, limits) && i < j < |ops| && !IsMarkerKey(k)
    requires forall n | i <= n <= j + 1 :: k in trace[n].state.records
    requires trace[i].state.records[k].deferDeletion && trace[i].state.records[k].jobCompleted
    requires trace[j].state.records[k].claim.NoWork? && trace[j + 1].state.records[k].claim.Delete?
    ensures exists n | i <= n < j :: LiftedAt(trace, ops, k, n)
  {
    ClaimsAreReady(trace, ops, limits, k, j);
    if forall n | i <= n < j :: !LiftedAt(trace, ops, k, n) {
      StaysDeferred(trace, ops, limits, k, i, j);
    }
  }

  // Work that is over

  /** Nothing more is provisioned for the record in this epoch. */
  predicate Over(r: Record) {
    r.status.Completed? || r.status.Deleting? || r.status.Deleted? || r.status.Failed? || r.status.Orphaned?
  }

  lemma CountersKeepOver(m: Mutation, r: Record, now: Time, maxAttempts: int)
    requires m.GrantProvision? || m.GrantDelete? || m.BeginCleanupAttempt? || m.ExhaustProvisioning?
      || m.ExhaustDeletion?
    requires LifecycleInv(false, r, maxAttempts) && Over(r)
    ensures Over(Mutate(m, r, now))
  {
  }

  lemma ReleasesKeepOver(m: Mutation, r: Record, now: Time, maxAttempts: int)
    requires m.ReleaseClaim? || m.DeferRateLimitedWork? || m.DeferProvisioningDemand?
    requires LifecycleInv(false, r, maxAttempts) && Over(r)
    ensures Over(Mutate(m, r, now))
  {
  }

  lemma DeletionsKeepOver(m: Mutation, r: Record, now: Time, maxAttempts: int)
    requires m.DeferDeletionConfirmation? || m.DeferReassignmentDemand? || m.DeferRateLimitedCleanup?
      || m.ClearRunnerMissing? || m.FinishDeletedRunner?
    requires LifecycleInv(false, r, maxAttempts) && Over(r)
    ensures Over(Mutate(m, r, now)) || (Mutate(m, r, now).epoch != r.epoch && r.recheckDemand)
  {
  }

  lemma OutcomesKeepOver(m: Mutation, r: Record, now: Time, maxAttempts: int)
    requires Settles(m) && LifecycleInv(false, r, maxAttempts) && Over(r)
    requires Disciplined(false, r, m, now, maxAttempts)
    ensures Over(Mutate(m, r, now))
  {
  }

  lemma ObservationsKeepOver(m: Mutation, r: Record, now: Time, maxAttempts: int)
    requires !Moves(m) && !Settles(m) && LifecycleInv(false, r, maxAttempts) && Over(r)
    ensures Over(Mutate(m, r, now))
  {
  }

  lemma MutationKeepsOver(m: Mutation, r: Record, now: Time, maxAttempts: int)
    requires LifecycleInv(false, r, maxAttempts) && Disciplined(false, r, m, now, maxAttempts) && Over(r)
    ensures Over(Mutate(m, r, now)) || (Mutate(m, r, now).epoch != r.epoch && r.recheckDemand)
  {
    if m.ReleaseClaim? || m.DeferRateLimitedWork? || m.DeferProvisioningDemand? {
      ReleasesKeepOver(m, r, now, maxAttempts);
    } else if m.GrantProvision? || m.GrantDelete? || m.BeginCleanupAttempt? || m.ExhaustProvisioning?
      || m.ExhaustDeletion?
    {
      CountersKeepOver(m, r, now, maxAttempts);
    } else if Moves(m) {
      DeletionsKeepOver(m, r, now, maxAttempts);
    } else if Settles(m) {
      OutcomesKeepOver(m, r, now, maxAttempts);
    } else {
      ObservationsKeepOver(m, r, now, maxAttempts);
    }
  }

  lemma RegistrationKeepsOver(s: State, op: Op, k: string)
    requires op.MarkJIT? && k in s.records && !IsMarkerKey(k) && Over(s.records[k])
    ensures k in Apply(s, op).records && Over(Apply(s, op).records[k])
  {
    if op.key in s.records {
      MarkerKeyInjective(s.records[op.key].job.owner, s.records[op.key].job.repository, op.runnerID, "", "", 0);
    }
  }

  lemma StepKeepsOver(s: State, op: Op, s': State, ledger: Ledger, limits: Limits, k: string)
    requires StoreInv(s, ledger, limits) && Guard(s, op, ledger, limits) && Step(s, op, s') && !IsMarkerKey(k)
    requires k in s.records && k in s'.records && Over(s.records[k])
    ensures Over(s'.records[k]) || (s'.records[k].epoch != s.records[k].epoch && s.records[k].recheckDemand)
  {
    assert RecordInv(k, s.records[k], limits.maxAttempts);
    if op.Complete? {
      CompletionReaches(s, op.completion, op.now, ledger, limits, k);
    } else if op.Change? && op.key == k {
      MutationKeepsOver(op.mutation, s.records[k], op.now, limits.maxAttempts);
    } else if op.MarkJIT? {
      RegistrationKeepsOver(s, op, k);
    } else if op.Restart? {
      RecoveryKeepsStanding(s.records[k], op.now, op.retention);
    } else {
      UntouchedStays(s, op, k);
    }
  }

  lemma OverAt(trace: seq<Moment>, ops: seq<Op>, limits: Limits, k: string, n: nat)
    requires IsRun(trace, ops, limits) && n < |ops| && !IsMarkerKey(k)
    requires k in trace[n].state.records && k in trace[n + 1].state.records && Over(trace[n].state.records[k])
    ensures var r, r' := trace[n].state.records[k], trace[n + 1].state.records[k];
      Over(r') || (r'.epoch != r.epoch && r.recheckDemand)
  {
    RunKeepsInvariant(trace, ops, limits, n);
    assert StepAt(trace, ops, limits, n) && RunStep(trace[n], ops[n], trace[n + 1], limits);
    StepKeepsOver(trace[n].state, ops[n], trace[n + 1].state, trace[n].ledger, limits, k);
  }

  /**
   A completion that overtakes the creation of the instance stays in force: once a record has been
   Completed, Deleting, Failed, Orphaned or Deleted, it is never again Pending, Provisioning or
   Provisioned in the same epoch.
   */
  lemma {:induction false} OverStaysOver(trace: seq<Moment>, ops: seq<Op>, limits: Limits, k: string, i: nat, j: nat)
    requires IsRun(trace, ops, limits) && i <= j < |trace| && !IsMarkerKey(k)
    requires forall n | i <= n <= j :: k in trace[n].state.records
    requires Over(trace[i].state.records[k])
    requires trace[j].state.records[k].epoch == trace[i].state.records[k].epoch
    ensures Over(trace[j].state.records[k])
  {
    if i < j {
      EpochsGrow(trace, ops, limits, k, i, j - 1);
      EpochsGrow(trace, ops, limits, k, j - 1, j);
      OverStaysOver(trace, ops, limits, k, i, j - 1);
      OverAt(trace, ops, limits, k, j - 1);
    }
  }

  /** A job that is known completed and is over is over for good: no epoch of it follows, and no provisioning. */
  lemma {:induction false} FinishedForGood(trace: seq<Moment>, ops: seq<Op>, limits: Limits, k: string, i: nat, j: nat)
    requires IsRun(trace, ops, limits) && i <= j < |trace| && !IsMarkerKey(k)
    requires forall n | i <= n <= j :: k in trace[n].state.records
    requires Over(trace[i].state.records[k]) && trace[i].state.records[k].jobCompleted
    ensures Over(trace[j].state.records[k]) && trace[j].state.records[k].jobCompleted
    ensures i < j && trace[j].state.records[k].claim.Provision? ==> trace[j - 1].state.records[k].claim.Provision?
  {
    if i < j {
      FinishedForGood(trace, ops, limits, k, i, j - 1);
      NeverRecheckedOnceCompleted(trace, ops, limits, k, j - 1);
      RunStepOnRecord(trace, ops, limits, k, j - 1);
      OverAt(trace, ops, limits, k, j - 1);
    }
  }

  /** The step is a completion of a job that the store does not know. */
  ghost predicate CompletesUnknown(trace: seq<Moment>, ops: seq<Op>, k: string, n: nat)
    requires |trace| == |ops| + 1 && n < |ops|
  {
    ops[n].Complete? && ops[n].completion.job.key == k && k !in trace[n].state.records
  }

  lemma UnknownIsOver(trace: seq<Moment>, ops: seq<Op>, limits: Limits, k: string, i: nat)
    requires IsRun(trace, ops, limits) && i < |ops| && CompletesUnknown(trace, ops, k, i)
    ensures k in trace[i + 1].state.records && !IsMarkerKey(k)
    ensures var r := trace[i + 1].state.records[k]; Over(r) && r.jobCompleted && r.claim.NoWork?
  {
    var m, op, m' := trace[i], ops[i], trace[i + 1];
    assert StepAt(trace, ops, limits, i) && RunStep(m, op, m', limits);
    UnknownJobIsRemembered(m.state, op.completion, op.now);
  }

  /** A job whose completion arrives before it was ever queued here is never claimed for provisioning. */
  lemma {:induction false} CompletedFirstIsNeverProvisioned(trace: seq<Moment>, ops: seq<Op>, limits: Limits,
                                        k: string, i: nat, j: nat)
    requires IsRun(trace, ops, limits) && i < j < |trace| && CompletesUnknown(trace, ops, k, i)
    requires forall n | i < n <= j :: k in trace[n].state.records
    ensures trace[j].state.records[k].jobCompleted && Over(trace[j].state.records[k])
    ensures !trace[j].state.records[k].claim.Provision?
  {
    UnknownIsOver(trace, ops, limits, k, i);
    FinishedForGood(trace, ops, limits, k, i + 1, j);
    if i + 1 < j {
      CompletedFirstIsNeverProvisioned(trace, ops, limits, k, i, j - 1);
    }
  }

  // An instance that is recorded after the completion

  lemma RecordedFields(r: Record, instanceID: InstanceID, name: string, now: Time, maxAttempts: int)
    requires LifecycleInv(false, r, maxAttempts) && r.claim.Provision?
    ensures var r' := Mutate(MarkProvisioned(instanceID, r.runnerID, name), r, now);
      && r'.instanceID == instanceID && r'.claim.NoWork? && r'.runnerID == r.runnerID
      && (r'.status == if r.status.Completed? then Completed else Provisioned)
      && (r'.provisionedAt == if r.provisionedAt == ZERO_TIME then now else r.provisionedAt)
      && r'.deferDeletion == r.deferDeletion && r'.deleteAttempts == r.deleteAttempts
      && r'.nextAttemptAt == r.nextAttemptAt
  {
    assert Mutate(MarkProvisioned(instanceID, r.runnerID, name), r, now)
        == Stamped(OnMarkProvisioned(r, instanceID, r.runnerID, name, now), now);
  }

  /**
   A record whose instance is recorded under its claim becomes Provisioned, unless a completion has
   overtaken the creation. Then it stays Completed, and the next due scan has the instance deleted
   exactly if that is not deferred and a deletion attempt is left.
   */
  lemma RecordedInstanceIsKept(r: Record, instanceID: InstanceID, name: string, now: Time, admitted: bool,
                               maxAttempts: int, at: Time)
    requires LifecycleInv(false, r, maxAttempts) && r.claim.Provision? && !instanceID.NoInstance?
    ensures var r' := Mutate(MarkProvisioned(instanceID, r.runnerID, name), r, now);
      && r'.instanceID == instanceID && r'.claim.NoWork? && r'.runnerID == r.runnerID
      && (r'.status == if r.status.Completed? then Completed else Provisioned)
      && (r'.provisionedAt == if r.provisionedAt == ZERO_TIME then now else r.provisionedAt)
      && (ReadyFor(r', admitted, maxAttempts, at).Delete? <==>
           r.status.Completed? && !r.deferDeletion && r.deleteAttempts < maxAttempts && r.nextAttemptAt <= at)
  {
    RecordedFields(r, instanceID, name, now, maxAttempts);
    ReadyExactly(Mutate(MarkProvisioned(instanceID, r.runnerID, name), r, now), admitted, maxAttempts, at);
  }
}
