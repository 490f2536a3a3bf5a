/**
 Failures that cost no attempt are counted all the same: over every run the two failure counters of a
 record are the number of rejections and of throttles in a row, and the last one allowed gives up.
 */
module Failures {
  import opened Names
  import opened Lifecycle
  import opened Store
  import opened Invariants
  import opened StoreInvariant
  import opened Runs
  import opened Budgets

  datatype Count = Rejections | Throttles

  function Tally(r: Record, count: Count): int {
    if count.Rejections? then r.reconcileFailures else r.throttleFailures
  }

  /** The rejection that exhausts the reaper's patience; a throttle reported with it is not counted. */
  predicate LastRejection(m: Mutation, r: Record) {
    m.DeferReconciliation? && m.countFailure && r.reconcileFailures + 1 >= m.maxAttempts
  }

  predicate Extends(m: Mutation, r: Record, count: Count) {
    match m
    case DeferReconciliation(_, _, _, failure, throttle) =>
      !r.Terminal() && (if count.Rejections? then failure else throttle && !LastRejection(m, r))
    case DeferOrphanCleanup(_, _) => count.Rejections? && r.status.Orphaned?
    case DeferRateLimitedWork(kind, _, _, _) =>
      count.Throttles? && !r.Terminal() && r.claim == kind && !(kind.Provision? && r.status.Completed?)
    case DeferRateLimitedCleanup(_, _, _, throttle) => count.Throttles? && !r.Terminal() && throttle
    case _ => false
  }

  /** Success, or a failure of another kind, breaks the row. */
  predicate Breaks(m: Mutation, r: Record, count: Count) {
    match m
    case ClearRunnerMissing => r.status.Provisioned?
    case FinishDeletedRunner(queued) => !r.Terminal() && queued && r.recheckDemand && !r.jobCompleted
    case MarkProvisioned(_, _, _) => count.Throttles? && !r.Terminal()
    case MarkProvisionFailed(_, _, _) => count.Throttles? && !r.Terminal()
    case MarkDeleteFailed(_, _, _) => count.Throttles? && !r.Terminal()
    case DeferReconciliation(_, _, _, _, throttle) =>
      count.Throttles? && !r.Terminal() && !throttle && !LastRejection(m, r)
    case DeferRateLimitedCleanup(_, _, _, throttle) => count.Throttles? && !r.Terminal() && !throttle
    case _ => false
  }

  predicate Counted(m: Mutation, r: Record, r': Record, count: Count) {
    Tally(r', count) ==
      if Breaks(m, r, count) then 0 else if Extends(m, r, count) then Tally(r, count) + 1 else Tally(r, count)
  }

  lemma DeferralsAreCounted(m: Mutation, r: Record, now: Time, count: Count)
    requires m.ReleaseClaim? || m.DeferRateLimitedWork? || m.DeferProvisioningDemand? || m.DeferRateLimitedCleanup?
    ensures Counted(m, r, Mutate(m, r, now), count)
  {
  }

  lemma CountersAreCounted(m: Mutation, r: Record, now: Time, count: Count)
    requires Moves(m)
    requires !m.ReleaseClaim? && !m.DeferRateLimitedWork? && !m.DeferProvisioningDemand? && !m.DeferRateLimitedCleanup?
    ensures Counted(m, r, Mutate(m, r, now), count)
  {
  }

  lemma OutcomesAreCounted(m: Mutation, r: Record, now: Time, count: Count)
    requires Settles(m)
    ensures Counted(m, r, Mutate(m, r, now), count)
  {
  }

  lemma ObservationsAreCounted(m: Mutation, r: Record, now: Time, count: Count)
    requires !Moves(m) && !Settles(m)
    ensures Counted(m, r, Mutate(m, r, now), count)
  {
  }

  lemma MutationIsCounted(m: Mutation, r: Record, now: Time, count: Count)
    ensures Counted(m, r, Mutate(m, r, now), count)
  {
    if m.ReleaseClaim? || m.DeferRateLimitedWork? || m.DeferProvisioningDemand? || m.DeferRateLimitedCleanup? {
      DeferralsAreCounted(m, r, now, count);
    } else if Moves(m) {
      CountersAreCounted(m, r, now, count);
    } else if Settles(m) {
      OutcomesAreCounted(m, r, now, count);
    } else {
      ObservationsAreCounted(m, r, now, count);
    }
  }

  // Over runs

  ghost predicate ExtendedAt(op: Op, k: string, r: Record, count: Count) {
    op.Change? && op.key == k && Extends(op.mutation, r, count)
  }

  ghost predicate BrokenAt(op: Op, k: string, r: Record, count: Count) {
    op.Change? && op.key == k && Breaks(op.mutation, r, count)
  }

  lemma CompletionsKeepTally(s: State, op: Op, k: string, count: Count)
    requires op.Complete? && k in s.records && !IsMarkerKey(k)
    ensures k in Apply(s, op).records && Tally(Apply(s, op).records[k], count) == Tally(s.records[k], count)
  {
    MarkerKeyInjective(op.completion.job.owner, op.completion.job.repository, op.completion.runnerID, "", "", 0);
    var middle := RunnerPhase(s, op.completion, op.now);
    assert k in middle && Tally(middle[k], count) == Tally(s.records[k], count);
  }

  lemma RegistrationsKeepTally(s: State, op: Op, k: string, count: Count)
    requires op.MarkJIT? && k in s.records && !IsMarkerKey(k)
    ensures k in Apply(s, op).records && Tally(Apply(s, op).records[k], count) == Tally(s.records[k], count)
  {
    if op.key in s.records {
      MarkerKeyInjective(s.records[op.key].job.owner, s.records[op.key].job.repository, op.runnerID, "", "", 0);
    }
  }

  lemma RecoveryKeepsTally(r: Record, now: Time, retention: nat, count: Count)
    requires RecoverRecord(r, now, retention).Keep?
    ensures Tally(RecoverRecord(r, now, retention).record, count) == Tally(r, count)
  {
  }

  lemma StepIsCounted(s: State, op: Op, s': State, k: string, count: Count)
    requires Step(s, op, s') && k in s.records && k in s'.records && !IsMarkerKey(k)
    ensures Tally(s'.records[k], count) ==
      if BrokenAt(op, k, s.records[k], count) then 0
      else if ExtendedAt(op, k, s.records[k], count) then Tally(s.records[k], count) + 1
      else Tally(s.records[k], count)
  {
    match op
    case Complete(_, _) => CompletionsKeepTally(s, op, k, count);
    case MarkJIT(_, _, _, _) => RegistrationsKeepTally(s, op, k, count);
    case Change(key, m, now) => MutationIsCounted(m, s.records[k], now, count);
    case Restart(now, retention) => RecoveryKeepsTally(s.records[k], now, retention, count);
    case _ =>
  }

  /** How many failures of this kind the record has met in a row. */
  ghost function Row(trace: seq<Moment>, ops: seq<Op>, k: string, count: Count, i: nat): int
    requires |trace| == |ops| + 1 && i < |trace|
  {
    if i == 0 || k !in trace[i - 1].state.records then 0
    else
      var r := trace[i - 1].state.records[k];
      if BrokenAt(ops[i - 1], k, r, count) then 0
      else if ExtendedAt(ops[i - 1], k, r, count) then Row(trace, ops, k, count, i - 1) + 1
      else Row(trace, ops, k, count, i - 1)
  }

  lemma NewRecordHasMetNone(s: State, op: Op, s': State, ledger: Ledger, limits: Limits, k: string, count: Count)
    requires Step(s, op, s') && Guard(s, op, ledger, limits)
    requires k !in s.records && k in s'.records && !IsMarkerKey(k)
    ensures Tally(s'.records[k], count) == 0
  {
    if op.Complete? {
      MarkerKeyInjective(op.completion.job.owner, op.completion.job.repository, op.completion.runnerID, "", "", 0);
    }
  }

  lemma TallyAt(trace: seq<Moment>, ops: seq<Op>, limits: Limits, k: string, count: Count, n: nat)
    requires |trace| == |ops| + 1 && n < |ops| && StepAt(trace, ops, limits, n)
    requires k in trace[n + 1].state.records && !IsMarkerKey(k)
    ensures k !in trace[n].state.records ==> Tally(trace[n + 1].state.records[k], count) == 0
    ensures k in trace[n].state.records ==>
      var r := trace[n].state.records[k];
      Tally(trace[n + 1].state.records[k], count) ==
        if BrokenAt(ops[n], k, r, count) then 0
        else if ExtendedAt(ops[n], k, r, count) then Tally(r, count) + 1 else Tally(r, count)
  {
    var m, m' := trace[n], trace[n + 1];
    assert RunStep(m, ops[n], m', limits);
    if k in m.state.records {
      StepIsCounted(m.state, ops[n], m'.state, k, count);
    } else {
      NewRecordHasMetNone(m.state, ops[n], m'.state, m.ledger, limits, k, count);
    }
  }

  /** In every run the counters are the failures met in a row. */
  lemma {:induction false} TallyIsRow(trace: seq<Moment>, ops: seq<Op>, limits: Limits, k: string, count: Count, i: nat)
    requires IsRun(trace, ops, limits) && i < |trace| && k in trace[i].state.records && !IsMarkerKey(k)
    ensures Tally(trace[i].state.records[k], count) == Row(trace, ops, k, count, i) >= 0
  {
    if i > 0 {
      assert StepAt(trace, ops, limits, i - 1);
      TallyAt(trace, ops, limits, k, count, i - 1);
      if k in trace[i - 1].state.records {
        TallyIsRow(trace, ops, limits, k, count, i - 1);
      }
    }
  }

  // The last failure allowed

  /** What gives a record up: the last failure or attempt allowed, or a decision that an operator has to step in. */
  predicate GivesUp(m: Mutation, r: Record, now: Time) {
    match m
    case MarkOrphaned(_) => !r.Terminal()
    case DeferRateLimitedWork(_, _, _, max) => Extends(m, r, Throttles) && r.throttleFailures + 1 >= max
    case DeferRateLimitedCleanup(_, _, max, _) => Extends(m, r, Throttles) && r.throttleFailures + 1 >= max
    case DeferReconciliation(_, _, max, _, _) =>
      || (Extends(m, r, Rejections) && r.reconcileFailures + 1 >= max)
      || (Extends(m, r, Throttles) && r.throttleFailures + 1 >= max)
    case MarkProvisionFailed(_, _, max) => !r.Terminal() && !r.status.Completed? && r.attempts >= max
    case MarkDeleteFailed(_, _, max) => !r.Terminal() && r.deleteAttempts >= max
    case BeginCleanupAttempt(max) =>
      !r.Terminal() && r.claim.NoWork? && r.nextAttemptAt <= now && r.deleteAttempts >= max
    case RequeueMissingRunner(max) => r.status.Provisioned? && r.attempts >= max
    case ExhaustProvisioning(max) => r.status.Pending? && r.nextAttemptAt <= now && r.attempts >= max
    case ExhaustDeletion(max) =>
      && r.status.Completed? && r.nextAttemptAt <= now && r.deleteAttempts >= max
      && !r.instanceID.NoInstance? && !r.deferDeletion
    case _ => false
  }

  lemma UnlimitedNeverGiveUp(m: Mutation, r: Record, now: Time)
    requires !m.MarkOrphaned? && LimitOf(m).None?
    ensures !GaveUp(r, Mutate(m, r, now)) && !GivesUp(m, r, now)
  {
    if GaveUp(r, Mutate(m, r, now)) {
      GivesUpOnlyWhenSpent(m, r, now);
    }
  }

  lemma FailuresGiveUp(m: Mutation, r: Record, now: Time)
    requires m.MarkOrphaned? || m.MarkProvisionFailed? || m.MarkDeleteFailed? || m.RequeueMissingRunner?
    requires !r.status.Failed?
    ensures GaveUp(r, Mutate(m, r, now)) <==> GivesUp(m, r, now)
  {
  }

  lemma BackoffsGiveUp(m: Mutation, r: Record, now: Time)
    requires m.DeferRateLimitedWork? || m.DeferRateLimitedCleanup? || m.DeferReconciliation?
    ensures GaveUp(r, Mutate(m, r, now)) <==> GivesUp(m, r, now)
  {
  }

  lemma BackstopsGiveUp(m: Mutation, r: Record, now: Time)
    requires m.BeginCleanupAttempt? || m.ExhaustProvisioning? || m.ExhaustDeletion?
    ensures GaveUp(r, Mutate(m, r, now)) <==> GivesUp(m, r, now)
  {
  }

  /** A mutation fails or orphans a record exactly when the last failure or attempt is spent, or by decision. */
  lemma GivesUpExactly(m: Mutation, r: Record, now: Time)
    requires !r.status.Failed?
    ensures GaveUp(r, Mutate(m, r, now)) <==> GivesUp(m, r, now)
  {
    if m.MarkOrphaned? || m.MarkProvisionFailed? || m.MarkDeleteFailed? || m.RequeueMissingRunner? {
      FailuresGiveUp(m, r, now);
    } else if LimitOf(m).None? {
      UnlimitedNeverGiveUp(m, r, now);
    } else if m.DeferRateLimitedWork? || m.DeferRateLimitedCleanup? || m.DeferReconciliation? {
      BackoffsGiveUp(m, r, now);
    } else {
      BackstopsGiveUp(m, r, now);
    }
  }

  predicate Waits(r: Record, message: Message, retryAt: Time, givesUp: bool, r': Record) {
    && (!givesUp ==> r'.status == r.status && r'.nextAttemptAt == retryAt)
    && r'.claim == r.claim && r'.instanceID == r.instanceID && r'.runnerID == r.runnerID
    && r'.lastError == message && r'.deferDeletion == r.deferDeletion
  }

  lemma ReconciliationWaits(r: Record, message: Message, at: Time, max: int, failure: bool, throttle: bool, now: Time)
    requires !r.Terminal()
    ensures var m := DeferReconciliation(message, at, max, failure, throttle);
      Waits(r, message, at, GivesUp(m, r, now), Mutate(m, r, now))
  {
    assert Mutate(DeferReconciliation(message, at, max, failure, throttle), r, now)
        == Stamped(OnDeferReconciliation(r, message, at, max, failure, throttle), now);
  }

  lemma CleanupWaits(r: Record, message: Message, at: Time, max: int, throttle: bool, now: Time)
    requires !r.Terminal()
    ensures var m := DeferRateLimitedCleanup(message, at, max, throttle);
      Waits(r, message, at, GivesUp(m, r, now), Mutate(m, r, now))
  {
    assert Mutate(DeferRateLimitedCleanup(message, at, max, throttle), r, now)
        == Stamped(OnDeferRateLimitedCleanup(r, message, at, max, throttle), now);
  }

  /** A backoff that does not give up leaves the record as it stands, until the retry time. */
  lemma BackoffWaits(m: Mutation, r: Record, now: Time)
    requires m.DeferReconciliation? || m.DeferRateLimitedCleanup? || m.DeferOrphanCleanup?
    requires if m.DeferOrphanCleanup? then r.status.Orphaned? else !r.Terminal()
    ensures Waits(r, m.message, m.retryAt, GivesUp(m, r, now), Mutate(m, r, now))
  {
    match m
    case DeferReconciliation(message, at, max, failure, throttle) =>
      ReconciliationWaits(r, message, at, max, failure, throttle, now);
    case DeferRateLimitedCleanup(message, at, max, throttle) => CleanupWaits(r, message, at, max, throttle, now);
    case DeferOrphanCleanup(message, at) =>
      assert Mutate(m, r, now) == Stamped(OnDeferOrphanCleanup(r, message, at), now);
  }
}
