/**
 Retry budgets as an account: over every run a record's counter is the number of attempts granted
 minus the number refunded since it was last reset, and never leaves the range of the budget.
 */
module Budgets {
  import opened Wrappers
  import opened Names
  import opened Lifecycle
  import opened Store
  import opened Invariants
  import opened StoreInvariant
  import opened Runs

  function Spent(r: Record, kind: Work): int {
    if kind.Provision? then r.attempts else r.deleteAttempts
  }

  // What a mutation does to the account

  predicate Charges(m: Mutation, r: Record, kind: Work, now: Time) {
    match m
    case GrantProvision(max) => kind.Provision? && ProvisionEligible(r, max) && Due(r, now)
    case GrantDelete(max) => kind.Delete? && DeleteEligible(r, max) && Due(r, now)
    case BeginCleanupAttempt(max) => kind.Delete? && CleanupReady(r, now) && r.deleteAttempts < max
    case _ => false
  }

  predicate Credits(m: Mutation, r: Record, kind: Work) {
    match m
    case ReleaseClaim(k) => k == kind && r.claim == kind && !r.Terminal()
    case DeferRateLimitedWork(k, _, _, _) => k == kind && r.claim == kind && !r.Terminal()
    case DeferProvisioningDemand(_, _) => kind.Provision? && r.claim.Provision?
    case DeferDeletionConfirmation(_, _) =>
      kind.Delete? && r.claim.Delete? && r.status.Deleting? && !r.acceptedID.NoInstance? && r.acceptedID == r.instanceID
    case DeferReassignmentDemand(_, _) => kind.Delete? && r.claim.Delete?
    case DeferRateLimitedCleanup(_, _, _, _) => kind.Delete? && !r.Terminal() && r.deleteAttempts > 0
    case _ => false
  }

  predicate Clears(m: Mutation, r: Record, kind: Work) {
    match m
    case ClearRunnerMissing => kind.Delete? && r.status.Provisioned?
    case FinishDeletedRunner(queued) => Restores(r, queued)
    case _ => false
  }

  function Balance(m: Mutation, r: Record, kind: Work, now: Time): int {
    if Clears(m, r, kind) then 0
    else Spent(r, kind) + (if Charges(m, r, kind, now) then 1 else 0) - (if Credits(m, r, kind) then 1 else 0)
  }

  /** The claim being refunded has been paid for, so a refund never stops at zero. */
  lemma ReleasesBalance(m: Mutation, r: Record, kind: Work, now: Time, maxAttempts: int)
    requires BudgetsHold(r, maxAttempts) && ClaimMatchesStatus(r) && !kind.NoWork?
    requires m.ReleaseClaim? || m.DeferRateLimitedWork? || m.DeferProvisioningDemand?
    ensures Spent(Mutate(m, r, now), kind) == Balance(m, r, kind, now)
  {
  }

  lemma DeletionsBalance(m: Mutation, r: Record, kind: Work, now: Time, maxAttempts: int)
    requires BudgetsHold(r, maxAttempts) && !kind.NoWork?
    requires m.DeferDeletionConfirmation? || m.DeferReassignmentDemand? || m.DeferRateLimitedCleanup?
    ensures Spent(Mutate(m, r, now), kind) == Balance(m, r, kind, now)
  {
  }

  lemma ChargesBalance(m: Mutation, r: Record, kind: Work, now: Time)
    requires !kind.NoWork?
    requires m.GrantProvision? || m.GrantDelete? || m.BeginCleanupAttempt? || m.ExhaustProvisioning?
      || m.ExhaustDeletion?
    ensures Spent(Mutate(m, r, now), kind) == Balance(m, r, kind, now)
  {
  }

  lemma ClearsBalance(m: Mutation, r: Record, kind: Work, now: Time)
    requires !kind.NoWork? && (m.ClearRunnerMissing? || m.FinishDeletedRunner?)
    ensures Spent(Mutate(m, r, now), kind) == Balance(m, r, kind, now)
  {
  }

  predicate Moves(m: Mutation) {
    || m.ReleaseClaim? || m.DeferRateLimitedWork? || m.DeferProvisioningDemand?
    || m.DeferDeletionConfirmation? || m.DeferReassignmentDemand? || m.DeferRateLimitedCleanup?
    || m.GrantProvision? || m.GrantDelete? || m.BeginCleanupAttempt? || m.ExhaustProvisioning? || m.ExhaustDeletion?
    || m.ClearRunnerMissing? || m.FinishDeletedRunner?
  }

  /** Outcomes of work leave the counters alone. */
  predicate Settles(m: Mutation) {
    || m.ClearJIT? || m.MarkProvisioned? || m.MarkProvisionFailed? || m.MarkCompleted? || m.ScheduleDeletion?
    || m.AcceptDeletion? || m.MarkDeleted? || m.MarkDeleteFailed? || m.MarkOrphaned? || m.ReleaseAbsentOrphan?
  }

  lemma OutcomesBalance(m: Mutation, r: Record, kind: Work, now: Time)
    requires !kind.NoWork? && Settles(m)
    ensures Spent(Mutate(m, r, now), kind) == Balance(m, r, kind, now)
  {
  }

  lemma ObservationsBalance(m: Mutation, r: Record, kind: Work, now: Time)
    requires !kind.NoWork? && !Moves(m) && !Settles(m)
    ensures Spent(Mutate(m, r, now), kind) == Balance(m, r, kind, now)
  {
  }

  lemma MutationBalances(m: Mutation, r: Record, kind: Work, now: Time, maxAttempts: int)
    requires BudgetsHold(r, maxAttempts) && ClaimMatchesStatus(r) && !kind.NoWork?
    ensures Spent(Mutate(m, r, now), kind) == Balance(m, r, kind, now)
  {
    if m.ReleaseClaim? || m.DeferRateLimitedWork? || m.DeferProvisioningDemand? {
      ReleasesBalance(m, r, kind, now, maxAttempts);
    } else if m.DeferDeletionConfirmation? || m.DeferReassignmentDemand? || m.DeferRateLimitedCleanup? {
      DeletionsBalance(m, r, kind, now, maxAttempts);
    } else if m.ClearRunnerMissing? || m.FinishDeletedRunner? {
      ClearsBalance(m, r, kind, now);
    } else if Moves(m) {
      ChargesBalance(m, r, kind, now);
    } else if Settles(m) {
      OutcomesBalance(m, r, kind, now);
    } else {
      ObservationsBalance(m, r, kind, now);
    }
  }

  // Giving up

  /** The limit a mutation was told to respect. */
  function LimitOf(m: Mutation): Option<int> {
    match m
    case DeferRateLimitedWork(_, _, _, max) => Some(max)
    case MarkProvisionFailed(_, _, max) => Some(max)
    case BeginCleanupAttempt(max) => Some(max)
    case MarkDeleteFailed(_, _, max) => Some(max)
    case DeferReconciliation(_, _, max, _, _) => Some(max)
    case DeferRateLimitedCleanup(_, _, max, _) => Some(max)
    case RequeueMissingRunner(max) => Some(max)
    case ExhaustProvisioning(max) => Some(max)
    case ExhaustDeletion(max) => Some(max)
    case _ => None
  }

  predicate GaveUp(r: Record, r': Record) {
    (r'.status.Orphaned? && !r.status.Orphaned?) || (r'.status.Failed? && !r.status.Failed?)
  }

  predicate SomeBudgetSpent(r: Record, max: int) {
    r.attempts >= max || r.deleteAttempts >= max || r.reconcileFailures >= max || r.throttleFailures >= max
  }

  lemma OutcomesNeverGiveUp(m: Mutation, r: Record, now: Time)
    requires !m.MarkOrphaned? && LimitOf(m).None? && Settles(m)
    ensures !GaveUp(r, Mutate(m, r, now))
  {
  }

  lemma ReleasesNeverGiveUp(m: Mutation, r: Record, now: Time)
    requires LimitOf(m).None? && Moves(m)
    ensures !GaveUp(r, Mutate(m, r, now))
  {
  }

  lemma ObservationsNeverGiveUp(m: Mutation, r: Record, now: Time)
    requires LimitOf(m).None? && !Settles(m) && !Moves(m)
    ensures !GaveUp(r, Mutate(m, r, now))
  {
  }

  lemma LimitedGivesUpWhenSpent(m: Mutation, r: Record, now: Time)
    requires LimitOf(m).Some? && GaveUp(r, Mutate(m, r, now))
    ensures SomeBudgetSpent(Mutate(m, r, now), LimitOf(m).value)
  {
  }

  /** Unless an operator has to step in, a record is given up only when one of its budgets is spent. */
  lemma GivesUpOnlyWhenSpent(m: Mutation, r: Record, now: Time)
    requires !m.MarkOrphaned? && GaveUp(r, Mutate(m, r, now))
    ensures LimitOf(m).Some? && SomeBudgetSpent(Mutate(m, r, now), LimitOf(m).value)
  {
    if LimitOf(m).None? {
      if Settles(m) {
        OutcomesNeverGiveUp(m, r, now);
      } else if Moves(m) {
        ReleasesNeverGiveUp(m, r, now);
      } else {
        ObservationsNeverGiveUp(m, r, now);
      }
    } else {
      LimitedGivesUpWhenSpent(m, r, now);
    }
  }

  /** A throttle that is counted orphans a live record exactly when it is the last one the limit allows. */
  lemma LastThrottleOrphans(m: Mutation, r: Record, now: Time)
    requires !r.Terminal() && LimitOf(m).Some? && 0 <= r.throttleFailures
    requires m.DeferRateLimitedWork? || (m.DeferReconciliation? && !m.countFailure) || m.DeferRateLimitedCleanup?
    ensures var r' := Mutate(m, r, now);
      r'.status.Orphaned? <==> r'.throttleFailures == r.throttleFailures + 1 && r'.throttleFailures >= LimitOf(m).value
  {
  }

  // What a step does to the account

  predicate Charged(op: Op, k: string, r: Record, kind: Work) {
    op.Change? && op.key == k && Charges(op.mutation, r, kind, op.now)
  }

  /** Recovery refunds interrupted work. */
  predicate Refunded(op: Op, k: string, r: Record, kind: Work) {
    match op
    case Change(key, m, _) => key == k && Credits(m, r, kind)
    case Restart(_, _) =>
      if kind.Provision? then r.status.Provisioning? else r.status.Deleting? || LegacyCancellation(r)
    case _ => false
  }

  predicate ResetAccount(op: Op, k: string, r: Record, kind: Work) {
    op.Change? && op.key == k && Clears(op.mutation, r, kind)
  }

  predicate AccountSteps(op: Op, k: string, r: Record, r': Record, kind: Work) {
    Spent(r', kind) ==
      if ResetAccount(op, k, r, kind) then 0
      else Spent(r, kind) + (if Charged(op, k, r, kind) then 1 else 0) - (if Refunded(op, k, r, kind) then 1 else 0)
  }

  lemma CompletionKeepsAccount(s: State, completion: Record, now: Time, k: string, kind: Work)
    requires k in s.records && !IsMarkerKey(k)
    ensures k in RecordCompletion(s, completion, now).records
    ensures Spent(RecordCompletion(s, completion, now).records[k], kind) == Spent(s.records[k], kind)
  {
    MarkerKeyInjective(completion.job.owner, completion.job.repository, completion.runnerID, "", "", 0);
    var middle := RunnerPhase(s, completion, now);
    assert k in middle && Spent(middle[k], kind) == Spent(s.records[k], kind);
  }

  lemma RegistrationKeepsAccount(s: State, key: string, runnerID: int, name: string, now: Time, k: string, kind: Work)
    requires k in s.records && !IsMarkerKey(k)
    ensures k in MarkJITCreated(s, key, runnerID, name, now).records
    ensures Spent(MarkJITCreated(s, key, runnerID, name, now).records[k], kind) == Spent(s.records[k], kind)
  {
    if key in s.records {
      MarkerKeyInjective(s.records[key].job.owner, s.records[key].job.repository, runnerID, "", "", 0);
    }
  }

  lemma RecoveryAccount(r: Record, now: Time, retention: nat, kind: Work, maxAttempts: int)
    requires BudgetsHold(r, maxAttempts) && ClaimMatchesStatus(r) && !kind.NoWork?
    requires RecoverRecord(r, now, retention).Keep?
    ensures AccountSteps(Restart(now, retention), "", r, RecoverRecord(r, now, retention).record, kind)
  {
  }

  lemma StepBalances(s: State, op: Op, s': State, ledger: Ledger, limits: Limits, k: string, kind: Work)
    requires StoreInv(s, ledger, limits) && Step(s, op, s') && !kind.NoWork?
    requires k in s.records && k in s'.records && !IsMarkerKey(k)
    ensures AccountSteps(op, k, s.records[k], s'.records[k], kind)
  {
    assert RecordInv(k, s.records[k], limits.maxAttempts);
    match op
    case Complete(completion, now) => CompletionKeepsAccount(s, completion, now, k, kind);
    case MarkJIT(key, runnerID, name, now) => RegistrationKeepsAccount(s, key, runnerID, name, now, k, kind);
    case Change(key, m, now) =>
      if key == k {
        MutationBalances(m, s.records[k], kind, now, limits.maxAttempts);
      }
    case Restart(now, retention) => RecoveryAccount(s.records[k], now, retention, kind, limits.maxAttempts);
    case _ =>
  }

  // Which steps orphan a record

  lemma CompletionsNeverOrphan(s: State, op: Op, k: string)
    requires op.Complete? && k in s.records && !IsMarkerKey(k) && !s.records[k].status.Orphaned?
    ensures k in Apply(s, op).records && !Apply(s, op).records[k].status.Orphaned?
  {
    MarkerKeyInjective(op.completion.job.owner, op.completion.job.repository, op.completion.runnerID, "", "", 0);
  }

  lemma RegistrationsNeverOrphan(s: State, op: Op, k: string)
    requires op.MarkJIT? && k in s.records && !IsMarkerKey(k) && !s.records[k].status.Orphaned?
    ensures k in Apply(s, op).records && !Apply(s, op).records[k].status.Orphaned?
  {
    if op.key in s.records {
      MarkerKeyInjective(s.records[op.key].job.owner, s.records[op.key].job.repository, op.runnerID, "", "", 0);
    }
  }

  /** The step orphans the record of k, explicitly or by giving up on a spent budget. */
  predicate OrphansBy(op: Op, k: string, r': Record) {
    && op.Change? && op.key == k
    && (op.mutation.MarkOrphaned?
        || (LimitOf(op.mutation).Some? && SomeBudgetSpent(r', LimitOf(op.mutation).value)))
  }

  lemma StepOrphans(s: State, op: Op, s': State, k: string)
    requires Step(s, op, s') && !IsMarkerKey(k)
    requires k in s.records && !s.records[k].status.Orphaned? && k in s'.records && s'.records[k].status.Orphaned?
    ensures OrphansBy(op, k, s'.records[k])
  {
    match op
    case Complete(_, _) => CompletionsNeverOrphan(s, op, k);
    case MarkJIT(_, _, _, _) => RegistrationsNeverOrphan(s, op, k);
    case Change(key, m, now) =>
      if key == k && !m.MarkOrphaned? {
        GivesUpOnlyWhenSpent(m, s.records[k], now);
      }
    case _ =>
  }

  /**
   A released instance that was known when instances were listed has been orphaned in between: by
   MarkOrphaned, or by a mutation that gave up because a budget had reached its limit.
   */
  lemma {:induction false} OrphanedInBetween(trace: seq<Moment>, ops: seq<Op>, limits: Limits, k: string,
                                        i: nat, j: nat) returns (n: nat)
    requires IsRun(trace, ops, limits) && i <= j < |trace| && !IsMarkerKey(k)
    requires forall n | i <= n <= j :: k in trace[n].state.records
    requires Knows(trace[i].state.records[k]) && trace[j].state.records[k].status.Orphaned?
    ensures i <= n < j && !trace[n].state.records[k].status.Orphaned?
    ensures trace[n + 1].state.records[k].status.Orphaned? && OrphansBy(ops[n], k, trace[n + 1].state.records[k])
  {
    if !trace[j - 1].state.records[k].status.Orphaned? {
      n := j - 1;
      var m, m' := trace[n], trace[n + 1];
      assert StepAt(trace, ops, limits, n) && RunStep(m, ops[n], m', limits);
      StepOrphans(m.state, ops[n], m'.state, k);
    } else {
      n := OrphanedInBetween(trace, ops, limits, k, i, j - 1);
    }
  }

  // The account over a run

  /** The attempts granted and not refunded since the record appeared or was last reset. */
  function Outstanding(trace: seq<Moment>, ops: seq<Op>, k: string, kind: Work, i: nat): int
    requires |trace| == |ops| + 1 && i < |trace|
  {
    if i == 0 || k !in trace[i - 1].state.records then 0
    else
      var r := trace[i - 1].state.records[k];
      if ResetAccount(ops[i - 1], k, r, kind) then 0
      else
        Outstanding(trace, ops, k, kind, i - 1)
        + (if Charged(ops[i - 1], k, r, kind) then 1 else 0) - (if Refunded(ops[i - 1], k, r, kind) then 1 else 0)
  }

  lemma NewAccountIsEmpty(s: State, op: Op, s': State, ledger: Ledger, limits: Limits, k: string, kind: Work)
    requires Step(s, op, s') && Guard(s, op, ledger, limits)
    requires k !in s.records && k in s'.records && !IsMarkerKey(k)
    ensures Spent(s'.records[k], kind) == 0
  {
    if op.Complete? {
      MarkerKeyInjective(op.completion.job.owner, op.completion.job.repository, op.completion.runnerID, "", "", 0);
    }
  }

  lemma RunStepBalances(trace: seq<Moment>, ops: seq<Op>, limits: Limits, k: string, kind: Work, n: nat)
    requires |trace| == |ops| + 1 && n < |ops| && StepAt(trace, ops, limits, n) && !kind.NoWork?
    requires StoreInv(trace[n].state, trace[n].ledger, limits) && k in trace[n + 1].state.records && !IsMarkerKey(k)
    ensures k in trace[n].state.records ==>
      AccountSteps(ops[n], k, trace[n].state.records[k], trace[n + 1].state.records[k], kind)
    ensures k !in trace[n].state.records ==> Spent(trace[n + 1].state.records[k], kind) == 0
  {
    var m, op, m' := trace[n], ops[n], trace[n + 1];
    assert RunStep(m, op, m', limits);
    if k in m.state.records {
      StepBalances(m.state, op, m'.state, m.ledger, limits, k, kind);
    } else {
      NewAccountIsEmpty(m.state, op, m'.state, m.ledger, limits, k, kind);
    }
  }

  lemma AccountStep(trace: seq<Moment>, ops: seq<Op>, limits: Limits, k: string, kind: Work, n: nat)
    requires IsRun(trace, ops, limits) && n < |ops| && !kind.NoWork?
    requires k in trace[n + 1].state.records && !IsMarkerKey(k)
    ensures k in trace[n].state.records ==>
      AccountSteps(ops[n], k, trace[n].state.records[k], trace[n + 1].state.records[k], kind)
    ensures k !in trace[n].state.records ==> Spent(trace[n + 1].state.records[k], kind) == 0
  {
    RunKeepsInvariant(trace, ops, limits, n);
    assert StepAt(trace, ops, limits, n);
    RunStepBalances(trace, ops, limits, k, kind, n);
  }

  lemma BudgetAt(trace: seq<Moment>, ops: seq<Op>, limits: Limits, k: string, i: nat)
    requires IsRun(trace, ops, limits) && i < |trace| && k in trace[i].state.records
    ensures BudgetsHold(trace[i].state.records[k], limits.maxAttempts)
  {
    RunKeepsInvariant(trace, ops, limits, i);
    assert RecordInv(k, trace[i].state.records[k], limits.maxAttempts);
  }

  lemma {:induction false} CounterIsOutstanding(trace: seq<Moment>, ops: seq<Op>, limits: Limits, k: string,
                                        kind: Work, i: nat)
    requires IsRun(trace, ops, limits) && i < |trace| && !kind.NoWork?
    requires k in trace[i].state.records && !IsMarkerKey(k)
    ensures Spent(trace[i].state.records[k], kind) == Outstanding(trace, ops, k, kind, i)
  {
    if i > 0 {
      AccountStep(trace, ops, limits, k, kind, i - 1);
      if k in trace[i - 1].state.records {
        CounterIsOutstanding(trace, ops, limits, k, kind, i - 1);
      }
    }
  }

  /**
   In every run the counter of a record is exactly its outstanding attempts, which never exceed the
   budget, and a held claim is one of them; so claims beyond the budget are always matched by refunds.
   */
  lemma CounterIsAccount(trace: seq<Moment>, ops: seq<Op>, limits: Limits, k: string, kind: Work, i: nat)
    requires IsRun(trace, ops, limits) && i < |trace| && !kind.NoWork?
    requires k in trace[i].state.records && !IsMarkerKey(k)
    ensures var r := trace[i].state.records[k];
      && Spent(r, kind) == Outstanding(trace, ops, k, kind, i)
      && 0 <= Outstanding(trace, ops, k, kind, i) <= limits.maxAttempts
      && (r.claim == kind ==> 1 <= Outstanding(trace, ops, k, kind, i))
  {
    CounterIsOutstanding(trace, ops, limits, k, kind, i);
    BudgetAt(trace, ops, limits, k, i);
  }
}
