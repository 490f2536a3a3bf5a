/**
 The admission count over runs: a late completion is the one step that can raise it past the
 limit, exactly when it does, and a run in which it happens.
 */
module Overtaking {
  import opened Names
  import opened Lifecycle
  import opened Store
  import opened Invariants
  import opened StoreInvariant
  import opened Runs
  import opened Examples

  // The admission count

  /** An orphan that admission no longer counts, but that still owns its runner registration. */
  predicate Revivable(r: Record) {
    r.status.Orphaned? && r.instanceID.NoInstance? && !r.claim.Delete?
  }

  function Revived(s: State, completion: Record): set<string> {
    if RunnerMatched(s, completion) && Revivable(s.records[IndexedKey(s, completion)])
    then {IndexedKey(s, completion)} else {}
  }

  lemma RunnerCompletedLive(r: Record, completion: Record, now: Time, maxAttempts: int)
    requires LifecycleInv(false, r, maxAttempts) && CompletionMatches(r, completion) && completion.runnerID != 0
    ensures CountsAsLive(RunnerCompleted(r, completion, now)) <==> CountsAsLive(r) || Revivable(r)
  {
    if r.claim.Delete? {} else {}
  }

  lemma JobCompletedOnLive(marker: bool, r: Record, completion: Record, now: Time, maxAttempts: int)
    requires LifecycleInv(marker, r, maxAttempts)
    ensures CountsAsLive(JobCompletedOn(r, completion, now)) <==> CountsAsLive(r)
  {
    if completion.runnerID != 0 || r.Terminal() {} else {}
  }

  lemma MarkerLive(records: map<string, Record>, completion: Record, now: Time, limits: Limits)
    requires RecordsInv(records, limits.maxAttempts) && FreshEvent(completion)
    ensures LiveKeys(records[Marker(completion, now).job.key := Marker(completion, now)]) == LiveKeys(records)
  {
    var marker := Marker(completion, now);
    MarkerKeyInjective(completion.job.owner, completion.job.repository, completion.runnerID, "", "", 0);
    assert !CountsAsLive(marker);
    assert marker.job.key in records ==> RecordInv(marker.job.key, records[marker.job.key], limits.maxAttempts);
  }

  lemma RunnerPhaseLive(s: State, completion: Record, now: Time, ledger: Ledger, limits: Limits)
    requires StoreInv(s, ledger, limits) && FreshEvent(completion)
    ensures LiveKeys(RunnerPhase(s, completion, now)) == LiveKeys(s.records) + Revived(s, completion)
  {
    if completion.runnerID == 0 {
    } else if RunnerMatched(s, completion) {
      var key := IndexedKey(s, completion);
      assert IssuedTo(ledger, RunnerIdentity(completion.job.owner, completion.job.repository, completion.runnerID),
          key);
      assert RecordInv(key, s.records[key], limits.maxAttempts);
      RunnerCompletedLive(s.records[key], completion, now, limits.maxAttempts);
    } else {
      MarkerLive(s.records, completion, now, limits);
    }
  }

  lemma EventPhaseLive(records: map<string, Record>, completion: Record, now: Time, limits: Limits)
    requires RecordsInv(records, limits.maxAttempts) && FreshEvent(completion)
    ensures LiveKeys(EventPhase(records, completion, now)) == LiveKeys(records)
  {
    if completion.job.key in records {
      assert RecordInv(completion.job.key, records[completion.job.key], limits.maxAttempts);
      JobCompletedOnLive(false, records[completion.job.key], completion, now, limits.maxAttempts);
    } else {
      assert !CountsAsLive(Tombstone(completion, now));
    }
  }

  /** A completion raises the admission count exactly when it revives an uncounted orphan. */
  lemma CompletionRaisesCount(s: State, completion: Record, now: Time, ledger: Ledger, limits: Limits)
    requires StoreInv(s, ledger, limits) && FreshEvent(completion) && 0 <= limits.maxAttempts
    ensures LiveKeys(RecordCompletion(s, completion, now).records) == LiveKeys(s.records) + Revived(s, completion)
    ensures LiveRunners(RecordCompletion(s, completion, now).records)
         == LiveRunners(s.records) + |Revived(s, completion)|
    ensures Revived(s, completion) != {} <==>
      RunnerMatched(s, completion) && Revivable(s.records[IndexedKey(s, completion)])
  {
    RunnerPhaseLive(s, completion, now, ledger, limits);
    RunnerPhaseKeeps(s, completion, now, ledger, limits);
    EventPhaseLive(RunnerPhase(s, completion, now), completion, now, limits);
    assert LiveKeys(s.records) !! Revived(s, completion);
  }

  // No other step raises the count past the limit

  /** Groups the mutations for the proof below; none of them makes a record count that did not. */
  predicate ClearsState(m: Mutation) {
    || m.ClearJIT? || m.ClearProviderMissing? || m.ClearGitHubMissing? || m.AcceptDeletion? || m.ReleaseAbsentOrphan?
    || m.DeferOrphanCleanup?
  }

  predicate Watches(m: Mutation) {
    m.RecordRunnerSeen? || m.ClearRunnerMissing? || m.ObserveRunnerMissing? || m.ObserveGitHubRunnerMissing?
  }

  predicate EndsLife(m: Mutation) {
    || m.MarkDeleted? || m.FinishDeletedRunner? || m.RequeueMissingRunner? || m.MarkOrphaned? || m.MarkDeleteFailed?
    || m.BeginCleanupAttempt? || m.ExhaustProvisioning? || m.ExhaustDeletion?
  }

  predicate Backs(m: Mutation) {
    || m.ReleaseClaim? || m.DeferRateLimitedWork? || m.DeferProvisioningDemand? || m.DeferReconciliation?
    || m.DeferRateLimitedCleanup? || m.DeferDeletionConfirmation? || m.DeferReassignmentDemand?
  }

  lemma ClearingLive(m: Mutation, r: Record, now: Time)
    requires ClearsState(m)
    ensures CountsAsLive(Mutate(m, r, now)) ==> CountsAsLive(r)
  {
  }

  lemma WatchingLive(m: Mutation, r: Record, now: Time)
    requires Watches(m)
    ensures CountsAsLive(Mutate(m, r, now)) ==> CountsAsLive(r)
  {
  }

  lemma EndingLive(m: Mutation, r: Record, now: Time)
    requires EndsLife(m)
    ensures CountsAsLive(Mutate(m, r, now)) ==> CountsAsLive(r)
  {
  }

  lemma BackingLive(m: Mutation, r: Record, now: Time)
    requires Backs(m)
    ensures CountsAsLive(Mutate(m, r, now)) ==> CountsAsLive(r)
  {
  }

  lemma OtherLive(m: Mutation, r: Record, now: Time)
    requires !ClearsState(m) && !Watches(m) && !EndsLife(m) && !Backs(m) && !m.GrantProvision?
    requires m.MarkProvisioned? || m.MarkProvisionFailed? ==> r.claim.Provision?
    ensures CountsAsLive(Mutate(m, r, now)) ==> CountsAsLive(r)
  {
  }

  /** Only a provision grant makes a record count that did not. */
  lemma MutationLive(m: Mutation, r: Record, now: Time)
    requires !m.GrantProvision?
    requires m.MarkProvisioned? || m.MarkProvisionFailed? ==> r.claim.Provision?
    ensures CountsAsLive(Mutate(m, r, now)) ==> CountsAsLive(r)
  {
    if ClearsState(m) {
      ClearingLive(m, r, now);
    } else if Watches(m) {
      WatchingLive(m, r, now);
    } else if EndsLife(m) {
      EndingLive(m, r, now);
    } else if Backs(m) {
      BackingLive(m, r, now);
    } else {
      OtherLive(m, r, now);
    }
  }

  lemma LiveShrinks(records: map<string, Record>, records': map<string, Record>)
    requires forall k | k in records' && CountsAsLive(records'[k]) :: k in records && CountsAsLive(records[k])
    ensures LiveRunners(records') <= LiveRunners(records)
  {
    SubsetSize(LiveKeys(records'), LiveKeys(records));
  }

  /** Putting one record in place adds at most its key to the live ones. */
  lemma OneMoreLive(records: map<string, Record>, key: string, r': Record)
    requires key in records
    ensures LiveRunners(records[key := r']) <= LiveRunners(records) + 1
    ensures CountsAsLive(records[key]) || !CountsAsLive(r') ==> LiveRunners(records[key := r']) <= LiveRunners(records)
  {
    var live, live' := LiveKeys(records), LiveKeys(records[key := r']);
    assert live' <= live + {key};
    SubsetSize(live', live + {key});
    if CountsAsLive(records[key]) || !CountsAsLive(r') {
      assert live' <= live;
      SubsetSize(live', live);
    }
  }

  lemma ReservedCounts(r: Record, now: Time, maxAttempts: int)
    requires ReservedSlot(r)
    ensures CountsAsLive(Mutate(GrantProvision(maxAttempts), r, now)) ==> CountsAsLive(r)
  {
  }

  /** Admission keeps the code's own count within the limit. */
  lemma GrantLive(records: map<string, Record>, key: string, now: Time, limits: Limits)
    requires key in records && CanProvision(records, records[key], limits.maxLive)
    requires LiveRunners(records) <= limits.maxLive
    ensures LiveRunners(records[key := Mutate(GrantProvision(limits.maxAttempts), records[key], now)]) <= limits.maxLive
  {
    OneMoreLive(records, key, Mutate(GrantProvision(limits.maxAttempts), records[key], now));
    if ReservedSlot(records[key]) {
      ReservedCounts(records[key], now, limits.maxAttempts);
    }
  }

  lemma ChangeLive(s: State, key: string, m: Mutation, now: Time, ledger: Ledger, limits: Limits)
    requires Guard(s, Change(key, m, now), ledger, limits) && LiveRunners(s.records) <= limits.maxLive
    ensures LiveRunners(Update(s, key, m, now).records) <= limits.maxLive
  {
    if key in s.records {
      if m.GrantProvision? {
        GrantLive(s.records, key, now, limits);
      } else {
        MutationLive(m, s.records[key], now);
        LiveShrinks(s.records, s.records[key := Mutate(m, s.records[key], now)]);
      }
    }
  }

  lemma RegistrationLive(s: State, key: string, runnerID: int, name: string, now: Time, ledger: Ledger, limits: Limits)
    requires Guard(s, MarkJIT(key, runnerID, name, now), ledger, limits) && RecordsInv(s.records, limits.maxAttempts)
    ensures LiveRunners(MarkJITCreated(s, key, runnerID, name, now).records) <= LiveRunners(s.records)
  {
    if key in s.records {
      assert RecordInv(key, s.records[key], limits.maxAttempts);
      assert CountsAsLive(s.records[key]);
    }
    LiveShrinks(s.records, MarkJITCreated(s, key, runnerID, name, now).records);
  }

  lemma RecoveredLive(r: Record, now: Time, maxAttempts: int)
    requires LifecycleInv(false, r, maxAttempts) || LifecycleInv(true, r, maxAttempts)
    ensures CountsAsLive(Recovered(r, now)) ==> CountsAsLive(r)
  {
  }

  lemma RecoveryLive(records: map<string, Record>, now: Time, retention: nat, limits: Limits)
    requires RecordsInv(records, limits.maxAttempts)
    ensures LiveRunners(RecoverRecords(records, now, retention)) <= LiveRunners(records)
  {
    var records' := RecoverRecords(records, now, retention);
    forall k | k in records' && CountsAsLive(records'[k]) ensures k in records && CountsAsLive(records[k]) {
      assert RecordInv(k, records[k], limits.maxAttempts);
      RecoveredLive(records[k], now, limits.maxAttempts);
    }
    LiveShrinks(records, records');
  }

  lemma CreationLive(s: State, r: Record, now: Time)
    requires FreshEvent(r)
    ensures LiveRunners(Enqueued(s, r, now).records) <= LiveRunners(s.records)
  {
    assert !CountsAsLive(Created(r, now));
    LiveShrinks(s.records, Enqueued(s, r, now).records);
  }

  lemma SweepLive(records: map<string, Record>, provider: Cloud, cutoff: Time, now: Time)
    ensures LiveRunners(ReleaseSweptOrphans(records, provider, cutoff, now)) <= LiveRunners(records)
  {
    LiveShrinks(records, ReleaseSweptOrphans(records, provider, cutoff, now));
  }

  lemma NothingLive()
    ensures LiveRunners(map[]) == 0
  {
    assert LiveKeys(map[]) == {};
  }

  /** A completion that revives an orphan while every admission slot is taken. */
  predicate Overtakes(s: State, op: Op, maxLive: nat) {
    op.Complete? && Revived(s, op.completion) != {} && LiveRunners(s.records) == maxLive
  }

  /** From within the limit, the count passes it exactly by such a completion; every other step respects it. */
  lemma OnlyCompletionsPassLimit(s: State, op: Op, s': State, ledger: Ledger, limits: Limits)
    requires StoreInv(s, ledger, limits) && Guard(s, op, ledger, limits) && Step(s, op, s')
    requires LiveRunners(s.records) <= limits.maxLive
    ensures LiveRunners(s'.records) > limits.maxLive <==> Overtakes(s, op, limits.maxLive)
  {
    match op
    case Create(r, now) => CreationLive(s, r, now);
    case Complete(completion, now) => CompletionRaisesCount(s, completion, now, ledger, limits);
    case MarkJIT(key, runnerID, name, now) => RegistrationLive(s, key, runnerID, name, now, ledger, limits);
    case Change(key, m, now) => ChangeLive(s, key, m, now, ledger, limits);
    case SweepOrphans(provider, cutoff, now) => SweepLive(s.records, provider, cutoff, now);
    case Prune(cutoff) => LiveShrinks(s.records, PruneDeleted(s.records, cutoff));
    case Restart(now, retention) => RecoveryLive(s.records, now, retention, limits);
  }

  lemma StepPassesLimit(trace: seq<Moment>, ops: seq<Op>, limits: Limits, n: nat)
    requires |trace| == |ops| + 1 && n < |ops| && StepAt(trace, ops, limits, n)
    requires StoreInv(trace[n].state, trace[n].ledger, limits) && LiveRunners(trace[n].state.records) <= limits.maxLive
    ensures LiveRunners(trace[n + 1].state.records) > limits.maxLive
      <==> Overtakes(trace[n].state, ops[n], limits.maxLive)
  {
    assert RunStep(trace[n], ops[n], trace[n + 1], limits);
    OnlyCompletionsPassLimit(trace[n].state, ops[n], trace[n + 1].state, trace[n].ledger, limits);
  }

  ghost predicate PassesAt(trace: seq<Moment>, ops: seq<Op>, limits: Limits, n: nat)
    requires |trace| == |ops| + 1 && n < |ops|
  {
    LiveRunners(trace[n].state.records) <= limits.maxLive && Overtakes(trace[n].state, ops[n], limits.maxLive)
  }

  lemma RunPassesLimit(trace: seq<Moment>, ops: seq<Op>, limits: Limits, n: nat)
    requires IsRun(trace, ops, limits) && n < |ops|
    requires LiveRunners(trace[n].state.records) <= limits.maxLive < LiveRunners(trace[n + 1].state.records)
    ensures PassesAt(trace, ops, limits, n)
  {
    RunKeepsInvariant(trace, ops, limits, n);
    assert StepAt(trace, ops, limits, n);
    StepPassesLimit(trace, ops, limits, n);
  }

  lemma StartsEmpty(trace: seq<Moment>, ops: seq<Op>, limits: Limits)
    requires IsRun(trace, ops, limits)
    ensures LiveRunners(trace[0].state.records) == 0
  {
    NothingLive();
  }

  /** In every run the code's own count is within the limit until a completion revives an orphan at the limit. */
  lemma {:induction false} CountWithinLimitUntilOvertaken(trace: seq<Moment>, ops: seq<Op>, limits: Limits, j: nat)
    returns (n: nat)
    requires IsRun(trace, ops, limits) && j < |trace| && LiveRunners(trace[j].state.records) > limits.maxLive
    ensures n < j && PassesAt(trace, ops, limits, n)
  {
    StartsEmpty(trace, ops, limits);
    if LiveRunners(trace[j - 1].state.records) > limits.maxLive {
      n := CountWithinLimitUntilOvertaken(trace, ops, limits, j - 1);
    } else {
      RunPassesLimit(trace, ops, limits, j - 1);
      n := j - 1;
    }
  }

  // A run in which the count passes the limit of one

  function Abandoned(): Record {
    Registered(Claimed(1, 1, 2), 7, "eph-r", 3).(
      status := Orphaned, claim := NoWork, lastError := Cause("provider create outcome unknown"), updatedAt := 4)
  }

  /** Job 1: queued, claimed, registered as runner 7 and orphaned with that registration; job 2: queued and claimed. */
  function WitnessOps(): seq<Op> {
    [Create(Event(1, 0), 1),
     Change(FIRST, GrantProvision(5), 2),
     MarkJIT(FIRST, 7, "eph-r", 3),
     Change(FIRST, MarkOrphaned(Cause("provider create outcome unknown")), 4),
     Create(Event(2, 0), 5),
     Change(SECOND, GrantProvision(5), 6),
     Complete(Event(1, 7), 7)]
  }

  function WitnessRecords(i: nat): map<string, Record> {
    match i
    case 0 => map[]
    case 1 => map[FIRST := Queued(1, 1)]
    case 2 => map[FIRST := Claimed(1, 1, 2)]
    case 3 => map[FIRST := Registered(Claimed(1, 1, 2), 7, "eph-r", 3)]
    case 4 => map[FIRST := Abandoned()]
    case 5 => map[FIRST := Abandoned(), SECOND := Queued(2, 5)]
    case 6 => map[FIRST := Abandoned(), SECOND := Claimed(2, 5, 6)]
    case _ => map[FIRST := RunnerCompleted(Abandoned(), Event(1, 7), 7), SECOND := Claimed(2, 5, 6)]
  }

  function WitnessMoment(i: nat): Moment {
    Moment(State(WitnessRecords(i), if i < 3 then map[] else map[RUNNER := FIRST]), if i == 0 then map[] else ISSUED)
  }

  lemma WitnessQueueing()
    ensures RunStep(WitnessMoment(0), WitnessOps()[0], WitnessMoment(1), ONE_RUNNER)
    ensures RunStep(WitnessMoment(4), WitnessOps()[4], WitnessMoment(5), ONE_RUNNER)
  {
    ExampleNames();
  }

  lemma WitnessGrant(jobID: int, queuedAt: Time, now: Time)
    ensures Mutate(GrantProvision(5), Queued(jobID, queuedAt), now) == Claimed(jobID, queuedAt, now)
  {
  }

  /** A mutation of the only record is a step of the store. */
  lemma LoneChange(r: Record, index: map<string, string>, m: Mutation, now: Time, ledger: Ledger)
    requires !m.MarkProvisioned? && LedgerInv(ledger)
    requires Guard(State(map[FIRST := r], index), Change(FIRST, m, now), ledger, ONE_RUNNER)
    ensures RunStep(Moment(State(map[FIRST := r], index), ledger), Change(FIRST, m, now),
                    Moment(State(map[FIRST := Mutate(m, r, now)], index), ledger), ONE_RUNNER)
  {
    assert map[FIRST := r][FIRST := Mutate(m, r, now)] == map[FIRST := Mutate(m, r, now)];
  }

  lemma WitnessFirstClaim()
    ensures RunStep(WitnessMoment(1), WitnessOps()[1], WitnessMoment(2), ONE_RUNNER)
  {
    ExampleNames();
    WitnessGrant(1, 1, 2);
    assert LiveKeys(WitnessRecords(1)) == {};
    LoneChange(Queued(1, 1), map[], GrantProvision(5), 2, ISSUED);
  }

  lemma WitnessRegistration()
    ensures RunStep(WitnessMoment(2), WitnessOps()[2], WitnessMoment(3), ONE_RUNNER)
  {
    ExampleNames();
  }

  lemma WitnessAbandoned()
    ensures Mutate(MarkOrphaned(Cause("provider create outcome unknown")),
        Registered(Claimed(1, 1, 2), 7, "eph-r", 3), 4)
         == Abandoned()
  {
  }

  lemma WitnessOrphaning()
    ensures RunStep(WitnessMoment(3), WitnessOps()[3], WitnessMoment(4), ONE_RUNNER)
  {
    ExampleNames();
    WitnessAbandoned();
    LoneChange(Registered(Claimed(1, 1, 2), 7, "eph-r", 3), map[RUNNER := FIRST],
               MarkOrphaned(Cause("provider create outcome unknown")), 4, ISSUED);
  }

  lemma WitnessSecondAdmitted()
    ensures Guard(WitnessMoment(5).state, WitnessOps()[5], ISSUED, ONE_RUNNER)
  {
    ExampleNames();
    assert LiveKeys(WitnessRecords(5)) == {};
  }

  lemma WitnessSecondCommit()
    ensures Update(WitnessMoment(5).state, SECOND, GrantProvision(5), 6) == WitnessMoment(6).state
  {
    ExampleNames();
    WitnessGrant(2, 5, 6);
  }

  lemma WitnessSecondClaim()
    ensures RunStep(WitnessMoment(5), WitnessOps()[5], WitnessMoment(6), ONE_RUNNER)
  {
    ExampleNames();
    WitnessSecondAdmitted();
    WitnessSecondCommit();
  }

  lemma WitnessCompletion()
    ensures RunStep(WitnessMoment(6), WitnessOps()[6], WitnessMoment(7), ONE_RUNNER)
  {
    ExampleNames();
    var s := WitnessMoment(6).state;
    assert IndexedKey(s, Event(1, 7)) == FIRST;
    assert RunnerMatched(s, Event(1, 7));
  }

  function WitnessTrace(): seq<Moment> { seq(8, i requires 0 <= i < 8 => WitnessMoment(i)) }

  lemma WitnessRunStep(i: nat)
    requires i < 7
    ensures RunStep(WitnessMoment(i), WitnessOps()[i], WitnessMoment(i + 1), ONE_RUNNER)
  {
    if i == 0 || i == 4 {
      WitnessQueueing();
    } else if i == 1 {
      WitnessFirstClaim();
    } else if i == 2 {
      WitnessRegistration();
    } else if i == 3 {
      WitnessOrphaning();
    } else if i == 5 {
      WitnessSecondClaim();
    } else {
      WitnessCompletion();
    }
  }

  lemma WitnessStepAt(i: nat)
    requires i < 7
    ensures StepAt(WitnessTrace(), WitnessOps(), ONE_RUNNER, i)
  {
    WitnessRunStep(i);
    assert WitnessTrace()[i] == WitnessMoment(i) && WitnessTrace()[i + 1] == WitnessMoment(i + 1);
  }

  lemma WitnessIsRun()
    ensures IsRun(WitnessTrace(), WitnessOps(), ONE_RUNNER)
  {
    forall i: nat | i < |WitnessOps()| ensures StepAt(WitnessTrace(), WitnessOps(), ONE_RUNNER, i) {
      WitnessStepAt(i);
    }
  }

  /** A run of admitted steps after which the admission count is above the limit. */
  lemma CountCanPassLimit()
    ensures IsRun(WitnessTrace(), WitnessOps(), ONE_RUNNER)
    ensures LiveRunners(WitnessTrace()[7].state.records) == ONE_RUNNER.maxLive + 1
  {
    WitnessIsRun();
    ExampleNames();
    assert WitnessTrace()[7].state.records == WitnessRecords(7);
    assert LiveKeys(WitnessRecords(7)) == {FIRST, SECOND};
  }
}
