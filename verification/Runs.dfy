/**
 Whole runs of the store: what holds in every reachable state, and what holds between
 two moments of the same run.
 */
module Runs {
  import opened Names
  import opened Lifecycle
  import opened Store
  import opened Invariants
  import opened CompletionLaws
  import opened StoreInvariant

  /** The store together with the runner registrations GitHub has issued so far. */
  datatype Moment = Moment(state: State, ledger: Ledger)

  ghost predicate LedgerGrows(ledger: Ledger, ledger': Ledger) {
    && LedgerInv(ledger')
    && forall identity | identity in ledger :: identity in ledger' && ledger'[identity] == ledger[identity]
  }

  ghost predicate RunStep(m: Moment, op: Op, m': Moment, limits: Limits) {
    Guard(m.state, op, m.ledger, limits) && Step(m.state, op, m'.state) && LedgerGrows(m.ledger, m'.ledger)
  }

  /** The i-th step of a run, phrased so that it unfolds only where a RunStep is mentioned. */
  ghost predicate StepAt(trace: seq<Moment>, ops: seq<Op>, limits: Limits, i: nat)
    requires |trace| == |ops| + 1 && i < |ops|
  {
    forall m, m' {:trigger RunStep(m, ops[i], m', limits)} ::
      m == trace[i] && m' == trace[i + 1] ==> RunStep(m, ops[i], m', limits)
  }

  /** A run of the store from the empty state file. */
  ghost predicate IsRun(trace: seq<Moment>, ops: seq<Op>, limits: Limits) {
    && |trace| == |ops| + 1
    && trace[0] == Moment(State(map[], map[]), map[])
    && forall i | 0 <= i < |ops| :: StepAt(trace, ops, limits, i)
  }

  lemma RunStepKeeps(m: Moment, op: Op, m': Moment, limits: Limits)
    requires StoreInv(m.state, m.ledger, limits) && RunStep(m, op, m', limits)
    ensures StoreInv(m'.state, m'.ledger, limits)
  {
    StepKeeps(m.state, op, m'.state, m.ledger, limits);
    LedgerGrowthKeeps(m'.state, m.ledger, m'.ledger, limits);
  }

  lemma EmptyStoreHolds(limits: Limits)
    ensures StoreInv(State(map[], map[]), map[], limits)
  {
    assert Slots(map[]) == {};
  }

  lemma StepAtKeeps(trace: seq<Moment>, ops: seq<Op>, limits: Limits, i: nat)
    requires |trace| == |ops| + 1 && i < |ops| && StepAt(trace, ops, limits, i)
    requires StoreInv(trace[i].state, trace[i].ledger, limits)
    ensures StoreInv(trace[i + 1].state, trace[i + 1].ledger, limits)
  {
    assert RunStep(trace[i], ops[i], trace[i + 1], limits);
    RunStepKeeps(trace[i], ops[i], trace[i + 1], limits);
  }

  /** Every state of every run satisfies the store invariant. */
  lemma {:induction false} RunKeepsInvariant(trace: seq<Moment>, ops: seq<Op>, limits: Limits, i: nat)
    requires IsRun(trace, ops, limits) && i < |trace|
    ensures StoreInv(trace[i].state, trace[i].ledger, limits)
  {
    if i == 0 {
      EmptyStoreHolds(limits);
    } else {
      RunKeepsInvariant(trace, ops, limits, i - 1);
      StepAtKeeps(trace, ops, limits, i - 1);
    }
  }

  /** The fleet ceiling: instances held plus creations in flight never exceed the limit. */
  lemma FleetCeiling(trace: seq<Moment>, ops: seq<Op>, limits: Limits, i: nat)
    requires IsRun(trace, ops, limits) && i < |trace|
    ensures |set k | k in trace[i].state.records && HoldsSlot(trace[i].state.records[k])| <= limits.maxLive
  {
    RunKeepsInvariant(trace, ops, limits, i);
    assert Slots(trace[i].state.records)
        == set k | k in trace[i].state.records && HoldsSlot(trace[i].state.records[k]);
  }

  // What one step does to the record of one job

  predicate ClaimEnds(op: Op, k: string) {
    op.Restart? || (op.Change? && op.key == k && Releases(op.mutation))
  }

  predicate ClaimStarts(op: Op, k: string) {
    op.Change? && op.key == k && Grants(op.mutation)
  }

  predicate ClaimEvolves(op: Op, k: string, r: Record, r': Record) {
    || r'.claim == r.claim
    || (ClaimEnds(op, k) && r'.claim.NoWork?)
    || (ClaimStarts(op, k) && r.claim.NoWork?)
  }

  predicate ObservedBy(op: Op, k: string, r: Record, source: Source) {
    op.Change? && op.key == k && Observes(op.mutation, r, source)
  }

  predicate ResetBy(op: Op, k: string, r: Record, source: Source) {
    op.Change? && op.key == k && Resets(op.mutation, r, source)
  }

  predicate WindowSteps(op: Op, k: string, r: Record, r': Record, source: Source) {
    if ObservedBy(op, k, r, source) then
      && Checks(r', source) == Checks(r, source) + 1
      && Since(r', source) == if Since(r, source) == ZERO_TIME then op.now else Since(r, source)
    else if ResetBy(op, k, r, source) then Checks(r', source) == 0 && Since(r', source) == ZERO_TIME
    else Checks(r', source) == Checks(r, source) && Since(r', source) == Since(r, source)
  }

  predicate RecordSteps(op: Op, k: string, r: Record, r': Record) {
    && Follows(false, r, r') && ClaimEvolves(op, k, r, r')
    && WindowSteps(op, k, r, r', Provider) && WindowSteps(op, k, r, r', GitHub)
  }

  /** A step that is no mutation of the record, keeps its windows and does not start a claim. */
  lemma QuietSteps(op: Op, k: string, r: Record, r': Record)
    requires !(op.Change? && op.key == k)
    requires Follows(false, r, r') && WindowsKept(r, r')
    requires r'.claim == r.claim || (op.Restart? && r'.claim.NoWork?)
    ensures RecordSteps(op, k, r, r')
  {
  }

  lemma FollowsItself(r: Record)
    ensures Follows(false, r, r) && WindowsKept(r, r)
  {
  }

  lemma ChangeSteps(s: State, op: Op, ledger: Ledger, limits: Limits, k: string)
    requires StoreInv(s, ledger, limits) && Guard(s, op, ledger, limits)
    requires op.Change? && op.key == k && k in s.records && !IsMarkerKey(k)
    ensures RecordSteps(op, k, s.records[k], Mutate(op.mutation, s.records[k], op.now))
  {
    assert RecordInv(k, s.records[k], limits.maxAttempts);
    MutationFollows(false, op.mutation, s.records[k], op.now, limits.maxAttempts);
  }

  lemma RunnerPhaseSteps(s: State, completion: Record, now: Time, ledger: Ledger, limits: Limits, k: string)
    requires StoreInv(s, ledger, limits) && FreshEvent(completion)
    requires k in s.records && !IsMarkerKey(k)
    ensures k in RunnerPhase(s, completion, now)
    ensures var r' := RunnerPhase(s, completion, now)[k];
      && LifecycleInv(false, r', limits.maxAttempts) && Passive(false, s.records[k], r')
      && r'.claim == s.records[k].claim
  {
    var r := s.records[k];
    assert RecordInv(k, r, limits.maxAttempts);
    if RunnerMatched(s, completion) && IndexedKey(s, completion) == k {
      RunnerCompletedPassive(false, r, completion, now, limits.maxAttempts);
    } else {
      MarkerKeyInjective(completion.job.owner, completion.job.repository, completion.runnerID, "", "", 0);
      assert RunnerPhase(s, completion, now)[k] == r;
      PassiveItself(r);
    }
  }

  lemma PassiveItself(r: Record)
    ensures Passive(false, r, r)
  {
  }

  lemma PassiveTwice(r: Record, r': Record, r'': Record)
    requires Passive(false, r, r') && Passive(false, r', r'')
    ensures Passive(false, r, r'')
  {
  }

  lemma CompletionPassive(s: State, completion: Record, now: Time, ledger: Ledger, limits: Limits, k: string)
    requires StoreInv(s, ledger, limits) && FreshEvent(completion)
    requires k in s.records && !IsMarkerKey(k)
    ensures k in RecordCompletion(s, completion, now).records
    ensures var r' := RecordCompletion(s, completion, now).records[k];
      Passive(false, s.records[k], r') && r'.claim == s.records[k].claim
  {
    var middle := RunnerPhase(s, completion, now);
    RunnerPhaseSteps(s, completion, now, ledger, limits, k);
    if k == completion.job.key {
      JobCompletedOnPassive(false, middle[k], completion, now, limits.maxAttempts);
      PassiveTwice(s.records[k], middle[k], JobCompletedOn(middle[k], completion, now));
    }
  }

  lemma CompleteSteps(s: State, op: Op, ledger: Ledger, limits: Limits, k: string)
    requires StoreInv(s, ledger, limits) && op.Complete? && FreshEvent(op.completion)
    requires k in s.records && !IsMarkerKey(k)
    ensures k in RecordCompletion(s, op.completion, op.now).records
    ensures RecordSteps(op, k, s.records[k], RecordCompletion(s, op.completion, op.now).records[k])
  {
    CompletionPassive(s, op.completion, op.now, ledger, limits, k);
    QuietSteps(op, k, s.records[k], RecordCompletion(s, op.completion, op.now).records[k]);
  }

  lemma RegisteredSteps(s: State, op: Op, ledger: Ledger, limits: Limits)
    requires StoreInv(s, ledger, limits) && Guard(s, op, ledger, limits)
    requires op.MarkJIT? && op.key in s.records && !s.records[op.key].Terminal()
    ensures RecordSteps(op, op.key, s.records[op.key], Apply(s, op).records[op.key])
  {
    var r := s.records[op.key];
    assert RecordInv(op.key, r, limits.maxAttempts);
    var marker := if MarkerWaiting(s.records, r, op.runnerID)
      then s.records[MarkerKey(r.job.owner, r.job.repository, op.runnerID)] else r;
    RegistrationKeeps(r, op.runnerID, op.runnerName, marker, op.now, limits.maxAttempts);
    QuietSteps(op, op.key, r, Apply(s, op).records[op.key]);
  }

  lemma RegistrationLeavesOthers(s: State, op: Op, k: string)
    requires op.MarkJIT? && k in s.records && !IsMarkerKey(k) && k != op.key
    ensures k in Apply(s, op).records && Apply(s, op).records[k] == s.records[k]
  {
    if op.key in s.records {
      MarkerKeyInjective(s.records[op.key].job.owner, s.records[op.key].job.repository, op.runnerID, "", "", 0);
    }
  }

  lemma MarkJITSteps(s: State, op: Op, ledger: Ledger, limits: Limits, k: string)
    requires StoreInv(s, ledger, limits) && Guard(s, op, ledger, limits)
    requires op.MarkJIT? && k in s.records && !IsMarkerKey(k)
    ensures k in Apply(s, op).records
    ensures RecordSteps(op, k, s.records[k], Apply(s, op).records[k])
  {
    if op.key == k && !s.records[k].Terminal() {
      RegisteredSteps(s, op, ledger, limits);
    } else {
      if op.key != k {
        RegistrationLeavesOthers(s, op, k);
      }
      FollowsItself(s.records[k]);
      QuietSteps(op, k, s.records[k], s.records[k]);
    }
  }

  lemma RestartSteps(s: State, op: Op, s': State, ledger: Ledger, limits: Limits, k: string)
    requires StoreInv(s, ledger, limits) && op.Restart? && Step(s, op, s')
    requires k in s'.records && !IsMarkerKey(k)
    ensures k in s.records && RecordSteps(op, k, s.records[k], s'.records[k])
  {
    RecoverKeeps(s.records, op.now, op.retention, limits, k);
    QuietSteps(op, k, s.records[k], s'.records[k]);
  }

  /** A job record leaves the store only by pruning or recovery; every other step evolves it. */
  lemma StepOnRecord(s: State, op: Op, s': State, ledger: Ledger, limits: Limits, k: string)
    requires StoreInv(s, ledger, limits) && Guard(s, op, ledger, limits) && Step(s, op, s')
    requires k in s.records && !IsMarkerKey(k)
    ensures k !in s'.records ==> op.Prune? || op.Restart?
    ensures k in s'.records ==> RecordSteps(op, k, s.records[k], s'.records[k])
  {
    if op.Restart? {
      if k in s'.records {
        RestartSteps(s, op, s', ledger, limits, k);
      }
    } else if op.Complete? {
      CompleteSteps(s, op, ledger, limits, k);
    } else if op.MarkJIT? {
      MarkJITSteps(s, op, ledger, limits, k);
    } else if op.Change? && op.key == k {
      ChangeSteps(s, op, ledger, limits, k);
    } else {
      OtherSteps(s, op, ledger, limits, k);
    }
  }

  lemma OtherSteps(s: State, op: Op, ledger: Ledger, limits: Limits, k: string)
    requires StoreInv(s, ledger, limits) && k in s.records && !IsMarkerKey(k)
    requires op.Create? || op.SweepOrphans? || op.Prune? || (op.Change? && op.key != k)
    ensures k !in Apply(s, op).records ==> op.Prune?
    ensures k in Apply(s, op).records ==> RecordSteps(op, k, s.records[k], Apply(s, op).records[k])
  {
    var r := s.records[k];
    FollowsItself(r);
    if op.SweepOrphans? && Sweepable(r, op.provider, op.cutoff) {
      assert RecordInv(k, r, limits.maxAttempts);
      SweptKeeps(false, r, op.now, limits.maxAttempts);
      QuietSteps(op, k, r, r.(instanceID := NoInstance, updatedAt := op.now));
    } else {
      QuietSteps(op, k, r, r);
    }
  }
}
