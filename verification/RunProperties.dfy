/**
 The store's promises over time: exclusive claims, final completions, runner ownership
 that survives restarts, debounced absence, and no record left behind.
 */
module RunProperties {
  import opened Names
  import opened Lifecycle
  import opened Store
  import opened Invariants
  import opened StoreInvariant
  import opened Runs
  import opened Budgets

  // Claims

  ghost predicate LeavesAt(trace: seq<Moment>, k: string, n: nat)
    requires n + 1 < |trace|
  {
    k in trace[n].state.records && k !in trace[n + 1].state.records
  }

  /** The step hands the record of k to a worker. */
  ghost predicate GrantedAt(trace: seq<Moment>, ops: seq<Op>, k: string, n: nat)
    requires |trace| == |ops| + 1 && n < |ops|
  {
    && ClaimStarts(ops[n], k)
    && k in trace[n].state.records && trace[n].state.records[k].claim.NoWork?
    && k in trace[n + 1].state.records && !trace[n + 1].state.records[k].claim.NoWork?
  }

  /** The step ends a claim that was held on k, by releasing it or by opening the store again. */
  ghost predicate ReleasedAt(trace: seq<Moment>, ops: seq<Op>, k: string, n: nat)
    requires |trace| == |ops| + 1 && n < |ops|
  {
    && ClaimEnds(ops[n], k)
    && k in trace[n].state.records && !trace[n].state.records[k].claim.NoWork?
    && k in trace[n + 1].state.records && trace[n + 1].state.records[k].claim.NoWork?
  }

  ghost predicate EndsAt(trace: seq<Moment>, ops: seq<Op>, k: string, n: nat)
    requires |trace| == |ops| + 1 && n < |ops|
  {
    ReleasedAt(trace, ops, k, n) || LeavesAt(trace, k, n)
  }

  lemma RunStepOnRecord(trace: seq<Moment>, ops: seq<Op>, limits: Limits, k: string, n: nat)
    requires IsRun(trace, ops, limits) && n < |ops|
    requires k in trace[n].state.records && !IsMarkerKey(k)
    ensures k in trace[n + 1].state.records ==>
      RecordSteps(ops[n], k, trace[n].state.records[k], trace[n + 1].state.records[k])
    ensures k !in trace[n + 1].state.records ==> ops[n].Prune? || ops[n].Restart?
  {
    RunKeepsInvariant(trace, ops, limits, n);
    StepAtOnRecord(trace, ops, limits, k, n);
  }

  lemma StepAtOnRecord(trace: seq<Moment>, ops: seq<Op>, limits: Limits, k: string, n: nat)
    requires |trace| == |ops| + 1 && n < |ops| && StepAt(trace, ops, limits, n)
    requires StoreInv(trace[n].state, trace[n].ledger, limits)
    requires k in trace[n].state.records && !IsMarkerKey(k)
    ensures k in trace[n + 1].state.records ==>
      RecordSteps(ops[n], k, trace[n].state.records[k], trace[n + 1].state.records[k])
    ensures k !in trace[n + 1].state.records ==> ops[n].Prune? || ops[n].Restart?
  {
    var m, op, m' := trace[n], ops[n], trace[n + 1];
    assert RunStep(m, op, m', limits);
    StepOnRecord(m.state, op, m'.state, m.ledger, limits, k);
  }

  lemma {:induction false} ClaimHeldUntilEnded(trace: seq<Moment>, ops: seq<Op>, limits: Limits, k: string, i: nat,
                                        j: nat)
    requires IsRun(trace, ops, limits) && i <= j <= |ops| && !IsMarkerKey(k)
    requires k in trace[i].state.records && !trace[i].state.records[k].claim.NoWork?
    requires forall n | i <= n < j :: !EndsAt(trace, ops, k, n)
    ensures k in trace[j].state.records && !trace[j].state.records[k].claim.NoWork?
  {
    if i < j {
      ClaimHeldUntilEnded(trace, ops, limits, k, i, j - 1);
      assert !EndsAt(trace, ops, k, j - 1);
      RunStepOnRecord(trace, ops, limits, k, j - 1);
    }
  }

  /** Between two grants of the same record its claim was held and ended, or the record left the store. */
  lemma ExclusiveClaims(trace: seq<Moment>, ops: seq<Op>, limits: Limits, k: string, i: nat, j: nat)
    requires IsRun(trace, ops, limits) && i < j < |ops| && !IsMarkerKey(k)
    requires GrantedAt(trace, ops, k, i) && GrantedAt(trace, ops, k, j)
    ensures exists n | i < n < j :: EndsAt(trace, ops, k, n)
  {
    if forall n | i < n < j :: !EndsAt(trace, ops, k, n) {
      ClaimHeldUntilEnded(trace, ops, limits, k, i + 1, j);
    }
  }

  // Completion and deletion are final

  /** Once a job is known completed, or its record deleted, it stays so until the record is pruned. */
  lemma {:induction false} CompletionIsFinal(trace: seq<Moment>, ops: seq<Op>, limits: Limits, k: string, i: nat,
                                        j: nat)
    requires IsRun(trace, ops, limits) && i <= j < |trace| && !IsMarkerKey(k)
    requires forall n | i <= n <= j :: k in trace[n].state.records
    ensures trace[i].state.records[k].jobCompleted ==>
      trace[j].state.records[k].jobCompleted && !trace[j].state.records[k].recheckDemand
    ensures trace[i].state.records[k].status.Deleted? ==> trace[j].state.records[k].status.Deleted?
    ensures trace[i].state.records[k].epoch <= trace[j].state.records[k].epoch
  {
    if i < j {
      CompletionIsFinal(trace, ops, limits, k, i, j - 1);
      RunStepOnRecord(trace, ops, limits, k, j - 1);
    }
    NeverRecheckedOnceCompleted(trace, ops, limits, k, j);
  }

  lemma NeverRecheckedOnceCompleted(trace: seq<Moment>, ops: seq<Op>, limits: Limits, k: string, i: nat)
    requires IsRun(trace, ops, limits) && i < |trace| && k in trace[i].state.records
    ensures !(trace[i].state.records[k].jobCompleted && trace[i].state.records[k].recheckDemand)
  {
    RunKeepsInvariant(trace, ops, limits, i);
    assert RecordInv(k, trace[i].state.records[k], limits.maxAttempts);
  }

  // Runner ownership

  /** The indexed answer is the answer of a search over all records. */
  lemma OwnsRunnerIsScan(s: State, ledger: Ledger, limits: Limits, owner: string, repository: string, runnerID: int)
    requires StoreInv(s, ledger, limits)
    ensures OwnsRunner(s, owner, repository, runnerID) <==> SomeRecordOwns(s.records, owner, repository, runnerID)
  {
    var identity := RunnerIdentity(owner, repository, runnerID);
    if OwnsRunner(s, owner, repository, runnerID) {
      var k := s.runnerKeys[identity];
      var r := s.records[k];
      assert RecordInv(k, r, limits.maxAttempts);
      assert IssuedTo(ledger, identity, k) && IssueBound(identity, ledger[identity]);
      JobKeyOfInjective(ledger[identity].fullName, ledger[identity].jobID, FullName(r.job.owner, r.job.repository),
          r.job.jobID);
      IdentityOfInjective(ledger[identity].fullName, ledger[identity].runnerID, FullName(owner, repository), runnerID);
      assert r.Identity() == identity;
    }
    if SomeRecordOwns(s.records, owner, repository, runnerID) {
      var k :| k in s.records && !IsMarkerKey(k) && !s.records[k].status.Deleted? && s.records[k].runnerOwned
               && s.records[k].Identity() == identity;
      var r := s.records[k];
      assert RecordInv(k, r, limits.maxAttempts);
      IdentityOfInjective(FullName(r.job.owner, r.job.repository), r.runnerID, FullName(owner, repository), runnerID);
      assert IssuedTo(ledger, identity, k) && IssuedTo(ledger, identity, s.runnerKeys[identity]);
    }
  }

  /** Restarting, which rebuilds the index, changes no answer. */
  lemma RestartKeepsOwnership(s: State, now: Time, retention: nat, s': State, ledger: Ledger, limits: Limits,
                              owner: string, repository: string, runnerID: int)
    requires StoreInv(s, ledger, limits) && Step(s, Restart(now, retention), s')
    ensures OwnsRunner(s', owner, repository, runnerID) <==> OwnsRunner(s, owner, repository, runnerID)
  {
    RestartKeeps(s, now, retention, s', ledger, limits);
    OwnsRunnerIsScan(s, ledger, limits, owner, repository, runnerID);
    OwnsRunnerIsScan(s', ledger, limits, owner, repository, runnerID);
    RecoveryKeepsOwners(s.records, now, retention, owner, repository, runnerID);
  }

  lemma RecoveryKeepsOwner(r: Record, now: Time, retention: nat)
    ensures !r.status.Deleted? ==> RecoverRecord(r, now, retention).Keep?
    ensures RecoverRecord(r, now, retention).Keep? ==>
      var r' := RecoverRecord(r, now, retention).record;
      && (r'.status.Deleted? <==> r.status.Deleted?) && r'.runnerOwned == r.runnerOwned
      && r'.job.owner == r.job.owner && r'.job.repository == r.job.repository && r'.runnerID == r.runnerID
  {
  }

  lemma RecoveryKeepsOwners(records: map<string, Record>, now: Time, retention: nat,
                            owner: string, repository: string, runnerID: int)
    ensures SomeRecordOwns(RecoverRecords(records, now, retention), owner, repository, runnerID)
       <==> SomeRecordOwns(records, owner, repository, runnerID)
  {
    var records' := RecoverRecords(records, now, retention);
    forall k | k in records
      ensures !records[k].status.Deleted? ==> k in records'
      ensures k in records' ==>
        && (records'[k].status.Deleted? <==> records[k].status.Deleted?)
        && records'[k].runnerOwned == records[k].runnerOwned && records'[k].Identity() == records[k].Identity()
    {
      RecoveryKeepsOwner(records[k], now, retention);
    }
  }

  // Debounced absence

  /** The times of the absence observations of one source since its last reset, at moment i. */
  ghost function ObservationTimes(trace: seq<Moment>, ops: seq<Op>, k: string, source: Source, i: nat): seq<Time>
    requires |trace| == |ops| + 1 && i < |trace|
  {
    if i == 0 || k !in trace[i - 1].state.records || k !in trace[i].state.records then []
    else
      var r := trace[i - 1].state.records[k];
      if ObservedBy(ops[i - 1], k, r, source) then ObservationTimes(trace, ops, k, source, i - 1) + [ops[i - 1].now]
      else if ResetBy(ops[i - 1], k, r, source) then []
      else ObservationTimes(trace, ops, k, source, i - 1)
  }

  /** A record new to the store has seen no absence. */
  lemma NewRecordUnobserved(s: State, op: Op, s': State, ledger: Ledger, limits: Limits, k: string)
    requires StoreInv(s, ledger, limits) && Guard(s, op, ledger, limits) && Step(s, op, s')
    requires k !in s.records && k in s'.records && !IsMarkerKey(k)
    ensures s'.records[k].missingChecks == 0 && s'.records[k].missingSince == ZERO_TIME
    ensures s'.records[k].githubMissingChecks == 0 && s'.records[k].githubMissingSince == ZERO_TIME
  {
    if op.Complete? {
      var completion := op.completion;
      MarkerKeyInjective(completion.job.owner, completion.job.repository, completion.runnerID, "", "", 0);
      assert k !in RunnerPhase(s, completion, op.now);
    }
  }

  predicate WindowMatches(r: Record, source: Source, times: seq<Time>) {
    && Checks(r, source) == |times|
    && Since(r, source) == (if times == [] then ZERO_TIME else times[0])
  }

  lemma FirstSightUnobserved(trace: seq<Moment>, ops: seq<Op>, limits: Limits, k: string, source: Source, i: nat)
    requires IsRun(trace, ops, limits) && i < |ops|
    requires k !in trace[i].state.records && k in trace[i + 1].state.records && !IsMarkerKey(k)
    ensures WindowMatches(trace[i + 1].state.records[k], source, [])
  {
    RunKeepsInvariant(trace, ops, limits, i);
    var m, op, m' := trace[i], ops[i], trace[i + 1];
    assert StepAt(trace, ops, limits, i) && RunStep(m, op, m', limits);
    NewRecordUnobserved(m.state, op, m'.state, m.ledger, limits, k);
  }

  lemma WindowStepMatches(op: Op, k: string, r: Record, r': Record, source: Source, times: seq<Time>)
    requires RecordSteps(op, k, r, r') && WindowMatches(r, source, times)
    requires WindowConsistent(Since(r, source), Checks(r, source))
    ensures WindowMatches(r', source, if ObservedBy(op, k, r, source) then times + [op.now]
                                      else if ResetBy(op, k, r, source) then [] else times)
  {
  }

  /** The stored window is the history of observations since the last reset. */
  lemma {:induction false} WindowIsHistory(trace: seq<Moment>, ops: seq<Op>, limits: Limits, k: string,
                                        source: Source, i: nat)
    requires IsRun(trace, ops, limits) && i < |trace|
    requires k in trace[i].state.records && !IsMarkerKey(k)
    ensures WindowMatches(trace[i].state.records[k], source, ObservationTimes(trace, ops, k, source, i))
  {
    if k in trace[i - 1].state.records {
      WindowIsHistory(trace, ops, limits, k, source, i - 1);
      RunStepOnRecord(trace, ops, limits, k, i - 1);
      WindowOpensOnce(trace, ops, limits, k, i - 1);
      WindowStepMatches(ops[i - 1], k, trace[i - 1].state.records[k], trace[i].state.records[k], source,
                        ObservationTimes(trace, ops, k, source, i - 1));
    } else {
      FirstSightUnobserved(trace, ops, limits, k, source, i - 1);
    }
  }

  /** A window that has counted an observation has a start, and observations carry real clock readings. */
  lemma WindowOpensOnce(trace: seq<Moment>, ops: seq<Op>, limits: Limits, k: string, i: nat)
    requires IsRun(trace, ops, limits) && i < |ops| && k in trace[i].state.records
    ensures WindowConsistent(trace[i].state.records[k].missingSince, trace[i].state.records[k].missingChecks)
    ensures WindowConsistent(trace[i].state.records[k].githubMissingSince,
        trace[i].state.records[k].githubMissingChecks)
  {
    RunKeepsInvariant(trace, ops, limits, i);
    assert RecordInv(k, trace[i].state.records[k], limits.maxAttempts);
  }

  /** What ObserveRunnerMissing and its GitHub counterpart answer after recording the observation. */
  predicate AbsenceConfirmed(r: Record, source: Source, now: Time, settle: nat, confirmations: int) {
    Checks(r, source) >= confirmations && Since(r, source) + settle <= now
  }

  /**
   Absence is confirmed exactly when enough observations of this source were made since its
   last reset and the first of them is old enough. Observations of the other source never count.
   */
  lemma DebounceOverRuns(trace: seq<Moment>, ops: seq<Op>, limits: Limits, k: string, source: Source, i: nat,
                         settle: nat, confirmations: int)
    requires IsRun(trace, ops, limits) && i < |ops| && !IsMarkerKey(k)
    requires k in trace[i].state.records && k in trace[i + 1].state.records
    requires ObservedBy(ops[i], k, trace[i].state.records[k], source)
    ensures var times := ObservationTimes(trace, ops, k, source, i) + [ops[i].now];
      AbsenceConfirmed(trace[i + 1].state.records[k], source, ops[i].now, settle, confirmations)
      <==> |times| >= confirmations && times[0] + settle <= ops[i].now
  {
    WindowIsHistory(trace, ops, limits, k, source, i + 1);
  }

  lemma ChargesNeverProvision(m: Mutation, r: Record, now: Time)
    requires m.GrantProvision? || m.GrantDelete? || m.BeginCleanupAttempt? || m.ExhaustProvisioning?
      || m.ExhaustDeletion?
    requires !r.status.Provisioned?
    ensures !Mutate(m, r, now).status.Provisioned?
  {
  }

  lemma ReleasesNeverProvision(m: Mutation, r: Record, now: Time)
    requires m.ReleaseClaim? || m.DeferRateLimitedWork? || m.DeferProvisioningDemand?
    requires !r.status.Provisioned?
    ensures !Mutate(m, r, now).status.Provisioned?
  {
  }

  lemma DeletionsNeverProvision(m: Mutation, r: Record, now: Time)
    requires m.DeferDeletionConfirmation? || m.DeferReassignmentDemand? || m.DeferRateLimitedCleanup?
      || m.ClearRunnerMissing? || m.FinishDeletedRunner?
    requires !r.status.Provisioned?
    ensures !Mutate(m, r, now).status.Provisioned?
  {
  }

  lemma CountersNeverProvision(m: Mutation, r: Record, now: Time)
    requires Moves(m) && !r.status.Provisioned?
    ensures !Mutate(m, r, now).status.Provisioned?
  {
    if m.ReleaseClaim? || m.DeferRateLimitedWork? || m.DeferProvisioningDemand? {
      ReleasesNeverProvision(m, r, now);
    } else if m.GrantProvision? || m.GrantDelete? || m.BeginCleanupAttempt? || m.ExhaustProvisioning?
      || m.ExhaustDeletion?
    {
      ChargesNeverProvision(m, r, now);
    } else {
      DeletionsNeverProvision(m, r, now);
    }
  }

  lemma ObservationsNeverProvision(m: Mutation, r: Record, now: Time)
    requires !Moves(m) && !Settles(m) && !r.status.Provisioned?
    ensures !Mutate(m, r, now).status.Provisioned?
  {
  }

  /** Only a provisioning outcome makes a record Provisioned. */
  lemma EntersByOutcome(m: Mutation, r: Record, now: Time)
    requires !r.status.Provisioned? && Mutate(m, r, now).status.Provisioned?
    ensures m.MarkProvisioned?
  {
    if Moves(m) {
      CountersNeverProvision(m, r, now);
    } else if !Settles(m) {
      ObservationsNeverProvision(m, r, now);
    }
  }

  lemma CompletionsNeverProvision(s: State, completion: Record, now: Time, k: string)
    requires k in s.records && !IsMarkerKey(k) && !s.records[k].status.Provisioned?
    ensures k in RecordCompletion(s, completion, now).records
    ensures !RecordCompletion(s, completion, now).records[k].status.Provisioned?
  {
    MarkerKeyInjective(completion.job.owner, completion.job.repository, completion.runnerID, "", "", 0);
  }

  lemma RegistrationsNeverProvision(s: State, key: string, runnerID: int, name: string, now: Time, k: string)
    requires k in s.records && !IsMarkerKey(k) && !s.records[k].status.Provisioned?
    ensures k in MarkJITCreated(s, key, runnerID, name, now).records
    ensures !MarkJITCreated(s, key, runnerID, name, now).records[k].status.Provisioned?
  {
    if key in s.records {
      MarkerKeyInjective(s.records[key].job.owner, s.records[key].job.repository, runnerID, "", "", 0);
    }
  }

  lemma OthersNeverEnter(s: State, op: Op, s': State, k: string)
    requires Step(s, op, s') && !(op.Change? && op.key == k) && !IsMarkerKey(k)
    requires k in s.records && !s.records[k].status.Provisioned? && k in s'.records
    ensures !s'.records[k].status.Provisioned?
  {
    if op.Complete? {
      CompletionsNeverProvision(s, op.completion, op.now, k);
    } else if op.MarkJIT? {
      RegistrationsNeverProvision(s, op.key, op.runnerID, op.runnerName, op.now, k);
    }
  }

  lemma EntersUnobserved(s: State, op: Op, s': State, ledger: Ledger, limits: Limits, k: string)
    requires StoreInv(s, ledger, limits) && Guard(s, op, ledger, limits) && Step(s, op, s') && !IsMarkerKey(k)
    requires k in s.records && !s.records[k].status.Provisioned?
    requires k in s'.records && s'.records[k].status.Provisioned?
    ensures Unobserved(s'.records[k])
  {
    var r := s.records[k];
    assert RecordInv(k, r, limits.maxAttempts);
    StepOnRecord(s, op, s', ledger, limits, k);
    if op.Change? && op.key == k {
      EntersByOutcome(op.mutation, r, op.now);
    } else {
      OthersNeverEnter(s, op, s', k);
      assert false;
    }
  }

  /** No absence counted, from either source. */
  predicate Unobserved(r: Record) {
    forall source: Source :: Checks(r, source) == 0 && Since(r, source) == ZERO_TIME
  }

  lemma EntersUnobservedAt(trace: seq<Moment>, ops: seq<Op>, limits: Limits, k: string, n: nat)
    requires |trace| == |ops| + 1 && n < |ops| && StepAt(trace, ops, limits, n) && !IsMarkerKey(k)
    requires StoreInv(trace[n].state, trace[n].ledger, limits)
    requires k in trace[n].state.records ==> !trace[n].state.records[k].status.Provisioned?
    requires k in trace[n + 1].state.records && trace[n + 1].state.records[k].status.Provisioned?
    ensures Unobserved(trace[n + 1].state.records[k])
  {
    var m, op, m' := trace[n], ops[n], trace[n + 1];
    assert RunStep(m, op, m', limits);
    if k in m.state.records {
      EntersUnobserved(m.state, op, m'.state, m.ledger, limits, k);
    } else {
      NewRecordUnobserved(m.state, op, m'.state, m.ledger, limits, k);
    }
  }

  /**
   Whenever a record becomes Provisioned, for the first time or again, nothing observed before counts:
   both windows are empty, and so are both histories of observations.
   */
  lemma ProvisionedUnobserved(trace: seq<Moment>, ops: seq<Op>, limits: Limits, k: string, source: Source, n: nat)
    requires IsRun(trace, ops, limits) && n < |ops| && !IsMarkerKey(k)
    requires k in trace[n].state.records ==> !trace[n].state.records[k].status.Provisioned?
    requires k in trace[n + 1].state.records && trace[n + 1].state.records[k].status.Provisioned?
    ensures Unobserved(trace[n + 1].state.records[k])
    ensures ObservationTimes(trace, ops, k, source, n + 1) == []
  {
    RunKeepsInvariant(trace, ops, limits, n);
    EntersUnobservedAt(trace, ops, limits, k, n);
    WindowIsHistory(trace, ops, limits, k, source, n + 1);
  }

  // Instances over an epoch

  /** A settled record is given no other instance before its epoch ends. */
  lemma {:induction false} InstancePersists(trace: seq<Moment>, ops: seq<Op>, limits: Limits, k: string, i: nat, j: nat)
    requires IsRun(trace, ops, limits) && i <= j < |trace| && !IsMarkerKey(k)
    requires forall n | i <= n <= j :: k in trace[n].state.records
    requires Settled(trace[i].state.records[k])
    requires trace[j].state.records[k].epoch == trace[i].state.records[k].epoch
    ensures var r, r' := trace[i].state.records[k], trace[j].state.records[k];
      r'.instanceID == r.instanceID || r'.instanceID.NoInstance?
  {
    if i < j {
      EpochsGrow(trace, ops, limits, k, i, j - 1);
      EpochsGrow(trace, ops, limits, k, j - 1, j);
      SettledPersists(trace, ops, limits, k, i, j - 1);
      InstancePersists(trace, ops, limits, k, i, j - 1);
      RunStepOnRecord(trace, ops, limits, k, j - 1);
    }
  }

  lemma HoldingIsSettled(trace: seq<Moment>, ops: seq<Op>, limits: Limits, k: string, i: nat)
    requires IsRun(trace, ops, limits) && i < |trace| && k in trace[i].state.records
    requires !trace[i].state.records[k].instanceID.NoInstance?
    ensures Settled(trace[i].state.records[k])
  {
    RunKeepsInvariant(trace, ops, limits, i);
    assert RecordInv(k, trace[i].state.records[k], limits.maxAttempts);
  }

  /**
   A sweep's release judges records at the release. The instance it releases at j was among those the
   record made known when instances were listed at i, and so spared by the sweep, exactly if the record
   held an instance at i and was not terminal then; whatever instance it held is the released one.
   */
  lemma ReleasedWasKnown(trace: seq<Moment>, ops: seq<Op>, limits: Limits, k: string, i: nat, j: nat,
                         provider: Cloud, cutoff: Time)
    requires IsRun(trace, ops, limits) && i <= j < |trace| && !IsMarkerKey(k)
    requires forall n | i <= n <= j :: k in trace[n].state.records
    requires trace[j].state.records[k].epoch == trace[i].state.records[k].epoch
    requires Sweepable(trace[j].state.records[k], provider, cutoff)
    ensures var listed, released := trace[i].state.records[k], trace[j].state.records[k];
      && (Knows(listed) && listed.instanceID == released.instanceID
          <==> !listed.instanceID.NoInstance? && !listed.Terminal())
      && (!listed.instanceID.NoInstance? ==> listed.instanceID == released.instanceID)
  {
    if !trace[i].state.records[k].instanceID.NoInstance? {
      HoldingIsSettled(trace, ops, limits, k, i);
      InstancePersists(trace, ops, limits, k, i, j);
    }
  }

  // Accepted deletions

  lemma {:induction false} EpochsGrow(trace: seq<Moment>, ops: seq<Op>, limits: Limits, k: string, i: nat, j: nat)
    requires IsRun(trace, ops, limits) && i <= j < |trace| && !IsMarkerKey(k)
    requires forall n | i <= n <= j :: k in trace[n].state.records
    ensures trace[i].state.records[k].epoch <= trace[j].state.records[k].epoch
  {
    if i < j {
      EpochsGrow(trace, ops, limits, k, i, j - 1);
      RunStepOnRecord(trace, ops, limits, k, j - 1);
    }
  }

  /** Provisioning that is over stays over for as long as the epoch lasts. */
  lemma {:induction false} SettledPersists(trace: seq<Moment>, ops: seq<Op>, limits: Limits, k: string, i: nat, j: nat)
    requires IsRun(trace, ops, limits) && i <= j < |trace| && !IsMarkerKey(k)
    requires forall n | i <= n <= j :: k in trace[n].state.records
    requires Settled(trace[i].state.records[k])
    requires trace[j].state.records[k].epoch == trace[i].state.records[k].epoch
    ensures Settled(trace[j].state.records[k])
  {
    if i < j {
      EpochsGrow(trace, ops, limits, k, i, j - 1);
      EpochsGrow(trace, ops, limits, k, j - 1, j);
      SettledPersists(trace, ops, limits, k, i, j - 1);
      RunStepOnRecord(trace, ops, limits, k, j - 1);
    }
  }

  /** The journaled acceptance of a deletion stays with the record for as long as its epoch lasts. */
  lemma {:induction false} AcceptancePersists(trace: seq<Moment>, ops: seq<Op>, limits: Limits, k: string, i: nat,
                                        j: nat)
    requires IsRun(trace, ops, limits) && i <= j < |trace| && !IsMarkerKey(k)
    requires forall n | i <= n <= j :: k in trace[n].state.records
    requires Settled(trace[i].state.records[k]) && !trace[i].state.records[k].acceptedID.NoInstance?
    requires trace[j].state.records[k].epoch == trace[i].state.records[k].epoch
    ensures Settled(trace[j].state.records[k])
    ensures trace[j].state.records[k].acceptedID == trace[i].state.records[k].acceptedID
  {
    if i < j {
      EpochsGrow(trace, ops, limits, k, i, j - 1);
      EpochsGrow(trace, ops, limits, k, j - 1, j);
      AcceptancePersists(trace, ops, limits, k, i, j - 1);
      RunStepOnRecord(trace, ops, limits, k, j - 1);
    }
  }

  // No record is left behind

  /** ListExpired's selection. */
  predicate ListedAsExpired(r: Record, now: Time, cutoff: Time) {
    var retryDue := r.nextAttemptAt <= now;
    && r.claim.NoWork?
    && ((r.status.Provisioned? && r.provisionedAt != ZERO_TIME && r.provisionedAt < cutoff)
        || (retryDue && (r.status.Failed? || r.status.Completed?) && r.createdAt < cutoff)
        || (retryDue && r.status.Completed? && !r.deferDeletion && r.instanceID.NoInstance? && !r.lastError.NoMessage?)
        || (retryDue && r.status.Failed? && r.instanceID.NoInstance?)
        || (r.status.Completed? && r.deferDeletion && retryDue))
  }

  /** The routine that picks the record up next. */
  predicate PickedUp(r: Record, now: Time, cutoff: Time, maxAttempts: int) {
    || ProvisionEligible(r, maxAttempts) || ProvisioningExhausted(r, maxAttempts)
    || DeleteEligible(r, maxAttempts) || DeletionExhausted(r, maxAttempts)
    || r.status.Provisioned?
    || r.status.Orphaned?
    || ListedAsExpired(r, now, cutoff)
  }

  /**
   In every reachable state an unclaimed record is not in flight, and once its retry time has
   come some routine picks it up. Only an instance-less completed record without a recorded
   error waits for the age cutoff.
   */
  lemma NothingStranded(trace: seq<Moment>, ops: seq<Op>, limits: Limits, k: string, i: nat, now: Time, cutoff: Time)
    requires IsRun(trace, ops, limits) && i < |trace| && k in trace[i].state.records
    requires trace[i].state.records[k].claim.NoWork? && !trace[i].state.records[k].status.Deleted?
    ensures var r := trace[i].state.records[k];
      && !r.status.Provisioning? && !r.status.Deleting?
      && (Due(r, now) ==>
           (PickedUp(r, now, cutoff, limits.maxAttempts) <==>
            !(r.status.Completed? && !r.deferDeletion && r.instanceID.NoInstance? && r.lastError.NoMessage?
                && cutoff <= r.createdAt)))
  {
    RunKeepsInvariant(trace, ops, limits, i);
    assert RecordInv(k, trace[i].state.records[k], limits.maxAttempts);
  }
}
