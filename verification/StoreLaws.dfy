/**
 Laws that relate several store operations: a completion and the registration of its
 runner commute, releasing and recovering undo a grant, recovery settles, and the exact
 conditions under which intuitive claims about the store fail.
 */
module StoreLaws {
  import opened Names
  import opened Lifecycle
  import opened Store
  import opened Invariants
  import opened MutationKeeps
  import opened CompletionLaws
  import opened StoreInvariant
  import opened Runs

  // A completion may arrive before or after the registration of its runner is recorded

  predicate SameUpToUpdate(r: Record, r': Record) {
    r'.(updatedAt := r.updatedAt) == r
  }

  /** The situation both orders start from. */
  predicate RegistrationRaces(s: State, key: string, completion: Record) {
    && key in s.records && !IsMarkerKey(key) && !s.records[key].Terminal() && !s.records[key].claim.Delete?
    && completion.runnerID != 0 && !IsMarkerKey(completion.job.key) && completion.job.key != ""
    && '/' !in s.records[key].job.repository && '/' !in completion.job.repository
    && Lower(s.records[key].job.owner) == Lower(completion.job.owner)
    && Lower(s.records[key].job.repository) == Lower(completion.job.repository)
    && (completion.job.key == key <==> completion.job.jobID == s.records[key].job.jobID)
    && !Indexed(s, completion)
    && MarkerKey(completion.job.owner, completion.job.repository, completion.runnerID) !in s.records
  }

  lemma RacingNamesAgree(s: State, key: string, completion: Record)
    requires RegistrationRaces(s, key, completion)
    ensures RunnerIdentity(s.records[key].job.owner, s.records[key].job.repository, completion.runnerID)
         == RunnerIdentity(completion.job.owner, completion.job.repository, completion.runnerID)
    ensures MarkerKey(s.records[key].job.owner, s.records[key].job.repository, completion.runnerID)
         == MarkerKey(completion.job.owner, completion.job.repository, completion.runnerID)
    ensures IsMarkerKey(MarkerKey(completion.job.owner, completion.job.repository, completion.runnerID))
  {
    var r := s.records[key];
    RunnerIdentityIsFoldedName(r.job.owner, r.job.repository, completion.runnerID,
                               completion.job.owner, completion.job.repository, completion.runnerID);
    MarkerKeyInjective(completion.job.owner, completion.job.repository, completion.runnerID, "", "", 0);
  }

  /** What either order leaves in the record whose runner executed the job. */
  function RacedRecord(r: Record, completion: Record, name: string): Record {
    var done := r.jobCompleted || r.job.jobID == completion.job.jobID;
    r.(runnerID := completion.runnerID, runnerOwned := true, runnerName := name, status := Completed,
       jobCompleted := done, recheckDemand := r.job.jobID != completion.job.jobID && !done,
       deferDeletion := false, nextAttemptAt := ZERO_TIME)
  }

  /** What either order leaves for every other job. */
  predicate RacedOthers(s: State, key: string, completion: Record, completedAt: Time, s': State) {
    var markerKey := MarkerKey(completion.job.owner, completion.job.repository, completion.runnerID);
    && s'.runnerKeys
       == s.runnerKeys[RunnerIdentity(completion.job.owner, completion.job.repository, completion.runnerID) := key]
    && s'.records.Keys - {markerKey} == s.records.Keys + {completion.job.key}
    && (completion.job.key != key && completion.job.key in s.records ==>
         s'.records[completion.job.key] == JobCompletedOn(s.records[completion.job.key], completion, completedAt))
    && (completion.job.key != key && completion.job.key !in s.records ==>
         s'.records[completion.job.key] == Tombstone(completion, completedAt))
    && forall k | k in s.records && k != key && k != completion.job.key :: s'.records[k] == s.records[k]
  }

  lemma CompletionFirst(s: State, key: string, completion: Record, name: string, completedAt: Time, registeredAt: Time)
    requires RegistrationRaces(s, key, completion)
    ensures var s' := MarkJITCreated(RecordCompletion(s, completion, completedAt), key, completion.runnerID, name,
        registeredAt);
      var markerKey := MarkerKey(completion.job.owner, completion.job.repository, completion.runnerID);
      && RacedOthers(s, key, completion, completedAt, s') && key in s'.records
      && SameUpToUpdate(RacedRecord(s.records[key], completion, name), s'.records[key])
      && markerKey in s'.records && s'.records[markerKey].status.Deleted?
  {
    RacingNamesAgree(s, key, completion);
    var markerKey := MarkerKey(completion.job.owner, completion.job.repository, completion.runnerID);
    var s1 := RecordCompletion(s, completion, completedAt);
    assert s1.records[markerKey] == Marker(completion, completedAt);
    var s2 := MarkJITCreated(s1, key, completion.runnerID, name, registeredAt);
    assert MarkerWaiting(s1.records, s1.records[key], completion.runnerID);
    assert s2.records[key] == CompletedByMarker(Registered(s1.records[key], completion.runnerID, name, registeredAt),
                                                Marker(completion, completedAt));
  }

  lemma RegistrationFirst(s: State, key: string, completion: Record, name: string, completedAt: Time,
                          registeredAt: Time)
    requires RegistrationRaces(s, key, completion)
    ensures var s' := RecordCompletion(MarkJITCreated(s, key, completion.runnerID, name, registeredAt), completion,
        completedAt);
      var markerKey := MarkerKey(completion.job.owner, completion.job.repository, completion.runnerID);
      && RacedOthers(s, key, completion, completedAt, s') && key in s'.records
      && SameUpToUpdate(RacedRecord(s.records[key], completion, name), s'.records[key])
      && markerKey !in s'.records
  {
    RacingNamesAgree(s, key, completion);
    var s1 := MarkJITCreated(s, key, completion.runnerID, name, registeredAt);
    assert s1.records[key] == Registered(s.records[key], completion.runnerID, name, registeredAt);
    assert RunnerMatched(s1, completion) && IndexedKey(s1, completion) == key;
  }

  /**
   Completion and registration commute: whichever is recorded first, every job record ends
   up the same except for its update time, and only the retired marker tells the orders apart.
   */
  lemma CompletionCommutesWithRegistration(s: State, key: string, completion: Record, name: string,
                                           completedAt: Time, registeredAt: Time)
    requires RegistrationRaces(s, key, completion)
    ensures var a := MarkJITCreated(RecordCompletion(s, completion, completedAt), key, completion.runnerID, name,
        registeredAt);
      var b := RecordCompletion(MarkJITCreated(s, key, completion.runnerID, name, registeredAt), completion,
          completedAt);
      var markerKey := MarkerKey(completion.job.owner, completion.job.repository, completion.runnerID);
      && a.runnerKeys == b.runnerKeys
      && a.records.Keys == b.records.Keys + {markerKey} && a.records[markerKey].status.Deleted?
      && forall k | k in b.records :: SameUpToUpdate(a.records[k], b.records[k])
  {
    RacingNamesAgree(s, key, completion);
    CompletionFirst(s, key, completion, name, completedAt, registeredAt);
    RegistrationFirst(s, key, completion, name, completedAt, registeredAt);
    RacesJoin(s, key, completion, name, completedAt,
      MarkJITCreated(RecordCompletion(s, completion, completedAt), key, completion.runnerID, name, registeredAt),
      RecordCompletion(MarkJITCreated(s, key, completion.runnerID, name, registeredAt), completion, completedAt));
  }

  lemma RacesJoin(s: State, key: string, completion: Record, name: string, completedAt: Time, a: State, b: State)
    requires RegistrationRaces(s, key, completion)
    requires RacedOthers(s, key, completion, completedAt, a) && RacedOthers(s, key, completion, completedAt, b)
    requires key in a.records && SameUpToUpdate(RacedRecord(s.records[key], completion, name), a.records[key])
    requires key in b.records && SameUpToUpdate(RacedRecord(s.records[key], completion, name), b.records[key])
    requires var markerKey := MarkerKey(completion.job.owner, completion.job.repository, completion.runnerID);
      markerKey in a.records && markerKey !in b.records
    ensures a.runnerKeys == b.runnerKeys
    ensures a.records.Keys == b.records.Keys
      + {MarkerKey(completion.job.owner, completion.job.repository, completion.runnerID)}
    ensures forall k | k in b.records :: SameUpToUpdate(a.records[k], b.records[k])
  {
    SameUpToUpdateJoins(RacedRecord(s.records[key], completion, name), a.records[key], b.records[key]);
    var markerKey := MarkerKey(completion.job.owner, completion.job.repository, completion.runnerID);
    assert a.records.Keys == a.records.Keys - {markerKey} + {markerKey};
    assert b.records.Keys == b.records.Keys - {markerKey};
    forall k | k in b.records ensures k in a.records && SameUpToUpdate(a.records[k], b.records[k]) {
      assert k in b.records.Keys - {markerKey} && k in s.records.Keys + {completion.job.key};
    }
  }

  lemma SameUpToUpdateJoins(r: Record, a: Record, b: Record)
    requires SameUpToUpdate(r, a) && SameUpToUpdate(r, b)
    ensures SameUpToUpdate(a, b)
  {
  }

  // Undoing a grant

  /** Releasing an unstarted claim restores the record except for its times. */
  lemma ReleaseUndoesGrant(r: Record, kind: Work, maxAttempts: int, grantedAt: Time, releasedAt: Time)
    requires Due(r, grantedAt) && 0 <= r.attempts && 0 <= r.deleteAttempts
    requires if kind.Provision? then ProvisionEligible(r, maxAttempts)
             else DeleteEligible(r, maxAttempts) && kind.Delete?
    ensures var granted := if kind.Provision? then OnGrantProvision(r, maxAttempts, grantedAt)
      else OnGrantDelete(r, maxAttempts, grantedAt);
      && granted != r
      && Mutate(ReleaseClaim(kind), granted, releasedAt) == r.(nextAttemptAt := ZERO_TIME, updatedAt := releasedAt)
  {
    if kind.Provision? {
      var granted := OnGrantProvision(r, maxAttempts, grantedAt);
      assert OnReleaseClaim(granted, kind) == r.(nextAttemptAt := ZERO_TIME, updatedAt := grantedAt);
    } else {
      var granted := OnGrantDelete(r, maxAttempts, grantedAt);
      assert OnReleaseClaim(granted, kind) == r.(nextAttemptAt := ZERO_TIME, updatedAt := grantedAt);
    }
  }

  /** A crash while the claim is held is recovered to the same record. */
  lemma RecoveryUndoesGrant(r: Record, kind: Work, maxAttempts: int, grantedAt: Time, openedAt: Time, retention: nat)
    requires Due(r, grantedAt) && 0 <= r.attempts && 0 <= r.deleteAttempts
    requires if kind.Provision? then ProvisionEligible(r, maxAttempts)
             else DeleteEligible(r, maxAttempts) && kind.Delete?
    requires !r.provider.Unbound? && !Migrates(r)
    ensures var granted := if kind.Provision? then OnGrantProvision(r, maxAttempts, grantedAt)
      else OnGrantDelete(r, maxAttempts, grantedAt);
      RecoverRecord(granted, openedAt, retention) == Keep(r.(nextAttemptAt := ZERO_TIME, updatedAt := openedAt), true)
  {
    var granted := if kind.Provision? then OnGrantProvision(r, maxAttempts, grantedAt)
      else OnGrantDelete(r, maxAttempts, grantedAt);
    assert Recovered(granted, openedAt) == r.(nextAttemptAt := ZERO_TIME, updatedAt := openedAt);
  }

  predicate LegacyMessage(r: Record) { r.lastError.Canceled? || r.lastError.DeadlineExceeded? }

  /** The interrupted deletions that recovery refunds once more on the next opening. */
  predicate RefundedTwice(r: Record) { r.status.Deleting? && r.deleteAttempts >= 2 && LegacyMessage(r) }

  predicate NeverDated(r: Record) { Undated(r) && r.updatedAt == ZERO_TIME && r.createdAt == ZERO_TIME }

  /**
   Opening the store a second time changes nothing, unless an interrupted deletion still
   carries a legacy cancellation message and is refunded again, or a provisioned record has
   no time of any kind.
   */
  lemma RecoverySettles(r: Record, now: Time, retention: nat)
    requires RecoverRecord(r, now, retention).Keep?
    ensures var once := RecoverRecord(r, now, retention).record;
      RecoverRecord(once, now, retention) == Keep(once, false) <==> !RefundedTwice(r) && !NeverDated(r)
  {
    if NeedsRecovery(r) {
      var once := Recovered(r, now);
      assert Interrupted(once) <==> RefundedTwice(r);
      assert Undated(once) <==> NeverDated(r);
      assert !Migrates(once);
    }
  }

  // Where an intuitive claim needs a condition

  /** Waiting for confirmed absence gives the claim back exactly while the record still says it is being deleted. */
  lemma ConfirmationReleasesOnlyDeleting(r: Record, message: Message, retryAt: Time, now: Time)
    requires r.claim.Delete? && !r.instanceID.NoInstance? && r.acceptedID == r.instanceID
    ensures Mutate(DeferDeletionConfirmation(message, retryAt), r, now).claim.NoWork? <==> r.status.Deleting?
  {
    assert Mutate(DeferDeletionConfirmation(message, retryAt), r, now)
        == Stamped(OnDeferDeletionConfirmation(r, message, retryAt), now);
  }

  /**
   A completion without a runner overwrites that status: the deferred confirmation then leaves the
   claim in place although its worker stops, a scan cannot grant the record as it is, and opening the
   store again frees it. ControllerClaims.UnheldClaimEnds says over runs what else can end such a claim.
   */
  lemma OvertakenConfirmationKeepsClaim(r: Record, completion: Record, message: Message, retryAt: Time, now: Time,
                                        later: Time, retention: nat, maxAttempts: int)
    requires r.status.Deleting? && r.claim.Delete? && !r.instanceID.NoInstance? && r.acceptedID == r.instanceID
    requires completion.runnerID == 0
    ensures var waiting := Mutate(DeferDeletionConfirmation(message, retryAt), JobCompletedOn(r, completion, now), now);
      && waiting.claim.Delete? && waiting.status.Completed?
      && !ProvisionEligible(waiting, maxAttempts) && !DeleteEligible(waiting, maxAttempts)
      && RecoverRecord(waiting, later, retention).Keep? && RecoverRecord(waiting, later, retention).record.claim.NoWork?
  {
    var completed := JobCompletedOn(r, completion, now);
    ConfirmationReleasesOnlyDeleting(completed, message, retryAt, now);
    assert Mutate(DeferDeletionConfirmation(message, retryAt), completed, now) == Stamped(completed, now);
  }

  predicate DeferralSpent(r: Record, max: int, countFailure: bool, countThrottle: bool) {
    (countFailure && r.reconcileFailures + 1 >= max) || (countThrottle && r.throttleFailures + 1 >= max)
  }

  /**
   The reaper's backoff names no epoch. Landing on a record that has meanwhile been requeued and
   claimed, it orphans the record under its worker exactly when it spends the last attempt.
   */
  lemma LateDeferralStrands(r: Record, message: Message, retryAt: Time, max: int, countFailure: bool,
                            countThrottle: bool,
                            now: Time, maxAttempts: int)
    requires LifecycleInv(false, r, maxAttempts)
    ensures LifecycleInv(false,
        Mutate(DeferReconciliation(message, retryAt, max, countFailure, countThrottle), r, now), maxAttempts)
       <==> !(r.claim.Provision? && DeferralSpent(r, max, countFailure, countThrottle))
  {
    var m := DeferReconciliation(message, retryAt, max, countFailure, countThrottle);
    var r' := OnDeferReconciliation(r, message, retryAt, max, countFailure, countThrottle);
    assert Unstamped(m, r, now) == r';
    StampIsNeutral(r', now, maxAttempts);
    if r.claim.Provision? {
      DeferralUnderClaim(r, message, retryAt, max, countFailure, countThrottle, maxAttempts);
    } else {
      DeferReconciliationKeeps(false, r, message, retryAt, max, countFailure, countThrottle, now, maxAttempts);
    }
  }

  lemma StampIsNeutral(r: Record, now: Time, maxAttempts: int)
    ensures LifecycleInv(false, Stamped(r, now), maxAttempts) <==> LifecycleInv(false, r, maxAttempts)
  {
  }

  lemma DeferralUnderClaim(r: Record, message: Message, retryAt: Time, max: int, countFailure: bool,
                           countThrottle: bool,
                           maxAttempts: int)
    requires LifecycleInv(false, r, maxAttempts) && r.claim.Provision?
    ensures LifecycleInv(false, OnDeferReconciliation(r, message, retryAt, max, countFailure, countThrottle),
        maxAttempts)
       <==> !DeferralSpent(r, max, countFailure, countThrottle)
  {
    var r' := OnDeferReconciliation(r, message, retryAt, max, countFailure, countThrottle);
    assert r'.status == if DeferralSpent(r, max, countFailure, countThrottle) then Orphaned else r.status;
    assert r'.claim.Provision?;
  }

  /**
   The reaper's requeue names no instance either. Landing late on a record that has been requeued and
   provisioned again, it discards the replacement's live instance and starts yet another epoch; on
   every other record it changes nothing but the update time.
   */
  lemma LateRequeueDiscards(r: Record, max: int, now: Time, maxAttempts: int)
    requires LifecycleInv(false, r, maxAttempts)
    ensures var r' := Mutate(RequeueMissingRunner(max), r, now);
      && (r.status.Provisioned? <==> HoldsSlot(r) && !HoldsSlot(r'))
      && (r.status.Provisioned? ==> r'.epoch == r.epoch + 1 && Replaceable(r'))
      && (!r.status.Provisioned? ==> r' == Stamped(r, now))
  {
  }

  // Deleted is final for jobs, not for completion markers

  /** The operation records the completion of a runner that no record owns, and k is that runner's marker. */
  predicate Reopens(s: State, op: Op, k: string) {
    && op.Complete? && op.completion.runnerID != 0 && !RunnerMatched(s, op.completion)
    && k == MarkerKey(op.completion.job.owner, op.completion.job.repository, op.completion.runnerID)
  }

  lemma CompletionOnMarker(s: State, op: Op, k: string)
    requires op.Complete? && FreshEvent(op.completion) && IndexIssuedToJobs(s)
    requires IsMarkerKey(k) && k in s.records
    ensures k in RecordCompletion(s, op.completion, op.now).records
    ensures var r' := RecordCompletion(s, op.completion, op.now).records[k];
      if Reopens(s, op, k) then r'.status.Completed? else r' == s.records[k]
  {
  }

  predicate IndexIssuedToJobs(s: State) {
    forall identity | identity in s.runnerKeys :: !IsMarkerKey(s.runnerKeys[identity])
  }

  lemma IndexNamesJobs(s: State, ledger: Ledger, limits: Limits)
    requires StoreInv(s, ledger, limits)
    ensures IndexIssuedToJobs(s)
  {
    forall identity | identity in s.runnerKeys ensures !IsMarkerKey(s.runnerKeys[identity]) {
      assert IssuedTo(ledger, identity, s.runnerKeys[identity]) && IssueBound(identity, ledger[identity]);
    }
  }

  lemma OthersKeepDeletion(s: State, op: Op, s': State, ledger: Ledger, limits: Limits, k: string)
    requires StoreInv(s, ledger, limits) && Guard(s, op, ledger, limits) && Step(s, op, s') && !op.Complete?
    requires IsMarkerKey(k) && k in s.records && k in s'.records && s.records[k].status.Deleted?
    ensures s'.records[k].status.Deleted?
  {
    assert RecordInv(k, s.records[k], limits.maxAttempts);
    if op.Change? && op.key == k {
      MutationFollows(true, op.mutation, s.records[k], op.now, limits.maxAttempts);
    } else if op.Restart? {
      RecoveryPassive(true, s.records[k], op.now, op.retention, limits.maxAttempts);
    }
  }

  /** A deleted marker is reopened by a further completion for its still unmatched runner, and by no other step. */
  lemma MarkerReopens(s: State, op: Op, s': State, ledger: Ledger, limits: Limits, k: string)
    requires StoreInv(s, ledger, limits) && Guard(s, op, ledger, limits) && Step(s, op, s')
    requires IsMarkerKey(k) && k in s.records && k in s'.records && s.records[k].status.Deleted?
    ensures !s'.records[k].status.Deleted? <==> Reopens(s, op, k)
    ensures Reopens(s, op, k) ==> s'.records[k].status.Completed?
  {
    if op.Complete? {
      IndexNamesJobs(s, ledger, limits);
      CompletionOnMarker(s, op, k);
    } else {
      OthersKeepDeletion(s, op, s', ledger, limits, k);
    }
  }

  ghost predicate ReopensAt(trace: seq<Moment>, ops: seq<Op>, k: string, n: nat)
    requires |trace| == |ops| + 1 && n < |ops|
  {
    Reopens(trace[n].state, ops[n], k)
  }

  lemma MarkerReopensAt(trace: seq<Moment>, ops: seq<Op>, limits: Limits, k: string, n: nat)
    requires IsRun(trace, ops, limits) && n < |ops| && IsMarkerKey(k)
    requires k in trace[n].state.records && trace[n].state.records[k].status.Deleted?
    requires k in trace[n + 1].state.records
    ensures !trace[n + 1].state.records[k].status.Deleted? <==> ReopensAt(trace, ops, k, n)
  {
    RunKeepsInvariant(trace, ops, limits, n);
    var m, op, m' := trace[n], ops[n], trace[n + 1];
    assert StepAt(trace, ops, limits, n) && RunStep(m, op, m', limits);
    MarkerReopens(m.state, op, m'.state, m.ledger, limits, k);
  }

  /**
   Over every run, a deleted marker that stays in the store is deleted ever after exactly if no further
   completion arrives for its runner while no record owns that runner.
   */
  lemma {:induction false} MarkerStaysDeleted(trace: seq<Moment>, ops: seq<Op>, limits: Limits, k: string,
                                        i: nat, j: nat)
    requires IsRun(trace, ops, limits) && i <= j < |trace| && IsMarkerKey(k)
    requires forall n | i <= n <= j :: k in trace[n].state.records
    requires trace[i].state.records[k].status.Deleted?
    ensures (forall n | i <= n <= j :: trace[n].state.records[k].status.Deleted?)
       <==> (forall n | i <= n < j :: !ReopensAt(trace, ops, k, n))
  {
    if i < j {
      MarkerStaysDeleted(trace, ops, limits, k, i, j - 1);
      if trace[j - 1].state.records[k].status.Deleted? {
        MarkerReopensAt(trace, ops, limits, k, j - 1);
      }
    }
  }
}
