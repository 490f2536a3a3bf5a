/**
 Which records count against the fleet limit, when a grant is admitted, which records the store may
 forget, and which the reaper looks up because of their age.
 */
module Retention {
  import opened Lifecycle
  import opened Store
  import opened Invariants
  import opened Runs
  import opened RunProperties
  import opened Finished

  // Admission

  /** The code's count: everything that holds an instance, is being created, or still owns a registration. */
  lemma LiveExactly(r: Record, maxAttempts: int)
    requires LifecycleInv(false, r, maxAttempts)
    ensures CountsAsLive(r) <==>
      || HoldsSlot(r)
      || (r.runnerOwned && r.runnerID != 0 && !r.status.Deleted? && !r.status.Orphaned?)
  {
  }

  lemma GrantAdds(records: map<string, Record>, k: string, granted: Record)
    requires k in records && CountsAsLive(granted)
    ensures LiveKeys(records[k := granted]) == LiveKeys(records) + {k}
  {
  }

  lemma GrantedCounts(r: Record, maxAttempts: int, now: Time)
    requires AwaitsProvisioning(r, maxAttempts, now)
    ensures CountsAsLive(Mutate(GrantProvision(maxAttempts), r, now))
    ensures CountsAsLive(r) <==> !r.instanceID.NoInstance? || (r.runnerOwned && r.runnerID != 0)
  {
  }

  /**
   Admission is exact: a waiting record is admitted if and only if the fleet as the code counts it is
   within the limit after the grant. At the limit that lets in just the records that are counted already.
   */
  lemma AdmissionIsExact(records: map<string, Record>, k: string, maxLive: nat, maxAttempts: int, now: Time)
    requires k in records && AwaitsProvisioning(records[k], maxAttempts, now)
    ensures var granted := Mutate(GrantProvision(maxAttempts), records[k], now);
      CanProvision(records, records[k], maxLive) <==> |LiveKeys(records[k := granted])| <= maxLive
  {
    GrantedCounts(records[k], maxAttempts, now);
    GrantAdds(records, k, Mutate(GrantProvision(maxAttempts), records[k], now));
    if CountsAsLive(records[k]) {
      assert LiveKeys(records) + {k} == LiveKeys(records);
    }
  }

  // Arriving

  /** A new delivery waits to be provisioned from its retry time on, and is as old as its arrival. */
  lemma DeliveryWaits(s: State, r: Record, now: Time, maxAttempts: int, at: Time)
    requires FreshEvent(r) && r.runnerID == 0 && r.job.key !in s.records
    ensures r.job.key in Apply(s, Create(r, now)).records
    ensures var r' := Apply(s, Create(r, now)).records[r.job.key];
      && (AwaitsProvisioning(r', maxAttempts, at) <==> 0 < maxAttempts && r.nextAttemptAt <= at)
      && r'.createdAt == now && r'.job == r.job && r'.provider == r.provider && r'.epoch == 0
  {
  }

  // Forgetting

  /** Nothing outside the store is known by the record any more. */
  predicate NamesNothing(r: Record) { r.instanceID.NoInstance? && r.runnerID == 0 }

  /** A record is forgotten exactly if it is old, and deleted or an orphan that names nothing. */
  lemma LeavesExactly(s: State, op: Op, s': State, k: string)
    requires Step(s, op, s') && k in s.records
    ensures k !in s'.records <==>
      || (op.Prune? && s.records[k].updatedAt < op.pruneBefore
          && (s.records[k].status.Deleted? || (s.records[k].status.Orphaned? && NamesNothing(s.records[k]))))
      || (op.Restart? && s.records[k].updatedAt < op.now - op.retention && s.records[k].status.Deleted?)
  {
  }

  /** In every run a record stays in the store as long as it is not deleted and names an instance or a runner. */
  lemma ResourcesAreRemembered(trace: seq<Moment>, ops: seq<Op>, limits: Limits, k: string, n: nat)
    requires IsRun(trace, ops, limits) && n < |ops| && k in trace[n].state.records
    requires !trace[n].state.records[k].status.Deleted?
    requires trace[n].state.records[k].status.Orphaned? ==> !NamesNothing(trace[n].state.records[k])
    ensures k in trace[n + 1].state.records
  {
    assert StepAt(trace, ops, limits, n) && RunStep(trace[n], ops[n], trace[n + 1], limits);
    LeavesExactly(trace[n].state, ops[n], trace[n + 1].state, k);
  }

  // Expiry

  /** Since when the record is old: a provisioned runner since its provisioning, finished work since its creation. */
  predicate OlderThan(r: Record, cutoff: Time) {
    if r.status.Provisioned? then r.provisionedAt != ZERO_TIME && r.provisionedAt < cutoff else r.createdAt < cutoff
  }

  /**
   What expiry looks up: a provisioned runner exactly by its age; finished work once it is due, a deferred
   or an instance-less failed one at any age, and a completed one that failed before only without an instance.
   */
  lemma ListedExactly(r: Record, now: Time, cutoff: Time)
    ensures !r.claim.NoWork? ==> !ListedAsExpired(r, now, cutoff)
    ensures r.claim.NoWork? && r.status.Provisioned? ==> (ListedAsExpired(r, now, cutoff) <==> OlderThan(r, cutoff))
    ensures r.claim.NoWork? && r.status.Completed? ==>
      (ListedAsExpired(r, now, cutoff) <==>
        && r.nextAttemptAt <= now
        && (OlderThan(r, cutoff) || r.deferDeletion || (r.instanceID.NoInstance? && !r.lastError.NoMessage?)))
    ensures r.claim.NoWork? && r.status.Failed? ==>
      (ListedAsExpired(r, now, cutoff) <==>
        && r.nextAttemptAt <= now
        && (OlderThan(r, cutoff) || r.instanceID.NoInstance?))
    ensures ListedAsExpired(r, now, cutoff) ==> r.status.Provisioned? || r.status.Completed? || r.status.Failed?
  {
  }
}
