/**
 What a completion event does to every record, told on the records themselves: without the runner
 index that finds the owner, and without the two phases that compute the change.
 */
module Completions {
  import opened Names
  import opened Lifecycle
  import opened Store
  import opened Invariants
  import opened StoreInvariant

  /** The record owns the runner that has completed. */
  predicate OwnsCompleted(r: Record, completion: Record) {
    && completion.runnerID != 0 && r.runnerOwned && !r.status.Deleted?
    && r.Identity() == RunnerIdentity(completion.job.owner, completion.job.repository, completion.runnerID)
  }

  /** The index leads a completion to the one record that owns its runner, and to no other. */
  lemma CompletionFindsOwner(s: State, completion: Record, ledger: Ledger, limits: Limits, k: string)
    requires StoreInv(s, ledger, limits) && FreshEvent(completion) && k in s.records && !IsMarkerKey(k)
    ensures OwnsCompleted(s.records[k], completion)
       <==> RunnerMatched(s, completion) && IndexedKey(s, completion) == k
  {
    var r := s.records[k];
    assert RecordInv(k, r, limits.maxAttempts);
    RunnerIdentityIsFoldedName(r.job.owner, r.job.repository, r.runnerID,
                               completion.job.owner, completion.job.repository, completion.runnerID);
    if OwnsCompleted(r, completion) {
      assert r.Identity() in s.runnerKeys;
      assert IssuedTo(ledger, r.Identity(), k) && IssuedTo(ledger, r.Identity(), s.runnerKeys[r.Identity()]);
    }
  }

  /** The runner's own record: done, due at once and free for deletion, unless a delete worker already has it. */
  predicate RunnerDone(r: Record, completion: Record, r': Record) {
    && (r'.jobCompleted <==> r.jobCompleted || r.job.jobID == completion.job.jobID)
    && (r'.recheckDemand <==> !r'.jobCompleted) && !r'.deferDeletion
    && (if r.claim.Delete? then r'.status == r.status && r'.nextAttemptAt == r.nextAttemptAt
        else r'.status.Completed? && r'.nextAttemptAt == ZERO_TIME)
  }

  /** The job's record, where another runner or none is named: completed, and its own runner expires when due. */
  predicate JobDone(r: Record, completion: Record, r': Record) {
    && r'.jobCompleted && !r'.recheckDemand
    && (if completion.runnerID == 0 && !r.Terminal()
        then r'.status.Completed? && r'.deferDeletion && r'.nextAttemptAt == completion.nextAttemptAt
        else r'.status == r.status && r'.deferDeletion == r.deferDeletion && r'.nextAttemptAt == r.nextAttemptAt)
  }

  /** What no completion changes. */
  predicate KeepsResources(r: Record, r': Record) {
    && r'.claim == r.claim && r'.epoch == r.epoch && r'.instanceID == r.instanceID && r'.acceptedID == r.acceptedID
    && r'.runnerID == r.runnerID && r'.runnerOwned == r.runnerOwned && r'.attempts == r.attempts
    && r'.deleteAttempts == r.deleteAttempts && r'.createdAt == r.createdAt && r'.provisionedAt == r.provisionedAt
  }

  lemma OwnerIsCompleted(r: Record, completion: Record, now: Time)
    ensures var r' := RunnerCompleted(r, completion, now); KeepsResources(r, r') && RunnerDone(r, completion, r')
  {
  }

  lemma NamedIsCompleted(r: Record, completion: Record, now: Time)
    ensures var r' := JobCompletedOn(r, completion, now); KeepsResources(r, r') && JobDone(r, completion, r')
  {
  }

  lemma CompletionOn(s: State, completion: Record, now: Time, k: string)
    requires k in s.records && !IsMarkerKey(k) && completion.job.key != ""
    ensures k in RecordCompletion(s, completion, now).records
    ensures RecordCompletion(s, completion, now).records[k] ==
      if RunnerMatched(s, completion) && IndexedKey(s, completion) == k
      then RunnerCompleted(s.records[k], completion, now)
      else if k == completion.job.key then JobCompletedOn(s.records[k], completion, now) else s.records[k]
  {
    MarkerKeyInjective(completion.job.owner, completion.job.repository, completion.runnerID, "", "", 0);
  }

  /** A completion event changes the record that owns its runner and the record of its job, and nothing else. */
  lemma CompletionReaches(s: State, completion: Record, now: Time, ledger: Ledger, limits: Limits, k: string)
    requires StoreInv(s, ledger, limits) && FreshEvent(completion) && k in s.records && !IsMarkerKey(k)
    ensures k in RecordCompletion(s, completion, now).records
    ensures var r, r' := s.records[k], RecordCompletion(s, completion, now).records[k];
      && (OwnsCompleted(r, completion) ==> KeepsResources(r, r') && RunnerDone(r, completion, r'))
      && (!OwnsCompleted(r, completion) && k == completion.job.key ==>
           KeepsResources(r, r') && JobDone(r, completion, r'))
      && (!OwnsCompleted(r, completion) && k != completion.job.key ==> r' == r)
  {
    CompletionFindsOwner(s, completion, ledger, limits, k);
    CompletionOn(s, completion, now, k);
    OwnerIsCompleted(s.records[k], completion, now);
    NamedIsCompleted(s.records[k], completion, now);
  }

  /** A job that was never queued here is remembered as completed, so that its late queued event changes nothing. */
  lemma UnknownJobIsRemembered(s: State, completion: Record, now: Time)
    requires FreshEvent(completion) && completion.job.key !in s.records
    ensures completion.job.key in RecordCompletion(s, completion, now).records
    ensures var r' := RecordCompletion(s, completion, now).records[completion.job.key];
      && r'.jobCompleted && !r'.recheckDemand && r'.status.Completed? && r'.deferDeletion && r'.claim.NoWork?
      && r'.instanceID.NoInstance? && r'.runnerID == 0 && !r'.runnerOwned
      && r'.nextAttemptAt == completion.nextAttemptAt && r'.createdAt == now && r'.job == completion.job
  {
    MarkerKeyInjective(completion.job.owner, completion.job.repository, completion.runnerID, "", "", 0);
  }

  /**
   The completion of a runner that no record owns is kept for its registration: in a marker that owns
   nothing, names the completed job, and expires when it is due.
   */
  lemma UnmatchedIsKept(s: State, completion: Record, now: Time)
    requires FreshEvent(completion) && completion.runnerID != 0 && !RunnerMatched(s, completion)
    ensures var markerKey := MarkerKey(completion.job.owner, completion.job.repository, completion.runnerID);
      && markerKey in RecordCompletion(s, completion, now).records
      && var r' := RecordCompletion(s, completion, now).records[markerKey];
         && r'.status.Completed? && r'.deferDeletion && r'.claim.NoWork? && r'.instanceID.NoInstance?
         && !r'.runnerOwned && r'.runnerID == completion.runnerID && r'.job.jobID == completion.job.jobID
         && r'.nextAttemptAt == completion.nextAttemptAt && r'.createdAt == now
  {
    MarkerKeyInjective(completion.job.owner, completion.job.repository, completion.runnerID, "", "", 0);
  }

  /** The completion of the registered runner has been kept, and no registration has used it up yet. */
  predicate CompletionWaits(s: State, r: Record, runnerID: int) {
    var markerKey := MarkerKey(r.job.owner, r.job.repository, runnerID);
    markerKey in s.records && !s.records[markerKey].status.Deleted?
  }

  /** The runner was done before its registration was saved. */
  predicate DoneBefore(r: Record, marker: Record, r': Record) {
    && r'.status.Completed? && !r'.deferDeletion && r'.nextAttemptAt == ZERO_TIME
    && (r'.jobCompleted <==> r.jobCompleted || r.job.jobID == marker.job.jobID)
    && (r'.recheckDemand <==> !r'.jobCompleted)
  }

  /** A registration is saved on its record, which takes up a completion that came first exactly once. */
  lemma RegistrationReaches(s: State, key: string, runnerID: int, name: string, now: Time)
    requires key in s.records && !IsMarkerKey(key) && !s.records[key].Terminal()
    ensures var r, s' := s.records[key], MarkJITCreated(s, key, runnerID, name, now);
      var markerKey := MarkerKey(r.job.owner, r.job.repository, runnerID);
      && key in s'.records && s'.records.Keys == s.records.Keys
      && var r' := s'.records[key];
         && r'.runnerID == runnerID && r'.runnerOwned && r'.runnerName == name && r'.claim == r.claim
         && r'.epoch == r.epoch && r'.instanceID == r.instanceID && r'.attempts == r.attempts
         && (if CompletionWaits(s, r, runnerID)
             then DoneBefore(r, s.records[markerKey], r') && s'.records[markerKey].status.Deleted?
             else r' == r.(runnerID := runnerID, runnerOwned := true, runnerName := name, updatedAt := now))
         && (forall k | k in s.records && k != key && !(k == markerKey && CompletionWaits(s, r, runnerID)) ::
              s'.records[k] == s.records[k])
         && s'.runnerKeys == s.runnerKeys[RunnerIdentity(r.job.owner, r.job.repository, runnerID) := key]
  {
    MarkerKeyInjective(s.records[key].job.owner, s.records[key].job.repository, runnerID, "", "", 0);
  }
}
