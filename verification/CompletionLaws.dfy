/**
 Completions, registrations and recovery keep the record invariant too.
 */
module CompletionLaws {
  import opened Lifecycle
  import opened Store
  import opened Invariants
  import opened MutationKeeps
  import opened MutationEvolves

  /** Completions and recovery neither move a claim to another kind of work nor attach anything. */
  predicate Passive(marker: bool, r: Record, r': Record) {
    && Follows(marker, r, r') && OwnershipKept(r, r') && WindowsKept(r, r')
    && r'.epoch == r.epoch
    && r'.instanceID == r.instanceID && r'.acceptedID == r.acceptedID
    && (r'.claim == r.claim || r'.claim.NoWork?)
    && (HoldsSlot(r') ==> HoldsSlot(r))
  }

  lemma MutationFollows(marker: bool, m: Mutation, r: Record, now: Time, maxAttempts: int)
    requires LifecycleInv(marker, r, maxAttempts)
    requires Disciplined(marker, r, m, now, maxAttempts)
    ensures Sound(marker, m, r, Mutate(m, r, now), now, maxAttempts)
    ensures Follows(marker, r, Mutate(m, r, now))
    ensures OwnershipKept(r, Mutate(m, r, now))
  {
    MutationKeepsLifecycle(marker, m, r, now, maxAttempts);
    MutationEvolvesRecord(marker, m, r, now, maxAttempts);
    SoundFollows(marker, m, r, Mutate(m, r, now), now, maxAttempts);
  }

  lemma SoundFollows(marker: bool, m: Mutation, r: Record, r': Record, now: Time, maxAttempts: int)
    requires LifecycleInv(marker, r, maxAttempts)
    requires Sound(marker, m, r, r', now, maxAttempts)
    requires m.MarkProvisioned? ==> r.claim.Provision?
    ensures Follows(marker, r, r')
    ensures OwnershipKept(r, r')
  {
  }

  lemma RunnerCompletedPassive(marker: bool, r: Record, completion: Record, now: Time, maxAttempts: int)
    requires LifecycleInv(marker, r, maxAttempts) && !r.status.Deleted? && !marker
    ensures LifecycleInv(marker, RunnerCompleted(r, completion, now), maxAttempts)
    ensures Passive(marker, r, RunnerCompleted(r, completion, now))
    ensures RunnerCompleted(r, completion, now).claim == r.claim
  {
    if r.claim.Delete? {} else {}
  }

  lemma JobCompletedOnPassive(marker: bool, r: Record, completion: Record, now: Time, maxAttempts: int)
    requires LifecycleInv(marker, r, maxAttempts)
    ensures LifecycleInv(marker, JobCompletedOn(r, completion, now), maxAttempts)
    ensures Passive(marker, r, JobCompletedOn(r, completion, now))
    ensures JobCompletedOn(r, completion, now).claim == r.claim
  {
    if completion.runnerID != 0 || r.Terminal() {} else {}
  }

  lemma EventRecordsStart(completion: Record, now: Time, maxAttempts: int)
    requires FreshEvent(completion) && 0 <= maxAttempts
    ensures LifecycleInv(false, Tombstone(completion, now), maxAttempts)
    ensures LifecycleInv(true, Marker(completion, now), maxAttempts)
    ensures completion.runnerID == 0 ==> LifecycleInv(false, Created(completion, now), maxAttempts)
    ensures !HoldsSlot(Tombstone(completion, now)) && !HoldsSlot(Marker(completion, now))
  {
  }

  lemma RegistrationKeeps(r: Record, runnerID: int, name: string, marker: Record, now: Time, maxAttempts: int)
    requires LifecycleInv(false, r, maxAttempts) && r.claim.Provision? && !r.Terminal() && runnerID != 0
    ensures var registered := Registered(r, runnerID, name, now);
      && LifecycleInv(false, registered, maxAttempts) && Follows(false, r, registered) && HoldsSlot(registered)
      && registered.claim == r.claim && registered.epoch == r.epoch && WindowsKept(r, registered)
    ensures var completed := CompletedByMarker(Registered(r, runnerID, name, now), marker);
      && LifecycleInv(false, completed, maxAttempts) && Follows(false, r, completed) && HoldsSlot(completed)
      && completed.claim == r.claim && completed.epoch == r.epoch && WindowsKept(r, completed)
  {
  }

  lemma RetiredMarkerKeeps(r: Record, now: Time, maxAttempts: int)
    requires LifecycleInv(true, r, maxAttempts)
    ensures LifecycleInv(true, RetiredMarker(r, now), maxAttempts)
    ensures Passive(true, r, RetiredMarker(r, now))
  {
  }

  lemma SweptKeeps(marker: bool, r: Record, now: Time, maxAttempts: int)
    requires LifecycleInv(marker, r, maxAttempts) && r.status.Orphaned?
    ensures LifecycleInv(marker, r.(instanceID := NoInstance, updatedAt := now), maxAttempts)
    ensures Follows(marker, r, r.(instanceID := NoInstance, updatedAt := now))
    ensures WindowsKept(r, r.(instanceID := NoInstance, updatedAt := now))
  {
  }

  lemma RecoveryKeeps(marker: bool, r: Record, now: Time, maxAttempts: int)
    requires LifecycleInv(marker, r, maxAttempts)
    ensures LifecycleInv(marker, Recovered(r, now), maxAttempts)
  {
  }

  lemma RecoveredPassive(marker: bool, r: Record, now: Time, maxAttempts: int)
    requires LifecycleInv(marker, r, maxAttempts)
    ensures Passive(marker, r, Recovered(r, now))
  {
  }

  lemma UnchangedPassive(marker: bool, r: Record)
    ensures Passive(marker, r, r)
  {
  }

  lemma RecoveryPassive(marker: bool, r: Record, now: Time, retention: nat, maxAttempts: int)
    requires LifecycleInv(marker, r, maxAttempts)
    requires RecoverRecord(r, now, retention).Keep?
    ensures LifecycleInv(marker, RecoverRecord(r, now, retention).record, maxAttempts)
    ensures Passive(marker, r, RecoverRecord(r, now, retention).record)
    ensures RecoverRecord(r, now, retention).record.claim.NoWork?
  {
    if NeedsRecovery(r) {
      RecoveryKeeps(marker, r, now, maxAttempts);
      RecoveredPassive(marker, r, now, maxAttempts);
    } else {
      UnchangedPassive(marker, r);
    }
  }
}
