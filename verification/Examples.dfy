/** Small records and names that the example runs share. */
module Examples {
  import opened Names
  import opened Lifecycle
  import opened Store
  import opened Invariants
  import opened StoreInvariant

  function Event(jobID: int, runnerID: int): Record {
    Record(
      job := Job(JobKey("o", "r", jobID), "", jobID, "o", "r", []),
      provider := AWS, runnerName := "", runnerID := runnerID, runnerOwned := false, instanceID := NoInstance,
      jobCompleted := false, recheckDemand := false, acceptedID := NoInstance, dropletID := 0, status := Pending,
      claim := NoWork, deferDeletion := false, attempts := 0, epoch := 0, deleteAttempts := 0,
      reconcileFailures := 0, throttleFailures := 0, lastError := NoMessage, nextAttemptAt := ZERO_TIME,
      missingSince := ZERO_TIME, missingChecks := 0, githubMissingSince := ZERO_TIME, githubMissingChecks := 0,
      createdAt := ZERO_TIME, provisionedAt := ZERO_TIME, registeredAt := ZERO_TIME, reconciledAt := ZERO_TIME,
      updatedAt := ZERO_TIME)
  }

  const FIRST: string := JobKey("o", "r", 1)
  const SECOND: string := JobKey("o", "r", 2)
  const RUNNER: string := RunnerIdentity("o", "r", 7)
  const ISSUED: Ledger := map[RUNNER := Issue(FIRST, FullName("o", "r"), 1, 7)]
  const ONE_RUNNER := Limits(5, 1)

  function Queued(jobID: int, now: Time): Record { Created(Event(jobID, 0), now) }

  function Claimed(jobID: int, queuedAt: Time, now: Time): Record {
    Queued(jobID, queuedAt).(status := Provisioning, attempts := 1, updatedAt := now, claim := Provision)
  }

  lemma ExampleNames()
    ensures FIRST != SECOND && !IsMarkerKey(FIRST) && !IsMarkerKey(SECOND)
    ensures MarkerKey("o", "r", 7) != FIRST && MarkerKey("o", "r", 7) != SECOND
    ensures FreshEvent(Event(1, 0)) && FreshEvent(Event(2, 0)) && FreshEvent(Event(1, 7))
    ensures LedgerInv(ISSUED)
  {
    JobKeyOfInjective(FullName("o", "r"), 1, FullName("o", "r"), 2);
    JobKeyIsNotMarker("o", "r", 1);
    JobKeyIsNotMarker("o", "r", 2);
    MarkerKeyInjective("o", "r", 7, "", "", 0);
  }
}
