/**
 The lifecycle store as a value: the record map, the runner index, and one function for
 every atomic change the store commits. FileStore.dfy proves that the durable store's
 methods compute exactly these functions; the invariants below are about their runs.
 */
module Store {
  import opened Names
  import opened Lifecycle

  datatype State = State(records: map<string, Record>, runnerKeys: map<string, string>)

  // Creating and completing jobs

  function Created(r: Record, now: Time): Record {
    r.(status := Pending, createdAt := now, updatedAt := now)
  }

  /** A delivery is recorded once; a redelivery changes nothing. */
  function Enqueued(s: State, r: Record, now: Time): State {
    if r.job.key in s.records then s else State(s.records[r.job.key := Created(r, now)], s.runnerKeys)
  }

  predicate CompletionMatches(r: Record, completion: Record) {
    && !r.status.Deleted? && r.runnerOwned && r.runnerID == completion.runnerID
    && Lower(r.job.owner) == Lower(completion.job.owner) && Lower(r.job.repository) == Lower(completion.job.repository)
  }

  /** The record of the runner that really executed the completed job. */
  function RunnerCompleted(r: Record, completion: Record, now: Time): Record {
    var done := r.jobCompleted || r.job.jobID == completion.job.jobID;
    var matched := r.(
      jobCompleted := done,
      recheckDemand := r.job.jobID != completion.job.jobID && !done,
      deferDeletion := false,
      updatedAt := now);
    if !r.claim.Delete? then matched.(status := Completed, nextAttemptAt := ZERO_TIME) else matched
  }

  /** Bookkeeping for a runner whose registration has not been recorded yet. */
  function Marker(completion: Record, now: Time): Record {
    completion.(
      job := completion.job.(key := MarkerKey(completion.job.owner, completion.job.repository, completion.runnerID)),
      status := Completed,
      runnerOwned := false,
      deferDeletion := true,
      claim := NoWork,
      instanceID := NoInstance,
      dropletID := 0,
      createdAt := now,
      updatedAt := now)
  }

  /** The deferred record of a job that completed before it was ever queued here. */
  function Tombstone(completion: Record, now: Time): Record {
    completion.(
      runnerID := 0,
      status := Completed,
      jobCompleted := true,
      deferDeletion := true,
      claim := NoWork,
      instanceID := NoInstance,
      dropletID := 0,
      createdAt := now,
      updatedAt := now)
  }

  /** The record of the job the completion event names. */
  function JobCompletedOn(r: Record, completion: Record, now: Time): Record {
    var noted := r.(jobCompleted := true, recheckDemand := false, updatedAt := now);
    if completion.runnerID != 0 || r.Terminal() then noted
    else noted.(status := Completed, deferDeletion := true, nextAttemptAt := completion.nextAttemptAt)
  }

  predicate Indexed(s: State, completion: Record) {
    RunnerIdentity(completion.job.owner, completion.job.repository, completion.runnerID) in s.runnerKeys
  }

  function IndexedKey(s: State, completion: Record): string
    requires Indexed(s, completion)
  {
    s.runnerKeys[RunnerIdentity(completion.job.owner, completion.job.repository, completion.runnerID)]
  }

  predicate RunnerMatched(s: State, completion: Record) {
    && completion.runnerID != 0 && Indexed(s, completion)
    && IndexedKey(s, completion) in s.records
    && CompletionMatches(s.records[IndexedKey(s, completion)], completion)
  }

  /** The index names a record that no longer owns the completed runner. */
  predicate StaleIndex(s: State, completion: Record) {
    completion.runnerID != 0 && Indexed(s, completion) && !RunnerMatched(s, completion)
  }

  function RunnerPhase(s: State, completion: Record, now: Time): map<string, Record> {
    if completion.runnerID == 0 then s.records
    else if RunnerMatched(s, completion) then
      var key := IndexedKey(s, completion);
      s.records[key := RunnerCompleted(s.records[key], completion, now)]
    else
      var marker := Marker(completion, now);
      s.records[marker.job.key := marker]
  }

  function EventPhase(records: map<string, Record>, completion: Record, now: Time): map<string, Record> {
    if completion.job.key in records
    then records[completion.job.key := JobCompletedOn(records[completion.job.key], completion, now)]
    else records[completion.job.key := Tombstone(completion, now)]
  }

  function CompletedRecords(s: State, completion: Record, now: Time): map<string, Record> {
    var afterRunner := RunnerPhase(s, completion, now);
    var matchedKey := if RunnerMatched(s, completion) then IndexedKey(s, completion) else "";
    if matchedKey == completion.job.key then afterRunner else EventPhase(afterRunner, completion, now)
  }

  function RecordCompletion(s: State, completion: Record, now: Time): State {
    State(CompletedRecords(s, completion, now), if StaleIndex(s, completion)
      then s.runnerKeys - {RunnerIdentity(completion.job.owner, completion.job.repository, completion.runnerID)}
      else s.runnerKeys)
  }

  // Registering a JIT runner

  predicate MarkerWaiting(records: map<string, Record>, r: Record, runnerID: int) {
    var markerKey := MarkerKey(r.job.owner, r.job.repository, runnerID);
    markerKey in records && !records[markerKey].status.Deleted?
  }

  function Registered(r: Record, runnerID: int, runnerName: string, now: Time): Record {
    r.(runnerID := runnerID, runnerOwned := true, runnerName := runnerName, updatedAt := now)
  }

  /** A completion that arrived before the registration was recorded is applied to it. */
  function CompletedByMarker(r: Record, marker: Record): Record {
    var done := r.jobCompleted || r.job.jobID == marker.job.jobID;
    r.(
      status := Completed,
      jobCompleted := done,
      recheckDemand := r.job.jobID != marker.job.jobID && !done,
      deferDeletion := false,
      nextAttemptAt := ZERO_TIME)
  }

  function RetiredMarker(marker: Record, now: Time): Record {
    marker.(status := Deleted, deferDeletion := false, updatedAt := now)
  }

  function MarkJITCreated(s: State, key: string, runnerID: int, runnerName: string, now: Time): State {
    if key !in s.records || s.records[key].Terminal() then s
    else
      var before := s.records[key];
      var registered := Registered(before, runnerID, runnerName, now);
      var identity := RunnerIdentity(before.job.owner, before.job.repository, runnerID);
      var records :=
        if MarkerWaiting(s.records, before, runnerID) then
          var markerKey := MarkerKey(before.job.owner, before.job.repository, runnerID);
          var marker := s.records[markerKey];
          s.records[markerKey := RetiredMarker(marker, now)][key := CompletedByMarker(registered, marker)]
        else s.records[key := registered];
      State(records, s.runnerKeys[identity := key])
  }

  // Changing one record

  /** The identity a MarkProvisioned commit writes to the index, if it writes one. */
  predicate IndexesProvisioned(r: Record, key: string, m: Mutation) {
    && m.MarkProvisioned? && !r.Terminal() && m.runnerID != 0
    && key != MarkerKey(r.job.owner, r.job.repository, m.runnerID)
  }

  function Update(s: State, key: string, m: Mutation, now: Time): State {
    if key !in s.records then s
    else
      var r := s.records[key];
      State(
        s.records[key := Mutate(m, r, now)],
        if IndexesProvisioned(r, key, m)
        then s.runnerKeys[RunnerIdentity(r.job.owner, r.job.repository, m.runnerID) := key] else s.runnerKeys)
  }

  // Changing many records

  predicate Sweepable(r: Record, provider: Cloud, cutoff: Time) {
    var instanceCreatedAt := if r.provisionedAt == ZERO_TIME then r.createdAt else r.provisionedAt;
    r.status.Orphaned? && r.provider == provider && !r.instanceID.NoInstance? && instanceCreatedAt < cutoff
  }

  function ReleaseSweptOrphans(records: map<string, Record>, provider: Cloud, cutoff: Time, now: Time): map<string,
                               Record> {
    map k | k in records :: if Sweepable(records[k], provider, cutoff)
      then records[k].(instanceID := NoInstance, updatedAt := now) else records[k]
  }

  /** The record stands for a live provider instance, so a sweep must leave that instance alone. */
  predicate Knows(r: Record) { !r.instanceID.NoInstance? && !r.status.Deleted? && !r.status.Orphaned? }

  predicate Prunable(r: Record, cutoff: int) {
    && (r.status.Deleted? || (r.status.Orphaned? && r.instanceID.NoInstance? && r.runnerID == 0))
    && r.updatedAt < cutoff
  }

  function PruneDeleted(records: map<string, Record>, cutoff: int): map<string, Record> {
    map k | k in records && !Prunable(records[k], cutoff) :: records[k]
  }

  function RecoverRecords(records: map<string, Record>, now: Time, retention: nat): map<string, Record> {
    map k | k in records && RecoverRecord(records[k], now, retention).Keep?
      :: RecoverRecord(records[k], now, retention).record
  }

  // The runner index

  predicate IndexWorthy(key: string, r: Record) {
    && !r.status.Deleted? && r.runnerOwned && r.runnerID != 0
    && key != MarkerKey(r.job.owner, r.job.repository, r.runnerID)
  }

  /** A rebuilt index: every entry names an owner, and every owner's identity has an entry. */
  ghost predicate IsRebuiltIndex(records: map<string, Record>, index: map<string, string>) {
    && (forall identity | identity in index ::
         index[identity] in records && IndexWorthy(index[identity], records[index[identity]])
         && records[index[identity]].Identity() == identity)
    && (forall k | k in records && IndexWorthy(k, records[k]) :: records[k].Identity() in index)
  }

  predicate OwnsRunner(s: State, owner: string, repository: string, runnerID: int) {
    var identity := RunnerIdentity(owner, repository, runnerID);
    && identity in s.runnerKeys && s.runnerKeys[identity] in s.records
    && var r := s.records[s.runnerKeys[identity]];
       !r.status.Deleted? && r.runnerOwned && r.runnerID == runnerID
  }

  /** The reference answer: search every record for an owner of the runner. */
  predicate SomeRecordOwns(records: map<string, Record>, owner: string, repository: string, runnerID: int) {
    exists k | k in records ::
      && !IsMarkerKey(k) && !records[k].status.Deleted? && records[k].runnerOwned
      && records[k].Identity() == RunnerIdentity(owner, repository, runnerID)
  }

  // Admission

  predicate CountsAsLive(r: Record) {
    && !(r.status.Deleted? || (r.status.Orphaned? && r.instanceID.NoInstance?))
    && (!r.instanceID.NoInstance? || r.OwnsRunnerID() || r.claim.Provision? || r.status.Provisioning?)
  }

  function LiveKeys(records: map<string, Record>): set<string> {
    set k | k in records && CountsAsLive(records[k])
  }

  function LiveRunners(records: map<string, Record>): nat { |LiveKeys(records)| }

  predicate CanProvision(records: map<string, Record>, r: Record, maxLive: nat) {
    LiveRunners(records) < maxLive || (LiveRunners(records) == maxLive && ReservedSlot(r))
  }

  // Steps

  datatype Op =
    | Create(record: Record, now: Time)
    | Complete(completion: Record, now: Time)
    | MarkJIT(key: string, runnerID: int, runnerName: string, now: Time)
    | Change(key: string, mutation: Mutation, now: Time)
    | SweepOrphans(provider: Cloud, cutoff: Time, now: Time)
    | Prune(pruneBefore: int)
    | Restart(now: Time, retention: nat)

  function Apply(s: State, op: Op): State
    requires !op.Restart?
  {
    match op
    case Create(r, now) => Enqueued(s, r, now)
    case Complete(completion, now) => RecordCompletion(s, completion, now)
    case MarkJIT(key, runnerID, runnerName, now) => MarkJITCreated(s, key, runnerID, runnerName, now)
    case Change(key, m, now) => Update(s, key, m, now)
    case SweepOrphans(provider, cutoff, now) =>
      State(ReleaseSweptOrphans(s.records, provider, cutoff, now), s.runnerKeys)
    case Prune(cutoff) => State(PruneDeleted(s.records, cutoff), s.runnerKeys)
  }

  /** One committed step of the store. Opening it again recovers every record and rebuilds the index. */
  ghost predicate Step(s: State, op: Op, s': State) {
    match op
    case Restart(now, retention) =>
      s'.records == RecoverRecords(s.records, now, retention) && IsRebuiltIndex(s'.records, s'.runnerKeys)
    case _ => s' == Apply(s, op)
  }
}
