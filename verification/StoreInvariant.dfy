/**
 The invariant of the whole store over every run of disciplined steps: record invariants,
 provenance of runner identities, agreement of the index with the records, and the fleet
 ceiling.
 */
module StoreInvariant {
  import opened Names
  import opened Lifecycle
  import opened Store
  import opened Invariants
  import opened CompletionLaws

  /** One runner registration issued by GitHub, and the job record it was issued for. */
  datatype Issue = Issue(key: string, fullName: string, jobID: int, runnerID: int)

  type Ledger = map<string, Issue>

  predicate IssuedTo(ledger: Ledger, identity: string, key: string) {
    identity in ledger && ledger[identity].key == key
  }

  predicate IssueBound(identity: string, i: Issue) {
    && identity == IdentityOf(i.fullName, i.runnerID) && i.key == JobKeyOf(i.fullName, i.jobID)
    && i.runnerID != 0 && !IsMarkerKey(i.key)
  }

  predicate LedgerInv(ledger: Ledger) {
    forall identity | identity in ledger :: IssueBound(identity, ledger[identity])
  }

  predicate RecordsInv(records: map<string, Record>, maxAttempts: int) {
    forall k | k in records :: RecordInv(k, records[k], maxAttempts)
  }

  /** Every runner a job record names was issued to that record. */
  predicate OwnersIssued(records: map<string, Record>, ledger: Ledger) {
    forall k | k in records && !IsMarkerKey(k) && records[k].runnerID != 0 ::
      IssuedTo(ledger, records[k].Identity(), k)
  }

  predicate IndexIssued(index: map<string, string>, ledger: Ledger) {
    forall identity | identity in index :: IssuedTo(ledger, identity, index[identity])
  }

  predicate IndexComplete(records: map<string, Record>, index: map<string, string>) {
    forall k | k in records && !IsMarkerKey(k) && records[k].runnerOwned && !records[k].status.Deleted? ::
      records[k].Identity() in index
  }

  function Slots(records: map<string, Record>): set<string> {
    set k | k in records && HoldsSlot(records[k])
  }

  predicate StoreInv(s: State, ledger: Ledger, limits: Limits) {
    && RecordsInv(s.records, limits.maxAttempts)
    && LedgerInv(ledger)
    && OwnersIssued(s.records, ledger)
    && IndexIssued(s.runnerKeys, ledger)
    && IndexComplete(s.records, s.runnerKeys)
    && |Slots(s.records)| <= limits.maxLive
  }

  /** The discipline of one step: what the controller knows when it makes it. */
  predicate Guard(s: State, op: Op, ledger: Ledger, limits: Limits) {
    match op
    case Create(r, _) => FreshEvent(r) && r.runnerID == 0 && 0 <= limits.maxAttempts
    case Complete(completion, _) => FreshEvent(completion) && 0 <= limits.maxAttempts
    case MarkJIT(key, runnerID, _, _) =>
      key in s.records ==>
        && s.records[key].claim.Provision? && runnerID != 0 && !IsMarkerKey(key)
        && IssuedTo(ledger, RunnerIdentity(s.records[key].job.owner, s.records[key].job.repository, runnerID), key)
    case Change(key, m, now) =>
      key in s.records ==>
        && Disciplined(IsMarkerKey(key), s.records[key], m, now, limits.maxAttempts)
        && (m.GrantProvision? ==> CanProvision(s.records, s.records[key], limits.maxLive))
    case _ => true
  }

  // Fleet slots

  lemma SubsetSize<T>(a: set<T>, b: set<T>)
    requires a <= b
    ensures |a| <= |b|
  {
    assert b == a + (b - a);
  }

  lemma SlotsShrink(records: map<string, Record>, records': map<string, Record>)
    requires forall k | k in records' && HoldsSlot(records'[k]) :: k in records && HoldsSlot(records[k])
    ensures |Slots(records')| <= |Slots(records)|
  {
    SubsetSize(Slots(records'), Slots(records));
  }

  /** The ceiling's own count sees at least every slot in use. */
  lemma SlotsAreLive(records: map<string, Record>, maxAttempts: int)
    requires RecordsInv(records, maxAttempts)
    ensures Slots(records) <= LiveKeys(records)
  {
  }

  /** Admission: a grant below the limit, or a retry at the limit that reuses its own slot, never exceeds it. */
  lemma GrantRespectsCeiling(records: map<string, Record>, key: string, granted: Record, limits: Limits)
    requires RecordsInv(records, limits.maxAttempts) && key in records
    requires records[key].status.Pending? && CanProvision(records, records[key], limits.maxLive)
    ensures |Slots(records[key := granted])| <= limits.maxLive
  {
    SlotsAreLive(records, limits.maxAttempts);
    var live, slots, slots' := LiveKeys(records), Slots(records), Slots(records[key := granted]);
    assert slots' <= slots + {key};
    assert key !in slots by { assert RecordInv(key, records[key], limits.maxAttempts); }
    if |live| < limits.maxLive {
      SubsetSize(slots', slots + {key});
      SubsetSize(slots, live);
    } else {
      assert key in live by { assert RecordInv(key, records[key], limits.maxAttempts); }
      SubsetSize(slots', slots + {key});
      SubsetSize(slots + {key}, live);
    }
  }

  // One record replaced

  lemma KeyFollows(key: string, r: Record, r': Record)
    requires KeyBound(key, r) && SameJob(r, r')
    requires IsMarkerKey(key) ==> r'.runnerID == r.runnerID
    ensures KeyBound(key, r')
  {
  }

  lemma PutRecord(records: map<string, Record>, key: string, r': Record, maxAttempts: int)
    requires RecordsInv(records, maxAttempts) && RecordInv(key, r', maxAttempts)
    ensures RecordsInv(records[key := r'], maxAttempts)
  {
  }

  /** Replacing a record by one that owns no new runner keeps everything but the fleet bound. */
  lemma ReplaceKeeps(s: State, key: string, r': Record, ledger: Ledger, limits: Limits)
    requires StoreInv(s, ledger, limits) && key in s.records
    requires LifecycleInv(IsMarkerKey(key), r', limits.maxAttempts)
    requires SameJob(s.records[key], r') && OwnershipKept(s.records[key], r')
    requires IsMarkerKey(key) ==> r'.runnerID == s.records[key].runnerID
    ensures RecordsInv(s.records[key := r'], limits.maxAttempts)
    ensures OwnersIssued(s.records[key := r'], ledger)
    ensures IndexComplete(s.records[key := r'], s.runnerKeys)
  {
    var r := s.records[key];
    assert RecordInv(key, r, limits.maxAttempts);
    KeyFollows(key, r, r');
    PutRecord(s.records, key, r', limits.maxAttempts);
    assert r'.runnerID == r.runnerID ==> r'.Identity() == r.Identity();
  }

  lemma ReplaceKeepsStore(s: State, key: string, r': Record, ledger: Ledger, limits: Limits)
    requires StoreInv(s, ledger, limits) && key in s.records
    requires LifecycleInv(IsMarkerKey(key), r', limits.maxAttempts)
    requires SameJob(s.records[key], r') && OwnershipKept(s.records[key], r')
    requires IsMarkerKey(key) ==> r'.runnerID == s.records[key].runnerID
    requires HoldsSlot(r') ==> HoldsSlot(s.records[key])
    ensures StoreInv(State(s.records[key := r'], s.runnerKeys), ledger, limits)
  {
    ReplaceKeeps(s, key, r', ledger, limits);
    SlotsShrink(s.records, s.records[key := r']);
  }

  /** Adding a record that owns nothing. */
  lemma AddKeepsStore(s: State, key: string, r: Record, ledger: Ledger, limits: Limits)
    requires StoreInv(s, ledger, limits)
    requires RecordInv(key, r, limits.maxAttempts) && !r.runnerOwned && !HoldsSlot(r)
    ensures StoreInv(State(s.records[key := r], s.runnerKeys), ledger, limits)
  {
    PutRecord(s.records, key, r, limits.maxAttempts);
    SlotsShrink(s.records, s.records[key := r]);
  }

  // Every step keeps the invariant

  /** The second half of MarkProvisioned writes an index entry that is already there. */
  lemma ProvisionedAlreadyIndexed(s: State, key: string, ledger: Ledger, limits: Limits)
    requires StoreInv(s, ledger, limits) && key in s.records && !IsMarkerKey(key)
    requires s.records[key].runnerOwned && !s.records[key].status.Deleted?
    ensures s.records[key].Identity() in s.runnerKeys
    ensures s.runnerKeys[s.records[key].Identity() := key] == s.runnerKeys
  {
    assert RecordInv(key, s.records[key], limits.maxAttempts);
    assert IssuedTo(ledger, s.records[key].Identity(), s.runnerKeys[s.records[key].Identity()]);
  }

  /**
   The write keeps the invariant whenever it runs: an identity issued to the record may be indexed to
   it, even if the record has lost the runner or the index its entry in between.
   */
  lemma LateIndexWriteKeeps(s: State, key: string, identity: string, ledger: Ledger, limits: Limits)
    requires StoreInv(s, ledger, limits) && IssuedTo(ledger, identity, key)
    ensures StoreInv(State(s.records, s.runnerKeys[identity := key]), ledger, limits)
  {
  }

  lemma ChangeKeeps(s: State, key: string, m: Mutation, now: Time, ledger: Ledger, limits: Limits)
    requires StoreInv(s, ledger, limits)
    requires Guard(s, Change(key, m, now), ledger, limits)
    ensures StoreInv(Update(s, key, m, now), ledger, limits)
  {
    if key in s.records {
      var r := s.records[key];
      var r' := Mutate(m, r, now);
      assert RecordInv(key, r, limits.maxAttempts);
      MutationFollows(IsMarkerKey(key), m, r, now, limits.maxAttempts);
      if m.GrantProvision? && r' != r {
        assert r.status.Pending?;
        GrantRespectsCeiling(s.records, key, r', limits);
        ReplaceKeeps(s, key, r', ledger, limits);
      } else {
        ReplaceKeepsStore(s, key, r', ledger, limits);
      }
      if IndexesProvisioned(r, key, m) {
        ProvisionedAlreadyIndexed(s, key, ledger, limits);
      }
    }
  }

  lemma CreateKeeps(s: State, r: Record, now: Time, ledger: Ledger, limits: Limits)
    requires StoreInv(s, ledger, limits)
    requires Guard(s, Create(r, now), ledger, limits)
    ensures StoreInv(Apply(s, Create(r, now)), ledger, limits)
  {
    if r.job.key !in s.records {
      EventRecordsStart(r, now, limits.maxAttempts);
      AddKeepsStore(s, r.job.key, Created(r, now), ledger, limits);
    }
  }

  lemma RunnerPhaseKeeps(s: State, completion: Record, now: Time, ledger: Ledger, limits: Limits)
    requires StoreInv(s, ledger, limits) && FreshEvent(completion) && 0 <= limits.maxAttempts
    ensures StoreInv(State(RunnerPhase(s, completion, now), s.runnerKeys), ledger, limits)
  {
    if completion.runnerID == 0 {
    } else if RunnerMatched(s, completion) {
      var key := IndexedKey(s, completion);
      assert IssuedTo(ledger, RunnerIdentity(completion.job.owner, completion.job.repository, completion.runnerID),
          key);
      assert RecordInv(key, s.records[key], limits.maxAttempts);
      RunnerCompletedPassive(false, s.records[key], completion, now, limits.maxAttempts);
      ReplaceKeepsStore(s, key, RunnerCompleted(s.records[key], completion, now), ledger, limits);
    } else {
      EventRecordsStart(completion, now, limits.maxAttempts);
      var marker := Marker(completion, now);
      MarkerKeyInjective(completion.job.owner, completion.job.repository, completion.runnerID, "", "", 0);
      AddKeepsStore(s, marker.job.key, marker, ledger, limits);
    }
  }

  lemma EventPhaseKeeps(s: State, completion: Record, now: Time, ledger: Ledger, limits: Limits)
    requires StoreInv(s, ledger, limits) && FreshEvent(completion) && 0 <= limits.maxAttempts
    ensures StoreInv(State(EventPhase(s.records, completion, now), s.runnerKeys), ledger, limits)
  {
    var key := completion.job.key;
    if key in s.records {
      assert RecordInv(key, s.records[key], limits.maxAttempts);
      JobCompletedOnPassive(false, s.records[key], completion, now, limits.maxAttempts);
      ReplaceKeepsStore(s, key, JobCompletedOn(s.records[key], completion, now), ledger, limits);
    } else {
      EventRecordsStart(completion, now, limits.maxAttempts);
      AddKeepsStore(s, key, Tombstone(completion, now), ledger, limits);
    }
  }

  /** A stale entry, dropped by a completion that it does not match, had no owner. */
  lemma StaleEntryHasNoOwner(s: State, completion: Record, ledger: Ledger, limits: Limits, k: string)
    requires StoreInv(s, ledger, limits) && '/' !in completion.job.repository
    requires completion.runnerID != 0 && Indexed(s, completion) && !RunnerMatched(s, completion)
    requires k in s.records && !IsMarkerKey(k) && s.records[k].runnerOwned && !s.records[k].status.Deleted?
    ensures s.records[k].Identity() != RunnerIdentity(completion.job.owner, completion.job.repository,
        completion.runnerID)
  {
    var r := s.records[k];
    assert RecordInv(k, r, limits.maxAttempts);
    RunnerIdentityIsFoldedName(r.job.owner, r.job.repository, r.runnerID,
                               completion.job.owner, completion.job.repository, completion.runnerID);
    assert IssuedTo(ledger, r.Identity(), k);
    assert r.Identity() in s.runnerKeys && IssuedTo(ledger, r.Identity(), s.runnerKeys[r.Identity()]);
  }

  lemma CompleteKeeps(s: State, completion: Record, now: Time, ledger: Ledger, limits: Limits)
    requires StoreInv(s, ledger, limits)
    requires Guard(s, Complete(completion, now), ledger, limits)
    ensures StoreInv(RecordCompletion(s, completion, now), ledger, limits)
  {
    var afterRunner := RunnerPhase(s, completion, now);
    RunnerPhaseKeeps(s, completion, now, ledger, limits);
    EventPhaseKeeps(State(afterRunner, s.runnerKeys), completion, now, ledger, limits);
    var s' := RecordCompletion(s, completion, now);
    assert StoreInv(State(s'.records, s.runnerKeys), ledger, limits);
    if completion.runnerID != 0 && Indexed(s, completion) && !RunnerMatched(s, completion) {
      forall k | k in s'.records && !IsMarkerKey(k) && s'.records[k].runnerOwned && !s'.records[k].status.Deleted?
        ensures s'.records[k].Identity() in s'.runnerKeys
      {
        EventPhaseOwners(afterRunner, completion, now, k);
        assert s.records[k].Identity() == s'.records[k].Identity();
        StaleEntryHasNoOwner(s, completion, ledger, limits, k);
      }
    }
  }

  lemma EventPhaseOwners(records: map<string, Record>, completion: Record, now: Time, k: string)
    requires FreshEvent(completion)
    requires k in EventPhase(records, completion, now) && EventPhase(records, completion, now)[k].runnerOwned
    requires !EventPhase(records, completion, now)[k].status.Deleted?
    ensures k in records && records[k].runnerOwned && !records[k].status.Deleted?
    ensures EventPhase(records, completion, now)[k].Identity() == records[k].Identity()
  {
  }

  /** Registering a runner on the record whose provision claim is held. */
  lemma RegisterKeeps(s: State, key: string, runnerID: int, r': Record, ledger: Ledger, limits: Limits)
    requires StoreInv(s, ledger, limits) && key in s.records && !IsMarkerKey(key)
    requires LifecycleInv(false, r', limits.maxAttempts) && SameJob(s.records[key], r') && HoldsSlot(s.records[key])
    requires r'.runnerID == runnerID != 0 && IssuedTo(ledger, r'.Identity(), key)
    ensures StoreInv(State(s.records[key := r'], s.runnerKeys[r'.Identity() := key]), ledger, limits)
  {
    var r := s.records[key];
    assert RecordInv(key, r, limits.maxAttempts);
    KeyFollows(key, r, r');
    PutRecord(s.records, key, r', limits.maxAttempts);
    SlotsShrink(s.records, s.records[key := r']);
  }

  lemma MarkJITKeeps(s: State, key: string, runnerID: int, name: string, now: Time, ledger: Ledger, limits: Limits)
    requires StoreInv(s, ledger, limits)
    requires Guard(s, MarkJIT(key, runnerID, name, now), ledger, limits)
    ensures StoreInv(MarkJITCreated(s, key, runnerID, name, now), ledger, limits)
  {
    if key in s.records && !s.records[key].Terminal() {
      var r := s.records[key];
      assert RecordInv(key, r, limits.maxAttempts);
      if MarkerWaiting(s.records, r, runnerID) {
        var markerKey := MarkerKey(r.job.owner, r.job.repository, runnerID);
        var marker := s.records[markerKey];
        MarkerKeyInjective(r.job.owner, r.job.repository, runnerID, "", "", 0);
        assert RecordInv(markerKey, marker, limits.maxAttempts);
        RetiredMarkerKeeps(marker, now, limits.maxAttempts);
        ReplaceKeepsStore(s, markerKey, RetiredMarker(marker, now), ledger, limits);
        RegistrationKeeps(r, runnerID, name, marker, now, limits.maxAttempts);
        RegisterKeeps(State(s.records[markerKey := RetiredMarker(marker, now)], s.runnerKeys), key, runnerID,
                      CompletedByMarker(Registered(r, runnerID, name, now), marker), ledger, limits);
      } else {
        RegistrationKeeps(r, runnerID, name, r, now, limits.maxAttempts);
        RegisterKeeps(s, key, runnerID, Registered(r, runnerID, name, now), ledger, limits);
      }
    }
  }

  lemma SweepOnRecord(records: map<string, Record>, provider: Cloud, cutoff: Time, now: Time, limits: Limits, k: string)
    requires RecordsInv(records, limits.maxAttempts) && k in records
    ensures var r' := ReleaseSweptOrphans(records, provider, cutoff, now)[k];
      && RecordInv(k, r', limits.maxAttempts) && OwnershipKept(records[k], r')
      && SameJob(records[k], r') && r'.runnerID == records[k].runnerID
      && (HoldsSlot(r') ==> HoldsSlot(records[k]))
  {
    var r := records[k];
    assert RecordInv(k, r, limits.maxAttempts);
    if Sweepable(r, provider, cutoff) {
      SweptKeeps(IsMarkerKey(k), r, now, limits.maxAttempts);
      KeyFollows(k, r, r.(instanceID := NoInstance, updatedAt := now));
    }
  }

  lemma SweepKeeps(s: State, provider: Cloud, cutoff: Time, now: Time, ledger: Ledger, limits: Limits)
    requires StoreInv(s, ledger, limits)
    ensures StoreInv(State(ReleaseSweptOrphans(s.records, provider, cutoff, now), s.runnerKeys), ledger, limits)
  {
    var records' := ReleaseSweptOrphans(s.records, provider, cutoff, now);
    forall k | k in records'
      ensures RecordInv(k, records'[k], limits.maxAttempts)
      ensures OwnershipKept(s.records[k], records'[k])
      ensures records'[k].Identity() == s.records[k].Identity()
      ensures HoldsSlot(records'[k]) ==> HoldsSlot(s.records[k])
    {
      SweepOnRecord(s.records, provider, cutoff, now, limits, k);
    }
    SlotsShrink(s.records, records');
  }

  lemma PruneKeeps(s: State, cutoff: int, ledger: Ledger, limits: Limits)
    requires StoreInv(s, ledger, limits)
    ensures StoreInv(State(PruneDeleted(s.records, cutoff), s.runnerKeys), ledger, limits)
  {
    SlotsShrink(s.records, PruneDeleted(s.records, cutoff));
  }

  lemma RecoverKeeps(records: map<string, Record>, now: Time, retention: nat, limits: Limits, k: string)
    requires RecordsInv(records, limits.maxAttempts) && k in RecoverRecords(records, now, retention)
    ensures var r' := RecoverRecords(records, now, retention)[k];
      && RecordInv(k, r', limits.maxAttempts) && Passive(IsMarkerKey(k), records[k], r')
      && r'.claim.NoWork? && (r'.runnerID != 0 ==> r'.Identity() == records[k].Identity())
  {
    assert RecordInv(k, records[k], limits.maxAttempts);
    RecoveryPassive(IsMarkerKey(k), records[k], now, retention, limits.maxAttempts);
    KeyFollows(k, records[k], RecoverRecords(records, now, retention)[k]);
  }

  /** A rebuilt index serves the recovered records as well as the index it replaces. */
  lemma RestartKeeps(s: State, now: Time, retention: nat, s': State, ledger: Ledger, limits: Limits)
    requires StoreInv(s, ledger, limits)
    requires Step(s, Restart(now, retention), s')
    ensures StoreInv(s', ledger, limits)
  {
    forall k | k in s'.records
      ensures RecordInv(k, s'.records[k], limits.maxAttempts)
      ensures HoldsSlot(s'.records[k]) ==> HoldsSlot(s.records[k])
      ensures !IsMarkerKey(k) && s'.records[k].runnerID != 0 ==> IssuedTo(ledger, s'.records[k].Identity(), k)
    {
      RecoverKeeps(s.records, now, retention, limits, k);
    }
    SlotsShrink(s.records, s'.records);
    forall identity | identity in s'.runnerKeys
      ensures IssuedTo(ledger, identity, s'.runnerKeys[identity])
    {
      var k := s'.runnerKeys[identity];
      assert RecordInv(k, s'.records[k], limits.maxAttempts);
    }
    forall k | k in s'.records && !IsMarkerKey(k) && s'.records[k].runnerOwned && !s'.records[k].status.Deleted?
      ensures s'.records[k].Identity() in s'.runnerKeys
    {
      var r := s'.records[k];
      assert RecordInv(k, r, limits.maxAttempts);
      MarkerKeyInjective(r.job.owner, r.job.repository, r.runnerID, "", "", 0);
      assert IndexWorthy(k, r);
    }
  }

  /** Every disciplined step keeps the whole invariant, the fleet ceiling included. */
  lemma StepKeeps(s: State, op: Op, s': State, ledger: Ledger, limits: Limits)
    requires StoreInv(s, ledger, limits)
    requires Guard(s, op, ledger, limits) && Step(s, op, s')
    ensures StoreInv(s', ledger, limits)
  {
    match op
    case Create(r, now) => CreateKeeps(s, r, now, ledger, limits);
    case Complete(completion, now) => CompleteKeeps(s, completion, now, ledger, limits);
    case MarkJIT(key, runnerID, name, now) => MarkJITKeeps(s, key, runnerID, name, now, ledger, limits);
    case Change(key, m, now) => ChangeKeeps(s, key, m, now, ledger, limits);
    case SweepOrphans(provider, cutoff, now) => SweepKeeps(s, provider, cutoff, now, ledger, limits);
    case Prune(cutoff) => PruneKeeps(s, cutoff, ledger, limits);
    case Restart(now, retention) => RestartKeeps(s, now, retention, s', ledger, limits);
  }

  /** Issuing another runner id to a record changes nothing the store already knows. */
  lemma LedgerGrowthKeeps(s: State, ledger: Ledger, ledger': Ledger, limits: Limits)
    requires StoreInv(s, ledger, limits) && LedgerInv(ledger')
    requires forall identity | identity in ledger :: identity in ledger' && ledger'[identity] == ledger[identity]
    ensures StoreInv(s, ledger', limits)
  {
  }
}
