/**
 What one call of ClaimNext decides: the scan in key order, its backstop transitions for
 spent budgets, and the claim it grants.
 */
module Scheduling {
  import opened Names
  import opened Lifecycle
  import opened Store
  import opened Invariants
  import opened MutationKeeps
  import opened StoreInvariant
  import opened KeyOrder

  /** A record whose budget is spent is retired when the scan passes it. */
  function Backstopped(r: Record, maxAttempts: int, now: Time): Record {
    if ProvisioningExhausted(r, maxAttempts) then OnExhaustProvisioning(r, maxAttempts, now)
    else OnExhaustDeletion(r, maxAttempts, now)
  }

  /** The records after the scan has passed the given keys. */
  function PassedOver(records: map<string, Record>, passed: set<string>, maxAttempts: int, now: Time): map<string,
                      Record> {
    map k | k in records :: if k in passed then Backstopped(records[k], maxAttempts, now) else records[k]
  }

  /** The work a record is ready for, if admission allows it. */
  function ReadyFor(r: Record, admitted: bool, maxAttempts: int, now: Time): Work {
    if !Due(r, now) || ProvisioningExhausted(r, maxAttempts) || DeletionExhausted(r, maxAttempts) then NoWork
    else if ProvisionEligible(r, maxAttempts) && admitted then Provision
    else if DeleteEligible(r, maxAttempts) then Delete
    else NoWork
  }

  /** The scan has to write the record: to retire it, or to grant it. */
  predicate Writes(r: Record, admitted: bool, maxAttempts: int, now: Time) {
    && Due(r, now)
    && (ProvisioningExhausted(r, maxAttempts) || DeletionExhausted(r, maxAttempts)
        || !ReadyFor(r, admitted, maxAttempts, now).NoWork?)
  }

  function Granted(r: Record, kind: Work, maxAttempts: int, now: Time): Record {
    if kind.Provision? then OnGrantProvision(r, maxAttempts, now) else OnGrantDelete(r, maxAttempts, now)
  }

  /** Ready for work in the given records. */
  predicate Eligible(records: map<string, Record>, k: string, maxLive: nat, maxAttempts: int, now: Time)
    requires k in records
  {
    !ReadyFor(records[k], CanProvision(records, records[k], maxLive), maxAttempts, now).NoWork?
  }

  // The backstops do not disturb the admission count the scan started with

  lemma BackstopKeepsCount(r: Record, maxAttempts: int, now: Time)
    ensures CountsAsLive(Backstopped(r, maxAttempts, now)) <==> CountsAsLive(r)
    ensures ReservedSlot(Backstopped(r, maxAttempts, now)) == ReservedSlot(r)
  {
    if ProvisioningExhausted(r, maxAttempts) {} else {}
  }

  lemma PassingKeepsCount(records: map<string, Record>, passed: set<string>, maxAttempts: int, now: Time)
    ensures LiveRunners(PassedOver(records, passed, maxAttempts, now)) == LiveRunners(records)
  {
    var records' := PassedOver(records, passed, maxAttempts, now);
    forall k | k in records ensures CountsAsLive(records'[k]) <==> CountsAsLive(records[k]) {
      BackstopKeepsCount(records[k], maxAttempts, now);
    }
    assert LiveKeys(records') == LiveKeys(records);
  }

  /** A record the scan has passed is not ready for anything any more. */
  lemma BackstoppedIsNotReady(r: Record, admitted: bool, maxAttempts: int, now: Time)
    requires ReadyFor(r, admitted, maxAttempts, now).NoWork?
    ensures ReadyFor(Backstopped(r, maxAttempts, now), admitted, maxAttempts, now).NoWork?
  {
    if ProvisioningExhausted(r, maxAttempts) {} else if DeletionExhausted(r, maxAttempts) {} else {}
  }

  // The outcome of a scan

  datatype Claim = NoClaim | Claimed(key: string, kind: Work)

  predicate Before(k: string, claim: Claim) { claim.Claimed? ==> Less(k, claim.key) }

  /** The keys a scan passes before it stops. */
  function KeysBefore(records: map<string, Record>, claim: Claim): set<string> {
    set k | k in records && Before(k, claim)
  }

  function ScanResult(records: map<string, Record>, claim: Claim, maxAttempts: int, now: Time): map<string, Record>
    requires claim.Claimed? ==> claim.key in records
  {
    var passed := PassedOver(records, KeysBefore(records, claim), maxAttempts, now);
    if claim.NoClaim? then passed
    else passed[claim.key := Granted(records[claim.key], claim.kind, maxAttempts, now)]
  }

  /** The scan's choice: the least eligible key, or nothing because no key is eligible. */
  predicate IsScan(records: map<string, Record>, claim: Claim, maxLive: nat, maxAttempts: int, now: Time) {
    && (forall k | k in records && Before(k, claim) :: !Eligible(records, k, maxLive, maxAttempts, now))
    && (claim.Claimed? ==>
          && claim.key in records && !claim.kind.NoWork?
          && claim.kind ==
             ReadyFor(records[claim.key], CanProvision(records, records[claim.key], maxLive), maxAttempts, now))
  }

  /** When the scan returns nothing, nothing is left to claim in the records it leaves behind. */
  lemma EmptyScanLeavesNothing(records: map<string, Record>, maxLive: nat, maxAttempts: int, now: Time, k: string)
    requires IsScan(records, NoClaim, maxLive, maxAttempts, now) && k in records
    ensures !Eligible(ScanResult(records, NoClaim, maxAttempts, now), k, maxLive, maxAttempts, now)
  {
    var passed := KeysBefore(records, NoClaim);
    PassingKeepsCount(records, passed, maxAttempts, now);
    assert !Eligible(records, k, maxLive, maxAttempts, now) && k in passed;
    BackstopKeepsCount(records[k], maxAttempts, now);
    BackstoppedIsNotReady(records[k], CanProvision(records, records[k], maxLive), maxAttempts, now);
  }

  /** Two scans of the same records cannot choose differently. */
  lemma ScanIsDetermined(records: map<string, Record>, a: Claim, b: Claim, maxLive: nat, maxAttempts: int, now: Time)
    requires IsScan(records, a, maxLive, maxAttempts, now) && IsScan(records, b, maxLive, maxAttempts, now)
    ensures a == b
  {
    if a.Claimed? && b.Claimed? && a.key != b.key {
      LessTotal(a.key, b.key);
    }
  }

  // A scan keeps the store invariant

  lemma BackstopKeepsRecord(marker: bool, r: Record, now: Time, maxAttempts: int)
    requires LifecycleInv(marker, r, maxAttempts)
    ensures var r' := Backstopped(r, maxAttempts, now);
      && LifecycleInv(marker, r', maxAttempts) && SameJob(r, r') && OwnershipKept(r, r')
      && r'.runnerID == r.runnerID && (HoldsSlot(r') ==> HoldsSlot(r))
  {
    if ProvisioningExhausted(r, maxAttempts) {
      ExhaustProvisioningKeeps(marker, r, maxAttempts, now, maxAttempts);
    } else {
      ExhaustDeletionKeeps(marker, r, maxAttempts, now, maxAttempts);
    }
  }

  lemma PassingKeepsInvariant(s: State, passed: set<string>, ledger: Ledger, limits: Limits, now: Time)
    requires StoreInv(s, ledger, limits)
    ensures StoreInv(State(PassedOver(s.records, passed, limits.maxAttempts, now), s.runnerKeys), ledger, limits)
  {
    var records' := PassedOver(s.records, passed, limits.maxAttempts, now);
    forall k | k in records'
      ensures RecordInv(k, records'[k], limits.maxAttempts)
      ensures OwnershipKept(s.records[k], records'[k])
      ensures records'[k].Identity() == s.records[k].Identity()
      ensures HoldsSlot(records'[k]) ==> HoldsSlot(s.records[k])
    {
      assert RecordInv(k, s.records[k], limits.maxAttempts);
      BackstopKeepsRecord(IsMarkerKey(k), s.records[k], now, limits.maxAttempts);
      KeyFollows(k, s.records[k], records'[k]);
    }
    SlotsShrink(s.records, records');
  }

  lemma GrantKeepsRecord(marker: bool, r: Record, kind: Work, admitted: bool, now: Time, maxAttempts: int)
    requires LifecycleInv(marker, r, maxAttempts) && kind == ReadyFor(r, admitted, maxAttempts, now) && !kind.NoWork?
    ensures var r' := Granted(r, kind, maxAttempts, now);
      && LifecycleInv(marker, r', maxAttempts) && SameJob(r, r') && OwnershipKept(r, r')
      && r'.runnerID == r.runnerID && (kind.Delete? && HoldsSlot(r') ==> HoldsSlot(r))
      && r'.claim == kind && r.claim.NoWork?
  {
    GrantProvisionKeeps(marker, r, maxAttempts, now, maxAttempts);
    GrantDeleteKeeps(marker, r, maxAttempts, now, maxAttempts);
  }

  /** Whatever a scan retires and grants, the store invariant and the fleet ceiling survive it. */
  lemma ScanKeepsInvariant(s: State, claim: Claim, ledger: Ledger, limits: Limits, now: Time)
    requires StoreInv(s, ledger, limits)
    requires IsScan(s.records, claim, limits.maxLive, limits.maxAttempts, now)
    ensures StoreInv(State(ScanResult(s.records, claim, limits.maxAttempts, now), s.runnerKeys), ledger, limits)
  {
    var passed := PassedOver(s.records, KeysBefore(s.records, claim), limits.maxAttempts, now);
    PassingKeepsInvariant(s, KeysBefore(s.records, claim), ledger, limits, now);
    if claim.Claimed? {
      var r := s.records[claim.key];
      LessIrreflexive(claim.key);
      assert passed[claim.key] == r;
      PassingKeepsCount(s.records, KeysBefore(s.records, claim), limits.maxAttempts, now);
      assert RecordInv(claim.key, r, limits.maxAttempts);
      GrantKeepsRecord(IsMarkerKey(claim.key), r, claim.kind, CanProvision(s.records, r, limits.maxLive), now,
          limits.maxAttempts);
      GrantOnRecords(State(passed, s.runnerKeys), claim.key, claim.kind, now, ledger, limits);
    }
  }

  lemma GrantOnRecords(s: State, key: string, kind: Work, now: Time, ledger: Ledger, limits: Limits)
    requires StoreInv(s, ledger, limits) && key in s.records && !kind.NoWork?
    requires kind == ReadyFor(s.records[key], CanProvision(s.records, s.records[key], limits.maxLive),
        limits.maxAttempts, now)
    ensures StoreInv(State(s.records[key := Granted(s.records[key], kind, limits.maxAttempts, now)], s.runnerKeys),
        ledger, limits)
  {
    var r := s.records[key];
    var r' := Granted(r, kind, limits.maxAttempts, now);
    assert RecordInv(key, r, limits.maxAttempts);
    GrantKeepsRecord(IsMarkerKey(key), r, kind, CanProvision(s.records, r, limits.maxLive), now, limits.maxAttempts);
    if kind.Provision? {
      GrantRespectsCeiling(s.records, key, r', limits);
      ReplaceKeeps(s, key, r', ledger, limits);
    } else {
      ReplaceKeepsStore(s, key, r', ledger, limits);
    }
  }
}
