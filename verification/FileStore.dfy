/**
 The store itself: record map, persisted shadow, dirty keys, runner index, cached key order and
 the two files. Every public method is one critical section; it commits one operation of module
 Store, or fails and leaves memory as it was. Disk faults are parameters of the methods.
 */
module FileStores {
  import opened Names
  import opened Lifecycle
  import opened Store
  import opened Wrappers
  import opened Framing
  import opened Journal
  import opened KeyOrder
  import opened Scheduling
  import opened Invariants
  import opened RunProperties
  import opened Transactions

  /** What happens to the compaction that may follow an append. */
  datatype Compaction = SnapshotFailed | JournalKept | JournalTruncated(synced: bool)

  /** What happens to one save: it never starts, fails with or without a working rollback, or is durable. */
  datatype SaveFault =
    | NoDirectory
    | NotStarted
    | RolledBack
    | RollbackFailed(n: nat)
    | Appended(compaction: Compaction)

  datatype UpdateResult = Missing | SaveFailed | Saved

  const COMPACT_ENTRIES: nat := 512
  const COMPACT_BYTES: nat := 4 * 1024 * 1024
  const DEFAULT_RETENTION: nat := 24 * 60 * 60 * 1_000_000_000
  const DEFAULT_MAX_LIVE: nat := 20

  datatype Visit = Stopped | Visited(kind: Work)

  // When the journal has grown long, and how a save leaves its counters

  datatype Counters = Counters(entries: nat, bytes: nat)

  predicate Long(c: Counters) { c.entries >= COMPACT_ENTRIES || c.bytes >= COMPACT_BYTES }

  function CountersAfter(c: Counters, codec: Codec<Entry>, changes: Entry, fault: SaveFault): Counters {
    if changes == map[] then c
    else
      var appended := Counters(c.entries + 1, c.bytes + |Frame(codec, changes)|);
      if Long(appended) && fault == Appended(JournalTruncated(true)) then Counters(0, 0) else appended
  }

  /** Opening must end with a short journal and a snapshot file. */
  predicate Finalizes(c: Counters, snapshotMissing: bool, fault: Compaction) {
    if Long(c) then fault == JournalTruncated(true) else snapshotMissing ==> fault.JournalTruncated?
  }

  predicate SaveWorks(fault: SaveFault, changed: bool) { !fault.NoDirectory? && (changed ==> fault.Appended?) }

  // The outcome of a scan whose saves may fail

  datatype ClaimResult = Canceled | ClaimFailed(at: string) | Scanned(claim: Claim)

  /** The saves that do not become durable. */
  function Failing(closed: bool, faults: string -> SaveFault): string -> bool {
    k => closed || !faults(k).Appended?
  }

  /** The scan cannot get past this key: it has to save there, and the save fails. */
  predicate Blocks(before: Records, k: string, maxLive: nat, maxAttempts: int, now: Time, failing: string -> bool)
    requires k in before
  {
    Writes(before[k], CanProvision(before, before[k], maxLive), maxAttempts, now) && failing(k)
  }

  predicate AllPassed(before: Records, passed: set<string>, maxLive: nat, maxAttempts: int, now: Time,
                      failing: string -> bool)
  {
    forall k | k in before && k in passed ::
      !Eligible(before, k, maxLive, maxAttempts, now) && !Blocks(before, k, maxLive, maxAttempts, now, failing)
  }

  /** What a scan that was not canceled reports. */
  predicate ScanFits(before: Records, result: ClaimResult, maxLive: nat, maxAttempts: int, now: Time,
                     failing: string -> bool)
  {
    match result
    case Canceled => false
    case Scanned(claim) =>
      && IsScan(before, claim, maxLive, maxAttempts, now)
      && AllPassed(before, KeysBefore(before, claim), maxLive, maxAttempts, now, failing)
      && (claim.Claimed? ==> !Blocks(before, claim.key, maxLive, maxAttempts, now, failing))
    case ClaimFailed(at) =>
      && at in before && Blocks(before, at, maxLive, maxAttempts, now, failing)
      && AllPassed(before, KeysBefore(before, Claimed(at, NoWork)), maxLive, maxAttempts, now, failing)
  }

  lemma PassedOneMore(before: Records, keys: seq<string>, i: nat, maxLive: nat, maxAttempts: int, now: Time,
                      failing: string -> bool)
    requires i < |keys| && AllPassed(before, Visits(keys, i), maxLive, maxAttempts, now, failing)
    requires keys[i] in before && !Eligible(before, keys[i], maxLive, maxAttempts, now)
    requires !Blocks(before, keys[i], maxLive, maxAttempts, now, failing)
    ensures AllPassed(before, Visits(keys, i + 1), maxLive, maxAttempts, now, failing)
  {
    assert keys[..i + 1] == keys[..i] + [keys[i]];
  }

  /** The key a result stops at, if it stops. */
  function StopOf(result: ClaimResult): Claim {
    match result
    case Canceled => NoClaim
    case ClaimFailed(at) => Claimed(at, NoWork)
    case Scanned(claim) => claim
  }

  /** No two results fit the same records and faults: a scan claims, fails or finds nothing for one reason only. */
  lemma ScanOutcomeIsDetermined(before: Records, a: ClaimResult, b: ClaimResult, maxLive: nat, maxAttempts: int,
                                now: Time,
                                failing: string -> bool)
    requires ScanFits(before, a, maxLive, maxAttempts, now, failing)
    requires ScanFits(before, b, maxLive, maxAttempts, now, failing)
    ensures a == b
  {
    if StopOf(a).Claimed? && StopOf(b).Claimed? {
      LessTotal(StopOf(a).key, StopOf(b).key);
    }
  }

  class FileStore {
    // The files
    const codec: Codec<Entry>
    var snapshot: Option<Records>
    var journal: seq<byte>

    // Memory
    var records: Records
    var persisted: Records
    var dirtyKeys: set<string>
    var runnerKeys: map<string, string>
    const deletedRetention: nat
    var orderedKeys: seq<string>
    var keysDirty: bool
    var journalEntries: nat
    var journalBytes: nat
    var maxLiveRunners: nat
    var closed: bool

    /** The entries in the journal, and whether every failed append so far was rolled back. */
    ghost var log: seq<Entry>
    ghost var intact: bool

    function Files(): Disk reads this`snapshot, this`journal { Disk(snapshot, journal) }

    function Current(): State reads this`records, this`runnerKeys { State(records, runnerKeys) }

    function Count(): Counters reads this`journalEntries, this`journalBytes { Counters(journalEntries, journalBytes) }

    /** What no lifecycle operation touches. */
    predicate SettingsKept(limit: nat, wasClosed: bool) reads this`maxLiveRunners, this`closed {
      maxLiveRunners == limit && closed == wasClosed
    }

    ghost predicate Durable()
      reads this`snapshot, this`journal, this`persisted, this`journalEntries, this`journalBytes, this`log, this`intact
    {
      && GoodCodec(codec)
      && (intact ==> Holds(codec, Files(), log, persisted) && |journal| <= journalBytes && |log| <= journalEntries)
    }

    predicate OnlyDirtyDiffer() reads this`records, this`persisted, this`dirtyKeys {
      forall k | k in persisted.Keys + records.Keys && k !in dirtyKeys :: Agree(persisted, records, k)
    }

    predicate OrderCached() reads this`records, this`orderedKeys,
                          this`keysDirty { !keysDirty ==> IsSortedKeys(orderedKeys, records.Keys) }

    /** Between operations memory and its persisted shadow are the same, and the disk holds both. */
    ghost predicate Valid() reads this { Durable() && records == persisted && OrderCached() }

    constructor (codec: Codec<Entry>, disk: Disk, retention: nat)
      requires retention >= DEFAULT_RETENTION
      ensures this.codec == codec && Files() == disk
      ensures records == map[] && persisted == map[] && runnerKeys == map[] && dirtyKeys == {}
      ensures keysDirty && journalEntries == 0 && journalBytes == 0 && !closed
      ensures deletedRetention == retention && maxLiveRunners == DEFAULT_MAX_LIVE
    {
      this.codec := codec;
      snapshot, journal := disk.snapshot, disk.journal;
      records, persisted, dirtyKeys, runnerKeys := map[], map[], {}, map[];
      deletedRetention, maxLiveRunners, closed := retention, DEFAULT_MAX_LIVE, false;
      orderedKeys, keysDirty := [], true;
      journalEntries, journalBytes := 0, 0;
      log, intact := [], false;
    }

    // Saving

    method DirtyChanges() returns (changes: Entry)
      ensures changes == DirtyDiff(persisted, records, dirtyKeys)
    {
      changes := map[];
      var rest := dirtyKeys;
      while rest != {}
        invariant rest <= dirtyKeys
        invariant changes == DirtyDiff(persisted, records, dirtyKeys - rest)
      {
        var key :| key in rest;
        if key !in records && key in persisted {
          changes := changes[key := None];
        } else if key in records && (key !in persisted || records[key] != persisted[key]) {
          changes := changes[key := Some(records[key])];
        }
        rest := rest - {key};
      }
      assert dirtyKeys - {} == dirtyKeys;
    }

    /** Replaces the snapshot and empties the journal, as far as the disk lets it. */
    method CompactLocked(fault: Compaction) returns (ok: bool)
      requires Durable() && records == persisted
      modifies this`snapshot, this`journal, this`journalEntries, this`journalBytes, this`log, this`intact
      ensures Durable()
      ensures old(intact) || fault.JournalTruncated? ==> intact
      ensures ok <==> fault == JournalTruncated(true)
      ensures Count() == if ok then Counters(0, 0) else old(Count())
      ensures Files() == match fault
        case SnapshotFailed => old(Files())
        case JournalKept => Disk(Some(records), old(journal))
        case JournalTruncated(_) => Disk(Some(records), [])
    {
      if fault.SnapshotFailed? { return false; }
      if intact {
        SnapshotHolds(codec, Files(), log, records);
      }
      snapshot := Some(records);
      if fault.JournalKept? { return false; }
      assert Encoded(codec, []) == [];
      journal, log, intact := [], [], true;
      if !fault.synced { return false; }
      journalEntries, journalBytes := 0, 0;
      return true;
    }

    /** The append succeeded and is durable. */
    method AppendLocked(changes: Entry)
      requires Durable() && changes == Diff(persisted, records)
      modifies this`journal, this`persisted, this`dirtyKeys, this`journalEntries, this`journalBytes, this`log
      ensures Durable() && persisted == records && dirtyKeys == {}
      ensures journal == old(journal) + Frame(codec, changes)
      ensures Count() == Counters(old(journalEntries) + 1, old(journalBytes) + |Frame(codec, changes)|)
    {
      if intact {
        AppendHolds(codec, Files(), log, persisted, changes);
      }
      DiffApplies(persisted, records);
      persisted := AbsorbChanges(persisted, changes);
      var data := Frame(codec, changes);
      journal, log := journal + data, log + [changes];
      dirtyKeys := {};
      journalEntries, journalBytes := journalEntries + 1, journalBytes + |data|;
    }

    /** Appends the changes and compacts a journal that has grown long. */
    method CommitLocked(changes: Entry, compaction: Compaction) returns (ghost reached: Progress)
      requires Durable() && changes == Diff(persisted, records) != map[]
      modifies this`snapshot, this`journal, this`persisted, this`dirtyKeys,
               this`journalEntries, this`journalBytes, this`log, this`intact
      ensures Durable() && (old(intact) ==> intact)
      ensures persisted == records && dirtyKeys == {}
      ensures Count() == CountersAfter(old(Count()), codec, changes, Appended(compaction))
      ensures Files() == DiskAt(codec, old(Files()), changes, records, reached) && Committed(codec, changes, reached)
      ensures KeepsShort(old(Count()), |Frame(codec, changes)|, old(snapshot), Appended(compaction))
    {
      AppendLocked(changes);
      reached := Appending(|Frame(codec, changes)|);
      assert Frame(codec, changes)[..|Frame(codec, changes)|] == Frame(codec, changes);
      if Long(Count()) {
        var _ := CompactLocked(compaction);
        if !compaction.SnapshotFailed? {
          reached := if compaction.JournalKept? then SnapshotReplaced else JournalEmptied;
        }
      }
    }

    /**
     A journal that reaches 512 entries or 4 MiB is compacted as soon as the disk lets it; a shorter
     one is left to grow, and its snapshot alone.
     */
    predicate KeepsShort(was: Counters, added: nat, oldSnapshot: Option<Records>, fault: SaveFault)
      reads this`snapshot, this`journalEntries, this`journalBytes
    {
      if was.entries + 1 < 512 && was.bytes + added < 4194304
      then snapshot == oldSnapshot && journalEntries == was.entries + 1 && journalBytes == was.bytes + added
      else fault == Appended(JournalTruncated(true)) ==> journalEntries == 0 && journalBytes == 0
    }

    /**
     Journals the dirty differences. reached says how far the disk came; a crash at that moment
     leaves exactly the files the method leaves.
     */
    method SaveLocked(fault: SaveFault) returns (ok: bool, ghost reached: Progress)
      requires Durable() && OnlyDirtyDiffer()
      modifies this`snapshot, this`journal, this`persisted, this`dirtyKeys,
               this`journalEntries, this`journalBytes, this`log, this`intact
      ensures Durable()
      ensures ok ==> persisted == records && dirtyKeys == {}
      ensures !ok ==> persisted == old(persisted) && dirtyKeys == old(dirtyKeys)
      ensures ok <==> !closed && SaveWorks(fault, records != old(persisted))
      ensures ok ==> Count() == CountersAfter(old(Count()), codec, Diff(old(persisted), records), fault)
      ensures Files() == DiskAt(codec, old(Files()), Diff(old(persisted), records), records, reached)
      ensures ok && records != old(persisted) ==> Committed(codec, Diff(old(persisted), records), reached)
      ensures old(intact) && (ok || !fault.RollbackFailed?) ==> intact
      ensures !ok && !fault.RollbackFailed? ==> Files() == old(Files())
      ensures ok && records != old(persisted) ==>
        KeepsShort(old(Count()), |Frame(codec, Diff(old(persisted), records))|, old(snapshot), fault)
    {
      reached := Appending(0);
      if closed || fault.NoDirectory? { return false, reached; }
      var changes := DirtyChanges();
      IncrementalSaveIsFull(persisted, records, dirtyKeys);
      DiffIsEmpty(persisted, records);
      if changes == map[] {
        dirtyKeys := {};
        return true, reached;
      }
      if fault.Appended? {
        reached := CommitLocked(changes, fault.compaction);
        return true, reached;
      }
      reached := FailAppend(changes, fault);
      return false, reached;
    }

    /** The append failed; unless it was rolled back, part of the entry stays in the journal. */
    method FailAppend(changes: Entry, fault: SaveFault) returns (ghost reached: Progress)
      requires Durable()
      modifies this`journal, this`intact
      ensures Durable() && (intact <==> old(intact) && !fault.RollbackFailed?)
      ensures reached == Appending(if fault.RollbackFailed? then fault.n else 0)
      ensures snapshot == old(snapshot) && Files() == DiskAt(codec, old(Files()), changes, records, reached)
    {
      reached := Appending(0);
      if fault.RollbackFailed? {
        var data := Frame(codec, changes);
        reached := Appending(fault.n);
        journal, intact := journal + if fault.n <= |data| then data[..fault.n] else data, false;
      }
    }

    // Opening

    /** Applies one journal line; false when it is no entry. */
    method ReplayLine(line: seq<byte>, ghost read: seq<Entry>) returns (ok: bool, ghost read': seq<Entry>)
      modifies this`records, this`journalEntries
      ensures ok <==> DecodeLine(codec, read, line).Some?
      ensures ok ==> DecodeLine(codec, read, line) == Some(read')
      ensures ok ==> forall base | old(records) == Replay(base, read) :: records == Replay(base, read')
      ensures ok ==> journalEntries - |read'| == old(journalEntries) - |read|
      ensures !ok ==> records == old(records) && journalEntries == old(journalEntries) && read' == read
    {
      read' := read;
      if Blank(line) { return true, read'; }
      match codec.decode(line)
      case None => return false, read';
      case Some(entry) =>
        records := AbsorbChanges(records, entry);
        journalEntries := journalEntries + 1;
        read' := read + [entry];
        assert read'[..|read|] == read;
        return true, read';
    }

    /** Applies the journal's lines in order, up to the first that is no entry. */
    method ReplayLines(lines: seq<seq<byte>>) returns (applied: nat, ghost read: seq<Entry>)
      requires journalEntries == 0
      modifies this`records, this`journalEntries
      ensures applied <= |lines| && DecodeLines(codec, lines[..applied]) == Some(read)
      ensures applied < |lines| ==> DecodeLines(codec, lines[..applied + 1]).None?
      ensures records == Replay(old(records), read) && journalEntries == |read|
    {
      read := [];
      for i := 0 to |lines|
        invariant DecodeLines(codec, lines[..i]) == Some(read)
        invariant records == Replay(old(records), read) && journalEntries == |read|
      {
        assert lines[..i + 1][..i] == lines[..i];
        var ok;
        ok, read := ReplayLine(lines[i], read);
        if !ok { return i, read; }
      }
      return |lines|, read;
    }

    /** The journal can be read, and repaired if its tail needs it. */
    predicate Loads(d: Disk, repairWorks: bool) {
      Read(codec, d).Reading? && (repairWorks || Read(codec, d).disk == d)
    }

    /**
     Reads the journal over the snapshot already loaded, repairing a torn or undelimited tail.
     The journal is left untouched when a line does not decode, or the repair fails.
     */
    method LoadJournal(repairWorks: bool) returns (ok: bool, ghost read: seq<Entry>)
      requires records == Base(Files()) && journalEntries == 0
      modifies this`records, this`journal, this`journalEntries, this`journalBytes
      ensures ok ==> Read(codec, old(Files())) == Reading(records, read, Files())
      ensures ok ==> journalBytes == |journal| && journalEntries == |read|
      ensures !ok ==> journal == old(journal)
      ensures ok <==> Loads(old(Files()), repairWorks)
    {
      var lines := SplitLines(journal);
      var last, applied := |lines| - 1, 0;
      applied, read := ReplayLines(lines);
      LinesDecide(codec, journal, applied, read);
      if applied < |lines| {
        if applied < last || EndsLine(journal) { return false, read; }
        if !repairWorks { return false, read; }
        journal := journal[..|journal| - |LastOf(lines)|];
      } else if journal != [] && !EndsLine(journal) {
        if !repairWorks { return false, read; }
        journal := journal + [NEWLINE];
      }
      journalBytes := |journal|;
      return true, read;
    }

    method RecoverRecordsLocked(now: Time) returns (recovered: bool)
      requires records == persisted && keysDirty
      modifies this`records, this`dirtyKeys
      ensures records == RecoverRecords(persisted, now, deletedRetention) && OnlyDirtyDiffer()
      ensures recovered <==> AnyRecovers(persisted, now, deletedRetention)
      ensures !recovered ==> records == persisted
    {
      recovered := false;
      var rest := records.Keys;
      while rest != {}
        invariant rest <= persisted.Keys
        invariant records == PartlyRecovered(persisted, rest, now, deletedRetention)
        invariant OnlyDirtyDiffer() && (!recovered ==> records == persisted)
        invariant recovered <==> exists k | k in persisted && k !in rest ::
          Recovers(persisted[k], now, deletedRetention)
      {
        var key :| key in rest;
        var record := records[key];
        match RecoverRecord(record, now, deletedRetention) {
          case Drop =>
            records, dirtyKeys, recovered := records - {key}, dirtyKeys + {key}, true;
          case Keep(updated, changed) =>
            if changed {
              records, dirtyKeys, recovered := records[key := updated], dirtyKeys + {key}, true;
            }
        }
        RecoveredOneMore(persisted, rest, key, now, deletedRetention);
        rest := rest - {key};
      }
    }

    method RebuildRunnerIndexLocked()
      modifies this`runnerKeys
      ensures IsRebuiltIndex(records, runnerKeys)
    {
      runnerKeys := map[];
      var rest := records.Keys;
      while rest != {}
        invariant rest <= records.Keys
        invariant forall identity | identity in runnerKeys ::
          && runnerKeys[identity] in records && IndexWorthy(runnerKeys[identity], records[runnerKeys[identity]])
          && records[runnerKeys[identity]].Identity() == identity
        invariant forall k | k in records && k !in rest && IndexWorthy(k, records[k]) ::
          records[k].Identity() in runnerKeys
      {
        var key :| key in rest;
        if IndexWorthy(key, records[key]) {
          runnerKeys := runnerKeys[records[key].Identity() := key];
        }
        rest := rest - {key};
      }
    }

    /** Compacts a long journal, or writes the first snapshot; unlike later compactions this one must succeed. */
    method FinalizeOpen(snapshotMissing: bool, fault: Compaction) returns (ok: bool)
      requires Durable() && records == persisted
      modifies this`snapshot, this`journal, this`journalEntries, this`journalBytes, this`log, this`intact
      ensures Durable() && (old(intact) ==> intact)
      ensures ok <==> Finalizes(old(Count()), snapshotMissing, fault)
      ensures ok ==> (snapshotMissing ==> snapshot.Some?) && (old(snapshot).Some? ==> snapshot.Some?)
      ensures ok ==> journalEntries < 512 && journalBytes < 4194304
    {
      if Long(Count()) {
        ok := CompactLocked(fault);
      } else if snapshotMissing {
        if !fault.SnapshotFailed? {
          if intact {
            SnapshotHolds(codec, Files(), log, records);
          }
          snapshot := Some(records);
        }
        ok := fault.JournalTruncated?;
      } else {
        ok := true;
      }
    }

    /** A store that has been allocated but not opened. */
    ghost predicate Unopened() reads this {
      && GoodCodec(codec) && !closed && keysDirty
      && records == map[] && persisted == map[] && runnerKeys == map[] && dirtyKeys == {}
      && journalEntries == 0 && journalBytes == 0
    }

    /** The journal is a sequence of entries, possibly with a torn or undelimited last one. */
    ghost predicate Recoverable(d: Disk) {
      var reading := Read(codec, d);
      reading.Reading? && Holds(codec, reading.disk, reading.log, reading.records)
    }

    /** Loads snapshot and journal; the shadow starts as what was loaded. */
    method LoadFiles(repairWorks: bool) returns (ok: bool)
      requires Unopened()
      modifies this`records, this`persisted, this`journal, this`journalEntries, this`journalBytes, this`log, this`intact
      ensures ok ==> Durable() && records == persisted
      ensures ok ==> var reading := Read(codec, old(Files()));
        reading.Reading? && records == reading.records && Files() == reading.disk
      ensures ok ==> (intact <==> Recoverable(old(Files())))
      ensures ok ==> Count() == Counters(|Read(codec, old(Files())).log|, |journal|)
      ensures !ok ==> Files() == old(Files())
      ensures ok <==> Loads(old(Files()), repairWorks)
    {
      records := if snapshot.Some? then snapshot.value else map[];
      ok, log := LoadJournal(repairWorks);
      if !ok { return false; }
      persisted := records;
      intact := Holds(codec, Files(), log, persisted);
      return true;
    }

    /** Recovers interrupted work and saves it; a failure leaves a disk that reads as before or after. */
    method RecoverAndSave(now: Time, saving: SaveFault) returns (ok: bool)
      requires Durable() && records == persisted && keysDirty && !closed
      modifies this`records, this`snapshot, this`journal, this`persisted, this`dirtyKeys,
               this`journalEntries, this`journalBytes, this`log, this`intact
      ensures records == RecoverRecords(old(records), now, deletedRetention)
      ensures Durable() && (ok ==> persisted == records && (old(intact) ==> intact))
      ensures !ok && old(intact) ==> ReadsAsEither(old(records), records)
      ensures old(snapshot).Some? ==> snapshot.Some?
      ensures ok <==> (AnyRecovers(old(records), now, deletedRetention) ==> SaveWorks(saving, records != old(records)))
      ensures ok ==> Count() == CountersAfter(old(Count()), codec, Diff(old(records), records), saving)
    {
      DiffIsEmpty(records, records);
      var recovered := RecoverRecordsLocked(now);
      if !recovered { return true; }
      ghost var reached;
      ghost var before, readable, kept, was := Files(), intact, log, persisted;
      ok, reached := SaveLocked(saving);
      if !ok && readable {
        CrashRefinement(codec, before, kept, was, records, reached);
      }
    }

    /** Opening the disk again yields one state or the other. */
    ghost predicate ReadsAsEither(before: Records, after: Records) reads this`snapshot, this`journal {
      var reading := Read(codec, Files());
      reading.Reading? && (reading.records == before || reading.records == after)
    }

    /** The recovery, if there is any, can be saved, and the files can be brought into their final form. */
    predicate Completes(before: Records, count: Counters, snapshotMissing: bool, now: Time, saving: SaveFault,
                        finalizing: Compaction)
    {
      var after := RecoverRecords(before, now, deletedRetention);
      && (AnyRecovers(before, now, deletedRetention) ==> SaveWorks(saving, after != before))
      && Finalizes(CountersAfter(count, codec, Diff(before, after), saving), snapshotMissing, finalizing)
    }

    /** Recovers interrupted work, saves the recovery and rebuilds the index. */
    method OpenLoaded(snapshotMissing: bool, now: Time, saving: SaveFault, finalizing: Compaction) returns (ok: bool)
      requires Durable() && records == persisted && keysDirty && !closed
      modifies this`records, this`dirtyKeys, this`runnerKeys, this`snapshot, this`journal, this`persisted,
               this`journalEntries, this`journalBytes, this`log, this`intact
      ensures ok ==> Valid() && IsRebuiltIndex(records, runnerKeys) && (old(intact) ==> intact)
      ensures ok ==> records == RecoverRecords(old(records), now, deletedRetention)
      ensures old(intact) ==> ReadsAsEither(old(records), RecoverRecords(old(records), now, deletedRetention))
      ensures ok <==> Completes(old(records), old(Count()), snapshotMissing, now, saving, finalizing)
      ensures ok && (snapshotMissing || old(snapshot).Some?) ==> snapshot.Some?
      ensures ok ==> journalEntries < 512 && journalBytes < 4194304
    {
      ok := RecoverAndSave(now, saving);
      if !ok { return; }
      ok := FinishOpen(snapshotMissing, finalizing);
    }

    method FinishOpen(snapshotMissing: bool, finalizing: Compaction) returns (ok: bool)
      requires Durable() && records == persisted
      modifies this`runnerKeys, this`snapshot, this`journal, this`journalEntries, this`journalBytes, this`log,
        this`intact
      ensures Durable() && IsRebuiltIndex(records, runnerKeys) && (old(intact) ==> intact)
      ensures old(intact) ==> ReadsAsEither(records, records)
      ensures ok <==> Finalizes(old(Count()), snapshotMissing, finalizing)
      ensures ok ==> (snapshotMissing ==> snapshot.Some?) && (old(snapshot).Some? ==> snapshot.Some?)
      ensures ok ==> journalEntries < 512 && journalBytes < 4194304
    {
      RebuildRunnerIndexLocked();
      ok := FinalizeOpen(snapshotMissing, finalizing);
      if intact {
        HeldIsRead(codec, Files(), log, persisted);
      }
    }

    /**
     Opens the store: load, recover, save the recovery, rebuild the index. It succeeds exactly when
     the journal can be read, its tail and the recovery can be written where there is any, and the
     files can be finalized; when it fails, a recoverable disk still holds the state before, or the
     recovered one.
     */
    method Open(now: Time, repairWorks: bool, saving: SaveFault, finalizing: Compaction) returns (ok: bool)
      requires Unopened()
      modifies this
      ensures ok ==> Valid() && IsRebuiltIndex(records, runnerKeys)
      ensures ok ==> var reading := Read(codec, old(Files()));
        reading.Reading? && records == RecoverRecords(reading.records, now, deletedRetention)
      ensures ok <==> Loads(old(Files()), repairWorks) && var reading := Read(codec, old(Files()));
        Completes(reading.records, Counters(|reading.log|, |reading.disk.journal|), old(snapshot).None?, now,
            saving, finalizing)
      ensures ok && Recoverable(old(Files())) ==> intact
      ensures ok ==> snapshot.Some? && journalEntries < 512 && journalBytes < 4194304
      ensures maxLiveRunners == old(maxLiveRunners)
      ensures Recoverable(old(Files())) ==>
        var before := Read(codec, old(Files())).records;
        ReadsAsEither(before, RecoverRecords(before, now, deletedRetention))
    {
      var snapshotMissing := snapshot.None?;
      ok := LoadFiles(repairWorks);
      if ok {
        ok := OpenLoaded(snapshotMissing, now, saving, finalizing);
      }
      closed := !ok;
    }

    // Operations on one record

    /**
     What a commit does to the disk: it is left as a save of this change can leave it, complete if
     the operation succeeds, untouched if it fails and the journal could be rolled back.
     */
    ghost predicate Journaled(d: Disk, wasIntact: bool, before: Records, attempted: Records, fault: SaveFault, ok: bool)
      reads this`snapshot, this`journal, this`intact, this`closed
    {
      && (ok <==> !closed && SaveWorks(fault, attempted != before))
      && (exists p :: Files() == DiskAt(codec, d, Diff(before, attempted), attempted, p)
           && (ok && attempted != before ==> Committed(codec, Diff(before, attempted), p)))
      && (wasIntact && (ok || !fault.RollbackFailed?) ==> intact)
      && (!ok && !fault.RollbackFailed? ==> Files() == d)
    }

    /** The operation saves only if it has something to do; otherwise it leaves the disk alone. */
    ghost predicate JournaledIf(needed: bool, d: Disk, wasIntact: bool, before: Records, attempted: Records,
                                fault: SaveFault, ok: bool)
      reads this`snapshot, this`journal, this`intact, this`closed
    {
      if needed then Journaled(d, wasIntact, before, attempted, fault, ok) else Files() == d && intact == wasIntact
    }

    /** Saves the changed records, or leaves them for the caller to undo. */
    method SaveChanges(fault: SaveFault) returns (ok: bool)
      requires Durable() && OnlyDirtyDiffer()
      modifies this`snapshot, this`journal, this`persisted, this`dirtyKeys,
               this`journalEntries, this`journalBytes, this`log, this`intact
      ensures Durable() && persisted == (if ok then records else old(persisted))
      ensures Journaled(old(Files()), old(intact), old(persisted), records, fault, ok)
    {
      ghost var reached;
      ok, reached := SaveLocked(fault);
    }

    /** Puts one record in place and saves it; a failure leaves memory ahead of the disk. */
    method PutAndSave(key: string, record: Record, fault: SaveFault) returns (ok: bool)
      requires Durable() && records == persisted
      modifies this`snapshot, this`journal, this`persisted, this`dirtyKeys, this`records,
               this`journalEntries, this`journalBytes, this`log, this`intact
      ensures Durable() && records == old(records)[key := record]
      ensures persisted == if ok then records else old(records)
      ensures Journaled(old(Files()), old(intact), old(records), old(records)[key := record], fault, ok)
    {
      records, dirtyKeys := records[key := record], dirtyKeys + {key};
      ok := SaveChanges(fault);
    }

    /** Commits one changed record, or restores it. */
    method PutLocked(key: string, record: Record, fault: SaveFault) returns (ok: bool)
      requires Valid() && key in records
      modifies this
      ensures Valid() && SettingsKept(old(maxLiveRunners), old(closed)) && runnerKeys == old(runnerKeys)
      ensures orderedKeys == old(orderedKeys) && keysDirty == old(keysDirty)
      ensures records == if ok then old(records)[key := record] else old(records)
      ensures Journaled(old(Files()), old(intact), old(records), old(records)[key := record], fault, ok)
    {
      var before := records[key];
      ok := PutAndSave(key, record, fault);
      if !ok {
        records := records[key := before];
      }
    }

    /** The generic update behind every stamped mutation but MarkProvisioned. */
    method Update(key: string, m: Mutation, now: Time, fault: SaveFault) returns (result: UpdateResult)
      requires Valid() && Stamps(m) && !m.MarkProvisioned?
      modifies this
      ensures Valid() && SettingsKept(old(maxLiveRunners), old(closed))
      ensures result.Missing? <==> key !in old(records)
      ensures Current() == if result.Saved? then Store.Update(old(Current()), key, m, now) else old(Current())
      ensures JournaledIf(key in old(records), old(Files()), old(intact), old(records),
        Store.Update(old(Current()), key, m, now).records, fault, result.Saved?)
    {
      if key !in records { return Missing; }
      var ok := PutLocked(key, Mutate(m, records[key], now), fault);
      return if ok then Saved else SaveFailed;
    }

    /** Records the instance; the index entry is written after the save. */
    method MarkProvisioned(key: string, instanceID: InstanceID, runnerID: int, runnerName: string, now: Time,
                           fault: SaveFault)
      returns (result: UpdateResult)
      requires Valid()
      modifies this
      ensures Valid() && SettingsKept(old(maxLiveRunners), old(closed))
      ensures result.Missing? <==> key !in old(records)
      ensures Current() == if result.Saved?
        then Store.Update(old(Current()), key, Mutation.MarkProvisioned(instanceID, runnerID, runnerName), now)
          else old(Current())
      ensures JournaledIf(key in old(records), old(Files()), old(intact), old(records),
        Store.Update(old(Current()), key, Mutation.MarkProvisioned(instanceID, runnerID, runnerName), now).records,
        fault, result.Saved?)
    {
      if key !in records { return Missing; }
      var record := records[key];
      var m := Mutation.MarkProvisioned(instanceID, runnerID, runnerName);
      var ok := PutLocked(key, Mutate(m, record, now), fault);
      if !ok { return SaveFailed; }
      if IndexesProvisioned(record, key, m) {
        runnerKeys := runnerKeys[RunnerIdentity(record.job.owner, record.job.repository, runnerID) := key];
      }
      return Saved;
    }

    /** Journals that the provider accepted the deletion of the instance the record is bound to. */
    method MarkDeletionAccepted(key: string, instanceID: InstanceID, now: Time, fault: SaveFault) returns (ok: bool)
      requires Valid()
      modifies this
      ensures Valid() && SettingsKept(old(maxLiveRunners), old(closed))
      ensures ok ==> key in old(records) && AcceptsDeletion(old(records)[key], instanceID)
      ensures Current() == if ok then Store.Update(old(Current()), key, AcceptDeletion(instanceID), now)
        else old(Current())
      ensures JournaledIf(key in old(records) && AcceptsDeletion(old(records)[key], instanceID),
        old(Files()), old(intact), old(records),
          Store.Update(old(Current()), key, AcceptDeletion(instanceID), now).records,
        fault, ok)
    {
      if key !in records || !AcceptsDeletion(records[key], instanceID) { return false; }
      ok := PutLocked(key, OnAcceptDeletion(records[key], instanceID, now), fault);
    }

    /** Counts one absence observation and says whether absence is now confirmed. */
    method ObserveMissing(key: string, source: Source, now: Time, settle: nat, confirmations: int, fault: SaveFault)
      returns (result: UpdateResult, confirmed: bool)
      requires Valid()
      modifies this
      ensures Valid() && SettingsKept(old(maxLiveRunners), old(closed))
      ensures result.Missing? <==> key !in old(records)
      ensures var m := if source.Provider? then ObserveRunnerMissing else ObserveGitHubRunnerMissing;
        var observed := Store.Update(old(Current()), key, m, now);
        && Current() == (if result.Saved? then observed else old(Current()))
        && JournaledIf(key in old(records) && old(records)[key].status.Provisioned?, old(Files()), old(intact),
                       old(records), observed.records, fault, result.Saved?)
      ensures key in old(records) && !old(records)[key].status.Provisioned? ==> result.Saved?
      ensures confirmed <==> result.Saved? && old(records)[key].status.Provisioned?
                             && AbsenceConfirmed(records[key], source, now, settle, confirmations)
    {
      if key !in records { return Missing, false; }
      if !records[key].status.Provisioned? { return Saved, false; }
      var observation := if source.Provider? then ObserveRunnerMissing else ObserveGitHubRunnerMissing;
      var observed := Mutate(observation, records[key], now);
      var ok := PutLocked(key, observed, fault);
      if !ok { return SaveFailed, false; }
      return Saved, Checks(observed, source) >= confirmations && Since(observed, source) + settle <= now;
    }

    /** Reserves one cleanup attempt; ready says that the caller may go on. */
    method BeginCleanupAttempt(key: string, maxAttempts: int, now: Time, fault: SaveFault)
      returns (result: UpdateResult, attempts: int, ready: bool)
      requires Valid()
      modifies this
      ensures Valid() && SettingsKept(old(maxLiveRunners), old(closed))
      ensures result.Missing? <==> key !in old(records)
      ensures Current() == if result.Saved?
        then Store.Update(old(Current()), key, Mutation.BeginCleanupAttempt(maxAttempts), now) else old(Current())
      ensures JournaledIf(key in old(records) && CleanupReady(old(records)[key], now), old(Files()), old(intact),
          old(records),
        Store.Update(old(Current()), key, Mutation.BeginCleanupAttempt(maxAttempts), now).records, fault, result.Saved?)
      ensures key in old(records) && !CleanupReady(old(records)[key], now) ==> result.Saved?
      ensures !result.Missing? ==> attempts == records[key].deleteAttempts
      ensures ready <==>
        result.Saved? && CleanupReady(old(records)[key], now) && old(records)[key].deleteAttempts < maxAttempts
    {
      if key !in records { return Missing, 0, false; }
      var record := records[key];
      if !CleanupReady(record, now) { return Saved, record.deleteAttempts, false; }
      var begun := OnBeginCleanupAttempt(record, maxAttempts, now);
      var ok := PutLocked(key, begun, fault);
      if !ok { return SaveFailed, record.deleteAttempts, false; }
      return Saved, begun.deleteAttempts, !begun.status.Orphaned?;
    }

    /** Ends a cleaned-up runner; restored says that the record is pending again. */
    method FinishDeletedRunner(key: string, queued: bool, now: Time, fault: SaveFault)
      returns (result: UpdateResult, restored: bool)
      requires Valid()
      modifies this
      ensures Valid() && SettingsKept(old(maxLiveRunners), old(closed))
      ensures result.Missing? <==> key !in old(records)
      ensures Current() == if result.Saved?
        then Store.Update(old(Current()), key, Mutation.FinishDeletedRunner(queued), now) else old(Current())
      ensures JournaledIf(key in old(records), old(Files()), old(intact), old(records),
        Store.Update(old(Current()), key, Mutation.FinishDeletedRunner(queued), now).records, fault, result.Saved?)
      ensures restored <==> result.Saved? && Restores(old(records)[key], queued)
    {
      restored := key in records && Restores(records[key], queued);
      result := Update(key, Mutation.FinishDeletedRunner(queued), now, fault);
      restored := restored && result.Saved?;
    }

    // Operations on the set of records

    method Create(record: Record, now: Time, fault: SaveFault) returns (ok: bool, created: bool)
      requires Valid()
      modifies this
      ensures Valid() && SettingsKept(old(maxLiveRunners), old(closed))
      ensures created <==> ok && record.job.key !in old(records)
      ensures record.job.key in old(records) ==> ok
      ensures JournaledIf(record.job.key !in old(records), old(Files()), old(intact), old(records),
        old(records)[record.job.key := Created(record, now)], fault, ok)
      ensures Current() == if ok then Enqueued(old(Current()), record, now) else old(Current())
    {
      if record.job.key in records { return true, false; }
      keysDirty := true;
      ok := AddLocked(record.job.key, Created(record, now), fault);
      return ok, ok;
    }

    /** Commits one new record, or removes it again. */
    method AddLocked(key: string, record: Record, fault: SaveFault) returns (ok: bool)
      requires Durable() && records == persisted && key !in records
      modifies this`snapshot, this`journal, this`persisted, this`dirtyKeys, this`records,
               this`journalEntries, this`journalBytes, this`log, this`intact
      ensures Durable() && records == persisted
      ensures records == if ok then old(records)[key := record] else old(records)
      ensures Journaled(old(Files()), old(intact), old(records), old(records)[key := record], fault, ok)
    {
      ok := PutAndSave(key, record, fault);
      if !ok {
        records := records - {key};
      }
    }

    /** Saves a transaction over several records, or rolls every one of them back. */
    method CommitOrRollBack(undo: Entry, ghost before: Records, fault: SaveFault) returns (ok: bool)
      requires Durable() && OnlyDirtyDiffer() && persisted == before && Remembers(undo, before, records)
      modifies this`snapshot, this`journal, this`persisted, this`dirtyKeys, this`records,
               this`journalEntries, this`journalBytes, this`log, this`intact
      ensures Durable() && records == persisted && records == (if ok then old(records) else before)
      ensures Journaled(old(Files()), old(intact), before, old(records), fault, ok)
    {
      ok := SaveChanges(fault);
      if !ok {
        RememberedIsUndone(undo, before, records);
        records := AbsorbChanges(records, undo);
      }
    }

    /** Adds what the record was to the undo log, unless the key is already there. */
    method Remember(undo: Entry, key: string, ghost before: Records) returns (undo': Entry)
      requires Remembers(undo, before, records)
      ensures Remembers(undo', before, records) && undo'.Keys == undo.Keys + {key}
    {
      if key in undo { return undo; }
      assert key in before.Keys + records.Keys ==> Agree(before, records, key);
      return undo[key := if key in records then Some(records[key]) else None];
    }

    method PutInTransaction(undo: Entry, key: string, record: Record, ghost before: Records) returns (undo': Entry)
      requires Remembers(undo, before, records) && undo.Keys <= dirtyKeys
      modifies this`records, this`dirtyKeys
      ensures Remembers(undo', before, records) && undo'.Keys <= dirtyKeys && old(dirtyKeys) <= dirtyKeys
      ensures records == old(records)[key := record]
    {
      undo' := Remember(undo, key, before);
      records, dirtyKeys := records[key := record], dirtyKeys + {key};
    }

    /** Puts the record of the runner that executed the completed job, or a marker for an unknown runner, in place. */
    method ReconcileRunnerCompletion(completion: Record, now: Time)
      returns (matchedKey: string, stale: bool, undo: Entry)
      requires records == persisted
      modifies this`records, this`dirtyKeys, this`keysDirty
      ensures records == RunnerPhase(State(old(records), runnerKeys), completion, now)
      ensures Remembers(undo, old(records), records) && undo.Keys <= dirtyKeys
      ensures keysDirty || (!old(keysDirty) && records.Keys == old(records).Keys)
      ensures matchedKey == if RunnerMatched(State(old(records), runnerKeys), completion)
        then IndexedKey(State(old(records), runnerKeys), completion) else ""
      ensures stale <==> StaleIndex(State(old(records), runnerKeys), completion)
    {
      matchedKey, stale, undo := "", false, map[];
      if completion.runnerID == 0 { return; }
      var identity := RunnerIdentity(completion.job.owner, completion.job.repository, completion.runnerID);
      if identity in runnerKeys {
        var key := runnerKeys[identity];
        if key in records && CompletionMatches(records[key], completion) {
          undo := PutInTransaction(undo, key, RunnerCompleted(records[key], completion, now), records);
          return key, false, undo;
        }
        stale := true;
      }
      var marker := Marker(completion, now);
      undo := PutInTransaction(undo, marker.job.key, marker, records);
      keysDirty := true;
    }

    /** Puts the record of the job the event names, or a tombstone for an unknown job, in place. */
    method ReconcileEventCompletion(completion: Record, matchedKey: string, now: Time, undo: Entry,
                                    ghost before: Records)
      returns (undo': Entry)
      requires Remembers(undo, before, records) && undo.Keys <= dirtyKeys
      modifies this`records, this`dirtyKeys, this`keysDirty
      ensures records == if matchedKey == completion.job.key then old(records)
        else EventPhase(old(records), completion, now)
      ensures Remembers(undo', before, records) && undo'.Keys <= dirtyKeys
      ensures keysDirty || (!old(keysDirty) && records.Keys == old(records).Keys)
    {
      undo' := undo;
      var key := completion.job.key;
      if matchedKey == key { return; }
      if key !in records {
        undo' := PutInTransaction(undo, key, Tombstone(completion, now), before);
        keysDirty := true;
      } else {
        undo' := PutInTransaction(undo, key, JobCompletedOn(records[key], completion, now), before);
      }
    }

    /**
     Applies a workflow_job completion to the runner that executed it and to the job it names, in
     one transaction; a stale index entry is dropped only once that is saved.
     */
    method RecordCompletion(completion: Record, now: Time, fault: SaveFault) returns (ok: bool)
      requires Valid()
      modifies this`snapshot, this`journal, this`persisted, this`dirtyKeys, this`records, this`runnerKeys,
               this`journalEntries, this`journalBytes, this`log, this`intact, this`keysDirty
      ensures Valid()
      ensures Current() == if ok then Store.RecordCompletion(old(Current()), completion, now) else old(Current())
      ensures Journaled(old(Files()), old(intact), old(records),
                        CompletedRecords(old(Current()), completion, now), fault, ok)
    {
      var beforeDirty := keysDirty;
      ok := CompleteAndForget(completion, now, fault);
      if !ok {
        keysDirty := beforeDirty;
      }
    }

    method CompleteAndForget(completion: Record, now: Time, fault: SaveFault) returns (ok: bool)
      requires Durable() && records == persisted
      modifies this`snapshot, this`journal, this`persisted, this`dirtyKeys, this`records, this`runnerKeys,
               this`journalEntries, this`journalBytes, this`log, this`intact, this`keysDirty
      ensures Durable() && records == persisted
      ensures keysDirty || (!old(keysDirty) && records.Keys == old(records).Keys)
      ensures Current() == if ok then Store.RecordCompletion(old(Current()), completion, now) else old(Current())
      ensures Journaled(old(Files()), old(intact), old(records),
                        CompletedRecords(old(Current()), completion, now), fault, ok)
    {
      var stale;
      ok, stale := CompleteLocked(completion, now, fault);
      if ok && stale {
        runnerKeys := runnerKeys - {RunnerIdentity(completion.job.owner, completion.job.repository,
            completion.runnerID)};
      }
    }

    method CompleteLocked(completion: Record, now: Time, fault: SaveFault) returns (ok: bool, stale: bool)
      requires Durable() && records == persisted
      modifies this`snapshot, this`journal, this`persisted, this`dirtyKeys, this`records,
               this`journalEntries, this`journalBytes, this`log, this`intact, this`keysDirty
      ensures Durable() && records == persisted
      ensures keysDirty || (!old(keysDirty) && records.Keys == old(records).Keys)
      ensures records == if ok then CompletedRecords(old(Current()), completion, now) else old(records)
      ensures stale <==> StaleIndex(old(Current()), completion)
      ensures Journaled(old(Files()), old(intact), old(records),
                        CompletedRecords(old(Current()), completion, now), fault, ok)
    {
      var undo;
      stale, undo := CompleteInTransaction(completion, now);
      ok := CommitOrRollBack(undo, old(records), fault);
    }

    method CompleteInTransaction(completion: Record, now: Time) returns (stale: bool, undo: Entry)
      requires records == persisted
      modifies this`records, this`dirtyKeys, this`keysDirty
      ensures records == CompletedRecords(State(old(records), runnerKeys), completion, now)
      ensures Remembers(undo, old(records), records) && undo.Keys <= dirtyKeys
      ensures keysDirty || (!old(keysDirty) && records.Keys == old(records).Keys)
      ensures stale <==> StaleIndex(State(old(records), runnerKeys), completion)
    {
      var matchedKey;
      matchedKey, stale, undo := ReconcileRunnerCompletion(completion, now);
      undo := ReconcileEventCompletion(completion, matchedKey, now, undo, old(records));
    }

    /** Binds an issued runner registration to its record, and consumes a completion that overtook it. */
    method MarkJITCreated(key: string, runnerID: int, runnerName: string, now: Time, fault: SaveFault)
      returns (result: UpdateResult)
      requires Valid()
      modifies this
      ensures Valid() && SettingsKept(old(maxLiveRunners), old(closed))
      ensures result.Missing? <==> key !in old(records)
      ensures Current() == if result.Saved?
        then Store.MarkJITCreated(old(Current()), key, runnerID, runnerName, now) else old(Current())
      ensures key in old(records) && old(records)[key].Terminal() ==> result.Saved?
      ensures JournaledIf(key in old(records) && !old(records)[key].Terminal(), old(Files()), old(intact),
          old(records),
        Store.MarkJITCreated(old(Current()), key, runnerID, runnerName, now).records, fault, result.Saved?)
    {
      if key !in records { return Missing; }
      var record := records[key];
      if record.Terminal() { return Saved; }
      var ok := RegisterLocked(key, runnerID, runnerName, now, fault);
      if !ok { return SaveFailed; }
      runnerKeys := runnerKeys[RunnerIdentity(record.job.owner, record.job.repository, runnerID) := key];
      return Saved;
    }

    method RegisterLocked(key: string, runnerID: int, runnerName: string, now: Time, fault: SaveFault)
      returns (ok: bool)
      requires Durable() && records == persisted && key in records && !records[key].Terminal()
      modifies this`snapshot, this`journal, this`persisted, this`dirtyKeys, this`records,
               this`journalEntries, this`journalBytes, this`log, this`intact
      ensures Durable() && records == persisted && records.Keys == old(records).Keys
      ensures records == if ok
        then Store.MarkJITCreated(old(Current()), key, runnerID, runnerName, now).records else old(records)
      ensures Journaled(old(Files()), old(intact), old(records),
                        Store.MarkJITCreated(old(Current()), key, runnerID, runnerName, now).records, fault, ok)
    {
      var undo := RegisterInTransaction(key, runnerID, runnerName, now);
      ok := CommitOrRollBack(undo, old(records), fault);
    }

    method RegisterInTransaction(key: string, runnerID: int, runnerName: string, now: Time) returns (undo: Entry)
      requires records == persisted && key in records && !records[key].Terminal()
      modifies this`records, this`dirtyKeys
      ensures records == Store.MarkJITCreated(State(old(records), runnerKeys), key, runnerID, runnerName, now).records
      ensures Remembers(undo, old(records), records) && undo.Keys <= dirtyKeys
      ensures records.Keys == old(records).Keys
    {
      var record := records[key];
      var registered := Registered(record, runnerID, runnerName, now);
      var markerKey := MarkerKey(record.job.owner, record.job.repository, runnerID);
      undo := map[];
      if MarkerWaiting(records, record, runnerID) {
        var marker := records[markerKey];
        undo := PutInTransaction(undo, markerKey, RetiredMarker(marker, now), records);
        registered := CompletedByMarker(registered, marker);
      }
      undo := PutInTransaction(undo, key, registered, old(records));
    }

    /** Releases the instances of orphans a successful provider sweep has accounted for. */
    method ReleaseSweptOrphans(provider: Cloud, cutoff: Time, now: Time, fault: SaveFault)
      returns (ok: bool, released: nat)
      requires Valid()
      modifies this
      ensures Valid() && SettingsKept(old(maxLiveRunners), old(closed)) && runnerKeys == old(runnerKeys)
      ensures records == if ok then Store.ReleaseSweptOrphans(old(records), provider, cutoff, now) else old(records)
      ensures released == if ok then |SweptKeys(old(records), provider, cutoff)| else 0
      ensures JournaledIf(SweptKeys(old(records), provider, cutoff) != {}, old(Files()), old(intact),
        old(records), Store.ReleaseSweptOrphans(old(records), provider, cutoff, now), fault, ok)
      ensures SweptKeys(old(records), provider, cutoff) == {} ==> ok
    {
      ok, released := SweepLocked(provider, cutoff, now, fault);
    }

    method SweepLocked(provider: Cloud, cutoff: Time, now: Time, fault: SaveFault) returns (ok: bool, released: nat)
      requires Durable() && records == persisted
      modifies this`snapshot, this`journal, this`persisted, this`dirtyKeys, this`records,
               this`journalEntries, this`journalBytes, this`log, this`intact
      ensures Durable() && records == persisted && records.Keys == old(records).Keys
      ensures records == if ok then Store.ReleaseSweptOrphans(old(records), provider, cutoff, now) else old(records)
      ensures released == if ok then |SweptKeys(old(records), provider, cutoff)| else 0
      ensures JournaledIf(SweptKeys(old(records), provider, cutoff) != {}, old(Files()), old(intact),
        old(records), Store.ReleaseSweptOrphans(old(records), provider, cutoff, now), fault, ok)
      ensures SweptKeys(old(records), provider, cutoff) == {} ==> ok
    {
      var undo := SweepInTransaction(provider, cutoff, now);
      if undo == map[] { return true, 0; }
      ok := CommitOrRollBack(undo, old(records), fault);
      released := if ok then |undo.Keys| else 0;
    }

    method SweepInTransaction(provider: Cloud, cutoff: Time, now: Time) returns (undo: Entry)
      requires records == persisted
      modifies this`records, this`dirtyKeys
      ensures records == Store.ReleaseSweptOrphans(old(records), provider, cutoff, now)
      ensures Remembers(undo, old(records), records) && undo.Keys <= dirtyKeys
      ensures undo.Keys == SweptKeys(old(records), provider, cutoff)
    {
      ghost var was := records;
      undo := map[];
      var rest := records.Keys;
      assert PartlySwept(was, rest, provider, cutoff, now) == was;
      while rest != {}
        invariant rest <= was.Keys && records == PartlySwept(was, rest, provider, cutoff, now)
        invariant undo == Formerly(was, SweptKeys(was, provider, cutoff) - rest)
        invariant undo.Keys <= dirtyKeys
      {
        var key :| key in rest;
        SweptOneMore(was, rest, key, provider, cutoff, now);
        if Sweepable(records[key], provider, cutoff) {
          undo, dirtyKeys := undo[key := Some(records[key])], dirtyKeys + {key};
          records := records[key := records[key].(instanceID := NoInstance, updatedAt := now)];
        }
        rest := rest - {key};
      }
      SweptRemembers(was, provider, cutoff, now);
    }

    /** Drops records whose retention has passed. */
    method PruneDeleted(now: Time, fault: SaveFault) returns (ok: bool, pruned: nat)
      requires Valid()
      modifies this
      ensures Valid() && SettingsKept(old(maxLiveRunners), old(closed)) && runnerKeys == old(runnerKeys)
      ensures records == if ok then Store.PruneDeleted(old(records), now - deletedRetention) else old(records)
      ensures pruned == if ok then |PrunedKeys(old(records), now - deletedRetention)| else 0
      ensures JournaledIf(PrunedKeys(old(records), now - deletedRetention) != {}, old(Files()), old(intact),
        old(records), Store.PruneDeleted(old(records), now - deletedRetention), fault, ok)
      ensures PrunedKeys(old(records), now - deletedRetention) == {} ==> ok
    {
      ok, pruned := PruneLocked(now - deletedRetention, fault);
    }

    method PruneLocked(cutoff: int, fault: SaveFault) returns (ok: bool, pruned: nat)
      requires Durable() && records == persisted
      modifies this`snapshot, this`journal, this`persisted, this`dirtyKeys, this`records,
               this`journalEntries, this`journalBytes, this`log, this`intact, this`keysDirty
      ensures Durable() && records == persisted
      ensures keysDirty || (keysDirty == old(keysDirty) && records == old(records))
      ensures records == if ok then Store.PruneDeleted(old(records), cutoff) else old(records)
      ensures pruned == if ok then |PrunedKeys(old(records), cutoff)| else 0
      ensures JournaledIf(PrunedKeys(old(records), cutoff) != {}, old(Files()), old(intact),
        old(records), Store.PruneDeleted(old(records), cutoff), fault, ok)
      ensures PrunedKeys(old(records), cutoff) == {} ==> ok
    {
      var undo := PruneInTransaction(cutoff);
      if undo == map[] { return true, 0; }
      keysDirty := true;
      ok := CommitOrRollBack(undo, old(records), fault);
      pruned := if ok then |undo.Keys| else 0;
    }

    method PruneInTransaction(cutoff: int) returns (undo: Entry)
      requires records == persisted
      modifies this`records, this`dirtyKeys
      ensures records == Store.PruneDeleted(old(records), cutoff)
      ensures Remembers(undo, old(records), records) && undo.Keys <= dirtyKeys
      ensures undo.Keys == PrunedKeys(old(records), cutoff)
      ensures undo == map[] ==> records == old(records)
    {
      ghost var was := records;
      undo := map[];
      var rest := records.Keys;
      assert PartlyPruned(was, rest, cutoff) == was;
      while rest != {}
        invariant rest <= was.Keys && records == PartlyPruned(was, rest, cutoff)
        invariant undo == Formerly(was, PrunedKeys(was, cutoff) - rest)
        invariant undo.Keys <= dirtyKeys
      {
        var key :| key in rest;
        PrunedOneMore(was, rest, key, cutoff);
        if Prunable(records[key], cutoff) {
          undo, dirtyKeys := undo[key := Some(records[key])], dirtyKeys + {key};
          records := records - {key};
        }
        rest := rest - {key};
      }
      PrunedRemembers(was, cutoff);
    }

    /** The admission ceiling; a limit below one is rejected. */
    method SetMaxLiveRunners(limit: int) returns (ok: bool)
      requires Valid()
      modifies this`maxLiveRunners
      ensures Valid() && (ok <==> 0 < limit) && maxLiveRunners == if ok then limit else old(maxLiveRunners)
    {
      ok := 0 < limit;
      if ok {
        maxLiveRunners := limit;
      }
    }

    // Claiming work

    /** The keys in scan order, sorted again only after the key set has changed. */
    method OrderedKeysLocked() returns (keys: seq<string>)
      requires OrderCached()
      modifies this`orderedKeys, this`keysDirty
      ensures OrderCached() && keys == orderedKeys && IsSortedKeys(keys, records.Keys)
    {
      if keysDirty {
        orderedKeys := SortKeys(records.Keys);
        keysDirty := false;
      }
      return orderedKeys;
    }

    method LiveRunnerCountLocked() returns (count: nat)
      ensures count == LiveRunners(records)
    {
      count := 0;
      var rest := records.Keys;
      while rest != {}
        invariant rest <= records.Keys
        invariant count == |LiveKeys(records) - rest|
      {
        var key :| key in rest;
        CountedOneMore(LiveKeys(records), rest, key);
        if CountsAsLive(records[key]) {
          count := count + 1;
        }
        rest := rest - {key};
      }
      assert LiveKeys(records) - {} == LiveKeys(records);
    }

    /** Looks at one record: retires it, grants it, or passes it. */
    method VisitLocked(key: string, liveRunners: nat, now: Time, maxAttempts: int, fault: SaveFault)
      returns (visit: Visit)
      requires Valid() && key in records
      modifies this
      ensures Valid() && SettingsKept(old(maxLiveRunners), old(closed)) && runnerKeys == old(runnerKeys)
      ensures orderedKeys == old(orderedKeys) && keysDirty == old(keysDirty)
      ensures old(intact) && !fault.RollbackFailed? ==> intact
      ensures var r := old(records)[key];
        visit.Stopped? <==>
          Writes(r, AdmittedAt(liveRunners, maxLiveRunners, r), maxAttempts, now) && !(!closed && fault.Appended?)
      ensures var r := old(records)[key];
        visit.Visited? ==> visit.kind == ReadyFor(r, AdmittedAt(liveRunners, maxLiveRunners, r), maxAttempts, now)
      ensures records == match visit
        case Stopped => old(records)
        case Visited(NoWork) => old(records)[key := Backstopped(old(records)[key], maxAttempts, now)]
        case Visited(kind) => old(records)[key := Granted(old(records)[key], kind, maxAttempts, now)]
    {
      var record := records[key];
      if !Due(record, now) {
        assert records[key := record] == records;
        return Visited(NoWork);
      }
      if ProvisioningExhausted(record, maxAttempts) || DeletionExhausted(record, maxAttempts) {
        var retired := PutLocked(key, Backstopped(record, maxAttempts, now), fault);
        return if retired then Visited(NoWork) else Stopped;
      }
      var kind := NoWork;
      if ProvisionEligible(record, maxAttempts) && AdmittedAt(liveRunners, maxLiveRunners, record) {
        kind := Provision;
      } else if DeleteEligible(record, maxAttempts) {
        kind := Delete;
      } else {
        assert records[key := record] == records;
        return Visited(NoWork);
      }
      var granted := PutLocked(key, Granted(record, kind, maxAttempts, now), fault);
      return if granted then Visited(kind) else Stopped;
    }

    /**
     Claims the least eligible key, retiring records with a spent budget on the way. It fails only
     at a key where it had to save and could not; what was retired before that stays retired.
     */
    method ClaimNext(canceled: bool, now: Time, maxAttempts: int, faults: string -> SaveFault)
      returns (result: ClaimResult)
      requires Valid()
      modifies this
      ensures Valid() && SettingsKept(old(maxLiveRunners), old(closed)) && runnerKeys == old(runnerKeys)
      ensures old(intact) && (forall k :: !faults(k).RollbackFailed?) ==> intact
      ensures result.Canceled? <==> canceled
      ensures canceled ==> records == old(records) && Files() == old(Files())
      ensures !canceled ==> ScanFits(old(records), result, maxLiveRunners, maxAttempts, now, Failing(closed, faults))
      ensures result.Scanned? ==> records == ScanResult(old(records), result.claim, maxAttempts, now)
      ensures result.ClaimFailed? ==>
        records == PassedOver(old(records), KeysBefore(old(records), Claimed(result.at, NoWork)), maxAttempts, now)
    {
      if canceled { return ClaimResult.Canceled; }
      var keys := OrderedKeysLocked();
      var liveRunners := LiveRunnerCountLocked();
      result := ScanLocked(keys, liveRunners, now, maxAttempts, faults);
    }

    method ScanLocked(keys: seq<string>, liveRunners: nat, now: Time, maxAttempts: int, faults: string -> SaveFault)
      returns (result: ClaimResult)
      requires Valid() && IsSortedKeys(keys, records.Keys) && liveRunners == LiveRunners(records)
      modifies this
      ensures Valid() && SettingsKept(old(maxLiveRunners), old(closed)) && runnerKeys == old(runnerKeys)
      ensures old(intact) && (forall k :: !faults(k).RollbackFailed?) ==> intact
      ensures ScanFits(old(records), result, maxLiveRunners, maxAttempts, now, Failing(closed, faults))
      ensures result.Scanned? ==> records == ScanResult(old(records), result.claim, maxAttempts, now)
      ensures result.ClaimFailed? ==>
        records == PassedOver(old(records), KeysBefore(old(records), Claimed(result.at, NoWork)), maxAttempts, now)
    {
      ghost var was, failing := records, Failing(closed, faults);
      NothingVisited(was, keys, maxAttempts, now);
      for i := 0 to |keys|
        invariant Valid() && SettingsKept(old(maxLiveRunners), old(closed)) && runnerKeys == old(runnerKeys)
        invariant old(intact) && (forall k :: !faults(k).RollbackFailed?) ==> intact
        invariant records == PassedOver(was, Visits(keys, i), maxAttempts, now)
        invariant AllPassed(was, Visits(keys, i), maxLiveRunners, maxAttempts, now, failing)
      {
        VisitNext(was, keys, i, maxAttempts, now);
        var visit := VisitLocked(keys[i], liveRunners, now, maxAttempts, faults(keys[i]));
        if visit.Stopped? {
          return ClaimFailed(keys[i]);
        }
        if !visit.kind.NoWork? {
          return Scanned(Claimed(keys[i], visit.kind));
        }
        PassedOneMore(was, keys, i, maxLiveRunners, maxAttempts, now, failing);
      }
      AllVisited(was, keys);
      return Scanned(NoClaim);
    }

    // Queries

    method OwnsRunner(owner: string, repository: string, runnerID: int) returns (owns: bool)
      ensures owns <==> Store.OwnsRunner(Current(), owner, repository, runnerID)
    {
      var identity := RunnerIdentity(owner, repository, runnerID);
      if identity !in runnerKeys { return false; }
      var key := runnerKeys[identity];
      if key !in records { return false; }
      var record := records[key];
      return !record.status.Deleted? && record.runnerOwned && record.runnerID == runnerID;
    }

    /** Every instance a live record still stands for. */
    method KnownInstanceIDs() returns (ids: set<string>)
      ensures ids == set k | k in records && Knows(records[k]) :: records[k].instanceID.id
    {
      ids := {};
      var rest := records.Keys;
      while rest != {}
        invariant rest <= records.Keys
        invariant ids == set k | k in records && k !in rest && Knows(records[k]) :: records[k].instanceID.id
      {
        var key :| key in rest;
        if Knows(records[key]) {
          ids := ids + {records[key].instanceID.id};
        }
        rest := rest - {key};
      }
    }

    /** Copies of the selected records, each key once. */
    method Select(selects: Record -> bool) returns (result: seq<Record>)
      ensures Lists(records, selects, result)
    {
      ghost var keys := [];
      result := [];
      var rest := records.Keys;
      while rest != {}
        invariant rest <= records.Keys
        invariant |keys| == |result|
        invariant forall i | 0 <= i < |keys| ::
          keys[i] in records && keys[i] !in rest && result[i] == records[keys[i]]
        invariant forall i, j | 0 <= i < j < |keys| :: keys[i] != keys[j]
        invariant forall k | k in records && k !in rest :: k in keys <==> selects(records[k])
      {
        var key :| key in rest;
        if selects(records[key]) {
          keys, result := keys + [key], result + [records[key]];
        }
        rest := rest - {key};
      }
      assert ListsKeys(records, selects, keys, result);
    }

    method ListProvisioned() returns (result: seq<Record>)
      ensures Lists(records, (r: Record) => r.status.Provisioned?, result)
    {
      result := Select((r: Record) => r.status.Provisioned?);
    }

    method ListOrphaned() returns (result: seq<Record>)
      ensures Lists(records, (r: Record) => r.status.Orphaned?, result)
    {
      result := Select((r: Record) => r.status.Orphaned?);
    }

    /** Unclaimed records for the reaper, oldest first. */
    method ListExpired(now: Time, cutoff: Time) returns (result: seq<Record>)
      ensures ListsReordered(records, (r: Record) => ListedAsExpired(r, now, cutoff), result)
      ensures forall i, j | 0 <= i < j < |result| :: result[i].createdAt <= result[j].createdAt
    {
      var expired := Select((r: Record) => ListedAsExpired(r, now, cutoff));
      result := SortByAge(expired, (r: Record) => r.createdAt);
    }
  }

  /**
   A crash during any operation: whatever the operation was about to change, and however far its
   save had come, opening the files again yields the records before it or the records after it,
   from a disk that is recoverable again.
   */
  lemma CrashDuring(store: FileStore, attempted: Records, p: Progress)
    requires store.Valid() && store.intact
    ensures var d := DiskAt(store.codec, store.Files(), Diff(store.records, attempted), attempted, p);
      var reading := Read(store.codec, d);
      && reading.Reading? && store.Recoverable(d)
      && reading.records == if Committed(store.codec, Diff(store.records, attempted), p) then attempted
         else store.records
  {
    CrashRefinement(store.codec, store.Files(), store.log, store.records, attempted, p);
  }
}
