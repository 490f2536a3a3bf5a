/**
 The durable form of the record map: a snapshot that is replaced as a whole, and a journal of
 the changes since. What a crash may leave on disk, and what opening it again yields.
 */
module Journal {
  import opened Lifecycle
  import opened Wrappers
  import opened Framing

  type Records = map<string, Record>

  /** The records one commit changed; None removes the record. */
  type Entry = map<string, Option<Record>>

  function ApplyEntry(records: Records, e: Entry): Records {
    map k | k in records.Keys + e.Keys && (k in e ==> e[k].Some?) :: if k in e then e[k].value else records[k]
  }

  function Replay(base: Records, log: seq<Entry>): Records {
    if log == [] then base else ApplyEntry(Replay(base, log[..|log| - 1]), log[|log| - 1])
  }

  /** The maps say the same about one key. */
  predicate Agree(a: Records, b: Records, k: string) {
    (k in a <==> k in b) && (k in a ==> a[k] == b[k])
  }

  lemma AgreeEverywhere(a: Records, b: Records)
    requires forall k | k in a.Keys + b.Keys :: Agree(a, b, k)
    ensures a == b
  {
    assert forall k | k in a :: Agree(a, b, k);
    assert forall k | k in b :: Agree(a, b, k);
  }

  // Replaying a journal over a state that already contains it

  predicate Mentioned(log: seq<Entry>, k: string) {
    exists i | 0 <= i < |log| :: k in log[i]
  }

  /** The journal alone decides every key it mentions, and leaves every other key as it was. */
  lemma {:induction false} ReplayDecides(base: Records, base': Records, log: seq<Entry>, k: string)
    ensures Mentioned(log, k) ==> Agree(Replay(base, log), Replay(base', log), k)
    ensures !Mentioned(log, k) ==> Agree(Replay(base, log), base, k)
  {
    if log != [] {
      var rest := log[..|log| - 1];
      ReplayDecides(base, base', rest, k);
      assert Mentioned(rest, k) ==> Mentioned(log, k);
      assert Mentioned(log, k) && k !in log[|log| - 1] ==> Mentioned(rest, k) by {
        if Mentioned(log, k) && k !in log[|log| - 1] {
          var i :| 0 <= i < |log| && k in log[i];
          assert rest[i] == log[i];
        }
      }
    }
  }

  /** A snapshot taken from a journal's own result absorbs that journal. */
  lemma ReplayIsIdempotent(base: Records, log: seq<Entry>)
    ensures Replay(Replay(base, log), log) == Replay(base, log)
  {
    var once := Replay(base, log);
    var twice := Replay(once, log);
    forall k | k in once.Keys + twice.Keys ensures Agree(twice, once, k) {
      ReplayDecides(base, once, log, k);
      ReplayDecides(once, base, log, k);
    }
    AgreeEverywhere(twice, once);
  }

  // One commit

  /** What a save writes for the given keys: their records, but only where they differ from the disk. */
  function DirtyDiff(persisted: Records, records: Records, dirty: set<string>): Entry {
    map k | k in dirty && !Agree(persisted, records, k) :: if k in records then Some(records[k]) else None
  }

  /** All the differences. */
  function Diff(persisted: Records, records: Records): Entry {
    DirtyDiff(persisted, records, persisted.Keys + records.Keys)
  }

  /**
   Saving only the dirty keys is saving everything, provided nothing else has changed; the
   entry written then contains no key that is already right on disk.
   */
  lemma IncrementalSaveIsFull(persisted: Records, records: Records, dirty: set<string>)
    ensures (forall k | k in persisted.Keys + records.Keys && k !in dirty :: Agree(persisted, records, k))
       <==> ApplyEntry(persisted, DirtyDiff(persisted, records, dirty)) == records
    ensures (forall k | k in persisted.Keys + records.Keys && k !in dirty :: Agree(persisted, records, k))
        ==> DirtyDiff(persisted, records, dirty) == Diff(persisted, records)
  {
    var saved := ApplyEntry(persisted, DirtyDiff(persisted, records, dirty));
    forall k | k in persisted.Keys + records.Keys
      ensures Agree(saved, records, k) <==> k in dirty || Agree(persisted, records, k)
    {
    }
    if forall k | k in persisted.Keys + records.Keys && k !in dirty :: Agree(persisted, records, k) {
      AgreeEverywhere(saved, records);
    } else {
      var k :| k in persisted.Keys + records.Keys && k !in dirty && !Agree(persisted, records, k);
      assert !Agree(saved, records, k);
    }
  }

  lemma DiffApplies(before: Records, after: Records)
    ensures ApplyEntry(before, Diff(before, after)) == after
  {
    IncrementalSaveIsFull(before, after, before.Keys + after.Keys);
  }

  // The disk

  /** The snapshot file, once it exists, and the bytes of the journal. */
  datatype Disk = Disk(snapshot: Option<Records>, journal: seq<byte>)

  function Base(d: Disk): Records { if d.snapshot.Some? then d.snapshot.value else map[] }

  /** The journal is well formed, and replaying it over the snapshot gives these records. */
  ghost predicate Holds(c: Codec<Entry>, d: Disk, log: seq<Entry>, records: Records) {
    d.journal == Frames(c, log) && Replay(Base(d), log) == records
  }

  datatype Reading = Unreadable | Reading(records: Records, log: seq<Entry>, disk: Disk)

  /** What opening the store reads, and the disk it leaves after repairing the journal's tail. */
  function Read(c: Codec<Entry>, d: Disk): Reading {
    match Load(c, d.journal)
    case Corrupt => Unreadable
    case Loaded(log, kept) => Reading(Replay(Base(d), log), log, Disk(d.snapshot, kept))
  }

  lemma HeldIsRead(c: Codec<Entry>, d: Disk, log: seq<Entry>, records: Records)
    requires GoodCodec(c) && Holds(c, d, log, records)
    ensures Read(c, d) == Reading(records, log, d)
  {
    IntactFileLoads(c, log);
  }

  // Crashes

  /** How far a save had come: bytes of the entry on disk, snapshot replaced, journal emptied. */
  datatype Progress = Appending(n: nat) | SnapshotReplaced | JournalEmptied

  function DiskAt(c: Codec<Entry>, d: Disk, e: Entry, after: Records, p: Progress): Disk {
    match p
    case Appending(n) => Disk(d.snapshot, d.journal + if n <= |Frame(c, e)| then Frame(c, e)[..n] else Frame(c, e))
    case SnapshotReplaced => Disk(Some(after), d.journal + Frame(c, e))
    case JournalEmptied => Disk(Some(after), [])
  }

  /** The commit point: the last byte of the entry's encoding; the newline is not needed. */
  predicate Committed(c: Codec<Entry>, e: Entry, p: Progress) {
    p.Appending? ==> |c.encode(e)| <= p.n
  }

  lemma AppendHolds(c: Codec<Entry>, d: Disk, log: seq<Entry>, records: Records, e: Entry)
    requires Holds(c, d, log, records)
    ensures Holds(c, Disk(d.snapshot, d.journal + Frame(c, e)), log + [e], ApplyEntry(records, e))
  {
    FramesLast(c, log, e);
    assert (log + [e])[..|log|] == log;
  }

  lemma SnapshotHolds(c: Codec<Entry>, d: Disk, log: seq<Entry>, records: Records)
    requires Holds(c, d, log, records)
    ensures Holds(c, Disk(Some(records), d.journal), log, records)
    ensures Holds(c, Disk(Some(records), []), [], records)
  {
    ReplayIsIdempotent(Base(d), log);
    assert Encoded(c, []) == [];
  }

  /**
   Crash refinement: wherever a save is interrupted, opening the disk again yields the state
   before it or the state after it, and which one is decided by the commit point alone. The
   disk left behind is well formed again.
   */
  lemma CrashRefinement(c: Codec<Entry>, d: Disk, log: seq<Entry>, before: Records, after: Records, p: Progress)
    requires GoodCodec(c) && Holds(c, d, log, before)
    ensures var e := Diff(before, after);
      var reading := Read(c, DiskAt(c, d, e, after, p));
      && reading.Reading?
      && reading.records == (if Committed(c, e, p) then after else before)
      && Holds(c, reading.disk, reading.log, reading.records)
  {
    var e := Diff(before, after);
    DiffApplies(before, after);
    AppendHolds(c, d, log, before, e);
    var appended := Disk(d.snapshot, d.journal + Frame(c, e));
    SnapshotHolds(c, appended, log + [e], after);
    match p
    case Appending(n) =>
      var m := if n <= |Frame(c, e)| then n else |Frame(c, e)|;
      assert Frame(c, e)[..|Frame(c, e)|] == Frame(c, e);
      TornTailRecovery(c, log, e, m);
    case SnapshotReplaced =>
      HeldIsRead(c, Disk(Some(after), appended.journal), log + [e], after);
    case JournalEmptied =>
      HeldIsRead(c, Disk(Some(after), []), [], after);
  }

  /** Repairing the tail may itself be interrupted: the repaired disk reads as the torn one did. */
  lemma RepairIsStable(c: Codec<Entry>, d: Disk, log: seq<Entry>, before: Records, after: Records, p: Progress)
    requires GoodCodec(c) && Holds(c, d, log, before)
    ensures var reading := Read(c, DiskAt(c, d, Diff(before, after), after, p));
      reading.Reading? && Read(c, reading.disk) == reading
  {
    CrashRefinement(c, d, log, before, after, p);
    var reading := Read(c, DiskAt(c, d, Diff(before, after), after, p));
    HeldIsRead(c, reading.disk, reading.log, reading.records);
  }

  /**
   When a failed append could not be rolled back and left its whole line behind, memory has
   undone the change but the disk has not. After one more save the disk agrees with memory
   exactly when that save rewrote every key the failed one had really changed.
   */
  lemma FailedRollbackResurfaces(c: Codec<Entry>, d: Disk, log: seq<Entry>, before: Records, failed: Records,
                                 after: Records)
    requires GoodCodec(c) && Holds(c, d, log, before)
    ensures var lost := Diff(before, failed);
      var saved := Diff(before, after);
      var reading := Read(c, Disk(d.snapshot, d.journal + Frame(c, lost) + Frame(c, saved)));
      && reading.Reading?
      && (reading.records == after <==> lost.Keys <= saved.Keys)
  {
    var lost, saved := Diff(before, failed), Diff(before, after);
    DiffApplies(before, failed);
    DiffApplies(before, after);
    AppendHolds(c, d, log, before, lost);
    var dirty := Disk(d.snapshot, d.journal + Frame(c, lost));
    AppendHolds(c, dirty, log + [lost], failed, saved);
    var final := Disk(d.snapshot, d.journal + Frame(c, lost) + Frame(c, saved));
    HeldIsRead(c, final, log + [lost] + [saved], ApplyEntry(failed, saved));
    MergedEntry(before, failed, after);
  }

  /**
   When part of its line was left behind, the next entry is written onto the same line. The disk can
   be read again exactly if that line happens to decode; otherwise the store does not open any more.
   */
  lemma TornLineIsUnreadable(c: Codec<Entry>, d: Disk, log: seq<Entry>, before: Records, lost: Entry, saved: Entry,
                             n: nat)
    requires GoodCodec(c) && Holds(c, d, log, before) && 0 < n <= |c.encode(lost)|
    ensures var line := c.encode(lost)[..n] + c.encode(saved);
      Read(c, Disk(d.snapshot, d.journal + Frame(c, lost)[..n] + Frame(c, saved))).Unreadable? <==> c.decode(line).None?
  {
    var torn := c.encode(lost)[..n];
    var line := torn + c.encode(saved);
    assert LineOf(c, lost) && LineOf(c, saved);
    assert Frame(c, lost)[..n] == torn;
    assert !Blank(torn) by { assert n == |c.encode(lost)| ==> torn == c.encode(lost); }
    var i :| 0 <= i < |torn| && !IsSpace(torn[i]);
    assert line[i] == torn[i];
    LoadWithLine(c, log, line);
    assert d.journal + torn + Frame(c, saved) == Frames(c, log) + (line + [NEWLINE]);
  }

  lemma MergedEntry(before: Records, failed: Records, after: Records)
    ensures ApplyEntry(failed, Diff(before, after)) == after <==> Diff(before, failed).Keys <= Diff(before, after).Keys
  {
    var lost, saved := Diff(before, failed), Diff(before, after);
    var merged := ApplyEntry(failed, saved);
    forall k | k in before.Keys + failed.Keys + after.Keys
      ensures Agree(merged, after, k) <==> k in saved || k !in lost
    {
      assert k !in saved ==> Agree(before, after, k);
    }
    if lost.Keys <= saved.Keys {
      AgreeEverywhere(merged, after);
    } else {
      var k :| k in lost.Keys && k !in saved.Keys;
      assert !Agree(merged, after, k);
    }
  }
}
