/**
 The value side of the store's loops: undo logs, partly processed record maps, the progress of
 the scan for work, and the selections of its queries.
 */
module Transactions {
  import opened Lifecycle
  import opened Store
  import opened Wrappers
  import opened Journal
  import opened KeyOrder
  import opened Scheduling

  /** The undo log of a transaction remembers enough to get from these records back to the former ones. */
  predicate Remembers(undo: Entry, before: Records, records: Records) {
    && (forall k | k in undo :: undo[k] == if k in before then Some(before[k]) else None)
    && (forall k | k in before.Keys + records.Keys && k !in undo :: Agree(before, records, k))
  }

  lemma RememberedIsUndone(undo: Entry, before: Records, records: Records)
    requires Remembers(undo, before, records)
    ensures ApplyEntry(records, undo) == before
  {
    var undone := ApplyEntry(records, undo);
    forall k | k in undone.Keys + before.Keys ensures Agree(undone, before, k) {}
    AgreeEverywhere(undone, before);
  }

  lemma DiffIsEmpty(before: Records, after: Records)
    ensures Diff(before, after) == map[] <==> before == after
  {
    DiffApplies(before, after);
    assert before == after ==> forall k :: k !in Diff(before, after);
  }

  function PartlyRecovered(was: Records, rest: set<string>, now: Time, retention: nat): Records {
    map k | k in was && (k in rest || RecoverRecord(was[k], now, retention).Keep?)
      :: if k in rest then was[k] else RecoverRecord(was[k], now, retention).record
  }

  lemma RecoveredOneMore(was: Records, rest: set<string>, key: string, now: Time, retention: nat)
    requires key in rest && rest <= was.Keys
    ensures PartlyRecovered(was, rest - {key}, now, retention) ==
      match RecoverRecord(was[key], now, retention)
      case Drop => PartlyRecovered(was, rest, now, retention) - {key}
      case Keep(updated, _) => PartlyRecovered(was, rest, now, retention)[key := updated]
  {
  }

  /** The undo log that remembers these keys. */
  function Formerly(was: Records, keys: set<string>): Entry
    requires keys <= was.Keys
  {
    map k | k in keys :: Some(was[k])
  }

  function SweptKeys(records: Records, provider: Cloud, cutoff: Time): set<string> {
    set k | k in records && Sweepable(records[k], provider, cutoff)
  }

  function PrunedKeys(records: Records, cutoff: int): set<string> {
    set k | k in records && Prunable(records[k], cutoff)
  }

  function PartlySwept(was: Records, rest: set<string>, provider: Cloud, cutoff: Time, now: Time): Records {
    map k | k in was :: if k !in rest && Sweepable(was[k], provider, cutoff)
      then was[k].(instanceID := NoInstance, updatedAt := now) else was[k]
  }

  lemma SweptOneMore(was: Records, rest: set<string>, key: string, provider: Cloud, cutoff: Time, now: Time)
    requires key in rest && rest <= was.Keys
    ensures var done := SweptKeys(was, provider, cutoff) - rest;
      var done' := SweptKeys(was, provider, cutoff) - (rest - {key});
      var swept := PartlySwept(was, rest, provider, cutoff, now);
      var swept' := PartlySwept(was, rest - {key}, provider, cutoff, now);
      if Sweepable(was[key], provider, cutoff)
      then Formerly(was, done') == Formerly(was, done)[key := Some(was[key])]
           && swept' == swept[key := was[key].(instanceID := NoInstance, updatedAt := now)]
      else Formerly(was, done') == Formerly(was, done) && swept' == swept
  {
  }

  lemma SweptRemembers(was: Records, provider: Cloud, cutoff: Time, now: Time)
    ensures PartlySwept(was, {}, provider, cutoff, now) == Store.ReleaseSweptOrphans(was, provider, cutoff, now)
    ensures Remembers(Formerly(was, SweptKeys(was, provider, cutoff)),
                      was, Store.ReleaseSweptOrphans(was, provider, cutoff, now))
  {
  }

  function PartlyPruned(was: Records, rest: set<string>, cutoff: int): Records {
    map k | k in was && (k in rest || !Prunable(was[k], cutoff)) :: was[k]
  }

  lemma PrunedOneMore(was: Records, rest: set<string>, key: string, cutoff: int)
    requires key in rest && rest <= was.Keys
    ensures var done := PrunedKeys(was, cutoff) - rest;
      var done' := PrunedKeys(was, cutoff) - (rest - {key});
      if Prunable(was[key], cutoff)
      then Formerly(was, done') == Formerly(was, done)[key := Some(was[key])]
           && PartlyPruned(was, rest - {key}, cutoff) == PartlyPruned(was, rest, cutoff) - {key}
      else Formerly(was, done') == Formerly(was, done)
           && PartlyPruned(was, rest - {key}, cutoff) == PartlyPruned(was, rest, cutoff)
  {
  }

  lemma PrunedRemembers(was: Records, cutoff: int)
    ensures PartlyPruned(was, {}, cutoff) == Store.PruneDeleted(was, cutoff)
    ensures Remembers(Formerly(was, PrunedKeys(was, cutoff)), was, Store.PruneDeleted(was, cutoff))
  {
  }

  function Except(e: Entry, rest: set<string>): Entry { map k | k in e && k !in rest :: e[k] }

  lemma AbsorbedOneMore(was: Records, e: Entry, rest: set<string>, key: string)
    requires key in rest && rest <= e.Keys
    ensures var done := ApplyEntry(was, Except(e, rest));
      ApplyEntry(was, Except(e, rest - {key})) == if e[key].None? then done - {key} else done[key := e[key].value]
  {
    var done := ApplyEntry(was, Except(e, rest));
    var next := if e[key].None? then done - {key} else done[key := e[key].value];
    var more := ApplyEntry(was, Except(e, rest - {key}));
    forall k | k in more.Keys + next.Keys ensures Agree(more, next, k) {}
    AgreeEverywhere(more, next);
  }

  /** Applies an entry key by key. */
  method AbsorbChanges(was: Records, changes: Entry) returns (records: Records)
    ensures records == ApplyEntry(was, changes)
  {
    records := was;
    var rest := changes.Keys;
    assert ApplyEntry(was, Except(changes, rest)) == was;
    while rest != {}
      invariant rest <= changes.Keys
      invariant records == ApplyEntry(was, Except(changes, rest))
    {
      var key :| key in rest;
      AbsorbedOneMore(was, changes, rest, key);
      if changes[key].None? {
        records := records - {key};
      } else {
        records := records[key := changes[key].value];
      }
      rest := rest - {key};
    }
    assert Except(changes, {}) == changes;
  }

  // The scan for work

  lemma CountedOneMore(live: set<string>, rest: set<string>, key: string)
    requires key in rest
    ensures |live - (rest - {key})| == |live - rest| + if key in live then 1 else 0
  {
    if key in live {
      assert live - (rest - {key}) == live - rest + {key};
    } else {
      assert live - (rest - {key}) == live - rest;
    }
  }

  predicate AdmittedAt(liveRunners: nat, limit: nat, r: Record) {
    liveRunners < limit || (liveRunners == limit && ReservedSlot(r))
  }

  function Visits(keys: seq<string>, i: nat): set<string>
    requires i <= |keys|
  {
    set k | k in keys[..i]
  }

  lemma NothingVisited(was: Records, keys: seq<string>, maxAttempts: int, now: Time)
    ensures PassedOver(was, Visits(keys, 0), maxAttempts, now) == was
  {
  }

  lemma AllVisited(was: Records, keys: seq<string>)
    requires IsSortedKeys(keys, was.Keys)
    ensures Visits(keys, |keys|) == KeysBefore(was, NoClaim)
    ensures forall k | k in was :: k in keys
  {
    assert keys[..|keys|] == keys;
  }

  /** The keys visited so far are those before the next one, which is still as it was. */
  lemma VisitNext(was: Records, keys: seq<string>, i: nat, maxAttempts: int, now: Time)
    requires IsSortedKeys(keys, was.Keys) && i < |keys|
    ensures keys[i] in was && keys[i] !in Visits(keys, i)
    ensures forall kind :: Visits(keys, i) == KeysBefore(was, Claimed(keys[i], kind))
    ensures PassedOver(was, Visits(keys, i), maxAttempts, now)[keys[i] := Backstopped(was[keys[i]], maxAttempts, now)]
         == PassedOver(was, Visits(keys, i + 1), maxAttempts, now)
  {
    LessIrreflexive(keys[i]);
    assert keys[..i + 1] == keys[..i] + [keys[i]];
    forall k | k in was ensures k in keys[..i] <==> Less(k, keys[i]) {
      var j :| 0 <= j < |keys| && keys[j] == k;
      if i < j && Less(k, keys[i]) {
        LessTransitive(k, keys[i], k);
        LessIrreflexive(k);
      }
    }
  }

  // Queries

  /** The result holds the records of the given keys, which are exactly the selected ones, each once. */
  predicate ListsKeys(records: Records, selects: Record -> bool, keys: seq<string>, result: seq<Record>) {
    && |keys| == |result|
    && (forall i | 0 <= i < |keys| :: keys[i] in records && result[i] == records[keys[i]])
    && (forall i, j | 0 <= i < j < |keys| :: keys[i] != keys[j])
    && (forall k | k in records :: k in keys <==> selects(records[k]))
  }

  /** The result holds exactly the selected records, each once. */
  ghost predicate Lists(records: Records, selects: Record -> bool, result: seq<Record>) {
    exists keys :: ListsKeys(records, selects, keys, result)
  }

  /** The same, in some order of the caller's. */
  ghost predicate ListsReordered(records: Records, selects: Record -> bool, result: seq<Record>) {
    exists listed :: Lists(records, selects, listed) && multiset(listed) == multiset(result)
  }

  predicate OldestFirst<T>(s: seq<T>, age: T -> Time) {
    forall i, j | 0 <= i < j < |s| :: age(s[i]) <= age(s[j])
  }

  lemma InsertedInOrder<T>(s: seq<T>, i: nat, x: T, age: T -> Time)
    requires OldestFirst(s, age) && i <= |s|
    requires forall j | i <= j < |s| :: age(x) < age(s[j])
    requires i > 0 ==> age(s[i - 1]) <= age(x)
    ensures OldestFirst(s[..i] + [x] + s[i..], age)
  {
    var s' := s[..i] + [x] + s[i..];
    forall a, b | 0 <= a < b < |s'| ensures age(s'[a]) <= age(s'[b]) {
      var atA := if a < i then s[a] else if a == i then x else s[a - 1];
      var atB := if b < i then s[b] else if b == i then x else s[b - 1];
      assert s'[a] == atA && s'[b] == atB;
    }
  }

  lemma InsertedOnce<T>(s: seq<T>, i: nat, x: T)
    requires i <= |s|
    ensures multiset(s[..i] + [x] + s[i..]) == multiset(s) + multiset{x}
  {
    assert s == s[..i] + s[i..];
  }

  method InsertByAge<T>(s: seq<T>, x: T, age: T -> Time) returns (s': seq<T>)
    requires OldestFirst(s, age)
    ensures OldestFirst(s', age) && multiset(s') == multiset(s) + multiset{x}
  {
    var i := |s|;
    while i > 0 && age(x) < age(s[i - 1])
      invariant 0 <= i <= |s|
      invariant forall j | i <= j < |s| :: age(x) < age(s[j])
    {
      i := i - 1;
    }
    InsertedInOrder(s, i, x, age);
    InsertedOnce(s, i, x);
    s' := s[..i] + [x] + s[i..];
  }

  method SortByAge<T>(s: seq<T>, age: T -> Time) returns (sorted: seq<T>)
    ensures OldestFirst(sorted, age) && multiset(sorted) == multiset(s)
  {
    sorted := [];
    for i := 0 to |s|
      invariant OldestFirst(sorted, age) && multiset(sorted) == multiset(s[..i])
    {
      assert s[..i + 1] == s[..i] + [s[i]];
      sorted := InsertByAge(sorted, s[i], age);
    }
    assert s[..|s|] == s;
  }
}
