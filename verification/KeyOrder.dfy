/**
 The order in which records are scanned: sorted by key. A sorted key list is determined by
 the key set, so a cached list can be compared with the records it was built from.
 */
module KeyOrder {

  predicate Less(a: string, b: string) {
    b != [] && (a == [] || a[0] < b[0] || (a[0] == b[0] && Less(a[1..], b[1..])))
  }

  lemma {:induction false} LessIrreflexive(a: string)
    ensures !Less(a, a)
  {
    if a != [] {
      LessIrreflexive(a[1..]);
    }
  }

  lemma {:induction false} LessTransitive(a: string, b: string, c: string)
    requires Less(a, b) && Less(b, c)
    ensures Less(a, c)
  {
    if a != [] && a[0] == b[0] && b[0] == c[0] {
      LessTransitive(a[1..], b[1..], c[1..]);
    }
  }

  lemma {:induction false} LessTotal(a: string, b: string)
    ensures a == b || Less(a, b) || Less(b, a)
  {
    if a != [] && b != [] && a[0] == b[0] {
      LessTotal(a[1..], b[1..]);
      assert a == [a[0]] + a[1..] && b == [b[0]] + b[1..];
    }
  }

  /** Two strings are ordered by their first difference, and a prefix comes before what it begins. */
  lemma {:induction false} LessAtFirstDifference(a: string, b: string)
    ensures Less(a, b) <==>
      exists i | 0 <= i < |b| :: i <= |a| && a[..i] == b[..i] && (i == |a| || a[i] < b[i])
  {
    if a != [] && b != [] && a[0] == b[0] {
      LessAtFirstDifference(a[1..], b[1..]);
      if i :| 0 <= i < |b| - 1 && i <= |a| - 1 && a[1..][..i] == b[1..][..i]
              && (i == |a| - 1 || a[1..][i] < b[1..][i])
      {
        assert a[..i + 1] == [a[0]] + a[1..][..i] && b[..i + 1] == [b[0]] + b[1..][..i];
      }
      if i :| 0 <= i < |b| && i <= |a| && a[..i] == b[..i] && (i == |a| || a[i] < b[i]) {
        assert 0 < i && a[1..][..i - 1] == a[..i][1..] && b[1..][..i - 1] == b[..i][1..];
      }
    } else if b != [] && (a == [] || a[0] < b[0]) {
      assert a[..0] == b[..0];
    } else if a != [] && b != [] {
      forall i | 0 < i < |b| && i <= |a| ensures a[..i] != b[..i] {
        assert a[..i][0] == a[0] && b[..i][0] == b[0];
      }
    }
  }

  predicate Sorted(s: seq<string>) {
    forall i, j | 0 <= i < j < |s| :: Less(s[i], s[j])
  }

  /** The sorted list of a key set. */
  predicate IsSortedKeys(s: seq<string>, keys: set<string>) {
    && Sorted(s)
    && (forall k | k in s :: k in keys)
    && (forall k | k in keys :: k in s)
  }

  lemma SortedHeadIsLeast(s: seq<string>, keys: set<string>, k: string)
    requires IsSortedKeys(s, keys) && k in keys && s != []
    ensures k == s[0] || Less(s[0], k)
  {
    var i :| 0 <= i < |s| && s[i] == k;
  }

  /** There is only one sorted list of a key set. */
  lemma {:induction false} SortedKeysUnique(s: seq<string>, t: seq<string>, keys: set<string>)
    requires IsSortedKeys(s, keys) && IsSortedKeys(t, keys)
    ensures s == t
    decreases |s|
  {
    assert t != [] ==> t[0] in keys;
    if s == [] {
      assert keys == {};
    } else {
      assert s[0] in keys && s[0] in t;
      assert t[0] in keys;
      SortedHeadIsLeast(s, keys, t[0]);
      SortedHeadIsLeast(t, keys, s[0]);
      if s[0] != t[0] {
        LessTransitive(s[0], t[0], s[0]);
        LessIrreflexive(s[0]);
      }
      TailSorted(s, keys);
      TailSorted(t, keys);
      SortedKeysUnique(s[1..], t[1..], keys - {s[0]});
      assert s == [s[0]] + s[1..] && t == [t[0]] + t[1..];
    }
  }

  lemma TailSorted(s: seq<string>, keys: set<string>)
    requires IsSortedKeys(s, keys) && s != []
    ensures IsSortedKeys(s[1..], keys - {s[0]})
  {
    LessIrreflexive(s[0]);
    assert s == [s[0]] + s[1..];
    forall k | k in s[1..] ensures k in keys - {s[0]} {
      var i :| 0 <= i < |s[1..]| && s[1..][i] == k;
      assert k == s[i + 1];
    }
  }

  method LeastKey(keys: set<string>) returns (least: string)
    requires keys != {}
    ensures least in keys
    ensures forall k | k in keys :: k == least || Less(least, k)
  {
    least :| least in keys;
    var rest := keys - {least};
    while rest != {}
      invariant rest <= keys && least in keys
      invariant forall k | k in keys && k !in rest :: k == least || Less(least, k)
    {
      var k :| k in rest;
      LessTotal(least, k);
      if Less(k, least) {
        forall j | j in keys && j !in rest ensures Less(k, j) {
          if j != least {
            LessTransitive(k, least, j);
          }
        }
        least := k;
      }
      rest := rest - {k};
    }
  }

  method SortKeys(keys: set<string>) returns (sorted: seq<string>)
    ensures IsSortedKeys(sorted, keys)
  {
    sorted := [];
    var rest := keys;
    while rest != {}
      invariant rest <= keys && Sorted(sorted)
      invariant forall k | k in sorted :: k in keys && k !in rest
      invariant forall k | k in keys && k !in rest :: k in sorted
      invariant forall j, k | j in sorted && k in rest :: Less(j, k)
    {
      var least := LeastKey(rest);
      sorted := sorted + [least];
      rest := rest - {least};
    }
  }
}
