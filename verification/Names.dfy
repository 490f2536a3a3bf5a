/**
 Key and name formats of the controller: job keys, runner identities, completion
 marker keys and runner names. The store relies on these strings being injective
 and on marker keys never being mistaken for job keys.
 */
module Names {

  const MARKER_PREFIX: string := "_completed_runner:"

  predicate IsDigit(c: char) { '0' <= c <= '9' }

  predicate IsAlnum(c: char) {
    'a' <= c <= 'z' || 'A' <= c <= 'Z' || IsDigit(c)
  }

  predicate IsNameChar(c: char) { IsAlnum(c) || c == '.' || c == '_' || c == '-' }

  /** An owner name the webhook accepts. */
  predicate SafeName(s: string) {
    1 <= |s| <= 100 && IsAlnum(s[0]) && forall i | 0 <= i < |s| :: IsNameChar(s[i])
  }

  /** A repository name the webhook accepts. */
  predicate SafeRepoName(s: string) { s == ".github" || SafeName(s) }

  function LowerChar(c: char): char {
    if 'A' <= c <= 'Z' then ((c as int) + 32) as char else c
  }

  function Lower(s: string): (r: string)
    ensures |r| == |s|
    ensures forall i | 0 <= i < |s| :: r[i] == LowerChar(s[i])
  {
    seq(|s|, i requires 0 <= i < |s| => LowerChar(s[i]))
  }

  function DigitChar(d: nat): char
    requires d < 10
  {
    ('0' as int + d) as char
  }

  function FormatNat(n: nat): (r: string)
    ensures |r| >= 1 && forall i | 0 <= i < |r| :: IsDigit(r[i])
  {
    if n < 10 then [DigitChar(n)] else FormatNat(n / 10) + [DigitChar(n % 10)]
  }

  function ParseNat(s: string): nat
    requires forall i | 0 <= i < |s| :: IsDigit(s[i])
  {
    if s == [] then 0
    else
      assert IsDigit(s[|s| - 1]);
      10 * ParseNat(s[..|s| - 1]) + (s[|s| - 1] as int - '0' as int)
  }

  function FormatInt(n: int): (r: string)
    ensures |r| >= 1 && forall i | 0 <= i < |r| :: IsDigit(r[i]) || r[i] == '-'
  {
    if n < 0 then "-" + FormatNat(-n) else FormatNat(n)
  }

  /** owner/repository in the spelling every key is built from. */
  function FullName(owner: string, repository: string): string {
    Lower(owner + "/" + repository)
  }

  function IdentityOf(fullName: string, runnerID: int): string {
    fullName + "#" + FormatInt(runnerID)
  }

  function RunnerIdentity(owner: string, repository: string, runnerID: int): string {
    IdentityOf(FullName(owner, repository), runnerID)
  }

  function MarkerKey(owner: string, repository: string, runnerID: int): string {
    MARKER_PREFIX + RunnerIdentity(owner, repository, runnerID)
  }

  predicate IsMarkerKey(key: string) { MARKER_PREFIX <= key }

  function JobKeyOf(fullName: string, jobID: int): string {
    fullName + ":" + FormatInt(jobID)
  }

  function JobKey(owner: string, repository: string, jobID: int): string {
    JobKeyOf(FullName(owner, repository), jobID)
  }

  lemma {:induction false} ParseFormat(n: nat)
    ensures ParseNat(FormatNat(n)) == n
  {
    var s := FormatNat(n);
    if n >= 10 {
      ParseFormat(n / 10);
      assert s[..|s| - 1] == FormatNat(n / 10);
    } else {
      assert s[..0] == [];
    }
  }

  lemma FormatIntInjective(a: int, b: int)
    requires FormatInt(a) == FormatInt(b)
    ensures a == b
  {
    ParseFormat(if a < 0 then -a else a);
    ParseFormat(if b < 0 then -b else b);
    assert FormatInt(a)[0] == '-' <==> a < 0;
    assert FormatInt(b)[0] == '-' <==> b < 0;
    if a < 0 && b < 0 {
      assert FormatInt(a)[1..] == FormatNat(-a);
      assert FormatInt(b)[1..] == FormatNat(-b);
    }
  }

  /** A separator that does not occur in the suffixes splits a string only one way. */
  lemma SplitAtSeparator(a: string, x: string, b: string, y: string, sep: char)
    requires a + [sep] + x == b + [sep] + y
    requires sep !in x && sep !in y
    ensures a == b && x == y
  {
    var s, t := a + [sep] + x, b + [sep] + y;
    assert s[|a|] == sep && t[|b|] == sep;
    assert forall i | |a| < i < |s| :: s[i] == x[i - |a| - 1];
    assert forall i | |b| < i < |t| :: t[i] == y[i - |b| - 1];
    assert s[..|a|] == a && t[..|b|] == b;
    assert s[|a| + 1..] == x && t[|b| + 1..] == y;
  }

  lemma IdentityOfInjective(f: string, i: int, g: string, j: int)
    ensures IdentityOf(f, i) == IdentityOf(g, j) <==> f == g && i == j
  {
    if IdentityOf(f, i) == IdentityOf(g, j) {
      SplitAtSeparator(f, FormatInt(i), g, FormatInt(j), '#');
      FormatIntInjective(i, j);
    }
  }

  lemma JobKeyOfInjective(f: string, i: int, g: string, j: int)
    ensures JobKeyOf(f, i) == JobKeyOf(g, j) <==> f == g && i == j
  {
    if JobKeyOf(f, i) == JobKeyOf(g, j) {
      SplitAtSeparator(f, FormatInt(i), g, FormatInt(j), ':');
      FormatIntInjective(i, j);
    }
  }

  lemma MarkerKeyInjective(o: string, r: string, i: int, o': string, r': string, i': int)
    ensures MarkerKey(o, r, i) == MarkerKey(o', r', i') <==> RunnerIdentity(o, r, i) == RunnerIdentity(o', r', i')
    ensures IsMarkerKey(MarkerKey(o, r, i))
  {
    assert MarkerKey(o, r, i)[|MARKER_PREFIX|..] == RunnerIdentity(o, r, i);
    assert MarkerKey(o', r', i')[|MARKER_PREFIX|..] == RunnerIdentity(o', r', i');
  }

  /** The identity is exactly the case-insensitive owner, repository and runner number. */
  lemma RunnerIdentityIsFoldedName(o: string, r: string, i: int, o': string, r': string, i': int)
    requires '/' !in r && '/' !in r'
    ensures RunnerIdentity(o, r, i) == RunnerIdentity(o', r', i')
       <==> Lower(o) == Lower(o') && Lower(r) == Lower(r') && i == i'
  {
    IdentityOfInjective(FullName(o, r), i, FullName(o', r'), i');
    assert FullName(o, r) == Lower(o) + ['/'] + Lower(r);
    assert FullName(o', r') == Lower(o') + ['/'] + Lower(r');
    if FullName(o, r) == FullName(o', r') {
      SplitAtSeparator(Lower(o), Lower(r), Lower(o'), Lower(r'), '/');
    }
  }

  /** Job keys of accepted repositories never collide with completion markers. */
  lemma JobKeyIsNotMarker(owner: string, repository: string, jobID: int)
    requires SafeName(owner)
    ensures !IsMarkerKey(JobKey(owner, repository, jobID))
  {
    var key := JobKey(owner, repository, jobID);
    assert key[0] == LowerChar(owner[0]);
    assert MARKER_PREFIX[0] == '_';
  }

  // Runner names

  function NameBaseChar(c: char): char {
    if 'a' <= c <= 'z' || IsDigit(c) then c else '-'
  }

  function NameBase(repository: string): (r: string)
    ensures |r| == |repository|
    ensures forall i | 0 <= i < |r| :: r[i] == NameBaseChar(LowerChar(repository[i]))
  {
    seq(|repository|, i requires 0 <= i < |repository| => NameBaseChar(LowerChar(repository[i])))
  }

  function TrimRightDashes(s: string): (r: string)
    ensures r <= s
    ensures r == [] || r[|r| - 1] != '-'
    ensures forall i | |r| <= i < |s| :: s[i] == '-'
  {
    if s != [] && s[|s| - 1] == '-' then TrimRightDashes(s[..|s| - 1]) else s
  }

  predicate IsHex(c: char) { IsDigit(c) || 'a' <= c <= 'f' || 'A' <= c <= 'F' }

  predicate IsHexString(s: string) { forall i | 0 <= i < |s| :: IsHex(s[i]) }

  const MAX_BASE := 46 // 63 - len("eph-") - len("-" + 12 digits)

  /** digest stands for the first six bytes of the SHA-256 of the job key, in hex. */
  function RunnerName(repository: string, digest: string): string
    requires |digest| == 12 && IsHexString(digest)
  {
    var base := NameBase(repository);
    var cut := if |base| > MAX_BASE then base[..MAX_BASE] else base;
    "eph-" + TrimRightDashes(cut) + "-" + digest
  }

  predicate LooksLikeEphemeralRunnerName(name: string) {
    "eph-" <= name && |name| >= 18 && IsHexString(name[|name| - 12..])
  }

  /**
   Every runner the controller names is recognised when a completion for an unknown
   job mentions it, and the name fits the 63-character limit.
   */
  lemma RunnerNameIsRecognised(repository: string, digest: string)
    requires SafeRepoName(repository)
    requires |digest| == 12 && IsHexString(digest)
    ensures LooksLikeEphemeralRunnerName(RunnerName(repository, digest))
    ensures |RunnerName(repository, digest)| <= 63
  {
    var name := RunnerName(repository, digest);
    var base := NameBase(repository);
    var cut := if |base| > MAX_BASE then base[..MAX_BASE] else base;
    var i := if repository == ".github" then 1 else 0;
    assert cut[i] == NameBaseChar(LowerChar(repository[i])) != '-';
    assert TrimRightDashes(cut) != [];
    assert name[|name| - 12..] == digest;
    assert name[..4] == "eph-";
  }

  /** The name reads as the folded repository name, cut where it would not fit and never at a dash, and the digest. */
  lemma RunnerNameReads(repository: string, digest: string)
    requires SafeRepoName(repository)
    requires |digest| == 12 && IsHexString(digest)
    ensures exists n | 0 < n <= |repository| ::
      && RunnerName(repository, digest) == "eph-" + NameBase(repository)[..n] + "-" + digest
      && NameBase(repository)[n - 1] != '-'
      && forall i | n <= i < |repository| && i < MAX_BASE :: NameBase(repository)[i] == '-'
  {
    var base := NameBase(repository);
    var cut := if |base| > MAX_BASE then base[..MAX_BASE] else base;
    var i := if repository == ".github" then 1 else 0;
    assert cut[i] == NameBaseChar(LowerChar(repository[i])) != '-';
    var n := |TrimRightDashes(cut)|;
    assert TrimRightDashes(cut) == cut[..n] == base[..n];
    assert 0 < n <= |repository|;
  }
}
