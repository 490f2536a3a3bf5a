/**
 The journal file as bytes: one encoded entry per line. Loading tolerates a torn last
 line and nothing else. The entry encoding itself is a parameter with the three properties
 the file format needs.
 */
module Framing {
  import opened Wrappers

  newtype byte = x: int | 0 <= x < 256

  const NEWLINE: byte := 10

  /** How an entry is written and read; encode stands for the JSON encoder and decode for its inverse. */
  datatype Codec<!E> = Codec(encode: E -> seq<byte>, decode: seq<byte> -> Option<E>)

  predicate IsSpace(b: byte) { 9 <= b <= 13 || b == 32 }

  predicate Blank(line: seq<byte>) { forall i | 0 <= i < |line| :: IsSpace(line[i]) }

  /** A line is one undivided, visible entry; decoding inverts it and rejects it when it is cut short. */
  ghost predicate LineOf<E(!new)>(c: Codec<E>, e: E) {
    var line := c.encode(e);
    && c.decode(line) == Some(e) && NEWLINE !in line && !Blank(line)
    && forall n | 0 < n < |line| :: !Blank(line[..n]) && c.decode(line[..n]) == None
  }

  ghost predicate GoodCodec<E(!new)>(c: Codec<E>) {
    forall e :: LineOf(c, e)
  }

  // Lines

  function IndexOfNewline(data: seq<byte>): (i: nat)
    requires NEWLINE in data
    ensures i < |data| && data[i] == NEWLINE && forall k | 0 <= k < i :: data[k] != NEWLINE
  {
    if data[0] == NEWLINE then 0
    else
      assert data == [data[0]] + data[1..];
      1 + IndexOfNewline(data[1..])
  }

  function SplitLines(data: seq<byte>): (lines: seq<seq<byte>>)
    ensures |lines| >= 1
  {
    if NEWLINE !in data then [data]
    else
      var i := IndexOfNewline(data);
      [data[..i]] + SplitLines(data[i + 1..])
  }

  function LastOf<T>(s: seq<T>): T
    requires s != []
  {
    s[|s| - 1]
  }

  lemma LastOfCons<T>(x: T, s: seq<T>)
    requires s != []
    ensures LastOf([x] + s) == LastOf(s)
  {
  }

  /** The last line of a file that has a newline is the last line of what follows the first one. */
  lemma {:induction false} LastOfRest(data: seq<byte>)
    requires NEWLINE in data
    ensures LastOf(SplitLines(data)) == LastOf(SplitLines(data[IndexOfNewline(data) + 1..]))
  {
    LastOfCons(data[..IndexOfNewline(data)], SplitLines(data[IndexOfNewline(data) + 1..]));
  }

  lemma {:induction false} LastLineFits(data: seq<byte>)
    ensures |LastOf(SplitLines(data))| <= |data|
    decreases |data|
  {
    if NEWLINE in data {
      LastOfRest(data);
      LastLineFits(data[IndexOfNewline(data) + 1..]);
    }
  }

  predicate EndsLine(data: seq<byte>) { data != [] && LastOf(data) == NEWLINE }

  lemma EndsWithRest(data: seq<byte>, i: nat)
    requires i < |data| && data[i] == NEWLINE
    ensures EndsLine(data) <==> data[i + 1..] == [] || EndsLine(data[i + 1..])
  {
    if i + 1 < |data| {
      assert LastOf(data[i + 1..]) == LastOf(data);
    }
  }

  /** Only a file that does not end in a newline has an unfinished last line. */
  lemma {:induction false} LastLineUnfinished(data: seq<byte>)
    ensures LastOf(SplitLines(data)) == [] <==> data == [] || EndsLine(data)
    decreases |data|
  {
    if NEWLINE in data {
      var i := IndexOfNewline(data);
      LastOfRest(data);
      EndsWithRest(data, i);
      LastLineUnfinished(data[i + 1..]);
    } else if data != [] {
      assert LastOf(data) in data;
    }
  }

  function Joined(lines: seq<seq<byte>>): seq<byte> {
    if lines == [] then [] else lines[0] + [NEWLINE] + Joined(lines[1..])
  }

  function Encoded<E>(c: Codec<E>, entries: seq<E>): (lines: seq<seq<byte>>)
    ensures |lines| == |entries|
    ensures forall i | 0 <= i < |lines| :: lines[i] == c.encode(entries[i])
  {
    seq(|entries|, i requires 0 <= i < |entries| => c.encode(entries[i]))
  }

  /** The file that holds the given entries and nothing else. */
  function Frames<E>(c: Codec<E>, entries: seq<E>): seq<byte> {
    Joined(Encoded(c, entries))
  }

  function Frame<E>(c: Codec<E>, e: E): seq<byte> { c.encode(e) + [NEWLINE] }

  // Loading

  datatype Loaded<E> = Loaded(entries: seq<E>, kept: seq<byte>) | Corrupt

  /** The entries on the given lines, or None when one of them does not decode. */
  function DecodeLines<E>(c: Codec<E>, lines: seq<seq<byte>>): Option<seq<E>> {
    if lines == [] then Some([])
    else
      match DecodeLines(c, lines[..|lines| - 1])
      case None => None
      case Some(entries) => DecodeLine(c, entries, LastOf(lines))
  }

  /** The entries after one more line; a blank line holds none. */
  function DecodeLine<E>(c: Codec<E>, entries: seq<E>, line: seq<byte>): Option<seq<E>> {
    if Blank(line) then Some(entries)
    else match c.decode(line)
      case None => None
      case Some(e) => Some(entries + [e])
  }

  /** One undecodable line makes everything up to it, and so the file, unreadable. */
  lemma {:induction false} UndecodableLine<E>(c: Codec<E>, lines: seq<seq<byte>>, i: nat)
    requires i < |lines| && DecodeLines(c, lines[..i + 1]).None?
    ensures DecodeLines(c, lines).None?
  {
    if i + 1 < |lines| {
      assert lines[..|lines| - 1][..i + 1] == lines[..i + 1];
      UndecodableLine(c, lines[..|lines| - 1], i);
    } else {
      assert lines[..i + 1] == lines;
    }
  }

  predicate TornTail<E>(c: Codec<E>, lines: seq<seq<byte>>)
    requires |lines| >= 1
  {
    !Blank(LastOf(lines)) && c.decode(LastOf(lines)).None?
  }

  /** What opening the journal reads, and the file it leaves: a torn tail is cut, a missing delimiter added. */
  function Load<E>(c: Codec<E>, data: seq<byte>): Loaded<E> {
    LastLineFits(data);
    var lines := SplitLines(data);
    var last := LastOf(lines);
    var torn := TornTail(c, lines);
    match DecodeLines(c, if torn then lines[..|lines| - 1] else lines)
    case None => Corrupt
    case Some(entries) => Loaded(entries,
      if torn then data[..|data| - |last|]
      else if last != [] then data + [NEWLINE]
      else data)
  }

  /** Reading line by line up to the first that is no entry decides what the file holds. */
  lemma LinesDecide<E>(c: Codec<E>, data: seq<byte>, applied: nat, entries: seq<E>)
    requires var lines := SplitLines(data);
      && applied <= |lines| && DecodeLines(c, lines[..applied]) == Some(entries)
      && (applied < |lines| ==> DecodeLines(c, lines[..applied + 1]).None?)
    ensures var lines := SplitLines(data);
      var last := LastOf(lines);
      |last| <= |data| && (applied == |lines| - 1 ==> last != []) && (last == [] <==> data == [] || EndsLine(data))
    ensures var lines := SplitLines(data);
      Load(c, data) ==
        if applied < |lines| - 1 then Corrupt
        else if applied == |lines| - 1 then Loaded(entries, data[..|data| - |LastOf(lines)|])
        else if LastOf(lines) != [] then Loaded(entries, data + [NEWLINE])
        else Loaded(entries, data)
  {
    LastLineFits(data);
    LastLineUnfinished(data);
    var lines := SplitLines(data);
    var front := lines[..|lines| - 1];
    if applied < |lines| {
      assert lines[..applied + 1][..applied] == lines[..applied];
      UndecodableLine(c, lines, applied);
      if applied < |lines| - 1 {
        assert front[..applied + 1] == lines[..applied + 1];
        UndecodableLine(c, front, applied);
      } else {
        assert lines[..applied + 1] == lines;
      }
    } else {
      assert lines[..applied] == lines;
    }
  }

  // The lines of a well-formed file

  lemma SplitFirst(line: seq<byte>, tail: seq<byte>)
    requires NEWLINE !in line
    ensures SplitLines(line + [NEWLINE] + tail) == [line] + SplitLines(tail)
  {
    var whole := line + [NEWLINE] + tail;
    assert whole[|line|] == NEWLINE && whole[..|line|] == line;
    assert forall k | 0 <= k < |line| :: whole[k] == line[k];
    assert IndexOfNewline(whole) == |line|;
    assert whole[|line| + 1..] == tail;
  }

  lemma {:induction false} SplitJoined(lines: seq<seq<byte>>, tail: seq<byte>)
    requires NEWLINE !in tail && forall i | 0 <= i < |lines| :: NEWLINE !in lines[i]
    ensures SplitLines(Joined(lines) + tail) == lines + [tail]
  {
    if lines == [] {
      assert Joined(lines) + tail == tail;
    } else {
      SplitJoined(lines[1..], tail);
      SplitFirst(lines[0], Joined(lines[1..]) + tail);
      assert Joined(lines) + tail == lines[0] + [NEWLINE] + (Joined(lines[1..]) + tail);
      assert lines == [lines[0]] + lines[1..];
    }
  }

  lemma {:induction false} JoinedLast(lines: seq<seq<byte>>, line: seq<byte>)
    ensures Joined(lines + [line]) == Joined(lines) + (line + [NEWLINE])
  {
    if lines == [] {
      assert lines + [line] == [line];
    } else {
      assert (lines + [line])[1..] == lines[1..] + [line];
      JoinedLast(lines[1..], line);
      assert Joined(lines + [line])
          == (lines[0] + [NEWLINE]) + (Joined(lines[1..]) + (line + [NEWLINE]));
    }
  }

  /** A file of entries followed by an undelimited tail splits into exactly their lines and that tail. */
  lemma SplitFrames<E(!new)>(c: Codec<E>, entries: seq<E>, tail: seq<byte>)
    requires GoodCodec(c) && NEWLINE !in tail
    ensures SplitLines(Frames(c, entries) + tail) == Encoded(c, entries) + [tail]
  {
    var lines := Encoded(c, entries);
    forall i | 0 <= i < |lines| ensures NEWLINE !in lines[i] {
      assert LineOf(c, entries[i]);
    }
    SplitJoined(lines, tail);
  }

  lemma {:induction false} DecodeEncoded<E(!new)>(c: Codec<E>, entries: seq<E>)
    requires GoodCodec(c)
    ensures DecodeLines(c, Encoded(c, entries)) == Some(entries)
  {
    if entries != [] {
      var rest, e := entries[..|entries| - 1], entries[|entries| - 1];
      DecodeEncoded(c, rest);
      assert LineOf(c, e);
      assert Encoded(c, entries)[..|entries| - 1] == Encoded(c, rest);
      assert entries == rest + [e];
    }
  }

  /** Loading complete entries and an undelimited tail that is empty, torn, or an entry without its newline. */
  lemma LoadWithTail<E(!new)>(c: Codec<E>, entries: seq<E>, tail: seq<byte>)
    requires GoodCodec(c) && NEWLINE !in tail
    ensures tail == [] ==> Load(c, Frames(c, entries) + tail) == Loaded(entries, Frames(c, entries))
    ensures !Blank(tail) && c.decode(tail).None? ==>
      Load(c, Frames(c, entries) + tail) == Loaded(entries, Frames(c, entries))
    ensures !Blank(tail) && c.decode(tail).Some? ==>
      Load(c, Frames(c, entries) + tail)
      == Loaded(entries + [c.decode(tail).value], Frames(c, entries) + tail + [NEWLINE])
  {
    var base, lines := Frames(c, entries), Encoded(c, entries) + [tail];
    SplitFrames(c, entries, tail);
    DecodeEncoded(c, entries);
    assert lines[..|lines| - 1] == Encoded(c, entries);
    assert (base + tail)[..|base + tail| - |tail|] == base;
  }

  /** One more finished line, whatever it holds: it is read as an entry, or makes the whole file unreadable. */
  lemma LoadWithLine<E(!new)>(c: Codec<E>, entries: seq<E>, line: seq<byte>)
    requires GoodCodec(c) && NEWLINE !in line && !Blank(line)
    ensures var data := Frames(c, entries) + (line + [NEWLINE]);
      Load(c, data) == if c.decode(line).None? then Corrupt else Loaded(entries + [c.decode(line).value], data)
  {
    var front := Encoded(c, entries) + [line];
    forall i | 0 <= i < |entries| ensures NEWLINE !in Encoded(c, entries)[i] {
      assert LineOf(c, entries[i]);
    }
    JoinedLast(Encoded(c, entries), line);
    SplitJoined(front, []);
    assert Joined(front) + [] == Joined(front);
    DecodeEncoded(c, entries);
    DecodeOneMore(c, Encoded(c, entries), line);
    DecodeOneMore(c, front, []);
  }

  lemma DecodeOneMore<E>(c: Codec<E>, lines: seq<seq<byte>>, line: seq<byte>)
    ensures DecodeLines(c, lines + [line]) == match DecodeLines(c, lines)
      case None => None
      case Some(entries) => DecodeLine(c, entries, line)
  {
    assert (lines + [line])[..|lines|] == lines;
  }

  lemma FramesLast<E>(c: Codec<E>, entries: seq<E>, e: E)
    ensures Frames(c, entries + [e]) == Frames(c, entries) + Frame(c, e)
  {
    JoinedLast(Encoded(c, entries), c.encode(e));
    assert Encoded(c, entries + [e]) == Encoded(c, entries) + [c.encode(e)];
  }

  /**
   A file of complete entries and any prefix of one more append loads as the complete
   entries, plus the last one exactly when its whole encoding is there; what is left on disk
   is again a file of complete entries, ready for further appends.
   */
  lemma TornTailRecovery<E(!new)>(c: Codec<E>, entries: seq<E>, e: E, n: nat)
    requires GoodCodec(c) && n <= |Frame(c, e)|
    ensures var recovered := if n < |c.encode(e)| then entries else entries + [e];
      Load(c, Frames(c, entries) + Frame(c, e)[..n]) == Loaded(recovered, Frames(c, recovered))
  {
    assert LineOf(c, e);
    var line, tail := c.encode(e), Frame(c, e)[..n];
    FramesLast(c, entries, e);
    if n <= |line| {
      assert tail == line[..n];
      assert n == |line| ==> tail == line;
      LoadWithTail(c, entries, tail);
      assert Frames(c, entries) + line + [NEWLINE] == Frames(c, entries) + Frame(c, e);
    } else {
      assert tail == Frame(c, e);
      IntactFileLoads(c, entries + [e]);
    }
  }

  /** An intact file loads as its entries and is left as it is. */
  lemma IntactFileLoads<E(!new)>(c: Codec<E>, entries: seq<E>)
    requires GoodCodec(c)
    ensures Load(c, Frames(c, entries)) == Loaded(entries, Frames(c, entries))
  {
    LoadWithTail(c, entries, []);
    assert Frames(c, entries) + [] == Frames(c, entries);
  }

  // The three codec properties can be met

  function Tally(n: nat): seq<byte> { seq(n, _ => 49) + [50] }

  function ReadTally(line: seq<byte>): Option<nat> {
    if line != [] && line == Tally(|line| - 1) then Some(|line| - 1) else None
  }

  lemma GoodCodecExists()
    ensures GoodCodec(Codec(Tally, ReadTally))
  {
    var c := Codec(Tally, ReadTally);
    forall e: nat ensures LineOf(c, e) {
      var line := Tally(e);
      assert line[e] == 50 && !Blank(line);
      forall n | 0 < n < |line| ensures !Blank(line[..n]) && c.decode(line[..n]) == None {
        assert line[..n][n - 1] == 49;
        assert Tally(n - 1)[n - 1] == 50;
      }
    }
  }
}
