/** The CLI's record splitters (crates/logdrain-cli/src/main.rs:120-122 and 255-297). */
module Records {
  import opened Wrappers
  import opened Sequences

  newtype Byte = x: int | 0 <= x < 256

  type Bytes = seq<Byte>

  /** One call of `read`: some bytes (none at the end of the stream) or an I/O error. */
  datatype ReadResult = Data(bytes: Bytes) | Failed

  // ---------------------------------------------------------------- searching

  ghost predicate OccursAt(hay: Bytes, needle: Bytes, p: nat) {
    p + |needle| <= |hay| && hay[p..p + |needle|] == needle
  }

  /** First index of `needle` within `hay`. */
  function FindSub(hay: Bytes, needle: Bytes): (r: Option<nat>)
    requires needle != []
    ensures r.Some? ==> OccursAt(hay, needle, r.value) && forall q | OccursAt(hay, needle, q) :: r.value <= q
    ensures r.None? ==> forall q :: !OccursAt(hay, needle, q)
  {
    if |hay| < |needle| then None
    else if hay[..|needle|] == needle then Some(0)
    else
      var rest := FindSub(hay[1..], needle);
      OccursBehind(hay, needle);
      if rest.None? then None else Some(rest.value + 1)
  }

  lemma OccursBehind(hay: Bytes, needle: Bytes)
    requires hay != []
    ensures forall q | q > 0 :: OccursAt(hay, needle, q) <==> OccursAt(hay[1..], needle, q - 1)
  {
    forall q | q > 0
      ensures OccursAt(hay, needle, q) <==> OccursAt(hay[1..], needle, q - 1)
    {
      if q + |needle| <= |hay| {
        assert hay[1..][q - 1..q - 1 + |needle|] == hay[q..q + |needle|];
      }
    }
  }

  /** What is found in a buffer stays the first occurrence when more bytes arrive. */
  lemma FindSubAppend(hay: Bytes, more: Bytes, needle: Bytes)
    requires needle != [] && FindSub(hay, needle).Some?
    ensures FindSub(hay + more, needle) == FindSub(hay, needle)
  {
    hide FindSub;
    var p := FindSub(hay, needle).value;
    assert (hay + more)[p..p + |needle|] == hay[p..p + |needle|];
    assert OccursAt(hay + more, needle, p);
    var q := FindSub(hay + more, needle).value;
    assert hay[q..q + |needle|] == (hay + more)[q..q + |needle|];
    assert OccursAt(hay, needle, q);
  }

  // ---------------------------------------------------------------- splitting a whole stream

  /** All pieces between separators, the last one included even when it is empty. */
  function Pieces(stream: Bytes, sep: Bytes): (ps: seq<Bytes>)
    requires sep != []
    ensures ps != []
    decreases |stream|
  {
    match FindSub(stream, sep)
    case None => [stream]
    case Some(p) => [stream[..p]] + Pieces(stream[p + |sep|..], sep)
  }

  function Join(ps: seq<Bytes>, sep: Bytes): Bytes
    requires ps != []
  {
    if |ps| == 1 then ps[0] else ps[0] + sep + Join(ps[1..], sep)
  }

  /** The pieces are cut at leftmost, non-overlapping separators: in each piece followed by its
      separator the separator occurs first at the end, and it does not occur in the last piece. */
  ghost predicate LeftmostSplit(ps: seq<Bytes>, sep: Bytes)
    requires sep != []
  {
    && ps != []
    && FindSub(ps[|ps| - 1], sep).None?
    && forall i | 0 <= i < |ps| - 1 :: FindSub(ps[i] + sep, sep) == Some(|ps[i]|)
  }

  /** The leftmost split of a stream exists, is unique, and joins back to the stream. */
  lemma {:induction false} PiecesAreTheLeftmostSplit(ps: seq<Bytes>, stream: Bytes, sep: Bytes)
    requires sep != []
    ensures LeftmostSplit(ps, sep) && Join(ps, sep) == stream <==> ps == Pieces(stream, sep)
  {
    PiecesSplit(stream, sep);
    if LeftmostSplit(ps, sep) && Join(ps, sep) == stream {
      SplitIsUnique(ps, stream, sep);
    }
  }

  lemma {:induction false} PiecesSplit(stream: Bytes, sep: Bytes)
    requires sep != []
    ensures LeftmostSplit(Pieces(stream, sep), sep) && Join(Pieces(stream, sep), sep) == stream
    decreases |stream|
  {
    var found := FindSub(stream, sep);
    if found.Some? {
      var p := found.value;
      var rest := stream[p + |sep|..];
      var ps := Pieces(stream, sep);
      PiecesSplit(rest, sep);
      assert ps[1..] == Pieces(rest, sep);
      assert stream[..p] + sep + rest == stream;
      FindSubPrefix(stream, sep, p);
    }
  }

  lemma OccursInPrefix(stream: Bytes, sep: Bytes, n: nat, q: nat)
    requires n <= |stream|
    ensures OccursAt(stream[..n], sep, q) <==> q + |sep| <= n && OccursAt(stream, sep, q)
  {
    if q + |sep| <= n {
      assert stream[..n][q..q + |sep|] == stream[q..q + |sep|];
    }
  }

  lemma FindSubPrefix(stream: Bytes, sep: Bytes, p: nat)
    requires sep != [] && FindSub(stream, sep) == Some(p)
    ensures FindSub(stream[..p] + sep, sep) == Some(p)
  {
    hide FindSub;
    var n := p + |sep|;
    assert stream[..p] + sep == stream[..n];
    OccursInPrefix(stream, sep, n, p);
    var found := FindSub(stream[..n], sep);
    OccursInPrefix(stream, sep, n, found.value);
  }

  lemma {:induction false} SplitIsUnique(ps: seq<Bytes>, stream: Bytes, sep: Bytes)
    requires sep != [] && LeftmostSplit(ps, sep) && Join(ps, sep) == stream
    ensures ps == Pieces(stream, sep)
    decreases |ps|
  {
    if |ps| > 1 {
      var p := |ps[0]|;
      FindSubAppend(ps[0] + sep, Join(ps[1..], sep), sep);
      assert stream[..p] == ps[0] && stream[p + |sep|..] == Join(ps[1..], sep);
      SplitIsUnique(ps[1..], stream[p + |sep|..], sep);
    }
  }

  function AllButLast(ps: seq<Bytes>): seq<Bytes>
    requires ps != []
  {
    ps[..|ps| - 1]
  }

  function Last(ps: seq<Bytes>): Bytes
    requires ps != []
  {
    ps[|ps| - 1]
  }

  /** Splitting may resume from the unfinished last piece when more bytes arrive. */
  lemma {:induction false} PiecesResume(stream: Bytes, more: Bytes, sep: Bytes)
    requires sep != []
    ensures Pieces(stream + more, sep)
         == AllButLast(Pieces(stream, sep)) + Pieces(Last(Pieces(stream, sep)) + more, sep)
    decreases |stream|
  {
    hide FindSub;
    var found := FindSub(stream, sep);
    if found.Some? {
      var p := found.value;
      var rest := stream[p + |sep|..];
      var qs := Pieces(rest, sep);
      FindSubAppend(stream, more, sep);
      CutAppended(stream, more, p, p + |sep|);
      PiecesResume(rest, more, sep);
      HeadAndTail(stream[..p], qs);
      Assoc([stream[..p]], AllButLast(qs), Pieces(Last(qs) + more, sep));
    } else {
      assert AllButLast([stream]) == [];
    }
  }

  lemma CutAppended(stream: Bytes, more: Bytes, p: nat, q: nat)
    requires p <= q <= |stream|
    ensures (stream + more)[..p] == stream[..p] && (stream + more)[q..] == stream[q..] + more
  {
  }

  lemma HeadAndTail(p: Bytes, qs: seq<Bytes>)
    requires qs != []
    ensures AllButLast([p] + qs) == [p] + AllButLast(qs) && Last([p] + qs) == Last(qs)
  {
  }

  /** The records of a complete stream: its pieces, without an empty last one. */
  function Records(stream: Bytes, sep: Bytes): seq<Bytes>
    requires sep != []
  {
    var ps := Pieces(stream, sep);
    if Last(ps) == [] then AllButLast(ps) else ps
  }

  /** The complete records `fed` with the unfinished `buffer` behind them are the split; whether an empty buffer is
      dropped is all the records add. */
  lemma FedIsTheSplit(fed: seq<Bytes>, buffer: Bytes, s: Bytes, sep: Bytes)
    requires sep != [] && Pieces(s, sep) == fed + [buffer]
    ensures LeftmostSplit(fed + [buffer], sep) && Join(fed + [buffer], sep) == s
    ensures Records(s, sep) == if buffer == [] then fed else fed + [buffer]
  {
    PiecesSplit(s, sep);
    assert AllButLast(fed + [buffer]) == fed;
  }

  /** The records are the leftmost split of the stream, less its last piece when that is empty and only then. */
  lemma RecordsAreTheSplit(stream: Bytes, sep: Bytes)
    requires sep != []
    ensures var rs := Records(stream, sep);
            || (rs != [] && rs[|rs| - 1] != [] && LeftmostSplit(rs, sep) && Join(rs, sep) == stream)
            || (LeftmostSplit(rs + [[]], sep) && Join(rs + [[]], sep) == stream)
  {
    hide LeftmostSplit, Join, Pieces;
    var ps := Pieces(stream, sep);
    assert ps == AllButLast(ps) + [Last(ps)];
    FedIsTheSplit(AllButLast(ps), Last(ps), stream, sep);
  }

  /** Joining the records gives the stream back; only a separator at its very end is not between records. */
  lemma RecordsJoinBack(stream: Bytes, sep: Bytes)
    requires sep != []
    ensures var rs := Records(stream, sep);
            if rs == [] then stream == []
            else stream == Join(rs, sep) || stream == Join(rs, sep) + sep
  {
    PiecesSplit(stream, sep);
    var ps := Pieces(stream, sep);
    if ps[|ps| - 1] == [] && |ps| > 1 {
      JoinLast(ps, sep);
    }
  }

  lemma {:induction false} JoinLast(ps: seq<Bytes>, sep: Bytes)
    requires |ps| > 1
    ensures Join(ps, sep) == Join(ps[..|ps| - 1], sep) + sep + ps[|ps| - 1]
  {
    if |ps| > 2 {
      JoinLast(ps[1..], sep);
      assert ps[..|ps| - 1][1..] == ps[1..][..|ps| - 2];
    }
  }

  // ---------------------------------------------------------------- the streaming splitter

  /** The bytes delivered before the first empty read or error. */
  function Received(chunks: seq<ReadResult>): Bytes {
    if chunks == [] || chunks[0].Failed? || chunks[0].bytes == [] then []
    else chunks[0].bytes + Received(chunks[1..])
  }

  /** Whether an error comes before the end of the stream. */
  predicate Fails(chunks: seq<ReadResult>) {
    chunks != [] && (chunks[0].Failed? || (chunks[0].bytes != [] && Fails(chunks[1..])))
  }

  /** Read `i` delivers the bytes of `s` between its entry in `cuts` and the next one. */
  ghost predicate ReadAt(chunks: seq<ReadResult>, cuts: seq<nat>, s: Bytes, i: nat)
    requires i < |chunks| && i + 1 < |cuts|
  {
    && chunks[i].Data? && chunks[i].bytes != []
    && cuts[i] <= cuts[i + 1] <= |s| && s[cuts[i]..cuts[i + 1]] == chunks[i].bytes
  }

  /** `s` is what the reads deliver up to the first empty read or error. */
  ghost predicate Delivers(chunks: seq<ReadResult>, cuts: seq<nat>, s: Bytes) {
    && 0 < |cuts| <= |chunks| + 1 && cuts[0] == 0 && cuts[|cuts| - 1] == |s|
    && (forall i | 0 <= i < |cuts| - 1 :: ReadAt(chunks, cuts, s, i))
    && (|cuts| <= |chunks| ==> chunks[|cuts| - 1] == Failed || chunks[|cuts| - 1] == Data([]))
  }

  lemma {:induction false} FirstReads(chunks: seq<ReadResult>, cuts: seq<nat>, s: Bytes, n: nat)
    requires Delivers(chunks, cuts, s) && n < |cuts|
    ensures cuts[n] <= |s| && Received(chunks) == s[..cuts[n]] + Received(chunks[n..])
    ensures Fails(chunks) <==> Fails(chunks[n..])
  {
    if n == 0 {
      assert chunks[0..] == chunks;
    } else {
      FirstReads(chunks, cuts, s, n - 1);
      assert ReadAt(chunks, cuts, s, n - 1);
      var before, bytes := s[..cuts[n - 1]], chunks[n - 1].bytes;
      assert chunks[n - 1..][1..] == chunks[n..];
      Assoc(before, bytes, Received(chunks[n..]));
      assert s[..cuts[n]] == before + bytes;
    }
  }

  /** What a reading delivers is `Received`, and it fails exactly when it ends at an error. */
  lemma DeliveredIsReceived(chunks: seq<ReadResult>, cuts: seq<nat>, s: Bytes)
    requires Delivers(chunks, cuts, s)
    ensures Received(chunks) == s
    ensures Fails(chunks) <==> |cuts| <= |chunks| && chunks[|cuts| - 1].Failed?
  {
    FirstReads(chunks, cuts, s, |cuts| - 1);
    assert s[..|s|] == s && s + [] == s;
  }

  lemma DeliversMore(chunks: seq<ReadResult>, cuts: seq<nat>, s: Bytes, bytes: Bytes)
    requires 0 < |cuts| <= |chunks| && chunks[|cuts| - 1] == Data(bytes) && bytes != []
    requires Delivers(chunks[..|cuts| - 1], cuts, s)
    ensures Delivers(chunks[..|cuts|], cuts + [|s| + |bytes|], s + bytes)
  {
    var n := |cuts| - 1;
    var cuts', s', chunks' := cuts + [|s| + |bytes|], s + bytes, chunks[..n + 1];
    forall i | 0 <= i < n
      ensures ReadAt(chunks', cuts', s', i)
    {
      assert ReadAt(chunks[..n], cuts, s, i);
      assert chunks'[i] == chunks[..n][i];
      assert s'[cuts[i]..cuts[i + 1]] == s[cuts[i]..cuts[i + 1]];
    }
    assert s'[cuts'[n]..cuts'[n + 1]] == bytes;
    assert ReadAt(chunks', cuts', s', n);
  }

  /** Two readings that deliver the same bytes feed the same records, however the bytes are cut into chunks. */
  lemma SameBytesSameRecords(a: seq<ReadResult>, b: seq<ReadResult>, acuts: seq<nat>, bcuts: seq<nat>, s: Bytes,
                             sep: Bytes)
    requires sep != [] && Delivers(a, acuts, s) && Delivers(b, bcuts, s)
    ensures Records(Received(a), sep) == Records(Received(b), sep) == Records(s, sep)
  {
    DeliveredIsReceived(a, acuts, s);
    DeliveredIsReceived(b, bcuts, s);
  }

  /** Feeds every complete record of the buffer and keeps the rest. */
  method DrainRecords(buffer: Bytes, sep: Bytes) returns (fed: seq<Bytes>, rest: Bytes)
    requires sep != []
    ensures fed + [rest] == Pieces(buffer, sep)
  {
    fed, rest := [], buffer;
    var pos := FindSub(rest, sep);
    while pos.Some?
      invariant pos == FindSub(rest, sep)
      invariant fed + Pieces(rest, sep) == Pieces(buffer, sep)
      decreases |rest|
    {
      fed := fed + [rest[..pos.value]];
      rest := rest[pos.value + |sep|..];
      pos := FindSub(rest, sep);
    }
  }

  /** Splits the stream `s` a reader delivers, whatever the sizes of its chunks. On an I/O error the records
      completed before it have been fed and the unfinished one, `rest`, has not. */
  method IngestSeparated(chunks: seq<ReadResult>, sep: Bytes)
    returns (fed: seq<Bytes>, ok: bool, ghost cuts: seq<nat>, ghost s: Bytes, ghost rest: Bytes)
    requires sep != []
    ensures Delivers(chunks, cuts, s) && s == Received(chunks)
    ensures ok <==> !(|cuts| <= |chunks| && chunks[|cuts| - 1].Failed?)
    ensures ok ==> fed == Records(s, sep)
    ensures ok ==>
              || (fed != [] && fed[|fed| - 1] != [] && LeftmostSplit(fed, sep) && Join(fed, sep) == s)
              || (LeftmostSplit(fed + [[]], sep) && Join(fed + [[]], sep) == s)
    ensures !ok ==> LeftmostSplit(fed + [rest], sep) && Join(fed + [rest], sep) == s
  {
    hide Delivers, LeftmostSplit, Join, Records, Pieces, Received;
    fed, rest := [], [];
    var buffer: Bytes := [];
    var i := 0;
    cuts, s := [0], [];
    NothingRead(chunks, sep);
    while i < |chunks| && !(chunks[i].Data? && chunks[i].bytes == [])
      invariant 0 <= i <= |chunks| && |cuts| == i + 1
      invariant Delivers(chunks[..i], cuts, s)
      invariant Pieces(s, sep) == fed + [buffer]
    {
      if chunks[i].Failed? {
        StopsHere(chunks, cuts, s);
        FedIsTheSplit(fed, buffer, s, sep);
        return fed, false, cuts, s, buffer;
      }
      var bytes := chunks[i].bytes;
      var more, left := DrainRecords(buffer + bytes, sep);
      SplitMore(fed, buffer, s, bytes, more, left, sep);
      DeliversMore(chunks, cuts, s, bytes);
      cuts, s := cuts + [|s| + |bytes|], s + bytes;
      fed := fed + more;
      buffer := left;
      i := i + 1;
    }
    StopsHere(chunks, cuts, s);
    FedIsTheSplit(fed, buffer, s, sep);
    if buffer != [] {
      fed := fed + [buffer];
    }
    ok := true;
  }

  lemma NothingRead(chunks: seq<ReadResult>, sep: Bytes)
    requires sep != []
    ensures Delivers(chunks[..0], [0], []) && Pieces([], sep) == [] + [[]]
  {
  }

  /** The reading ends where the loop stops. */
  lemma StopsHere(chunks: seq<ReadResult>, cuts: seq<nat>, s: Bytes)
    requires 0 < |cuts| <= |chunks| + 1 && Delivers(chunks[..|cuts| - 1], cuts, s)
    requires |cuts| <= |chunks| ==> chunks[|cuts| - 1] == Failed || chunks[|cuts| - 1] == Data([])
    ensures Delivers(chunks, cuts, s) && s == Received(chunks)
  {
    forall i | 0 <= i < |cuts| - 1
      ensures ReadAt(chunks, cuts, s, i)
    {
      assert ReadAt(chunks[..|cuts| - 1], cuts, s, i);
    }
    DeliveredIsReceived(chunks, cuts, s);
  }

  lemma SplitMore(fed: seq<Bytes>, buffer: Bytes, seen: Bytes, bytes: Bytes, more: seq<Bytes>, left: Bytes, sep: Bytes)
    requires sep != [] && Pieces(seen, sep) == fed + [buffer] && Pieces(buffer + bytes, sep) == more + [left]
    ensures Pieces(seen + bytes, sep) == fed + more + [left]
  {
    PiecesResume(seen, bytes, sep);
    assert AllButLast(fed + [buffer]) == fed && Last(fed + [buffer]) == buffer;
    Assoc(fed, more, [left]);
  }

  // ---------------------------------------------------------------- multi-line records

  /** One line of `--multiline-start`: what is fed and the record then in progress. */
  function Step(record: string, line: string, start: string -> bool): (seq<string>, string) {
    if start(line) && record != [] then ([record], line)
    else ([], if record == [] then line else record + ['\n'] + line)
  }

  function Assemble(record: string, lines: seq<string>, start: string -> bool): seq<string>
    decreases |lines|
  {
    if lines == [] then if record == [] then [] else [record]
    else
      var (fed, next) := Step(record, lines[0], start);
      fed + Assemble(next, lines[1..], start)
  }

  function JoinLines(lines: seq<string>): string {
    if lines == [] then []
    else if |lines| == 1 then lines[0]
    else lines[0] + ['\n'] + JoinLines(lines[1..])
  }

  /** Record `i` is the lines from `heads[i]` up to `ends[i]`: the first is not blank, no later one matches, and the
      line that ends it does. */
  ghost predicate RecordAt(lines: seq<string>, start: string -> bool, heads: seq<nat>, ends: seq<nat>,
                           fed: seq<string>, i: nat)
    requires i < |fed| == |heads| == |ends|
  {
    && heads[i] < ends[i] <= |lines| && lines[heads[i]] != []
    && (forall j | heads[i] < j < ends[i] :: !start(lines[j]))
    && (ends[i] < |lines| ==> start(lines[ends[i]]))
    && (i + 1 < |fed| ==> ends[i] <= heads[i + 1])
    && fed[i] == JoinLines(lines[heads[i]..ends[i]])
  }

  ghost predicate InRecord(heads: seq<nat>, ends: seq<nat>, j: nat)
    requires |heads| == |ends|
  {
    exists i :: 0 <= i < |heads| && heads[i] <= j < ends[i]
  }

  /** The records lie where the pattern says, and only blank lines are outside them: while a record is in progress,
      every matching line ends it, and no other line does. */
  ghost predicate RecordsLie(lines: seq<string>, start: string -> bool, heads: seq<nat>, ends: seq<nat>,
                             fed: seq<string>)
  {
    && |fed| == |heads| == |ends|
    && (forall i | 0 <= i < |fed| :: RecordAt(lines, start, heads, ends, fed, i))
    && (forall j | 0 <= j < |lines| && lines[j] != [] :: InRecord(heads, ends, j))
  }

  /** After `n` lines, with `record` in progress since line `head` unless it is empty. */
  ghost predicate InProgress(lines: seq<string>, start: string -> bool, heads: seq<nat>, ends: seq<nat>,
                             fed: seq<string>, record: string, head: nat, n: nat)
    requires n <= |lines|
  {
    && |fed| == |heads| == |ends|
    && (forall i | 0 <= i < |fed| :: RecordAt(lines, start, heads, ends, fed, i))
    && (fed != [] ==> ends[|ends| - 1] <= if record == [] then n else head)
    && (record != [] ==>
          && head < n && lines[head] != [] && record == JoinLines(lines[head..n])
          && forall j | head < j < n :: !start(lines[j]))
    && (forall j | 0 <= j < n && lines[j] != [] :: InRecord(heads, ends, j) || (record != [] && head <= j))
  }

  lemma {:induction false} JoinOneMore(lines: seq<string>, line: string)
    requires lines != []
    ensures JoinLines(lines + [line]) == JoinLines(lines) + ['\n'] + line
  {
    if |lines| > 1 {
      assert (lines + [line])[1..] == lines[1..] + [line];
      JoinOneMore(lines[1..], line);
    }
  }

  /** The record in progress ends before line `n`. */
  lemma RecordEnds(lines: seq<string>, start: string -> bool, heads: seq<nat>, ends: seq<nat>, fed: seq<string>,
                   record: string, head: nat, n: nat)
    requires n <= |lines| && InProgress(lines, start, heads, ends, fed, record, head, n) && record != []
    requires n < |lines| ==> start(lines[n])
    ensures InProgress(lines, start, heads + [head], ends + [n], fed + [record], [], 0, n)
  {
    var heads', ends', fed' := heads + [head], ends + [n], fed + [record];
    hide JoinLines;
    forall i | 0 <= i < |fed'|
      ensures RecordAt(lines, start, heads', ends', fed', i)
    {
      if i < |fed| { assert RecordAt(lines, start, heads, ends, fed, i); }
    }
    forall j | 0 <= j < n && lines[j] != []
      ensures InRecord(heads', ends', j)
    {
      if InRecord(heads, ends, j) {
        var i :| 0 <= i < |heads| && heads[i] <= j < ends[i];
        assert heads'[i] <= j < ends'[i];
      } else {
        assert heads'[|heads|] <= j < ends'[|heads|];
      }
    }
  }

  /** Line `n` goes to the record in progress, or begins one unless it is blank. */
  lemma LineGoesOn(lines: seq<string>, start: string -> bool, heads: seq<nat>, ends: seq<nat>, fed: seq<string>,
                   record: string, head: nat, n: nat)
    requires n < |lines| && InProgress(lines, start, heads, ends, fed, record, head, n)
    requires record != [] ==> !start(lines[n])
    ensures InProgress(lines, start, heads, ends, fed,
                       if record == [] then lines[n] else record + ['\n'] + lines[n], if record == [] then n else head,
                       n + 1)
  {
    if record == [] {
      assert lines[n..n + 1] == [lines[n]];
    } else {
      assert lines[head..n + 1] == lines[head..n] + [lines[n]];
      JoinOneMore(lines[head..n], lines[n]);
    }
    hide RecordAt, InRecord, JoinLines;
  }

  method IngestMultilineStart(lines: seq<string>, start: string -> bool)
    returns (fed: seq<string>, ghost heads: seq<nat>, ghost ends: seq<nat>)
    ensures fed == Assemble([], lines, start)
    ensures RecordsLie(lines, start, heads, ends, fed)
  {
    hide RecordAt, InRecord, JoinLines, InProgress;
    fed, heads, ends := [], [], [];
    var record := [];
    ghost var head := 0;
    NothingInProgress(lines, start);
    for i := 0 to |lines|
      invariant fed + Assemble(record, lines[i..], start) == Assemble([], lines, start)
      invariant InProgress(lines, start, heads, ends, fed, record, head, i)
    {
      var line := lines[i];
      ghost var fedBefore, before := fed, record;
      assert lines[i..][1..] == lines[i + 1..];
      if start(line) && record != [] {
        RecordEnds(lines, start, heads, ends, fed, record, head, i);
        heads, ends, head := heads + [head], ends + [i], 0;
        fed := fed + [record];
        record := [];
      }
      LineGoesOn(lines, start, heads, ends, fed, record, head, i);
      if record == [] { head := i; }
      if record != [] {
        record := record + ['\n'];
      }
      record := record + line;
      assert fed == fedBefore + Step(before, line, start).0;
      assert record == Step(before, line, start).1;
      Assoc(fedBefore, Step(before, line, start).0, Assemble(record, lines[i + 1..], start));
    }
    if record != [] {
      RecordEnds(lines, start, heads, ends, fed, record, head, |lines|);
      heads, ends, head := heads + [head], ends + [|lines|], 0;
      fed := fed + [record];
    }
    AllLie(lines, start, heads, ends, fed, head);
  }

  lemma NothingInProgress(lines: seq<string>, start: string -> bool)
    ensures InProgress(lines, start, [], [], [], [], 0, 0)
  {
  }

  lemma AllLie(lines: seq<string>, start: string -> bool, heads: seq<nat>, ends: seq<nat>, fed: seq<string>,
               head: nat)
    requires InProgress(lines, start, heads, ends, fed, [], head, |lines|)
    ensures RecordsLie(lines, start, heads, ends, fed)
  {
  }

  /** Whether the line breaks before `lines` and between them all survive when `record` is in progress
      after at least one line. */
  predicate KeepsBreaks(record: string, lines: seq<string>, start: string -> bool)
    decreases |lines|
  {
    if lines == [] then record != []
    else record != [] && KeepsBreaks(Step(record, lines[0], start).1, lines[1..], start)
  }

  lemma {:induction false} AssembleFeeds(record: string, lines: seq<string>, start: string -> bool)
    requires record != []
    ensures Assemble(record, lines, start) != []
    decreases |lines|
  {
    if lines != [] {
      var (fed, next) := Step(record, lines[0], start);
      if fed == [] { AssembleFeeds(next, lines[1..], start); }
    }
  }

  lemma {:induction false} AssembleJoins(record: string, lines: seq<string>, start: string -> bool)
    ensures |JoinLines(Assemble(record, lines, start))| <= |JoinLines([record] + lines)|
    ensures JoinLines(Assemble(record, lines, start)) == JoinLines([record] + lines)
       <==> KeepsBreaks(record, lines, start) || (record == [] && lines == [])
    decreases |lines|
  {
    if lines == [] {
      assert [record] + lines == [record];
    } else {
      var (fed, next) := Step(record, lines[0], start);
      var rest := lines[1..];
      var after := Assemble(next, rest, start);
      AssembleJoins(next, rest, start);
      assert ([record] + lines)[1..] == lines && lines == [lines[0]] + rest;
      assert JoinLines([record] + lines) == record + ['\n'] + JoinLines(lines);
      if record == [] {
        assert fed + after == after;
      } else if fed == [] {
        JoinMerged(record, lines[0], rest);
        assert fed + after == after;
      } else if after == [] {
        if next != [] { AssembleFeeds(next, rest, start); }
        assert fed + after == [record];
      } else {
        assert (fed + after)[1..] == after;
        assert JoinLines(fed + after) == record + ['\n'] + JoinLines(after);
        SamePrefix(record + ['\n'], JoinLines(after), JoinLines(lines));
      }
    }
  }

  lemma SamePrefix(p: string, a: string, b: string)
    ensures p + a == p + b <==> a == b
  {
    assert (p + a)[|p|..] == a && (p + b)[|p|..] == b;
  }

  lemma JoinMerged(record: string, line: string, rest: seq<string>)
    ensures JoinLines([record + ['\n'] + line] + rest) == record + ['\n'] + JoinLines([line] + rest)
  {
    if rest == [] {
      assert [line] + rest == [line];
      assert [record + ['\n'] + line] + rest == [record + ['\n'] + line];
    } else {
      assert ([line] + rest)[1..] == rest;
      assert ([record + ['\n'] + line] + rest)[1..] == rest;
    }
  }

  lemma {:induction false} KeepsBreaksUnlessBlankStarts(record: string, lines: seq<string>, start: string -> bool)
    requires record != []
    ensures KeepsBreaks(record, lines, start) <==> !(start([]) && [] in lines)
    decreases |lines|
  {
    if lines != [] {
      var next := Step(record, lines[0], start).1;
      assert lines == [lines[0]] + lines[1..];
      if next != [] {
        KeepsBreaksUnlessBlankStarts(next, lines[1..], start);
      }
    }
  }

  /** The multi-line records give the input back, line breaks included, exactly when no record begins
      with an empty line: because an empty record in progress counts as none, a blank first line, and any
      blank line the start pattern matches, is lost. */
  lemma MultilineJoinsBack(lines: seq<string>, start: string -> bool)
    requires lines != []
    ensures JoinLines(Assemble([], lines, start)) == JoinLines(lines)
       <==> lines == [[]] || (lines[0] != [] && (start([]) ==> [] !in lines))
  {
    var rest := lines[1..];
    assert lines == [lines[0]] + rest;
    assert Step([], lines[0], start) == ([], lines[0]);
    assert [] + Assemble(lines[0], rest, start) == Assemble(lines[0], rest, start);
    AssembleJoins(lines[0], rest, start);
    if lines[0] != [] {
      KeepsBreaksUnlessBlankStarts(lines[0], rest, start);
    }
  }

  /** A concrete loss: a blank first line. */
  lemma BlankFirstLineIsLost(start: string -> bool)
    ensures JoinLines(Assemble([], [[], ['x']], start)) != JoinLines([[], ['x']])
  {
    MultilineJoinsBack([[], ['x']], start);
  }
}
