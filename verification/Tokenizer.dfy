/** Whitespace splitting, path-delimiter splitting and first-line splitting
    (crates/logdrain/src/tokenize.rs). */
module Tokenizer {
  import opened Wrappers
  import opened Sequences

  /** A token with the path delimiters that surround it. */
  datatype Token = Token(text: string, leadingDelim: Option<char>, trailingDelim: Option<char>)

  type Delims = seq<char>

  /** The Unicode White_Space property, which is what `split_whitespace` splits on. */
  predicate IsWhitespace(c: char) {
    var n := c as int;
    || 0x9 <= n <= 0xD || n == 0x20 || n == 0x85 || n == 0xA0 || n == 0x1680
    || 0x2000 <= n <= 0x200A || n == 0x2028 || n == 0x2029 || n == 0x202F || n == 0x205F || n == 0x3000
  }

  predicate IsDigit(c: char) {
    '0' <= c <= '9'
  }

  /** Non-empty and made of ASCII digits only. */
  predicate IsNumeric(s: string) {
    s != [] && forall i | 0 <= i < |s| :: IsDigit(s[i])
  }

  predicate NoWhitespace(s: string) {
    forall i | 0 <= i < |s| :: !IsWhitespace(s[i])
  }

  predicate NoDelims(s: string, delims: Delims) {
    forall i | 0 <= i < |s| :: s[i] !in delims
  }

  predicate AllDelims(s: string, delims: Delims) {
    forall i | 0 <= i < |s| :: s[i] in delims
  }

  /** A maximal whitespace-free stretch of a line. */
  predicate IsPiece(p: string) {
    p != [] && NoWhitespace(p)
  }

  // ---------------------------------------------------------------- splitting on whitespace

  /** Length of the longest whitespace-free prefix. */
  function WordLength(s: string): (n: nat)
    ensures n <= |s| && NoWhitespace(s[..n])
    ensures n < |s| ==> IsWhitespace(s[n])
  {
    if s == [] || IsWhitespace(s[0]) then 0
    else
      var n := WordLength(s[1..]);
      assert s[..n + 1] == [s[0]] + s[1..][..n];
      n + 1
  }

  /** The pieces of a line, in order (the library function `split_whitespace`). */
  function SplitWhitespace(s: string): (pieces: seq<string>)
    ensures forall i | 0 <= i < |pieces| :: IsPiece(pieces[i])
    decreases |s|
  {
    if s == [] then []
    else if IsWhitespace(s[0]) then SplitWhitespace(s[1..])
    else
      var n := WordLength(s);
      [s[..n]] + SplitWhitespace(s[n..])
  }

  lemma {:induction false} WordLengthAppend(w: string, rest: string)
    requires NoWhitespace(w) && (rest == [] || IsWhitespace(rest[0]))
    ensures WordLength(w + rest) == |w|
    decreases |w|
  {
    if w == [] {
      assert w + rest == rest;
    } else {
      assert (w + rest)[1..] == w[1..] + rest;
      WordLengthAppend(w[1..], rest);
    }
  }

  /** A piece in front of nothing or of white space is split off whole. */
  lemma SplitFirstPiece(w: string, rest: string)
    requires IsPiece(w) && (rest == [] || IsWhitespace(rest[0]))
    ensures SplitWhitespace(w + rest) == [w] + SplitWhitespace(rest)
  {
    WordLengthAppend(w, rest);
    assert (w + rest)[..|w|] == w && (w + rest)[|w|..] == rest;
    assert (w + rest)[0] == w[0];
  }

  /** `s[a..b]` is a maximal whitespace-free stretch. */
  ghost predicate IsWord(s: string, a: nat, b: nat) {
    && a < b <= |s|
    && (forall k | a <= k < b :: !IsWhitespace(s[k]))
    && (a > 0 ==> IsWhitespace(s[a - 1]))
    && (b < |s| ==> IsWhitespace(s[b]))
  }

  /** Where a stretch of text lies. */
  datatype Span = Span(start: nat, end: nat)

  ghost predicate PieceAt(s: string, from: nat, pieces: seq<string>, spans: seq<Span>, i: nat)
    requires i < |pieces| == |spans|
  {
    && from <= spans[i].start && IsWord(s, spans[i].start, spans[i].end)
    && pieces[i] == s[spans[i].start..spans[i].end]
    && (i + 1 < |spans| ==> spans[i].end < spans[i + 1].start)
  }

  /** The pieces of a line are its maximal whitespace-free stretches from `from` on, the `i`-th piece the `i`-th from
      the left, and none is left out. */
  ghost predicate PiecesAt(s: string, from: nat, pieces: seq<string>, spans: seq<Span>) {
    && |pieces| == |spans|
    && (forall i | 0 <= i < |pieces| :: PieceAt(s, from, pieces, spans, i))
    && (forall a: nat, b: nat | from <= a && IsWord(s, a, b) :: Span(a, b) in spans)
  }

  /** The definition of `SplitWhitespace` at position `m`. */
  lemma SplitUnfold(s: string, m: nat)
    requires m < |s|
    ensures IsWhitespace(s[m]) ==> SplitWhitespace(s[m..]) == SplitWhitespace(s[m + 1..])
    ensures !IsWhitespace(s[m]) ==>
              var e := m + WordLength(s[m..]);
              SplitWhitespace(s[m..]) == [s[m..e]] + SplitWhitespace(s[e..])
  {
    hide IsWhitespace, NoWhitespace;
    var e := m + WordLength(s[m..]);
    assert s[m..][1..] == s[m + 1..] && s[m..][..e - m] == s[m..e] && s[m..][e - m..] == s[e..];
  }

  lemma SplitEnds(s: string)
    ensures PiecesAt(s, |s|, SplitWhitespace(s[|s|..]), [])
  {
    assert SplitWhitespace(s[|s|..]) == [];
  }

  lemma {:induction false} SplitFrom(s: string, m: nat)
    returns (spans: seq<Span>)
    requires m <= |s| && (m == 0 || m == |s| || IsWhitespace(s[m - 1]) || IsWhitespace(s[m]))
    ensures PiecesAt(s, m, SplitWhitespace(s[m..]), spans)
    decreases |s| - m
  {
    hide PiecesAt, IsWord, WordLength, SplitWhitespace, IsWhitespace, IsPiece, NoWhitespace;
    if m == |s| {
      SplitEnds(s);
      spans := [];
    } else {
      SplitUnfold(s, m);
      if IsWhitespace(s[m]) {
        spans := SplitFrom(s, m + 1);
        SkipsWhitespace(s, m, SplitWhitespace(s[m + 1..]), spans);
      } else {
        var n := WordLength(s[m..]);
        FirstWord(s, m, n);
        var rest := SplitFrom(s, m + n);
        PrependWord(s, m, n, SplitWhitespace(s[m + n..]), rest);
        spans := [Span(m, m + n)] + rest;
      }
    }
  }

  lemma SkipsWhitespace(s: string, m: nat, pieces: seq<string>, spans: seq<Span>)
    requires m < |s| && IsWhitespace(s[m]) && PiecesAt(s, m + 1, pieces, spans)
    ensures PiecesAt(s, m, pieces, spans)
  {
    forall i | 0 <= i < |pieces|
      ensures PieceAt(s, m, pieces, spans, i)
    {
      assert PieceAt(s, m + 1, pieces, spans, i);
    }
  }

  lemma FirstWord(s: string, m: nat, n: nat)
    requires m < |s| && !IsWhitespace(s[m]) && n == WordLength(s[m..]) && (m == 0 || IsWhitespace(s[m - 1]))
    ensures 0 < n <= |s| - m && IsWord(s, m, m + n)
    ensures m + n < |s| ==> IsWhitespace(s[m + n])
  {
    assert forall k | m <= k < m + n :: s[k] == s[m..][..n][k - m];
  }

  lemma PrependWord(s: string, m: nat, n: nat, pieces: seq<string>, spans: seq<Span>)
    requires m + n <= |s| && IsWord(s, m, m + n) && PiecesAt(s, m + n, pieces, spans)
    ensures PiecesAt(s, m, [s[m..m + n]] + pieces, [Span(m, m + n)] + spans)
  {
    var pieces', spans' := [s[m..m + n]] + pieces, [Span(m, m + n)] + spans;
    forall i | 0 <= i < |pieces'|
      ensures PieceAt(s, m, pieces', spans', i)
    {
      if i > 0 { assert PieceAt(s, m + n, pieces, spans, i - 1); }
      if i == 0 && spans != [] { assert PieceAt(s, m + n, pieces, spans, 0); }
    }
    forall a: nat, b: nat | m <= a && IsWord(s, a, b)
      ensures Span(a, b) in spans'
    {
      if a < m + n {
        assert a == m && b == m + n;
        assert spans'[0] == Span(a, b);
      } else {
        var i :| 0 <= i < |spans| && spans[i] == Span(a, b);
        assert spans'[i + 1] == Span(a, b);
      }
    }
  }

  /** The pieces of a line are all its maximal whitespace-free stretches, from left to right. */
  lemma PiecesAreTheWords(line: string)
    returns (spans: seq<Span>)
    ensures PiecesAt(line, 0, SplitWhitespace(line), spans)
  {
    assert line[0..] == line;
    spans := SplitFrom(line, 0);
  }

  // ---------------------------------------------------------------- splitting on path delimiters

  /** Length of the longest delimiter-free prefix. */
  function SegmentLength(s: string, delims: Delims): (n: nat)
    ensures n <= |s| && NoDelims(s[..n], delims)
    ensures n < |s| ==> s[n] in delims
  {
    if s == [] || s[0] in delims then 0
    else
      var n := SegmentLength(s[1..], delims);
      assert s[..n + 1] == [s[0]] + s[1..][..n];
      n + 1
  }

  /** The delimiter-free runs of `s`, each with its neighbouring delimiters; `leading` is the
      delimiter just before `s`, if any. */
  function Segments(s: string, leading: Option<char>, delims: Delims): seq<Token>
    decreases |s|
  {
    if s == [] then []
    else if s[0] in delims then Segments(s[1..], Some(s[0]), delims)
    else
      var n := SegmentLength(s, delims);
      if n == |s| then [Token(s, leading, None)]
      else [Token(s[..n], leading, Some(s[n]))] + Segments(s[n + 1..], Some(s[n]), delims)
  }

  /** The tokens of one piece: its runs, or the piece verbatim when it is all delimiters. */
  function PathTokens(piece: string, delims: Delims): seq<Token> {
    var segments := Segments(piece, None, delims);
    if segments == [] && piece != [] then [Token(piece, None, None)] else segments
  }

  function FlattenPieces(pieces: seq<string>, delims: Delims): seq<Token> {
    if pieces == [] then [] else PathTokens(pieces[0], delims) + FlattenPieces(pieces[1..], delims)
  }

  function Tokenize(line: string, delims: Delims): seq<Token> {
    FlattenPieces(SplitWhitespace(line), delims)
  }

  lemma {:induction false} SegmentLengthAppend(seg: string, rest: string, delims: Delims)
    requires NoDelims(seg, delims) && (rest == [] || rest[0] in delims)
    ensures SegmentLength(seg + rest, delims) == |seg|
    decreases |seg|
  {
    if seg == [] {
      assert seg + rest == rest;
    } else {
      assert (seg + rest)[1..] == seg[1..] + rest;
      SegmentLengthAppend(seg[1..], rest, delims);
    }
  }

  /** A delimiter-free prefix followed by a delimiter gives one token, or none when it is empty. */
  lemma SegmentsAtDelimiter(seg: string, d: char, rest: string, leading: Option<char>, delims: Delims)
    requires NoDelims(seg, delims) && d in delims
    ensures Segments(seg + [d] + rest, leading, delims)
         == (if seg == [] then [] else [Token(seg, leading, Some(d))]) + Segments(rest, Some(d), delims)
  {
    var s := seg + [d] + rest;
    if seg == [] {
      assert s == [d] + rest && s[1..] == rest;
    } else {
      assert s == seg + ([d] + rest);
      SegmentLengthAppend(seg, [d] + rest, delims);
      assert s[..|seg|] == seg && s[|seg| + 1..] == rest && s[|seg|] == d && s[0] == seg[0];
    }
  }

  lemma SegmentsWithoutDelimiter(seg: string, leading: Option<char>, delims: Delims)
    requires NoDelims(seg, delims)
    ensures Segments(seg, leading, delims) == if seg == [] then [] else [Token(seg, leading, None)]
  {
    if seg != [] {
      assert seg + [] == seg;
      SegmentLengthAppend(seg, [], delims);
    }
  }

  /** The token of the run that ends at `s[n]`, if that run is not empty. */
  function RunBefore(s: string, n: nat, leading: Option<char>): seq<Token>
    requires n < |s|
  {
    if n == 0 then [] else [Token(s[..n], leading, Some(s[n]))]
  }

  /** The definition of `Segments` up to and including the first delimiter. */
  lemma SegmentsUnfold(s: string, leading: Option<char>, delims: Delims)
    requires SegmentLength(s, delims) < |s|
    ensures Segments(s, leading, delims)
         == RunBefore(s, SegmentLength(s, delims), leading)
            + Segments(s[SegmentLength(s, delims) + 1..], Some(s[SegmentLength(s, delims)]), delims)
  {
  }

  lemma {:induction false} SegmentsOfDelimiters(s: string, leading: Option<char>, delims: Delims)
    ensures Segments(s, leading, delims) == [] <==> AllDelims(s, delims)
    decreases |s|
  {
    if s != [] && s[0] in delims {
      SegmentsOfDelimiters(s[1..], Some(s[0]), delims);
      assert AllDelims(s[1..], delims) <==> AllDelims(s, delims) by {
        assert forall i | 0 < i < |s| :: s[i] == s[1..][i - 1];
      }
    }
  }

  // ---------------------------------------------------------------- what a token says about its piece

  /** `piece[a..b]` is a maximal delimiter-free run. */
  ghost predicate IsRun(piece: string, a: nat, b: nat, delims: Delims) {
    && a < b <= |piece|
    && (forall k | a <= k < b :: piece[k] !in delims)
    && (a > 0 ==> piece[a - 1] in delims)
    && (b < |piece| ==> piece[b] in delims)
  }

  /** The token of a run: its text and the delimiters right before and right after it. */
  ghost function RunToken(piece: string, a: nat, b: nat, leading: Option<char>): Token
    requires a < b <= |piece|
  {
    Token(piece[a..b],
          if a > 0 then Some(piece[a - 1]) else leading,
          if b < |piece| then Some(piece[b]) else None)
  }

  /** Runs behind a delimiter at `m - 1` are runs of what follows it. */
  lemma RunsBehindDelimiter(s: string, m: nat, a: nat, b: nat, leading: Option<char>, delims: Delims)
    requires 0 < m <= |s| && s[m - 1] in delims && m <= a < b <= |s|
    ensures IsRun(s, a, b, delims) <==> IsRun(s[m..], a - m, b - m, delims)
    ensures RunToken(s, a, b, leading) == RunToken(s[m..], a - m, b - m, Some(s[m - 1]))
  {
    assert s[m..][a - m..b - m] == s[a..b];
    assert (forall k | a <= k < b :: s[k] !in delims) <==> (forall k | a - m <= k < b - m :: s[m..][k] !in delims) by {
      assert forall k | a <= k < b :: s[k] == s[m..][k - m];
    }
  }

  /** The first run ends at the first delimiter. */
  lemma FirstRun(s: string, a: nat, b: nat, delims: Delims)
    ensures var n := SegmentLength(s, delims);
            && (n > 0 ==> IsRun(s, 0, n, delims))
            && (IsRun(s, a, b, delims) ==> if a == 0 then b == n else a > n)
  {
    var n := SegmentLength(s, delims);
    assert forall k | 0 <= k < n :: s[k] == s[..n][k];
  }

  lemma RunBounds(piece: string, a: nat, b: nat, delims: Delims)
    requires IsRun(piece, a, b, delims)
    ensures a < b <= |piece|
  {
  }

  lemma RunAhead(s: string, m: nat, a: nat, b: nat, leading: Option<char>, delims: Delims)
    requires 0 < m <= |s| && s[m - 1] in delims && IsRun(s[m..], a, b, delims)
    ensures a + m < b + m <= |s| && IsRun(s, a + m, b + m, delims)
    ensures RunToken(s, a + m, b + m, leading) == RunToken(s[m..], a, b, Some(s[m - 1]))
  {
    RunBounds(s[m..], a, b, delims);
    hide *;
    RunsBehindDelimiter(s, m, a + m, b + m, leading, delims);
  }

  /** Each span is a run from `from` on, and the token of its index is its token. */
  ghost predicate TokensAt(ts: seq<Token>, piece: string, from: nat, spans: seq<Span>, leading: Option<char>,
                           delims: Delims)
  {
    && |ts| == |spans|
    && forall i | 0 <= i < |ts| ::
         && from <= spans[i].start < spans[i].end <= |piece|
         && IsRun(piece, spans[i].start, spans[i].end, delims)
         && ts[i] == RunToken(piece, spans[i].start, spans[i].end, leading)
  }

  ghost predicate LeftToRight(spans: seq<Span>) {
    forall i, j | 0 <= i < j < |spans| :: spans[i].end < spans[j].start
  }

  /** No run from `from` on is left out. */
  ghost predicate AllRuns(piece: string, from: nat, spans: seq<Span>, delims: Delims) {
    forall a: nat, b: nat | from <= a && IsRun(piece, a, b, delims) :: Span(a, b) in spans
  }

  function Shifted(spans: seq<Span>, m: nat): (r: seq<Span>)
    ensures |r| == |spans| && forall i | 0 <= i < |r| :: r[i] == Span(spans[i].start + m, spans[i].end + m)
  {
    seq(|spans|, i requires 0 <= i < |spans| => Span(spans[i].start + m, spans[i].end + m))
  }

  lemma ShiftTokens(s: string, m: nat, spans: seq<Span>, ts: seq<Token>, leading: Option<char>, delims: Delims)
    requires 0 < m <= |s| && s[m - 1] in delims && TokensAt(ts, s[m..], 0, spans, Some(s[m - 1]), delims)
    ensures TokensAt(ts, s, m, Shifted(spans, m), leading, delims)
  {
    hide IsRun, RunToken;
    forall i | 0 <= i < |spans|
      ensures var c, d := spans[i].start + m, spans[i].end + m;
              c < d <= |s| && IsRun(s, c, d, delims) && ts[i] == RunToken(s, c, d, leading)
    {
      RunAhead(s, m, spans[i].start, spans[i].end, leading, delims);
    }
  }

  lemma ShiftOne(s: string, m: nat, spans: seq<Span>, a: nat, b: nat, delims: Delims)
    requires 0 < m <= |s| && s[m - 1] in delims && AllRuns(s[m..], 0, spans, delims) && m <= a && IsRun(s, a, b, delims)
    ensures Span(a, b) in Shifted(spans, m)
  {
    RunBounds(s, a, b, delims);
    RunsBehindDelimiter(s, m, a, b, None, delims);
    hide IsRun;
    var i :| 0 <= i < |spans| && spans[i] == Span(a - m, b - m);
    assert Shifted(spans, m)[i] == Span(a, b);
  }

  lemma ShiftAll(s: string, m: nat, spans: seq<Span>, delims: Delims)
    requires 0 < m <= |s| && s[m - 1] in delims && AllRuns(s[m..], 0, spans, delims)
    ensures AllRuns(s, m, Shifted(spans, m), delims)
  {
    hide IsRun, Shifted;
    forall a: nat, b: nat | m <= a && IsRun(s, a, b, delims)
      ensures Span(a, b) in Shifted(spans, m)
    {
      ShiftOne(s, m, spans, a, b, delims);
    }
  }

  /** The first run, if the text does not begin with a delimiter. */
  function FirstSpan(n: nat): seq<Span> {
    if n == 0 then [] else [Span(0, n)]
  }

  lemma PrependTokens(s: string, n: nat, spans: seq<Span>, ts: seq<Token>, leading: Option<char>, delims: Delims)
    requires n < |s| && (n > 0 ==> IsRun(s, 0, n, delims)) && TokensAt(ts, s, n + 1, spans, leading, delims)
    ensures TokensAt(RunBefore(s, n, leading) + ts, s, 0, FirstSpan(n) + spans, leading, delims)
  {
    assert n > 0 ==> RunBefore(s, n, leading) == [RunToken(s, 0, n, leading)] by { assert s[0..n] == s[..n]; }
    hide IsRun, RunToken;
  }

  lemma PrependAll(s: string, n: nat, spans: seq<Span>, delims: Delims)
    requires n == SegmentLength(s, delims) && n < |s| && AllRuns(s, n + 1, spans, delims)
    ensures AllRuns(s, 0, FirstSpan(n) + spans, delims)
  {
    hide SegmentLength;
    forall a: nat, b: nat | IsRun(s, a, b, delims)
      ensures Span(a, b) in FirstSpan(n) + spans
    {
      RunBounds(s, a, b, delims);
      FirstRun(s, a, b, delims);
      hide IsRun;
      if a == 0 { assert (FirstSpan(n) + spans)[0] == Span(a, b); } else { assert Span(a, b) in spans; }
    }
  }

  lemma InOrder(n: nat, spans: seq<Span>)
    requires LeftToRight(spans) && forall i | 0 <= i < |spans| :: n < spans[i].start
    ensures LeftToRight(FirstSpan(n) + spans)
  {
  }

  lemma LoneRun(s: string, leading: Option<char>, delims: Delims)
    requires SegmentLength(s, delims) == |s|
    ensures var spans := FirstSpan(|s|);
            && TokensAt(Segments(s, leading, delims), s, 0, spans, leading, delims)
            && LeftToRight(spans) && AllRuns(s, 0, spans, delims)
  {
    assert s[..|s|] == s;
    SegmentsWithoutDelimiter(s, leading, delims);
    FirstRun(s, 0, 0, delims);
    hide SegmentLength;
    forall a: nat, b: nat | IsRun(s, a, b, delims)
      ensures Span(a, b) in FirstSpan(|s|)
    {
      FirstRun(s, a, b, delims);
      assert FirstSpan(|s|)[0] == Span(a, b);
    }
  }

  /** The segments are the tokens of the runs, from left to right. */
  lemma {:induction false} SegmentsAreTheRuns(s: string, leading: Option<char>, delims: Delims)
    returns (spans: seq<Span>)
    ensures TokensAt(Segments(s, leading, delims), s, 0, spans, leading, delims)
    ensures LeftToRight(spans) && AllRuns(s, 0, spans, delims)
    decreases |s|
  {
    hide Segments, SegmentLength, AllRuns, RunBefore, FirstSpan, IsRun, RunToken;
    var n := SegmentLength(s, delims);
    if n == |s| {
      LoneRun(s, leading, delims);
      spans := FirstSpan(|s|);
    } else {
      var m := n + 1;
      var rest := SegmentsAreTheRuns(s[m..], Some(s[n]), delims);
      var ts := Segments(s[m..], Some(s[n]), delims);
      ShiftTokens(s, m, rest, ts, leading, delims);
      ShiftAll(s, m, rest, delims);
      FirstRun(s, 0, 0, delims);
      SegmentsUnfold(s, leading, delims);
      PrependTokens(s, n, Shifted(rest, m), ts, leading, delims);
      PrependAll(s, n, Shifted(rest, m), delims);
      InOrder(n, Shifted(rest, m));
      spans := FirstSpan(n) + Shifted(rest, m);
    }
  }

  /** The tokens of a piece that is not all delimiters are its maximal delimiter-free runs: the `i`-th token is the
      `i`-th run from the left, with the delimiters beside it. */
  lemma PathTokensAreTheRuns(piece: string, delims: Delims)
    returns (spans: seq<Span>)
    requires !AllDelims(piece, delims)
    ensures TokensAt(PathTokens(piece, delims), piece, 0, spans, None, delims)
    ensures LeftToRight(spans) && AllRuns(piece, 0, spans, delims)
  {
    hide TokensAt, AllRuns;
    SegmentsOfDelimiters(piece, None, delims);
    spans := SegmentsAreTheRuns(piece, None, delims);
  }

  /** A piece of delimiters only is kept as it is, in one token without flags. */
  lemma DelimitersAreKept(piece: string, delims: Delims)
    requires piece != [] && AllDelims(piece, delims)
    ensures PathTokens(piece, delims) == [Token(piece, None, None)]
  {
    SegmentsOfDelimiters(piece, None, delims);
  }

  ghost predicate CutAt(ts: seq<Token>, pieces: seq<string>, cuts: seq<nat>, delims: Delims, i: nat)
    requires i < |pieces| && i + 1 < |cuts|
  {
    cuts[i] <= cuts[i + 1] <= |ts| && ts[cuts[i]..cuts[i + 1]] == PathTokens(pieces[i], delims)
  }

  /** The tokens of a line are those of its pieces one after the other: of piece `i` from `cuts[i]` on. */
  ghost predicate TokensCut(ts: seq<Token>, pieces: seq<string>, cuts: seq<nat>, delims: Delims) {
    && |cuts| == |pieces| + 1 && cuts[0] == 0 && cuts[|pieces|] == |ts|
    && forall i | 0 <= i < |pieces| :: CutAt(ts, pieces, cuts, delims, i)
  }

  lemma TokensCutMore(ts: seq<Token>, pieces: seq<string>, cuts: seq<nat>, piece: string, delims: Delims)
    requires TokensCut(ts, pieces, cuts, delims)
    ensures var more := ts + PathTokens(piece, delims);
            TokensCut(more, pieces + [piece], cuts + [|more|], delims)
  {
    hide PathTokens;
    var more := ts + PathTokens(piece, delims);
    var cuts', pieces' := cuts + [|more|], pieces + [piece];
    forall i | 0 <= i < |pieces'|
      ensures CutAt(more, pieces', cuts', delims, i)
    {
      if i < |pieces| {
        assert CutAt(ts, pieces, cuts, delims, i);
        assert more[cuts[i]..cuts[i + 1]] == ts[cuts[i]..cuts[i + 1]];
      }
    }
  }

  // ---------------------------------------------------------------- the loops of the source

  /** One delimiter hit of the loop below: the run since `start` is emitted unless it is empty. */
  lemma SegmentsStep(piece: string, start: nat, i: nat, leading: Option<char>, delims: Delims)
    requires start <= i < |piece| && piece[i] in delims
    requires forall k | start <= k < i :: piece[k] !in delims
    ensures Segments(piece[start..], leading, delims)
         == (if start == i then [] else [Token(piece[start..i], leading, Some(piece[i]))])
            + Segments(piece[i + 1..], Some(piece[i]), delims)
  {
    var segment := piece[start..i];
    assert forall k | 0 <= k < |segment| :: segment[k] == piece[start + k];
    SegmentsAtDelimiter(segment, piece[i], piece[i + 1..], leading, delims);
    assert segment + [piece[i]] + piece[i + 1..] == piece[start..];
  }

  /** The end of the loop below: a last run, if any, has no trailing delimiter. */
  lemma SegmentsEnd(piece: string, start: nat, leading: Option<char>, delims: Delims)
    requires start <= |piece|
    requires forall k | start <= k < |piece| :: piece[k] !in delims
    ensures Segments(piece[start..], leading, delims)
         == if start == |piece| then [] else [Token(piece[start..], leading, None)]
  {
    assert forall k | 0 <= k < |piece[start..]| :: piece[start..][k] == piece[start + k];
    SegmentsWithoutDelimiter(piece[start..], leading, delims);
  }

  /** Splits one piece, appending its tokens to `acc`. */
  method PushPathTokens(piece: string, delims: Delims, acc: seq<Token>) returns (out: seq<Token>)
    ensures out == acc + PathTokens(piece, delims)
  {
    hide Segments, SegmentLength;
    out := acc;
    var curLeading: Option<char> := None;
    var segStart := 0;
    ghost var made: seq<Token> := [];
    for i := 0 to |piece|
      invariant 0 <= segStart <= i
      invariant forall k | segStart <= k < i :: piece[k] !in delims
      invariant out == acc + made
      invariant Segments(piece, None, delims) == made + Segments(piece[segStart..], curLeading, delims)
    {
      var ch := piece[i];
      if ch in delims {
        SegmentsStep(piece, segStart, i, curLeading, delims);
        var segment := piece[segStart..i];
        if segment != [] {
          out := out + [Token(segment, curLeading, Some(ch))];
          made := made + [Token(segment, curLeading, Some(ch))];
        }
        curLeading := Some(ch);
        segStart := i + 1;
      }
    }
    SegmentsEnd(piece, segStart, curLeading, delims);
    var segment := piece[segStart..];
    if segment != [] {
      out := out + [Token(segment, curLeading, None)];
    }
    assert out == acc + Segments(piece, None, delims);
    if |out| == |acc| && piece != [] {
      out := out + [Token(piece, None, None)];
    }
  }

  /** Splits a line on white space and each piece on the delimiters. */
  method TokenizeWith(line: string, delims: Delims) returns (out: seq<Token>, ghost cuts: seq<nat>)
    ensures out == Tokenize(line, delims)
    ensures TokensCut(out, SplitWhitespace(line), cuts, delims)
  {
    hide PathTokens, SplitWhitespace, IsPiece, TokensCut;
    out, cuts := [], [0];
    var pieces := SplitWhitespace(line);
    NothingCut(delims);
    for i := 0 to |pieces|
      invariant TokensCut(out, pieces[..i], cuts, delims)
      invariant out + FlattenPieces(pieces[i..], delims) == Tokenize(line, delims)
    {
      assert pieces[i..][1..] == pieces[i + 1..];
      Assoc(out, PathTokens(pieces[i], delims), FlattenPieces(pieces[i + 1..], delims));
      TokensCutMore(out, pieces[..i], cuts, pieces[i], delims);
      assert pieces[..i] + [pieces[i]] == pieces[..i + 1];
      out := PushPathTokens(pieces[i], delims, out);
      cuts := cuts + [|out|];
    }
    assert pieces[..|pieces|] == pieces;
  }

  lemma NothingCut(delims: Delims)
    ensures TokensCut([], [], [0], delims)
  {
  }

  /** The part before the first newline, and the part after it if there is one. */
  function SplitFirstLine(line: string): (r: (string, Option<string>))
    ensures '\n' !in r.0
    ensures match r.1
            case None => line == r.0
            case Some(suffix) => line == r.0 + ['\n'] + suffix
  {
    if line == [] then ([], None)
    else if line[0] == '\n' then ([], Some(line[1..]))
    else
      var (first, suffix) := SplitFirstLine(line[1..]);
      ([line[0]] + first, suffix)
  }

  lemma {:induction false} SplitFirstLineWithoutNewline(line: string)
    requires '\n' !in line
    ensures SplitFirstLine(line) == (line, None)
  {
    if line != [] {
      assert line[0] in line;
      SplitFirstLineWithoutNewline(line[1..]);
    }
  }
}
