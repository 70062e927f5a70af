/** The template printer (`render_template`, crates/logdrain/src/cluster.rs:131-153) as a function, and
    the laws that tie it to the tokenizer. */
module Rendering {
  import opened Wrappers
  import opened Sequences
  import opened Tokenizer

  function Opt(c: Option<char>): string {
    match c
    case None => []
    case Some(d) => [d]
  }

  function Texts(ts: seq<Token>): (r: seq<string>)
    ensures |r| == |ts| && forall i | 0 <= i < |ts| :: r[i] == ts[i].text
  {
    seq(|ts|, i requires 0 <= i < |ts| => ts[i].text)
  }

  /** What comes before a token's text: the delimiter that joins it to the previous token, or a space
      and its own leading delimiter; `first` says that no token has been emitted yet. */
  function Joint(prev: Option<char>, first: bool, leading: Option<char>): string {
    (if first then [] else if prev.Some? then [prev.value] else [' '])
    + (if prev.None? then Opt(leading) else [])
  }

  /** What is emitted for `ts` after a token whose trailing delimiter is `prev`. */
  function RenderFrom(ts: seq<Token>, prev: Option<char>, first: bool): string {
    if ts == [] then Opt(prev)
    else Joint(prev, first, ts[0].leadingDelim) + (ts[0].text + RenderFrom(ts[1..], ts[0].trailingDelim, false))
  }

  function Render(ts: seq<Token>): string {
    RenderFrom(ts, None, true)
  }

  // ---------------------------------------------------------------- well-formed tokens

  predicate IsDelimOption(c: Option<char>, delims: Delims) {
    c.Some? ==> c.value in delims && !IsWhitespace(c.value)
  }

  /** The shape of every token the tokenizer makes, and of every generalized one. */
  predicate WellFormed(t: Token, delims: Delims) {
    && IsPiece(t.text)
    && IsDelimOption(t.leadingDelim, delims)
    && IsDelimOption(t.trailingDelim, delims)
    && (NoDelims(t.text, delims) || (AllDelims(t.text, delims) && t.leadingDelim == t.trailingDelim == None))
  }

  predicate AllWellFormed(ts: seq<Token>, delims: Delims) {
    forall i | 0 <= i < |ts| :: WellFormed(ts[i], delims)
  }

  lemma RunWellFormed(s: string, n: nat, leading: Option<char>, delims: Delims)
    requires NoWhitespace(s) && IsDelimOption(leading, delims) && n <= |s|
    requires NoDelims(s[..n], delims) && (n < |s| ==> s[n] in delims)
    ensures NoWhitespace(s[..n]) && (n < |s| ==> NoWhitespace(s[n + 1..]) && IsDelimOption(Some(s[n]), delims))
    ensures n < |s| ==> forall t | t in RunBefore(s, n, leading) :: WellFormed(t, delims) && NoDelims(t.text, delims)
    ensures 0 < n == |s| ==> WellFormed(Token(s, leading, None), delims)
  {
    assert n == |s| ==> s[..n] == s;
  }

  lemma {:induction false} SegmentsWellFormed(s: string, leading: Option<char>, delims: Delims)
    requires NoWhitespace(s) && IsDelimOption(leading, delims)
    ensures AllWellFormed(Segments(s, leading, delims), delims)
    ensures forall t | t in Segments(s, leading, delims) :: NoDelims(t.text, delims)
    decreases |s|
  {
    hide Segments, SegmentLength, NoWhitespace, IsDelimOption, NoDelims, WellFormed, RunBefore;
    var n := SegmentLength(s, delims);
    RunWellFormed(s, n, leading, delims);
    if n == |s| {
      assert s[..n] == s;
      SegmentsWithoutDelimiter(s, leading, delims);
    } else {
      SegmentsUnfold(s, leading, delims);
      SegmentsWellFormed(s[n + 1..], Some(s[n]), delims);
    }
  }

  lemma PathTokensWellFormed(piece: string, delims: Delims)
    requires IsPiece(piece)
    ensures AllWellFormed(PathTokens(piece, delims), delims) && PathTokens(piece, delims) != []
    ensures !AllDelims(piece, delims) ==> forall t | t in PathTokens(piece, delims) :: NoDelims(t.text, delims)
  {
    SegmentsWellFormed(piece, None, delims);
    SegmentsOfDelimiters(piece, None, delims);
  }

  lemma {:induction false} FlattenWellFormed(pieces: seq<string>, delims: Delims)
    requires forall i | 0 <= i < |pieces| :: IsPiece(pieces[i])
    ensures AllWellFormed(FlattenPieces(pieces, delims), delims)
  {
    if pieces != [] {
      PathTokensWellFormed(pieces[0], delims);
      FlattenWellFormed(pieces[1..], delims);
    }
  }

  lemma TokenizeWellFormed(line: string, delims: Delims)
    ensures AllWellFormed(Tokenize(line, delims), delims)
  {
    FlattenWellFormed(SplitWhitespace(line), delims);
  }

  // ---------------------------------------------------------------- re-tokenizing a rendering

  /** What the tokenizer reads back from a rendering: a joined token takes the delimiter it was joined
      by as its leading delimiter, and an all-delimiter token glued to the token before it is lost. */
  function Reread(ts: seq<Token>, prev: Option<char>, delims: Delims): seq<Token> {
    if ts == [] then []
    else if prev.Some? && AllDelims(ts[0].text, delims) then Reread(ts[1..], ts[0].trailingDelim, delims)
    else
      [ts[0].(leadingDelim := if prev.Some? then prev else ts[0].leadingDelim)]
      + Reread(ts[1..], ts[0].trailingDelim, delims)
  }

  /** A chain is a run of tokens joined by trailing delimiters: its text after the leading delimiter. */
  function ChainText(ts: seq<Token>): string
    requires ts != []
  {
    ts[0].text
    + (Opt(ts[0].trailingDelim) + if ts[0].trailingDelim.None? || |ts| == 1 then [] else ChainText(ts[1..]))
  }

  function AfterChain(ts: seq<Token>): (r: seq<Token>)
    requires ts != []
    ensures |r| < |ts| && r == ts[|ts| - |r|..]
  {
    if ts[0].trailingDelim.None? || |ts| == 1 then ts[1..] else AfterChain(ts[1..])
  }

  /** The tokens read back from a chain whose first text holds no delimiter. */
  function ChainTokens(ts: seq<Token>, leading: Option<char>, delims: Delims): seq<Token>
    requires ts != []
  {
    [ts[0].(leadingDelim := leading)]
    + if ts[0].trailingDelim.None? || |ts| == 1 || AllDelims(ts[1].text, delims) then []
      else ChainTokens(ts[1..], ts[0].trailingDelim, delims)
  }

  lemma {:induction false} RenderByChains(ts: seq<Token>)
    requires ts != []
    ensures ts[0].text + RenderFrom(ts[1..], ts[0].trailingDelim, false)
         == ChainText(ts) + RenderFrom(AfterChain(ts), None, false)
  {
    var joint := Opt(ts[0].trailingDelim);
    if ts[0].trailingDelim.Some? && |ts| > 1 {
      var rest := ts[1..];
      var tail := RenderFrom(AfterChain(rest), None, false);
      RenderByChains(rest);
      assert Joint(ts[0].trailingDelim, false, rest[0].leadingDelim) == joint;
      Assoc(joint, ChainText(rest), tail);
      Assoc(ts[0].text, joint + ChainText(rest), tail);
    } else {
      assert joint + [] == joint;
      Assoc(ts[0].text, joint, RenderFrom(AfterChain(ts), None, false));
    }
  }

  lemma {:induction false} ChainTextIsPiece(ts: seq<Token>, delims: Delims)
    requires ts != [] && AllWellFormed(ts, delims)
    ensures IsPiece(ChainText(ts))
  {
    if ts[0].trailingDelim.Some? && |ts| > 1 {
      ChainTextIsPiece(ts[1..], delims);
    }
  }

  lemma {:induction false} SegmentsOfChain(ts: seq<Token>, leading: Option<char>, delims: Delims)
    requires ts != [] && AllWellFormed(ts, delims) && NoDelims(ts[0].text, delims)
    ensures Segments(ChainText(ts), leading, delims) == ChainTokens(ts, leading, delims)
  {
    var t := ts[0];
    if t.trailingDelim.None? {
      assert ChainText(ts) == t.text;
      SegmentsWithoutDelimiter(t.text, leading, delims);
    } else {
      var d := t.trailingDelim.value;
      var rest := if |ts| == 1 then [] else ChainText(ts[1..]);
      Assoc(t.text, [d], rest);
      SegmentsAtDelimiter(t.text, d, rest, leading, delims);
      if |ts| > 1 {
        if AllDelims(ts[1].text, delims) {
          assert WellFormed(ts[1], delims);
          assert ts[1].text[0] in delims;
          assert rest == ts[1].text;
          SegmentsOfDelimiters(rest, Some(d), delims);
        } else {
          SegmentsOfChain(ts[1..], Some(d), delims);
        }
      }
    }
  }

  lemma {:induction false} RereadByChains(ts: seq<Token>, prev: Option<char>, delims: Delims)
    requires ts != [] && AllWellFormed(ts, delims)
    requires prev.Some? ==> !AllDelims(ts[0].text, delims)
    ensures Reread(ts, prev, delims)
         == ChainTokens(ts, if prev.Some? then prev else ts[0].leadingDelim, delims)
            + Reread(AfterChain(ts), None, delims)
  {
    var head := [ts[0].(leadingDelim := if prev.Some? then prev else ts[0].leadingDelim)];
    if ts[0].trailingDelim.Some? && |ts| > 1 {
      var rest := ts[1..];
      if AllDelims(rest[0].text, delims) {
        assert WellFormed(ts[1], delims);
        assert rest[0].text[0] in delims;
        assert AfterChain(ts) == rest[1..];
        assert Reread(rest, ts[0].trailingDelim, delims) == Reread(rest[1..], None, delims);
        assert AfterChain(ts) == AfterChain(rest);
        assert Reread(ts, prev, delims) == head + Reread(rest, ts[0].trailingDelim, delims);
        assert ChainTokens(ts, if prev.Some? then prev else ts[0].leadingDelim, delims) == head + [];
        assert head + [] == head;
      } else {
        RereadByChains(rest, ts[0].trailingDelim, delims);
        Assoc(head, ChainTokens(rest, ts[0].trailingDelim, delims), Reread(AfterChain(rest), None, delims));
      }
    } else {
      assert head + [] == head;
    }
  }

  lemma {:induction false} SegmentsAfterLeading(lead: Option<char>, s: string, delims: Delims)
    requires IsDelimOption(lead, delims)
    ensures Segments(Opt(lead) + s, None, delims) == Segments(s, lead, delims)
  {
    if lead.Some? {
      assert (Opt(lead) + s)[1..] == s;
    } else {
      assert Opt(lead) + s == s;
    }
  }

  lemma PathTokensOfChain(ts: seq<Token>, delims: Delims)
    requires ts != [] && AllWellFormed(ts, delims)
    ensures PathTokens(Opt(ts[0].leadingDelim) + ChainText(ts), delims)
         == ChainTokens(ts, ts[0].leadingDelim, delims)
  {
    var t := ts[0];
    var piece := Opt(t.leadingDelim) + ChainText(ts);
    SegmentsAfterLeading(t.leadingDelim, ChainText(ts), delims);
    if NoDelims(t.text, delims) {
      SegmentsOfChain(ts, t.leadingDelim, delims);
    } else {
      assert piece == t.text;
      SegmentsOfDelimiters(piece, None, delims);
    }
  }

  lemma LeadingChainIsPiece(ts: seq<Token>, delims: Delims)
    requires ts != [] && AllWellFormed(ts, delims)
    ensures IsPiece(Opt(ts[0].leadingDelim) + ChainText(ts))
  {
    hide ChainText;
    ChainTextIsPiece(ts, delims);
    assert WellFormed(ts[0], delims);
  }

  /** A rendering is its first chain, as one piece, followed by the rendering of the rest. */
  lemma RenderFirstPiece(ts: seq<Token>, first: bool, delims: Delims)
    requires ts != [] && AllWellFormed(ts, delims)
    ensures var piece := Opt(ts[0].leadingDelim) + ChainText(ts);
            && IsPiece(piece)
            && RenderFrom(ts, None, first)
               == (if first then [] else [' ']) + (piece + RenderFrom(AfterChain(ts), None, false))
  {
    LeadingChainIsPiece(ts, delims);
    RenderByChains(ts);
    hide ChainText, AfterChain, IsPiece, AllWellFormed, WellFormed;
    var lead := Opt(ts[0].leadingDelim);
    var rest := RenderFrom(AfterChain(ts), None, false);
    assert RenderFrom(ts, None, first)
        == Joint(None, first, ts[0].leadingDelim) + (ts[0].text + RenderFrom(ts[1..], ts[0].trailingDelim, false));
    Assoc(lead, ChainText(ts), rest);
    Assoc(if first then [] else [' '], lead, ChainText(ts) + rest);
  }

  lemma {:induction false} RereadFrom(ts: seq<Token>, first: bool, delims: Delims)
    requires AllWellFormed(ts, delims)
    ensures Tokenize(RenderFrom(ts, None, first), delims) == Reread(ts, None, delims)
    decreases |ts|
  {
    if ts != [] {
      var after := AfterChain(ts);
      var piece := Opt(ts[0].leadingDelim) + ChainText(ts);
      var rest := RenderFrom(after, None, false);
      var line := RenderFrom(ts, None, first);
      RenderFirstPiece(ts, first, delims);
      assert SplitWhitespace(line) == SplitWhitespace(piece + rest) by {
        if first { assert line == piece + rest; } else { assert line[1..] == piece + rest; }
      }
      assert rest != [] ==> rest[0] == ' ';
      SplitFirstPiece(piece, rest);
      assert Tokenize(line, delims) == PathTokens(piece, delims) + Tokenize(rest, delims) by {
        assert ([piece] + SplitWhitespace(rest))[1..] == SplitWhitespace(rest);
      }
      PathTokensOfChain(ts, delims);
      RereadFrom(after, false, delims);
      RereadByChains(ts, None, delims);
    }
  }

  /** Exactly what re-tokenizing any rendering gives. */
  lemma RereadRendering(ts: seq<Token>, delims: Delims)
    requires AllWellFormed(ts, delims)
    ensures Tokenize(Render(ts), delims) == Reread(ts, None, delims)
  {
    RereadFrom(ts, true, delims);
  }

  // ---------------------------------------------------------------- when texts survive

  /** No token with a trailing delimiter is directly followed by an all-delimiter token. */
  predicate NoClash(ts: seq<Token>, delims: Delims) {
    forall i | 0 <= i < |ts| - 1 :: ts[i].trailingDelim.Some? ==> !AllDelims(ts[i + 1].text, delims)
  }

  ghost predicate ClashAtStart(ts: seq<Token>, prev: Option<char>, delims: Delims) {
    prev.Some? && ts != [] && AllDelims(ts[0].text, delims)
  }

  lemma {:induction false} RereadTexts(ts: seq<Token>, prev: Option<char>, delims: Delims)
    ensures |Reread(ts, prev, delims)| <= |ts|
    ensures NoClash(ts, delims) && !ClashAtStart(ts, prev, delims)
       <==> |Reread(ts, prev, delims)| == |ts|
    ensures NoClash(ts, delims) && !ClashAtStart(ts, prev, delims)
        ==> Texts(Reread(ts, prev, delims)) == Texts(ts)
  {
    if ts != [] {
      RereadTexts(ts[1..], ts[0].trailingDelim, delims);
      assert NoClash(ts, delims)
        <==> NoClash(ts[1..], delims) && !ClashAtStart(ts[1..], ts[0].trailingDelim, delims) by {
        assert forall i | 0 < i < |ts| :: ts[i] == ts[1..][i - 1];
        if NoClash(ts[1..], delims) && !ClashAtStart(ts[1..], ts[0].trailingDelim, delims) {
          forall i | 0 <= i < |ts| - 1 && ts[i].trailingDelim.Some?
            ensures !AllDelims(ts[i + 1].text, delims)
          {
            if i > 0 { assert ts[1..][i - 1] == ts[i] && ts[1..][i] == ts[i + 1]; }
          }
        }
        if NoClash(ts, delims) {
          forall i | 0 <= i < |ts[1..]| - 1 && ts[1..][i].trailingDelim.Some?
            ensures !AllDelims(ts[1..][i + 1].text, delims)
          {
            assert ts[1..][i] == ts[i + 1] && ts[1..][i + 1] == ts[i + 2];
          }
        }
      }
    }
  }

  lemma {:induction false} RereadRendersAlike(ts: seq<Token>, prev: Option<char>, first: bool, delims: Delims)
    requires NoClash(ts, delims) && !ClashAtStart(ts, prev, delims)
    ensures RenderFrom(Reread(ts, prev, delims), prev, first) == RenderFrom(ts, prev, first)
  {
    if ts != [] {
      var rest := ts[1..];
      assert NoClash(rest, delims) by {
        forall i | 0 <= i < |rest| - 1 && rest[i].trailingDelim.Some?
          ensures !AllDelims(rest[i + 1].text, delims)
        {
          assert rest[i] == ts[i + 1] && rest[i + 1] == ts[i + 2];
        }
      }
      RereadRendersAlike(rest, ts[0].trailingDelim, false, delims);
      var r := Reread(ts, prev, delims);
      assert r[1..] == Reread(rest, ts[0].trailingDelim, delims);
    }
  }

  /** A template's texts survive printing and re-reading exactly when no all-delimiter token is glued
      to the token before it; printing is then a fixed point. */
  lemma TemplateRoundTrip(ts: seq<Token>, delims: Delims)
    requires AllWellFormed(ts, delims)
    ensures Texts(Tokenize(Render(ts), delims)) == Texts(ts) <==> NoClash(ts, delims)
    ensures NoClash(ts, delims) ==> Render(Tokenize(Render(ts), delims)) == Render(ts)
  {
    RereadRendering(ts, delims);
    RereadTexts(ts, None, delims);
    if NoClash(ts, delims) {
      RereadRendersAlike(ts, None, true, delims);
    }
  }

  // ---------------------------------------------------------------- the same, read off a line

  predicate EndsInDelim(piece: string, delims: Delims) {
    piece != [] && piece[|piece| - 1] in delims
  }

  /** The piece is not all delimiters and ends in one. */
  predicate Dangling(piece: string, delims: Delims) {
    !AllDelims(piece, delims) && EndsInDelim(piece, delims)
  }

  ghost predicate EndsLike(ts: seq<Token>, s: string, delims: Delims) {
    ts != [] && (ts[|ts| - 1].trailingDelim.Some? <==> EndsInDelim(s, delims))
  }

  /** What ends the text behind a position ends the whole text. */
  lemma EndsBehind(s: string, m: nat, delims: Delims)
    requires 0 < m <= |s|
    ensures m < |s| ==> (EndsInDelim(s[m..], delims) <==> EndsInDelim(s, delims))
    ensures s[m - 1] in delims && AllDelims(s[m..], delims) ==> EndsInDelim(s, delims)
  {
    if m < |s| { assert s[m..][|s| - m - 1] == s[|s| - 1]; }
  }

  lemma {:induction false} LastTrailing(s: string, leading: Option<char>, delims: Delims)
    requires Segments(s, leading, delims) != []
    ensures EndsLike(Segments(s, leading, delims), s, delims)
    decreases |s|
  {
    hide Segments, EndsInDelim, SegmentLength;
    var n := SegmentLength(s, delims);
    if n == |s| {
      assert s[..n] == s;
      SegmentsWithoutDelimiter(s, leading, delims);
      RunEndsPlain(s, delims);
    } else {
      var rest := s[n + 1..];
      var segments := Segments(rest, Some(s[n]), delims);
      SegmentsUnfold(s, leading, delims);
      SegmentsOfDelimiters(rest, Some(s[n]), delims);
      EndsBehind(s, n + 1, delims);
      if segments == [] {
        assert RunBefore(s, n, leading) + [] == RunBefore(s, n, leading);
      } else {
        LastTrailing(rest, Some(s[n]), delims);
        NothingAtEnd(delims);
        var all := RunBefore(s, n, leading) + segments;
        assert all[|all| - 1] == segments[|segments| - 1];
      }
    }
  }

  lemma RunEndsPlain(s: string, delims: Delims)
    requires NoDelims(s, delims)
    ensures !EndsInDelim(s, delims)
  {
  }

  lemma NothingAtEnd(delims: Delims)
    ensures forall leading :: Segments([], leading, delims) == []
  {
  }

  lemma PathTokensEnds(piece: string, delims: Delims)
    requires IsPiece(piece)
    ensures var ts := PathTokens(piece, delims);
            && ts != []
            && (ts[|ts| - 1].trailingDelim.Some? <==> Dangling(piece, delims))
            && (AllDelims(ts[0].text, delims) <==> AllDelims(piece, delims))
            && NoClash(ts, delims)
  {
    PathTokensWellFormed(piece, delims);
    SegmentsOfDelimiters(piece, None, delims);
    var ts := PathTokens(piece, delims);
    if !AllDelims(piece, delims) {
      LastTrailing(piece, None, delims);
      forall i | 0 <= i < |ts|
        ensures !AllDelims(ts[i].text, delims)
      {
        assert ts[i] in ts && WellFormed(ts[i], delims);
        assert ts[i].text[0] !in delims;
      }
    }
  }

  /** No delimiter-ended piece stands directly before an all-delimiter piece. */
  predicate NoPieceClash(pieces: seq<string>, delims: Delims) {
    forall i | 0 <= i < |pieces| - 1 :: Dangling(pieces[i], delims) ==> !AllDelims(pieces[i + 1], delims)
  }

  lemma NoClashConcat(a: seq<Token>, b: seq<Token>, delims: Delims)
    requires a != [] && NoClash(a, delims)
    ensures NoClash(a + b, delims)
       <==> NoClash(b, delims) && !ClashAtStart(b, a[|a| - 1].trailingDelim, delims)
  {
    var ts := a + b;
    if NoClash(ts, delims) {
      forall i | 0 <= i < |b| - 1 && b[i].trailingDelim.Some?
        ensures !AllDelims(b[i + 1].text, delims)
      {
        assert ts[|a| + i] == b[i] && ts[|a| + i + 1] == b[i + 1];
      }
      if b != [] { assert ts[|a| - 1] == a[|a| - 1] && ts[|a|] == b[0]; }
    }
    if NoClash(b, delims) && !ClashAtStart(b, a[|a| - 1].trailingDelim, delims) {
      forall i | 0 <= i < |ts| - 1 && ts[i].trailingDelim.Some?
        ensures !AllDelims(ts[i + 1].text, delims)
      {
        if i + 1 < |a| {
          assert ts[i] == a[i] && ts[i + 1] == a[i + 1];
        } else if i >= |a| {
          assert ts[i] == b[i - |a|] && ts[i + 1] == b[i + 1 - |a|];
        }
      }
    }
  }

  lemma {:induction false} FlattenClash(pieces: seq<string>, delims: Delims)
    requires forall i | 0 <= i < |pieces| :: IsPiece(pieces[i])
    ensures NoClash(FlattenPieces(pieces, delims), delims) <==> NoPieceClash(pieces, delims)
    ensures pieces != [] ==>
              && FlattenPieces(pieces, delims) != []
              && (AllDelims(FlattenPieces(pieces, delims)[0].text, delims) <==> AllDelims(pieces[0], delims))
  {
    if pieces != [] {
      var rest := pieces[1..];
      PathTokensEnds(pieces[0], delims);
      FlattenClash(rest, delims);
      NoClashConcat(PathTokens(pieces[0], delims), FlattenPieces(rest, delims), delims);
      assert NoPieceClash(pieces, delims)
        <==> NoPieceClash(rest, delims)
             && (rest != [] ==> Dangling(pieces[0], delims) ==> !AllDelims(rest[0], delims)) by {
        assert forall i | 0 < i < |pieces| :: pieces[i] == rest[i - 1];
        if NoPieceClash(rest, delims) && (rest != [] ==> Dangling(pieces[0], delims) ==> !AllDelims(rest[0], delims)) {
          forall i | 0 <= i < |pieces| - 1 && Dangling(pieces[i], delims)
            ensures !AllDelims(pieces[i + 1], delims)
          {
            if i > 0 { assert rest[i - 1] == pieces[i] && rest[i] == pieces[i + 1]; }
          }
        }
        if NoPieceClash(pieces, delims) {
          forall i | 0 <= i < |rest| - 1 && Dangling(rest[i], delims)
            ensures !AllDelims(rest[i + 1], delims)
          {
            assert rest[i] == pieces[i + 1] && rest[i + 1] == pieces[i + 2];
          }
        }
      }
    }
  }

  /** For every line: re-tokenizing its rendering gives the same texts exactly when no delimiter-ended
      piece stands directly before an all-delimiter piece; rendering is then a fixed point. */
  lemma LineTextsRoundTrip(line: string, delims: Delims)
    ensures var ts := Tokenize(line, delims);
            (Texts(Tokenize(Render(ts), delims)) == Texts(ts) <==> NoPieceClash(SplitWhitespace(line), delims))
    ensures var ts := Tokenize(line, delims);
            NoPieceClash(SplitWhitespace(line), delims) ==> Render(Tokenize(Render(ts), delims)) == Render(ts)
  {
    TokenizeWellFormed(line, delims);
    FlattenClash(SplitWhitespace(line), delims);
    TemplateRoundTrip(Tokenize(line, delims), delims);
  }

  // ---------------------------------------------------------------- when a line is its own rendering

  /** Rendering that stops before the last token's trailing delimiter. */
  function RenderOpen(ts: seq<Token>, prev: Option<char>, first: bool): string
    requires ts != []
  {
    Joint(prev, first, ts[0].leadingDelim)
    + (ts[0].text + if |ts| == 1 then [] else RenderOpen(ts[1..], ts[0].trailingDelim, false))
  }

  lemma {:induction false} RenderConcat(a: seq<Token>, b: seq<Token>, prev: Option<char>, first: bool)
    requires a != []
    ensures RenderFrom(a + b, prev, first)
         == RenderOpen(a, prev, first) + RenderFrom(b, a[|a| - 1].trailingDelim, false)
  {
    hide Joint;
    assert (a + b)[1..] == a[1..] + b;
    var tail := RenderFrom(b, a[|a| - 1].trailingDelim, false);
    var inner := if |a| == 1 then [] else RenderOpen(a[1..], a[0].trailingDelim, false);
    if |a| == 1 {
      assert a[1..] + b == b;
    } else {
      RenderConcat(a[1..], b, a[0].trailingDelim, false);
    }
    Assoc(a[0].text, inner, tail);
    Assoc(Joint(prev, first, a[0].leadingDelim), a[0].text + inner, tail);
  }

  predicate NoAdjacentDelims(s: string, delims: Delims) {
    forall i | 0 <= i < |s| - 1 :: s[i] in delims ==> s[i + 1] !in delims
  }

  lemma NoAdjacentBehind(s: string, n: nat, delims: Delims)
    requires n < |s| && s[n] in delims && NoDelims(s[..n], delims)
    ensures NoAdjacentDelims(s, delims)
       <==> NoAdjacentDelims(s[n + 1..], delims) && (n + 1 < |s| ==> s[n + 1] !in delims)
  {
    var rest := s[n + 1..];
    assert forall i | 0 <= i < n :: s[i] == s[..n][i];
    if NoAdjacentDelims(s, delims) {
      forall i | 0 <= i < |rest| - 1 && rest[i] in delims
        ensures rest[i + 1] !in delims
      {
        assert rest[i] == s[n + 1 + i] && rest[i + 1] == s[n + 2 + i];
      }
    }
    if NoAdjacentDelims(rest, delims) && (n + 1 < |s| ==> s[n + 1] !in delims) {
      forall i | 0 <= i < |s| - 1 && s[i] in delims
        ensures s[i + 1] !in delims
      {
        if i > n { assert rest[i - n - 1] == s[i] && rest[i - n] == s[i + 1]; }
      }
    }
  }

  /** Joining by `c` costs one character, like the leading delimiter it replaces. */
  lemma RenderGlued(ts: seq<Token>, c: char)
    requires ts != [] && ts[0].leadingDelim.Some?
    ensures RenderFrom(ts, None, true) != []
    ensures RenderFrom(ts, Some(c), false) == [c] + RenderFrom(ts, None, true)[1..]
  {
    var tail := ts[0].text + RenderFrom(ts[1..], ts[0].trailingDelim, false);
    assert Joint(None, true, ts[0].leadingDelim) == [ts[0].leadingDelim.value];
    assert Joint(Some(c), false, ts[0].leadingDelim) == [c];
    assert ([ts[0].leadingDelim.value] + tail)[1..] == tail;
  }

  lemma {:induction false} FirstLeading(s: string, leading: Option<char>, delims: Delims)
    requires Segments(s, leading, delims) != [] && leading.Some?
    ensures Segments(s, leading, delims)[0].leadingDelim.Some?
    decreases |s|
  {
    if s[0] in delims {
      FirstLeading(s[1..], Some(s[0]), delims);
    }
  }

  /** `r` is no longer than `whole`, as long only when `exact`, and then equal to it. */
  ghost predicate Shrinks(r: string, whole: string, exact: bool) {
    && |r| <= |whole|
    && (|r| == |whole| <==> exact)
    && (exact ==> r == whole)
  }

  lemma SplitAround(s: string, n: nat)
    requires n < |s|
    ensures s == s[..n] + ([s[n]] + s[n + 1..])
  {
  }

  lemma ShrinksBehind(prefix: string, r: string, whole: string, exact: bool)
    requires Shrinks(r, whole, exact)
    ensures Shrinks(prefix + r, prefix + whole, exact)
  {
  }

  lemma GluedShrinks(ts: seq<Token>, c: char, rest: string, exact: bool)
    requires ts == [] ==> (exact <==> rest == [])
    requires ts != [] ==> ts[0].leadingDelim.Some? && Shrinks(RenderFrom(ts, None, true), [c] + rest, exact)
    ensures Shrinks(RenderFrom(ts, Some(c), false), [c] + rest, exact)
  {
    if ts != [] {
      RenderGlued(ts, c);
    }
  }

  lemma RunThenGlued(t: Token, c: char, ts: seq<Token>, rest: string, exact: bool)
    requires t.trailingDelim == Some(c) && Shrinks(RenderFrom(ts, Some(c), false), [c] + rest, exact)
    ensures Shrinks(RenderFrom([t] + ts, None, true), Opt(t.leadingDelim) + (t.text + ([c] + rest)), exact)
  {
    var glued := RenderFrom(ts, Some(c), false);
    assert ([t] + ts)[1..] == ts;
    ShrinksBehind(t.text, glued, [c] + rest, exact);
    ShrinksBehind(Opt(t.leadingDelim), t.text + glued, t.text + ([c] + rest), exact);
  }

  lemma RenderLoneRun(s: string, leading: Option<char>, delims: Delims)
    requires s != [] && NoDelims(s, delims)
    ensures Shrinks(RenderFrom([Token(s, leading, None)], None, true), Opt(leading) + s,
                    NoAdjacentDelims(s, delims) && (leading.Some? ==> s[0] !in delims))
  {
    assert RenderFrom([Token(s, leading, None)], None, true) == Opt(leading) + (s + []);
  }

  /** The rest of a text behind a delimiter keeps its delimiters apart from that one. */
  predicate ApartBehind(rest: string, delims: Delims) {
    NoAdjacentDelims(rest, delims) && (rest != [] ==> rest[0] !in delims)
  }

  /** Without further runs, only an empty rest has its delimiters apart. */
  lemma NothingLeft(rest: string, c: char, delims: Delims)
    ensures Segments(rest, Some(c), delims) == [] ==> (ApartBehind(rest, delims) <==> rest == [])
  {
    SegmentsOfDelimiters(rest, Some(c), delims);
  }

  lemma RenderBehindDelimiter(s: string, leading: Option<char>, ts: seq<Token>, delims: Delims)
    requires s != [] && s[0] in delims
    requires Shrinks(RenderFrom(ts, None, true), [s[0]] + s[1..], ApartBehind(s[1..], delims))
    ensures Shrinks(RenderFrom(ts, None, true), Opt(leading) + s,
                    NoAdjacentDelims(s, delims) && (leading.Some? ==> s[0] !in delims))
  {
    hide NoAdjacentDelims;
    NoAdjacentBehind(s, 0, delims);
    assert s == [s[0]] + s[1..];
    assert leading.None? ==> Opt(leading) + s == s;
  }

  lemma RenderRunAndRest(s: string, n: nat, leading: Option<char>, ts: seq<Token>, delims: Delims)
    requires 0 < n < |s| && s[n] in delims && NoDelims(s[..n], delims)
    requires ts == [] ==> (ApartBehind(s[n + 1..], delims) <==> s[n + 1..] == [])
    requires ts != [] ==> ts[0].leadingDelim.Some?
                          && Shrinks(RenderFrom(ts, None, true), [s[n]] + s[n + 1..], ApartBehind(s[n + 1..], delims))
    ensures Shrinks(RenderFrom([Token(s[..n], leading, Some(s[n]))] + ts, None, true), Opt(leading) + s,
                    NoAdjacentDelims(s, delims) && (leading.Some? ==> s[0] !in delims))
  {
    var exact := ApartBehind(s[n + 1..], delims);
    NoAdjacentBehind(s, n, delims);
    assert s[0] == s[..n][0];
    assert NoAdjacentDelims(s, delims) && (leading.Some? ==> s[0] !in delims) <==> exact;
    hide Shrinks, NoAdjacentDelims, ApartBehind;
    GluedShrinks(ts, s[n], s[n + 1..], exact);
    RunThenGlued(Token(s[..n], leading, Some(s[n])), s[n], ts, s[n + 1..], exact);
    SplitAround(s, n);
  }

  /** Rendering the segments of `s` never lengthens `s`, and keeps its length only by giving it back. */
  lemma {:induction false} RenderSegments(s: string, leading: Option<char>, delims: Delims)
    requires Segments(s, leading, delims) != []
    ensures Shrinks(RenderFrom(Segments(s, leading, delims), None, true), Opt(leading) + s,
                    NoAdjacentDelims(s, delims) && (leading.Some? ==> s[0] !in delims))
    decreases |s|
  {
    hide Segments, SegmentLength, NoAdjacentDelims, AllDelims, Shrinks;
    var n := SegmentLength(s, delims);
    if n == |s| {
      assert s[..n] == s;
      SegmentsWithoutDelimiter(s, leading, delims);
      RenderLoneRun(s, leading, delims);
    } else {
      var segments := Segments(s[n + 1..], Some(s[n]), delims);
      SegmentsUnfold(s, leading, delims);
      NothingLeft(s[n + 1..], s[n], delims);
      assert n == 0 ==> [] + segments == segments;
      NothingAtEnd(delims);
      if segments != [] {
        assert s[n + 1..] != [] && Opt(Some(s[n])) == [s[n]];
        RenderSegments(s[n + 1..], Some(s[n]), delims);
        FirstLeading(s[n + 1..], Some(s[n]), delims);
      }
      if n == 0 {
        RenderBehindDelimiter(s, leading, segments, delims);
      } else {
        RenderRunAndRest(s, n, leading, segments, delims);
      }
    }
  }

  function JoinWithSpaces(pieces: seq<string>): string {
    if pieces == [] then []
    else if |pieces| == 1 then pieces[0]
    else pieces[0] + [' '] + JoinWithSpaces(pieces[1..])
  }

  lemma {:induction false} JoinIsShort(s: string)
    ensures |JoinWithSpaces(SplitWhitespace(s))| <= |s|
    ensures s != [] && !IsWhitespace(s[0]) ==> SplitWhitespace(s) != []
    decreases |s|
  {
    if s != [] {
      if IsWhitespace(s[0]) {
        JoinIsShort(s[1..]);
      } else {
        var n := WordLength(s);
        var rest := s[n..];
        assert SplitWhitespace(s)[1..] == SplitWhitespace(rest);
        if rest != [] {
          JoinIsShort(rest[1..]);
        }
      }
    }
  }

  /** Pieces that printing gives back: no doubled delimiters outside all-delimiter pieces, and no
      delimiter-ended piece except the last. */
  predicate PrintablePieces(pieces: seq<string>, delims: Delims) {
    && (forall i | 0 <= i < |pieces| :: AllDelims(pieces[i], delims) || NoAdjacentDelims(pieces[i], delims))
    && (forall i | 0 <= i < |pieces| - 1 :: !Dangling(pieces[i], delims))
  }

  lemma PrintableTail(pieces: seq<string>, delims: Delims)
    requires pieces != []
    ensures PrintablePieces(pieces, delims)
       <==> && PrintablePieces(pieces[1..], delims)
            && (AllDelims(pieces[0], delims) || NoAdjacentDelims(pieces[0], delims))
            && (|pieces| > 1 ==> !Dangling(pieces[0], delims))
  {
    var rest := pieces[1..];
    assert forall i | 0 < i < |pieces| :: pieces[i] == rest[i - 1];
    if PrintablePieces(pieces, delims) {
      assert forall i | 0 <= i < |rest| :: rest[i] == pieces[i + 1];
    }
  }

  function Gap(first: bool): string {
    if first then [] else [' ']
  }

  lemma RenderBehindGap(ts: seq<Token>, first: bool)
    requires ts != []
    ensures RenderFrom(ts, None, first) == Gap(first) + RenderFrom(ts, None, true)
  {
    var rest := ts[0].text + RenderFrom(ts[1..], ts[0].trailingDelim, false);
    Assoc(Gap(first), Opt(ts[0].leadingDelim), rest);
    assert [] + Opt(ts[0].leadingDelim) == Opt(ts[0].leadingDelim);
  }

  lemma RenderBarePiece(piece: string, delims: Delims)
    requires IsPiece(piece)
    ensures var ts := PathTokens(piece, delims);
            && ts != []
            && Shrinks(RenderFrom(ts, None, true), piece, AllDelims(piece, delims) || NoAdjacentDelims(piece, delims))
  {
    SegmentsOfDelimiters(piece, None, delims);
    if AllDelims(piece, delims) {
      assert RenderFrom(PathTokens(piece, delims), None, true) == [] + (piece + []);
    } else {
      RenderSegments(piece, None, delims);
      assert Opt(None) + piece == piece;
    }
  }

  lemma RenderOnePiece(piece: string, first: bool, delims: Delims)
    requires IsPiece(piece)
    ensures var ts := PathTokens(piece, delims);
            ts != [] && Shrinks(RenderOpen(ts, None, first) + Opt(ts[|ts| - 1].trailingDelim), Gap(first) + piece,
                                AllDelims(piece, delims) || NoAdjacentDelims(piece, delims))
  {
    RenderBarePiece(piece, delims);
    hide PathTokens, RenderOpen, AllDelims, NoAdjacentDelims, Shrinks;
    var ts := PathTokens(piece, delims);
    RenderConcat(ts, [], None, first);
    assert ts + [] == ts;
    assert RenderFrom([], ts[|ts| - 1].trailingDelim, false) == Opt(ts[|ts| - 1].trailingDelim);
    RenderBehindGap(ts, first);
    ShrinksBehind(Gap(first), RenderFrom(ts, None, true), piece,
                  AllDelims(piece, delims) || NoAdjacentDelims(piece, delims));
  }

  lemma {:induction false} RenderPieces(pieces: seq<string>, first: bool, delims: Delims)
    requires pieces != [] && forall i | 0 <= i < |pieces| :: IsPiece(pieces[i])
    ensures Shrinks(RenderFrom(FlattenPieces(pieces, delims), None, first), Gap(first) + JoinWithSpaces(pieces),
                    PrintablePieces(pieces, delims))
  {
    var rest := pieces[1..];
    var ts := PathTokens(pieces[0], delims);
    var others := FlattenPieces(rest, delims);
    var trailing := ts[|ts| - 1].trailingDelim;
    PathTokensEnds(pieces[0], delims);
    PrintableTail(pieces, delims);
    RenderConcat(ts, others, None, first);
    RenderOnePiece(pieces[0], first, delims);
    if rest == [] {
      assert others == [];
    } else {
      RenderPieces(rest, false, delims);
      FlattenClash(rest, delims);
      var open := RenderOpen(ts, None, first);
      var tail := RenderFrom(others, None, false);
      Assoc(Gap(first), pieces[0], [' '] + JoinWithSpaces(rest));
      Assoc(pieces[0], [' '], JoinWithSpaces(rest));
      if trailing.None? {
        assert open + Opt(trailing) == open;
      } else {
        JoinedIsShorter(others, trailing.value);
      }
    }
  }

  /** Joining by a delimiter is no longer than a space and the leading delimiter it replaces. */
  lemma JoinedIsShorter(ts: seq<Token>, c: char)
    requires ts != []
    ensures |RenderFrom(ts, Some(c), false)| <= |RenderFrom(ts, None, false)|
  {
  }

  /** A line is its own rendering exactly when its pieces are separated by single spaces (with none
      around them) and every piece is one that printing gives back. */
  lemma RenderTokenizeIdentity(line: string, delims: Delims)
    ensures Render(Tokenize(line, delims)) == line
       <==> line == JoinWithSpaces(SplitWhitespace(line)) && PrintablePieces(SplitWhitespace(line), delims)
  {
    var pieces := SplitWhitespace(line);
    JoinIsShort(line);
    if pieces != [] {
      RenderPieces(pieces, true, delims);
    }
  }
}
