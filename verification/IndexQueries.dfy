/** What a query of the index answers, and how it follows an add (crates/logdrain/src/miner.rs:216-234
    and 308-337). */
module IndexQueries {
  import opened Wrappers
  import opened Tokenizer
  import opened Rendering
  import opened Options
  import opened Templates
  import opened Index
  import opened IndexInvariant

  // ---------------------------------------------------------------- the leaf scan finds the first maximum

  /** `ids[p]` has a body, no other body of `ids` scores higher and no earlier one scores as high. */
  ghost predicate FirstBest(bodies: map<Id, Body>, ids: seq<Id>, line: seq<Token>, w: string, p: nat) {
    && p < |ids| && ids[p] in bodies
    && (forall j | 0 <= j < |ids| && ids[j] in bodies :: Sim(bodies, ids[j], line, w) <= Sim(bodies, ids[p], line, w))
    && (forall j | 0 <= j < p && ids[j] in bodies :: Sim(bodies, ids[j], line, w) < Sim(bodies, ids[p], line, w))
  }

  lemma {:induction false} BestMatchIsFirstBest(bodies: map<Id, Body>, ids: seq<Id>, line: seq<Token>, w: string)
    returns (p: nat)
    ensures BestMatch(bodies, ids, line, w).None? ==> forall id | id in ids :: id !in bodies
    ensures BestMatch(bodies, ids, line, w).Some? ==>
              && FirstBest(bodies, ids, line, w, p)
              && BestMatch(bodies, ids, line, w).value == Best(ids[p], Sim(bodies, ids[p], line, w))
  {
    p := 0;
    if ids != [] {
      var last := |ids| - 1;
      var before := ids[..last];
      var q := BestMatchIsFirstBest(bodies, before, line, w);
      assert forall j | 0 <= j < last :: ids[j] == before[j];
      var best := BestMatch(bodies, before, line, w);
      if best.None? {
        assert forall j | 0 <= j < last :: before[j] in before;
        p := last;
      } else if ids[last] in bodies && Sim(bodies, ids[last], line, w) > best.value.sim {
        p := last;
      } else {
        p := q;
      }
    }
  }

  lemma FirstBestIsBestMatch(bodies: map<Id, Body>, ids: seq<Id>, line: seq<Token>, w: string, p: nat)
    requires FirstBest(bodies, ids, line, w, p)
    ensures BestMatch(bodies, ids, line, w) == Some(Best(ids[p], Sim(bodies, ids[p], line, w)))
  {
    var q := BestMatchIsFirstBest(bodies, ids, line, w);
    assert ids[p] in ids;
  }

  // ---------------------------------------------------------------- the index refines a linear scan

  /** The clusters a linear scan would compare with the line: all live ones of the line's key. */
  ghost predicate Candidate(o: Options, st: State, line: seq<Token>, id: Id)
    requires o.Valid()
  {
    id in st.bodies && KeyOf(o, st.bodies[id].tokens) == KeyOf(o, line)
  }

  lemma LeafHoldsTheCandidates(o: Options, st: State, line: seq<Token>, id: Id)
    requires Inv(o, st)
    ensures id in LeafIds(st, KeyOf(o, line)) <==> Candidate(o, st, line, id)
  {
  }

  /** A query of the tree answers as a linear scan over all live clusters of the line's key: something
      exactly when a candidate reaches the threshold, and then a candidate of maximal similarity. */
  lemma IndexRefinesLinearScan(o: Options, st: State, line: seq<Token>)
    requires Inv(o, st)
    ensures MatchOnly(o, st, line).Some?
       <==> exists id :: Candidate(o, st, line, id) && Sim(st.bodies, id, line, o.wildcard) >= o.simThreshold
    ensures MatchOnly(o, st, line).Some? ==>
              var found := MatchOnly(o, st, line).value;
              && Candidate(o, st, line, found)
              && Sim(st.bodies, found, line, o.wildcard) >= o.simThreshold
              && forall id | Candidate(o, st, line, id) ::
                   Sim(st.bodies, id, line, o.wildcard) <= Sim(st.bodies, found, line, o.wildcard)
  {
    var ids := LeafIds(st, KeyOf(o, line));
    var p := BestMatchIsFirstBest(st.bodies, ids, line, o.wildcard);
    forall id
      ensures id in ids <==> Candidate(o, st, line, id)
    {
      LeafHoldsTheCandidates(o, st, line, id);
    }
    if ScanLeaf(o, st, line).Some? {
      assert ids[p] in ids;
      forall id | Candidate(o, st, line, id)
        ensures Sim(st.bodies, id, line, o.wildcard) <= Sim(st.bodies, ids[p], line, o.wildcard)
      {
        var j :| 0 <= j < |ids| && ids[j] == id;
      }
    }
  }

  // ---------------------------------------------------------------- which cluster an add takes

  /** An add creates exactly when no candidate reaches the threshold, in a full leaf and in one with room alike.
      Otherwise it takes the cluster a query would have answered, the first in leaf order of maximal similarity, at
      position `p`, and reports a change exactly when the template did not cover the line. */
  lemma AddTakesTheFirstBest(o: Options, st: State, r: Request)
    returns (p: nat)
    requires Inv(o, st)
    ensures CountsFit(st)
    ensures var res := Add(o, st, r).1;
            && (res.update == Created
                <==> forall id | Candidate(o, st, r.tokens, id) ::
                       Sim(st.bodies, id, r.tokens, o.wildcard) < o.simThreshold)
            && (res.update == Created ==> MatchOnly(o, st, r.tokens) == None)
            && (res.update != Created ==>
                  && MatchOnly(o, st, r.tokens) == Some(res.id)
                  && FirstBest(st.bodies, LeafIds(st, KeyOf(o, r.tokens)), r.tokens, o.wildcard, p)
                  && LeafIds(st, KeyOf(o, r.tokens))[p] == res.id
                  && (res.update == NoChange <==> Covers(st.bodies[res.id].tokens, r.tokens, o.wildcard)))
  {
    hide KeyOf, Similarity, LeavesOk, BodiesOk, Create, Matched, Candidate;
    InvCountsFit(o, st);
    IndexRefinesLinearScan(o, st, r.tokens);
    p := BestMatchIsFirstBest(st.bodies, LeafIds(st, KeyOf(o, r.tokens)), r.tokens, o.wildcard);
    if Reaches(o, ScanLeaf(o, st, r.tokens)) {
      var id := Add(o, st, r).1.id;
      LeafHoldsTheCandidates(o, st, r.tokens, id);
      SameKeySameCount(o, st, r.tokens, id);
      GeneralizeIsMoreGeneral(st.bodies[id].tokens, r.tokens, o.wildcard);
    }
  }

  lemma SameKeySameCount(o: Options, st: State, line: seq<Token>, id: Id)
    requires o.Valid() && Candidate(o, st, line, id)
    ensures |st.bodies[id].tokens| == |line|
  {
  }

  /** The cluster created for a line: its tokens, size 1, the line's event, its label, and as suffix the text behind the
      first newline of the masked line in first-line mode. */
  lemma CreatedBody(o: Options, st: State, line: string, member: Option<string>, event: Option<nat>)
    requires Inv(o, st) && CountsFit(st)
    requires Add(o, st, RequestOf(o, line, member, event)).1.update == Created
    ensures var (st', res) := Add(o, st, RequestOf(o, line, member, event));
            var b, masked := st'.bodies[res.id], o.mask(line);
            && res.id == st.counter + 1 && res.id in st'.bodies
            && b.id == res.id && b.tokens == TokensOf(o, line) && b.size == 1 && b.lastUsed == st.tick
            && b.members == (if member.Some? then [member.value] else [])
            && (if event.Some? then b.eventFirst == b.eventLast == event.value
                else b.eventFirst == EVENT_UNSET && b.eventLast == 0)
            && (b.suffix.Some? <==> o.firstLineOnly && '\n' in masked)
            && (b.suffix.Some? ==>
                  exists n :: 0 <= n < |masked| && masked[n] == '\n' && '\n' !in masked[..n]
                              && b.suffix.value == masked[n + 1..])
  {
    hide LeavesOk, BodiesOk, ScanLeaf, Reaches, KeyOf, TokensOf;
    AddHasEffect(o, st, RequestOf(o, line, member, event));
    SuffixIsBehindTheNewline(o, line);
  }

  lemma SuffixIsBehindTheNewline(o: Options, line: string)
    ensures var suffix, masked := SplitRecord(o, line).1, o.mask(line);
            && (suffix.Some? <==> o.firstLineOnly && '\n' in masked)
            && (suffix.Some? ==>
                  exists n :: 0 <= n < |masked| && masked[n] == '\n' && '\n' !in masked[..n]
                              && suffix.value == masked[n + 1..])
  {
    var masked := o.mask(line);
    var (first, suffix) := SplitFirstLine(masked);
    if suffix.Some? {
      assert masked == first + (['\n'] + suffix.value);
      assert masked[..|first|] == first && masked[|first| + 1..] == suffix.value && masked[|first|] == '\n';
    }
  }

  /** What an add leaves of the leaves, in order, on which ties between equally similar clusters turn: a match leaves
      all of them alone; a creation files the new id last in its own leaf, and in a full one the last id takes the
      place, `p`, of the victim. */
  lemma AddLeavesInOrder(o: Options, st: State, r: Request)
    returns (p: nat)
    requires Inv(o, st) && CountsFit(st)
    ensures var (st', res) := Add(o, st, r);
            var k := KeyOf(o, r.tokens);
            var ids, after := LeafIds(st, k), LeafIds(st', k);
            && (forall k' | k' != k :: LeafIds(st', k') == LeafIds(st, k'))
            && (res.update != Created ==> after == ids)
            && (res.update == Created && |ids| < o.maxClustersPerLeaf ==> after == ids + [res.id])
            && (res.update == Created && |ids| >= o.maxClustersPerLeaf ==>
                  && p < |ids| == |after| && ids[p] in st.bodies && ids[p] !in st'.bodies
                  && after[|ids| - 1] == res.id
                  && forall j | 0 <= j < |ids| - 1 :: after[j] == if j == p then ids[|ids| - 1] else ids[j])
  {
    hide KeyOf, ScanLeaf, Reaches, Matched, NewBody, Victim, BodiesOk;
    var ids := LeafIds(st, KeyOf(o, r.tokens));
    p := 0;
    if ids != [] && |ids| >= o.maxClustersPerLeaf {
      p := IndexOf(ids, Victim(st.bodies, ids));
      FilledLeaf(o, st, r);
    }
  }

  /** A full leaf after a creation. */
  lemma FilledLeaf(o: Options, st: State, r: Request)
    requires Inv(o, st) && |LeafIds(st, KeyOf(o, r.tokens))| >= o.maxClustersPerLeaf
    ensures var ids, st' := LeafIds(st, KeyOf(o, r.tokens)), Create(o, st, r);
            var v := Victim(st.bodies, ids);
            && LeafIds(st', KeyOf(o, r.tokens)) == SwapRemove(ids, v) + [st.counter + 1]
            && v in st.bodies && v !in st'.bodies
  {
    hide KeyOf, NewBody, Victim, SwapRemove;
    CreateAsInsert(o, st, r);
    assert KeyOf(o, r.tokens) in st.leaves;
  }

  // ---------------------------------------------------------------- add, then query

  /** After a match the assigned cluster covers the line and is still the first best of its leaf. */
  lemma MatchedLineLeads(o: Options, st: State, r: Request)
    returns (p: nat)
    requires Inv(o, st) && CountsFit(st) && Reaches(o, ScanLeaf(o, st, r.tokens))
    ensures Leads(o, Add(o, st, r).0, r.tokens, Add(o, st, r).1.id, p)
  {
    var ids := LeafIds(st, KeyOf(o, r.tokens));
    var (st', res) := Add(o, st, r);
    p := BestMatchIsFirstBest(st.bodies, ids, r.tokens, o.wildcard);
    BestIsAmong(st.bodies, ids, r.tokens, o.wildcard);
    var b := st.bodies[res.id];
    MatchedKeepsKey(o, b, r, st.tick);
    GeneralizeIsMoreGeneral(b.tokens, r.tokens, o.wildcard);
    SimilarityRange(st'.bodies[res.id].tokens, r.tokens, o.wildcard);
    SimilarityRange(b.tokens, r.tokens, o.wildcard);
    forall j | 0 <= j < |ids| && j != p
      ensures ids[j] in st'.bodies && st'.bodies[ids[j]] == st.bodies[ids[j]]
    {
      assert ids[j] in ids && NoDuplicates(ids);
    }
  }

  /** The last id of a leaf is its first best when all before it score lower. */
  lemma LastIsFirstBest(bodies: map<Id, Body>, kept: seq<Id>, id: Id, line: seq<Token>, w: string)
    requires id in bodies && forall x | x in kept && x in bodies :: Sim(bodies, x, line, w) < Sim(bodies, id, line, w)
    ensures FirstBest(bodies, kept + [id], line, w, |kept|)
  {
    hide Similarity;
    assert forall j | 0 <= j < |kept| :: (kept + [id])[j] == kept[j] && kept[j] in kept;
  }

  /** No cluster of a leaf below threshold has similarity 1. */
  lemma BelowThreshold(o: Options, st: State, line: seq<Token>, x: Id)
    requires o.Valid() && !Reaches(o, ScanLeaf(o, st, line)) && x in LeafIds(st, KeyOf(o, line)) && x in st.bodies
    ensures Sim(st.bodies, x, line, o.wildcard) < 1.0
  {
    hide Similarity, KeyOf, BestMatch;
    var ids := LeafIds(st, KeyOf(o, line));
    var q := BestMatchIsFirstBest(st.bodies, ids, line, o.wildcard);
    var i :| 0 <= i < |ids| && ids[i] == x;
  }

  /** A created cluster covers its line and every cluster it shares the leaf with was below threshold. */
  lemma CreatedLineLeads(o: Options, st: State, r: Request)
    returns (p: nat)
    requires Inv(o, st) && CountsFit(st) && !Reaches(o, ScanLeaf(o, st, r.tokens))
    ensures Leads(o, Add(o, st, r).0, r.tokens, Add(o, st, r).1.id, p)
  {
    hide ScanLeaf, Reaches, Create, EvictIfFull, Similarity, KeyOf, LeavesOk, BodiesOk, FirstBest;
    var k := KeyOf(o, r.tokens);
    var (st', res) := Add(o, st, r);
    CreateKeepsInv(o, st, r);
    var kept := LeafIds(EvictIfFull(o, st, k), k);
    p := |kept|;
    SimilarityRange(r.tokens, r.tokens, o.wildcard);
    forall x | x in kept
      ensures Sim(st'.bodies, x, r.tokens, o.wildcard) < 1.0
    {
      BelowThreshold(o, st, r.tokens, x);
    }
    LastIsFirstBest(st'.bodies, kept, res.id, r.tokens, o.wildcard);
  }

  ghost predicate Leads(o: Options, st: State, line: seq<Token>, id: Id, p: nat)
    requires o.Valid()
  {
    var ids := LeafIds(st, KeyOf(o, line));
    && FirstBest(st.bodies, ids, line, o.wildcard, p)
    && ids[p] == id
    && Covers(st.bodies[id].tokens, line, o.wildcard)
    && Sim(st.bodies, id, line, o.wildcard) == 1.0
  }

  lemma LeaderAnswers(o: Options, st: State, line: seq<Token>, id: Id, p: nat)
    requires Inv(o, st) && Leads(o, st, line, id, p)
    ensures CountsFit(st) && id in st.bodies
    ensures ScanLeaf(o, st, line) == Some(Best(id, 1.0)) && Reaches(o, ScanLeaf(o, st, line))
    ensures !WouldGeneralize(st.bodies[id].tokens, line, o.wildcard)
  {
    InvCountsFit(o, st);
    FirstBestIsBestMatch(st.bodies, LeafIds(st, KeyOf(o, line)), line, o.wildcard, p);
    GeneralizeIsMoreGeneral(st.bodies[id].tokens, line, o.wildcard);
  }

  /** Add-then-query, from every state: the line is then answered by the cluster it was assigned to,
      adding it again changes no template, and its parameters fill the template back to the line. */
  lemma AddThenQuery(o: Options, st: State, r: Request, again: Request)
    requires Inv(o, st) && again.tokens == r.tokens
    ensures CountsFit(st) && CountsFit(Add(o, st, r).0)
    ensures var (st', res) := Add(o, st, r);
            && res.id in st'.bodies
            && MatchOnly(o, st', r.tokens) == Some(res.id)
            && Add(o, st', again).1 == AddResult(res.id, NoChange)
            && Add(o, st', again).0.bodies.Keys == st'.bodies.Keys
            && (forall id | id in st'.bodies :: Add(o, st', again).0.bodies[id].tokens == st'.bodies[id].tokens)
            && Extract(o, st', r.tokens).Some?
            && Extract(o, st', r.tokens).value.0 == res.id
            && FillIn(st'.bodies[res.id].tokens, Extract(o, st', r.tokens).value.1, o.wildcard) == Some(Texts(r.tokens))
  {
    InvCountsFit(o, st);
    AddKeepsInv(o, st, r);
    var p: nat;
    if Reaches(o, ScanLeaf(o, st, r.tokens)) {
      p := MatchedLineLeads(o, st, r);
    } else {
      p := CreatedLineLeads(o, st, r);
    }
    var st' := Add(o, st, r).0;
    var id := Add(o, st, r).1.id;
    LeaderAnswers(o, st', r.tokens, id, p);
    RepeatedAdd(o, st', again, id);
    FillInParams(st'.bodies[id].tokens, r.tokens, o.wildcard);
  }

  lemma RepeatedAdd(o: Options, st: State, r: Request, id: Id)
    requires o.Valid() && CountsFit(st) && id in st.bodies
    requires ScanLeaf(o, st, r.tokens) == Some(Best(id, 1.0)) && Reaches(o, ScanLeaf(o, st, r.tokens))
    requires !WouldGeneralize(st.bodies[id].tokens, r.tokens, o.wildcard)
    ensures var (st', res) := Add(o, st, r);
            && res == AddResult(id, NoChange)
            && st'.bodies.Keys == st.bodies.Keys
            && forall x | x in st.bodies :: st'.bodies[x].tokens == st.bodies[x].tokens
  {
    BestIsAmong(st.bodies, LeafIds(st, KeyOf(o, r.tokens)), r.tokens, o.wildcard);
  }

  // ---------------------------------------------------------------- parameters

  /** Extraction answers whenever the query does, with the same cluster, and for covered and uncovered lines alike with
      the line's texts at the wildcard positions `pos` of its template. */
  lemma ExtractGivesTheTexts(o: Options, st: State, line: seq<Token>)
    returns (pos: seq<nat>)
    requires Inv(o, st) && CountsFit(st)
    ensures Extract(o, st, line).None? <==> MatchOnly(o, st, line).None?
    ensures Extract(o, st, line).Some? ==>
              var (id, params) := Extract(o, st, line).value;
              && MatchOnly(o, st, line) == Some(id) && id in st.bodies
              && WildcardsAt(st.bodies[id].tokens, o.wildcard, pos) && TextsAt(params, line, pos)
  {
    pos := [];
    if MatchOnly(o, st, line).Some? {
      BestIsAmong(st.bodies, LeafIds(st, KeyOf(o, line)), line, o.wildcard);
      pos := ParamsStandAtWildcards(st.bodies[MatchOnly(o, st, line).value].tokens, line, o.wildcard);
    }
  }

  /** Puts `params` back into the wildcard positions; fails when their number is wrong. */
  function FillIn(t: Template, params: seq<string>, w: string): Option<seq<string>> {
    if t == [] then if params == [] then Some([]) else None
    else
      var last := |t| - 1;
      if t[last].text == w then
        if params == [] then None
        else
          match FillIn(t[..last], params[..|params| - 1], w)
          case None => None
          case Some(texts) => Some(texts + [params[|params| - 1]])
      else
        match FillIn(t[..last], params, w)
        case None => None
        case Some(texts) => Some(texts + [t[last].text])
  }

  /** Extraction inverts: for a covered line, filling in its parameters gives its texts. */
  lemma {:induction false} FillInParams(t: Template, line: seq<Token>, w: string)
    requires Covers(t, line, w)
    ensures FillIn(t, Params(t, line, w), w) == Some(Texts(line))
  {
    if t == [] {
      assert Texts(line) == [];
    } else {
      var last := |t| - 1;
      FillInParams(t[..last], line[..last], w);
      ParamsOfPrefix(t[..last], line, last, w);
      assert Agrees(t[last], line[last], w);
      assert Texts(line) == Texts(line[..last]) + [line[last].text];
      var ps := Params(t, line, w);
      if t[last].text == w {
        assert ps[..|ps| - 1] == Params(t[..last], line, w) && ps[|ps| - 1] == line[last].text;
      } else {
        assert ps == Params(t[..last], line, w);
      }
    }
  }

  lemma {:induction false} ParamsOfPrefix(t: Template, line: seq<Token>, n: nat, w: string)
    requires |t| <= n <= |line|
    ensures Params(t, line, w) == Params(t, line[..n], w)
  {
    if t != [] {
      ParamsOfPrefix(t[..|t| - 1], line, n, w);
    }
  }

  // ---------------------------------------------------------------- feeding a template back

  /** Querying with the printed template of any live cluster finds a cluster at similarity 1, when no
      mask is configured, the wildcard survives printing and no all-delimiter token of the template is
      glued to the token before it. */
  lemma TemplateFindsItself(o: Options, st: State, id: Id)
    requires Inv(o, st) && TemplatesWellFormed(o, st) && PrintableWildcard(o)
    requires forall s :: o.mask(s) == s
    requires id in st.bodies && NoClash(st.bodies[id].tokens, o.ActiveDelimiters())
    ensures var line := TokensOf(o, Render(st.bodies[id].tokens));
            && MatchOnly(o, st, line).Some?
            && Candidate(o, st, line, MatchOnly(o, st, line).value)
            && Sim(st.bodies, MatchOnly(o, st, line).value, line, o.wildcard) == 1.0
  {
    var t := st.bodies[id].tokens;
    var delims := o.ActiveDelimiters();
    var text := Render(t);
    RenderHasNoNewline(t, None, true, delims);
    SplitFirstLineWithoutNewline(text);
    var line := TokensOf(o, text);
    assert line == Tokenize(text, delims);
    TemplateRoundTrip(t, delims);
    SameTextsSameKey(o, t, line);
    forall i | 0 <= i < |t|
      ensures Agrees(t[i], line[i], o.wildcard)
    {
      assert Texts(line)[i] == Texts(t)[i];
    }
    SimilarityRange(t, line, o.wildcard);
    assert Candidate(o, st, line, id);
    IndexRefinesLinearScan(o, st, line);
    SimilarityRange(st.bodies[MatchOnly(o, st, line).value].tokens, line, o.wildcard);
  }

  lemma SameTextsSameKey(o: Options, a: seq<Token>, b: seq<Token>)
    requires o.Valid() && Texts(a) == Texts(b)
    ensures KeyOf(o, a) == KeyOf(o, b)
  {
    assert |a| == |Texts(a)| == |b|;
    assert forall i | 0 <= i < |a| :: a[i].text == Texts(a)[i] == Texts(b)[i] == b[i].text;
    assert DescentKeys(o, a) == DescentKeys(o, b);
  }

  lemma {:induction false} RenderHasNoNewline(ts: seq<Token>, prev: Option<char>, first: bool, delims: Delims)
    requires AllWellFormed(ts, delims) && IsDelimOption(prev, delims)
    ensures '\n' !in RenderFrom(ts, prev, first)
  {
    if ts != [] {
      assert WellFormed(ts[0], delims);
      assert IsWhitespace('\n');
      RenderHasNoNewline(ts[1..], ts[0].trailingDelim, false, delims);
    }
  }
}
