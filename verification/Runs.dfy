/** Whole sequential runs: reachable states, exact LRU, exact sizes and least general templates. */
module Runs {
  import opened Wrappers
  import opened Tokenizer
  import opened Rendering
  import opened Options
  import opened Templates
  import opened Index
  import opened IndexInvariant
  import opened IndexQueries
  import opened Observations
  import opened Snapshots

  datatype Op = AddLine(line: string, member: Option<string>, event: Option<nat>) | Load(snap: Snapshot)

  /** Snapshots come from some miner: their ids are distinct and within their counter. */
  ghost predicate Legal(ops: seq<Op>) {
    forall i | 0 <= i < |ops| && ops[i].Load? :: WellNumbered(ops[i].snap)
  }

  ghost function OpRequest(o: Options, op: Op): Request
    requires op.AddLine?
  {
    RequestOf(o, op.line, op.member, op.event)
  }

  /** The state after a run from an empty miner. */
  ghost function Run(o: Options, ops: seq<Op>): (st: State)
    requires o.Valid() && Legal(ops)
    ensures Inv(o, st) && CountsFit(st)
  {
    if ops == [] then EMPTY_STATE
    else
      var st := Run(o, ops[..|ops| - 1]);
      match ops[|ops| - 1]
      case AddLine(_, _, _) =>
        AddKeepsInv(o, st, OpRequest(o, ops[|ops| - 1]));
        InvCountsFit(o, Add(o, st, OpRequest(o, ops[|ops| - 1])).0);
        Add(o, st, OpRequest(o, ops[|ops| - 1])).0
      case Load(snap) =>
        RestoreEstablishesInv(o, st, snap);
        InvCountsFit(o, Restore(o, st, snap));
        Restore(o, st, snap)
  }

  /** The main sequential laws in every reachable state: queries are linear scans over the live clusters of the
      line's key, and an added line is answered by its cluster, changes nothing when added again, and is given back
      by its parameters. */
  lemma ReachableStatesAnswer(o: Options, ops: seq<Op>, r: Request, again: Request)
    requires o.Valid() && Legal(ops) && again.tokens == r.tokens
    ensures var st, line := Run(o, ops), r.tokens;
            && (MatchOnly(o, st, line).Some?
                <==> exists id :: Candidate(o, st, line, id) && Sim(st.bodies, id, line, o.wildcard) >= o.simThreshold)
            && (MatchOnly(o, st, line).Some? ==>
                  var found := MatchOnly(o, st, line).value;
                  && Candidate(o, st, line, found)
                  && Sim(st.bodies, found, line, o.wildcard) >= o.simThreshold
                  && forall id | Candidate(o, st, line, id) ::
                       Sim(st.bodies, id, line, o.wildcard) <= Sim(st.bodies, found, line, o.wildcard))
    ensures CountsFit(Add(o, Run(o, ops), r).0)
    ensures var (st', res) := Add(o, Run(o, ops), r);
            && res.id in st'.bodies
            && MatchOnly(o, st', r.tokens) == Some(res.id)
            && Add(o, st', again).1 == AddResult(res.id, NoChange)
            && Extract(o, st', r.tokens).Some?
            && Extract(o, st', r.tokens).value.0 == res.id
            && FillIn(st'.bodies[res.id].tokens, Extract(o, st', r.tokens).value.1, o.wildcard) == Some(Texts(r.tokens))
  {
    hide Add, MatchOnly, Extract, FillIn, KeyOf, Similarity;
    IndexRefinesLinearScan(o, Run(o, ops), r.tokens);
    AddThenQuery(o, Run(o, ops), r, again);
  }

  // ---------------------------------------------------------------- the history of an add-only run

  ghost predicate AddsOnly(ops: seq<Op>) {
    forall i | 0 <= i < |ops| :: ops[i].AddLine?
  }

  /** The cluster each line was assigned to, in order. */
  ghost function Touches(o: Options, ops: seq<Op>): (log: seq<Id>)
    requires o.Valid() && AddsOnly(ops)
    ensures |log| == |ops|
  {
    if ops == [] then []
    else
      var n := |ops| - 1;
      Touches(o, ops[..n]) + [Add(o, Run(o, ops[..n]), OpRequest(o, ops[n])).1.id]
  }

  ghost function LastIndex(log: seq<Id>, id: Id): (i: nat)
    requires id in log
    ensures i < |log| && log[i] == id && forall j | i < j < |log| :: log[j] != id
  {
    if log[|log| - 1] == id then |log| - 1 else LastIndex(log[..|log| - 1], id)
  }

  /** `log` records every touch of a state: recency is the position of a cluster's latest
      create-or-match in the whole history, and its size is the number of lines assigned to it. */
  ghost predicate Records(log: seq<Id>, st: State) {
    && st.tick == |log|
    && (forall id | id in log :: id <= st.counter)
    && forall id | id in st.bodies ::
         id in log && st.bodies[id].lastUsed == LastIndex(log, id) && st.bodies[id].size == multiset(log)[id]
  }

  lemma RecordsOneMore(o: Options, st: State, r: Request, st': State, res: AddResult, log: seq<Id>)
    requires AddEffect(o, st, r, st', res) && Records(log, st)
    ensures Records(log + [res.id], st')
  {
    var log' := log + [res.id];
    assert log'[..|log|] == log;
    assert res.update == Created ==> res.id !in log;
    forall id | id in st'.bodies && id != res.id
      ensures id in log && LastIndex(log', id) == LastIndex(log, id)
    {
    }
  }

  lemma {:induction false} RecencyAndSize(o: Options, ops: seq<Op>)
    requires o.Valid() && AddsOnly(ops)
    ensures Records(Touches(o, ops), Run(o, ops))
  {
    if ops != [] {
      var n := |ops| - 1;
      var st := Run(o, ops[..n]);
      var r := OpRequest(o, ops[n]);
      RecencyAndSize(o, ops[..n]);
      AddHasEffect(o, st, r);
      RecordsOneMore(o, st, r, Add(o, st, r).0, Add(o, st, r).1, Touches(o, ops[..n]));
    }
  }

  /** The victim has the least recency of its leaf, and is the first such in leaf order. */
  lemma {:induction false} VictimIsLeast(bodies: map<Id, Body>, ids: seq<Id>)
    returns (p: nat)
    requires ids != []
    ensures p < |ids| && ids[p] == Victim(bodies, ids)
    ensures forall j | 0 <= j < |ids| :: Recency(bodies, ids[p]) <= Recency(bodies, ids[j])
    ensures forall j | 0 <= j < p :: Recency(bodies, ids[p]) < Recency(bodies, ids[j])
  {
    hide Recency;
    p := 0;
    if |ids| > 1 {
      var last := |ids| - 1;
      var q := VictimIsLeast(bodies, ids[..last]);
      assert forall j | 0 <= j < last :: ids[j] == ids[..last][j];
      p := if Recency(bodies, ids[last]) < Recency(bodies, ids[q]) then last else q;
    }
  }

  /** Exactly when a create meets a full leaf one cluster of that leaf goes: the victim. */
  lemma WhoIsEvicted(o: Options, st: State, r: Request)
    requires Inv(o, st) && CountsFit(st)
    ensures var ids := LeafIds(st, KeyOf(o, r.tokens));
            var (st', res) := Add(o, st, r);
            && res.id in st'.bodies
            && st.bodies.Keys - st'.bodies.Keys
               == if res.update == Created && |ids| == o.maxClustersPerLeaf then {Victim(st.bodies, ids)} else {}
  {
    var k := KeyOf(o, r.tokens);
    AddHasEffect(o, st, r);
    if !Reaches(o, ScanLeaf(o, st, r.tokens)) {
      CreateAsInsert(o, st, r);
      assert st.counter + 1 !in st.bodies;
      if k in st.leaves && |st.leaves[k]| == o.maxClustersPerLeaf {
        assert Victim(st.bodies, st.leaves[k]) in st.leaves[k];
      }
    }
  }

  /** Exact LRU: a line evicts at most one cluster, only when it creates one in a full leaf, and the
      evicted cluster is the one of that leaf whose latest create-or-match is earliest in the history.
      The new cluster is never the victim. */
  lemma ExactLru(o: Options, ops: seq<Op>, r: Request)
    requires o.Valid() && AddsOnly(ops)
    ensures var st := Run(o, ops);
            var log := Touches(o, ops);
            var ids := LeafIds(st, KeyOf(o, r.tokens));
            var (st', res) := Add(o, st, r);
            && res.id in st'.bodies
            && (forall x | x in ids :: x in log)
            && (res.update == Created && |ids| == o.maxClustersPerLeaf ==>
                  exists v :: && v in ids && st.bodies.Keys - st'.bodies.Keys == {v}
                              && forall x | x in ids && x != v :: LastIndex(log, v) < LastIndex(log, x))
            && (!(res.update == Created && |ids| == o.maxClustersPerLeaf) ==> st.bodies.Keys - st'.bodies.Keys == {})
  {
    var st := Run(o, ops);
    var ids := LeafIds(st, KeyOf(o, r.tokens));
    RecencyAndSize(o, ops);
    WhoIsEvicted(o, st, r);
    LeastRecentIsEarliest(st, Touches(o, ops), ids);
  }

  lemma LeastRecentIsEarliest(st: State, log: seq<Id>, ids: seq<Id>)
    requires Records(log, st) && forall x | x in ids :: x in st.bodies
    ensures forall x | x in ids :: x in log
    ensures ids != [] ==> var v := Victim(st.bodies, ids);
                          forall x | x in ids && x != v :: LastIndex(log, v) < LastIndex(log, x)
  {
    if ids != [] {
      var p := VictimIsLeast(st.bodies, ids);
      var v := Victim(st.bodies, ids);
      forall x | x in ids && x != v
        ensures LastIndex(log, v) < LastIndex(log, x)
      {
        assert log[LastIndex(log, v)] == v && log[LastIndex(log, x)] == x;
      }
    }
  }

  // ---------------------------------------------------------------- recency after a restore

  ghost function AddAll(o: Options, base: State, rs: seq<Request>): (st: State)
    requires Inv(o, base)
    ensures Inv(o, st) && CountsFit(st)
  {
    if rs == [] then
      InvCountsFit(o, base);
      base
    else
      var st := AddAll(o, base, rs[..|rs| - 1]);
      var r := rs[|rs| - 1];
      AddKeepsInv(o, st, r);
      InvCountsFit(o, Add(o, st, r).0);
      Add(o, st, r).0
  }

  ghost function TouchesFrom(o: Options, base: State, rs: seq<Request>): (log: seq<Id>)
    requires Inv(o, base)
    ensures |log| == |rs|
  {
    if rs == [] then []
    else
      var n := |rs| - 1;
      TouchesFrom(o, base, rs[..n]) + [Add(o, AddAll(o, base, rs[..n]), rs[n]).1.id]
  }

  /** Recency `0` is both "never used since the restore" and "used at tick 0". */
  ghost predicate RecencyFrom(start: nat, log: seq<Id>, st: State) {
    && st.tick == start + |log|
    && (forall id | id in log :: id <= st.counter)
    && forall id | id in st.bodies :: st.bodies[id].lastUsed == if id in log then start + LastIndex(log, id) else 0
  }

  lemma RecencyOneMore(o: Options, st: State, r: Request, st': State, res: AddResult, start: nat, log: seq<Id>)
    requires AddEffect(o, st, r, st', res) && RecencyFrom(start, log, st)
    requires forall id | id in st.bodies :: id <= st.counter
    ensures RecencyFrom(start, log + [res.id], st')
  {
    var log' := log + [res.id];
    assert log'[..|log|] == log;
    forall id | id in st'.bodies && id != res.id
      ensures id in log' <==> id in log
      ensures id in log ==> LastIndex(log', id) == LastIndex(log, id)
    {
    }
  }

  lemma {:induction false} RecencySince(o: Options, base: State, rs: seq<Request>)
    requires Inv(o, base) && forall id | id in base.bodies :: base.bodies[id].lastUsed == 0
    ensures RecencyFrom(base.tick, TouchesFrom(o, base, rs), AddAll(o, base, rs))
  {
    if rs != [] {
      var n := |rs| - 1;
      var st := AddAll(o, base, rs[..n]);
      RecencySince(o, base, rs[..n]);
      AddHasEffect(o, st, rs[n]);
      RecencyOneMore(o, st, rs[n], Add(o, st, rs[n]).0, Add(o, st, rs[n]).1, base.tick, TouchesFrom(o, base, rs[..n]));
    }
  }

  /** 0 for a cluster unused since the restore, else the number of its latest line. */
  ghost function Age(log: seq<Id>, id: Id): nat {
    if id in log then LastIndex(log, id) + 1 else 0
  }

  /** `v` is used no later than any of `ids`. */
  ghost predicate Oldest(log: seq<Id>, ids: seq<Id>, v: Id) {
    forall x | x in ids :: Age(log, v) <= Age(log, x)
  }

  /** The clock stood at 0, some cluster of the leaf is unused, and before every unused one in leaf order stands the
      cluster of the first line, not used again. */
  ghost predicate FirstUseLooksUnused(start: nat, log: seq<Id>, ids: seq<Id>) {
    && start == 0
    && (exists x :: x in ids && x !in log)
    && exists p ::
         && 0 <= p < |ids| && ids[p] in log && LastIndex(log, ids[p]) == 0
         && forall j | 0 <= j < p :: ids[j] in log
  }

  lemma RecencyTellsAge(st: State, start: nat, log: seq<Id>, x: Id, y: Id)
    requires RecencyFrom(start, log, st) && x in st.bodies && y in st.bodies
    requires Recency(st.bodies, x) <= Recency(st.bodies, y)
    ensures Age(log, x) <= Age(log, y) || (start == 0 && x in log && LastIndex(log, x) == 0 && y !in log)
  {
  }

  lemma VictimIsOldest(st: State, start: nat, log: seq<Id>, ids: seq<Id>)
    requires RecencyFrom(start, log, st) && ids != [] && forall x | x in ids :: x in st.bodies
    ensures Oldest(log, ids, Victim(st.bodies, ids)) <==> !FirstUseLooksUnused(start, log, ids)
  {
    var p := VictimIsLeast(st.bodies, ids);
    var v := ids[p];
    if FirstUseLooksUnused(start, log, ids) {
      var q :| 0 <= q < |ids| && ids[q] in log && LastIndex(log, ids[q]) == 0 && forall j | 0 <= j < q :: ids[j] in log;
      assert Recency(st.bodies, ids[q]) == 0;
      assert p <= q && v in log && LastIndex(log, v) == 0;
      var x :| x in ids && x !in log;
      assert Age(log, x) < Age(log, v);
    } else {
      forall x | x in ids
        ensures Age(log, v) <= Age(log, x)
      {
        var i :| 0 <= i < |ids| && ids[i] == x;
        RecencyTellsAge(st, start, log, v, x);
        assert Recency(st.bodies, v) == 0 ==> forall j | 0 <= j < p :: ids[j] in log;
      }
    }
  }

  /** The state after restoring a snapshot of some miner. */
  ghost function Restored(o: Options, into: State, snap: Snapshot): (st: State)
    requires o.Valid() && WellNumbered(snap)
    ensures Inv(o, st) && st.tick == into.tick && forall id | id in st.bodies :: st.bodies[id].lastUsed == 0
  {
    RestoreEstablishesInv(o, into, snap);
    ReplayKeepsInv(o, into.tick, snap, |snap.clusters|);
    assert snap.clusters[..|snap.clusters|] == snap.clusters;
    Restore(o, into, snap)
  }

  /** After a restore and any lines, the cluster evicted from a full leaf is the one least recently used since the
      restore, except in exactly one case, told by the clock, the lines so far and the order of the leaf. */
  lemma LruAfterRestore(o: Options, into: State, snap: Snapshot, rs: seq<Request>, r: Request)
    requires o.Valid() && WellNumbered(snap)
    requires var st := AddAll(o, Restored(o, into, snap), rs);
             !Reaches(o, ScanLeaf(o, st, r.tokens)) && |LeafIds(st, KeyOf(o, r.tokens))| == o.maxClustersPerLeaf
    ensures var st := AddAll(o, Restored(o, into, snap), rs);
            var log := TouchesFrom(o, Restored(o, into, snap), rs);
            var ids := LeafIds(st, KeyOf(o, r.tokens));
            exists v ::
              && v in ids && st.bodies.Keys - Add(o, st, r).0.bodies.Keys == {v}
              && (Oldest(log, ids, v) <==> !FirstUseLooksUnused(into.tick, log, ids))
  {
    hide ScanLeaf, Reaches, Create, KeyOf, RecencyFrom, Age, Oldest, FirstUseLooksUnused;
    var base := Restored(o, into, snap);
    var st := AddAll(o, base, rs);
    var ids := LeafIds(st, KeyOf(o, r.tokens));
    RecencySince(o, base, rs);
    WhoIsEvicted(o, st, r);
    VictimIsOldest(st, into.tick, TouchesFrom(o, base, rs), ids);
    assert Victim(st.bodies, ids) in ids;
  }

  ghost function Word(text: string): seq<Token> {
    [Token(text, None, None)]
  }

  /** A leaf cap of 2, no descent keys, and only identical lines match. */
  const PAIR: Options := Options(1.0, 2, 2, false, "*", [], [], false, s => s)

  const PAIR_LEAF: LeafKey := LeafKey(1, [])

  ghost function PairSnapshot(): Snapshot {
    Snapshot(2, [ClusterRecord(1, Word("a"), 1, EVENT_UNSET, 0, None, []),
                 ClusterRecord(2, Word("b"), 1, EVENT_UNSET, 0, None, [])])
  }

  /** A leaf holding clusters 1 and 2, both of recency 0. */
  ghost predicate IsPair(st: State) {
    && Inv(PAIR, st) && st.leaves.Keys == {PAIR_LEAF} && st.leaves[PAIR_LEAF] == [1, 2]
    && st.bodies.Keys == {1, 2} && st.counter == 2
    && st.bodies[1].tokens == Word("a") && st.bodies[2].tokens == Word("b")
    && st.bodies[1].lastUsed == 0 && st.bodies[2].lastUsed == 0
  }

  lemma PairKey(text: string)
    ensures KeyOf(PAIR, Word(text)) == PAIR_LEAF
  {
    assert DescentKeys(PAIR, Word(text)) == [];
  }

  lemma InsertIntoPair(st: State, b: Body)
    requires |b.tokens| == 1 && |LeafIds(st, PAIR_LEAF)| < 2
    ensures InsertExisting(PAIR, st, b)
         == State(st.leaves[PAIR_LEAF := LeafIds(st, PAIR_LEAF) + [b.id]], st.bodies[b.id := b], st.counter, st.tick)
  {
    assert DescentKeys(PAIR, b.tokens) == [];
  }

  lemma PairRestored()
    ensures WellNumbered(PairSnapshot()) && IsPair(Restore(PAIR, EMPTY_STATE, PairSnapshot()))
    ensures Restore(PAIR, EMPTY_STATE, PairSnapshot()).tick == 0
  {
    hide InsertExisting;
    var cs := PairSnapshot().clusters;
    var start := State(map[], map[], 2, 0);
    RestoreEstablishesInv(PAIR, EMPTY_STATE, PairSnapshot());
    assert cs[..1] == [cs[0]] && cs[..1][..0] == [];
    assert Replay(PAIR, start, []) == start;
    InsertIntoPair(start, BodyOf(cs[0]));
    InsertIntoPair(Replay(PAIR, start, cs[..1]), BodyOf(cs[1]));
  }

  lemma PairScan(st: State, text: string)
    requires IsPair(st)
    ensures text == "a" ==> ScanLeaf(PAIR, st, Word(text)) == Some(Best(1, 1.0))
    ensures text == "c" ==> !Reaches(PAIR, ScanLeaf(PAIR, st, Word(text)))
  {
    hide Similarity, Inv;
    PairKey(text);
    SimilarityRange(Word("a"), Word(text), "*");
    SimilarityRange(Word("b"), Word(text), "*");
    assert Covers(Word("a"), Word("a"), "*");
    assert !Agrees(Word("a")[0], Word("c")[0], "*") && !Agrees(Word("b")[0], Word("c")[0], "*");
    if text == "a" {
      FirstBestIsBestMatch(st.bodies, [1, 2], Word(text), "*", 0);
    }
    if text == "c" && ScanLeaf(PAIR, st, Word(text)).Some? {
      BestIsAmong(st.bodies, [1, 2], Word(text), "*");
    }
  }

  /** A line of one letter is one token. */
  lemma OneLetterLine(c: char)
    requires !IsWhitespace(c)
    ensures TokensOf(PAIR, [c]) == Word([c])
  {
    SplitFirstPiece([c], []);
    assert [c] + [] == [c];
    SegmentsWithoutDelimiter([c], None, []);
    assert SplitWhitespace([c]) == [[c]] && [[c]][1..] == [];
    assert PathTokens([c], []) == Word([c]);
    assert FlattenPieces([[c]], []) == Word([c]) + FlattenPieces([], []);
    assert SplitRecord(PAIR, [c]).0 == [c];
  }

  lemma PairUsed(st: State)
    requires IsPair(st) && CountsFit(st) && st.tick == 0
    ensures var a := Request(Word("a"), None, None, None);
            Add(PAIR, st, a).1 == AddResult(1, NoChange) && IsPair(Add(PAIR, st, a).0)
  {
    hide ScanLeaf, KeyOf, LeavesOk, BodiesOk, Create, Generalize;
    var a := Request(Word("a"), None, None, None);
    PairScan(st, "a");
    AddKeepsInv(PAIR, st, a);
    GeneralizeIsMoreGeneral(Word("a"), Word("a"), "*");
    assert Covers(Word("a"), Word("a"), "*");
    assert Add(PAIR, st, a).0.bodies[1] == Matched(st.bodies[1], a, 0, "*");
  }

  lemma PairEvicts(st: State)
    requires IsPair(st) && CountsFit(st)
    ensures var c := Request(Word("c"), None, None, None);
            1 !in Add(PAIR, st, c).0.bodies && 2 in Add(PAIR, st, c).0.bodies
  {
    hide ScanLeaf, KeyOf, LeavesOk, BodiesOk, Create;
    var c := Request(Word("c"), None, None, None);
    PairScan(st, "c");
    PairKey("c");
    WhoIsEvicted(PAIR, st, c);
    assert Victim(st.bodies, [1, 2]) == 1 by {
      assert [1, 2][..1] == [1];
    }
    assert st.bodies.Keys - Add(PAIR, st, c).0.bodies.Keys == {1};
    assert 2 in st.bodies.Keys && 2 !in st.bodies.Keys - Add(PAIR, st, c).0.bodies.Keys;
  }

  /** The exception is real: restore clusters `a` and `b` into a fresh miner, match `a` once, and the next new
      line evicts `a` and keeps `b`, which no line has used. */
  lemma UsedClusterGoesFirst()
    ensures TokensOf(PAIR, "a") == Word("a") && TokensOf(PAIR, "c") == Word("c")
    ensures var st := Restore(PAIR, EMPTY_STATE, PairSnapshot());
            var a, c := Request(Word("a"), None, None, None), Request(Word("c"), None, None, None);
            && Inv(PAIR, st) && CountsFit(st)
            && Add(PAIR, st, a).1 == AddResult(1, NoChange)
            && CountsFit(Add(PAIR, st, a).0)
            && 1 !in Add(PAIR, Add(PAIR, st, a).0, c).0.bodies
            && 2 in Add(PAIR, Add(PAIR, st, a).0, c).0.bodies
  {
    OneLetterLine('a');
    OneLetterLine('c');
    hide Restore, Add, LeavesOk, BodiesOk, CountsFit, TokensOf;
    var st := Restore(PAIR, EMPTY_STATE, PairSnapshot());
    PairRestored();
    InvCountsFit(PAIR, st);
    PairUsed(st);
    InvCountsFit(PAIR, Add(PAIR, st, Request(Word("a"), None, None, None)).0);
    PairEvicts(Add(PAIR, st, Request(Word("a"), None, None, None)).0);
  }

  // ---------------------------------------------------------------- event windows and members over a run

  ghost function EventsIn(o: Options, ops: seq<Op>, id: Id): set<nat>
    requires o.Valid() && AddsOnly(ops)
  {
    if ops == [] then {}
    else
      var n := |ops| - 1;
      EventsIn(o, ops[..n], id) + if Touches(o, ops)[n] == id then EventsOf(ops[n].event) else {}
  }

  ghost function LabelsIn(o: Options, ops: seq<Op>, id: Id): set<string>
    requires o.Valid() && AddsOnly(ops)
  {
    if ops == [] then {}
    else
      var n := |ops| - 1;
      LabelsIn(o, ops[..n], id) + if Touches(o, ops)[n] == id then LabelsOf(ops[n].member) else {}
  }

  lemma {:induction false} NothingBeforeCreation(o: Options, ops: seq<Op>, id: Id)
    requires o.Valid() && AddsOnly(ops) && id !in Touches(o, ops)
    ensures EventsIn(o, ops, id) == {} && LabelsIn(o, ops, id) == {}
  {
    if ops != [] {
      var n := |ops| - 1;
      assert Touches(o, ops)[n] in Touches(o, ops);
      assert forall x | x in Touches(o, ops[..n]) :: x in Touches(o, ops);
      NothingBeforeCreation(o, ops[..n], id);
    }
  }

  lemma AddRemembers(o: Options, st: State, r: Request, st': State, res: AddResult, id: Id,
                     events: set<nat>, labels: set<string>)
    requires AddEffect(o, st, r, st', res) && id in st'.bodies
    requires if id == res.id && res.update == Created then events == {} && labels == {}
             else && id in st.bodies
                  && WindowOf(st.bodies[id], events, EVENT_UNSET, 0) && MembersOf(st.bodies[id], labels, [])
    ensures WindowOf(st'.bodies[id], events + if id == res.id then EventsOf(r.event) else {}, EVENT_UNSET, 0)
    ensures MembersOf(st'.bodies[id], labels + if id == res.id then LabelsOf(r.member) else {}, [])
  {
    hide WindowOf, MembersOf, EventsOf, LabelsOf, NewBody, Matched;
    assert {} + EventsOf(r.event) == EventsOf(r.event) && {} + LabelsOf(r.member) == LabelsOf(r.member);
    assert events + {} == events && labels + {} == labels;
    if id == res.id && res.update == Created {
      NewObserves(id, r, st.tick);
    } else if id == res.id {
      MatchObserves(st.bodies[id], r, st.tick, o.wildcard, events, EVENT_UNSET, 0, labels, []);
    }
  }

  /** In every add-only run the event window of a live cluster spans exactly the events of its lines, and its members
      are exactly their labels, each once. */
  lemma {:induction false} ClustersRemember(o: Options, ops: seq<Op>, id: Id)
    requires o.Valid() && AddsOnly(ops) && id in Run(o, ops).bodies
    ensures WindowOf(Run(o, ops).bodies[id], EventsIn(o, ops, id), EVENT_UNSET, 0)
    ensures MembersOf(Run(o, ops).bodies[id], LabelsIn(o, ops, id), [])
  {
    hide WindowOf, MembersOf, Add, AddEffect, Records, EventsOf, LabelsOf;
    var n := |ops| - 1;
    var st := Run(o, ops[..n]);
    var r := OpRequest(o, ops[n]);
    var (st', res) := Add(o, st, r);
    assert Run(o, ops) == st';
    AddHasEffect(o, st, r);
    CreatedIsNew(o, st, r, st', res, id);
    if id == res.id && res.update == Created {
      RecencyAndSize(o, ops[..n]);
      UnknownIsUntouched(Touches(o, ops[..n]), st, res.id);
      NothingBeforeCreation(o, ops[..n], id);
    } else {
      ClustersRemember(o, ops[..n], id);
    }
    AddRemembers(o, st, r, st', res, id, EventsIn(o, ops[..n], id), LabelsIn(o, ops[..n], id));
    assert Touches(o, ops)[n] == res.id;
  }

  lemma CreatedIsNew(o: Options, st: State, r: Request, st': State, res: AddResult, id: Id)
    requires AddEffect(o, st, r, st', res) && id in st'.bodies
    ensures id == res.id && res.update == Created ==> id > st.counter
    ensures !(id == res.id && res.update == Created) ==> id in st.bodies
  {
  }

  lemma UnknownIsUntouched(log: seq<Id>, st: State, id: Id)
    requires Records(log, st) && id > st.counter
    ensures id !in log
  {
  }

  // ---------------------------------------------------------------- templates over a run

  /** The token vectors of the lines assigned to `id`, in order. */
  ghost function LinesOf(o: Options, ops: seq<Op>, id: Id): seq<seq<Token>>
    requires o.Valid() && AddsOnly(ops)
  {
    if ops == [] then []
    else
      var n := |ops| - 1;
      LinesOf(o, ops[..n], id) + if Touches(o, ops)[n] == id then [OpRequest(o, ops[n]).tokens] else []
  }

  lemma {:induction false} NoLinesBeforeCreation(o: Options, ops: seq<Op>, id: Id)
    requires o.Valid() && AddsOnly(ops) && id !in Touches(o, ops)
    ensures LinesOf(o, ops, id) == []
  {
    if ops != [] {
      var n := |ops| - 1;
      assert Touches(o, ops)[n] in Touches(o, ops);
      assert forall x | x in Touches(o, ops[..n]) :: x in Touches(o, ops);
      NoLinesBeforeCreation(o, ops[..n], id);
    }
  }

  /** `t` is the generalization of `lines`, one after the other, starting from the first. */
  ghost predicate FoldOf(t: Template, lines: seq<seq<Token>>, w: string) {
    && lines != []
    && (forall i | 0 <= i < |lines| :: |lines[i]| == |lines[0]|)
    && t == FoldGeneralize(lines[0], lines[1..], w)
  }

  lemma FoldOneMore(t: Template, lines: seq<seq<Token>>, line: seq<Token>, w: string)
    requires FoldOf(t, lines, w) && |line| == |t|
    ensures FoldOf(Generalize(t, line, w), lines + [line], w)
  {
    assert (lines + [line])[1..] == lines[1..] + [line];
    assert (lines[1..] + [line])[..|lines| - 1] == lines[1..];
  }

  lemma FoldStep(o: Options, st: State, r: Request, st': State, res: AddResult, id: Id, before: seq<seq<Token>>)
    requires AddEffect(o, st, r, st', res) && id in st'.bodies
    requires if id == res.id && res.update == Created then before == []
             else id in st.bodies && FoldOf(st.bodies[id].tokens, before, o.wildcard)
    ensures FoldOf(st'.bodies[id].tokens, before + if id == res.id then [r.tokens] else [], o.wildcard)
  {
    if id == res.id && res.update == Created {
      assert [r.tokens][1..] == [];
      assert before + [r.tokens] == [r.tokens];
    } else if id == res.id {
      FoldOneMore(st.bodies[id].tokens, before, r.tokens, o.wildcard);
    } else {
      assert before + [] == before;
    }
  }

  lemma {:induction false} TemplatesAreFolds(o: Options, ops: seq<Op>, id: Id)
    requires o.Valid() && AddsOnly(ops) && id in Run(o, ops).bodies
    ensures FoldOf(Run(o, ops).bodies[id].tokens, LinesOf(o, ops, id), o.wildcard)
  {
    var n := |ops| - 1;
    var st := Run(o, ops[..n]);
    var r := OpRequest(o, ops[n]);
    var before := LinesOf(o, ops[..n], id);
    var (st', res) := Add(o, st, r);
    assert Run(o, ops) == st';
    AddHasEffect(o, st, r);
    if id == res.id && res.update == Created {
      RecencyAndSize(o, ops[..n]);
      NoLinesBeforeCreation(o, ops[..n], id);
    } else {
      TemplatesAreFolds(o, ops[..n], id);
    }
    FoldStep(o, st, r, st', res, id, before);
    assert Touches(o, ops)[n] == res.id;
  }

  /** In every add-only run each live template is the least general template of the lines assigned to it,
      with the delimiter flags of the line that created it. */
  lemma TemplatesAreLeastGeneral(o: Options, ops: seq<Op>, id: Id)
    requires o.Valid() && AddsOnly(ops) && id in Run(o, ops).bodies
    ensures var lines := LinesOf(o, ops, id);
            && lines != []
            && LeastGeneral(Run(o, ops).bodies[id].tokens, lines[0], LineSet(lines[0], lines[1..]), o.wildcard)
  {
    TemplatesAreFolds(o, ops, id);
    var lines := LinesOf(o, ops, id);
    FoldIsLeastGeneral(lines[0], lines[1..], o.wildcard);
  }

  // ---------------------------------------------------------------- templates read back

  /** Snapshots hold templates that a miner with these delimiters can have made. */
  ghost predicate LoadsWellFormed(o: Options, ops: seq<Op>) {
    forall i, j | 0 <= i < |ops| && ops[i].Load? && 0 <= j < |ops[i].snap.clusters| ::
      AllWellFormed(ops[i].snap.clusters[j].tokens, o.ActiveDelimiters())
  }

  lemma RestoreIsWellFormed(o: Options, st: State, snap: Snapshot)
    requires o.Valid() && WellNumbered(snap)
    requires forall j | 0 <= j < |snap.clusters| :: AllWellFormed(snap.clusters[j].tokens, o.ActiveDelimiters())
    ensures TemplatesWellFormed(o, Restore(o, st, snap))
  {
    assert snap.clusters[..|snap.clusters|] == snap.clusters;
    ReplayKeepsInv(o, st.tick, snap, |snap.clusters|);
  }

  lemma {:induction false} TemplatesStayWellFormed(o: Options, ops: seq<Op>)
    requires o.Valid() && Legal(ops) && LoadsWellFormed(o, ops) && PrintableWildcard(o)
    ensures TemplatesWellFormed(o, Run(o, ops))
  {
    if ops != [] {
      var n := |ops| - 1;
      TemplatesStayWellFormed(o, ops[..n]);
      match ops[n]
      case AddLine(line, _, _) =>
        TokenizeWellFormed(SplitRecord(o, line).0, o.ActiveDelimiters());
        AddKeepsWellFormed(o, Run(o, ops[..n]), OpRequest(o, ops[n]));
      case Load(snap) =>
        RestoreIsWellFormed(o, Run(o, ops[..n]), snap);
    }
  }

  /** In every reachable state the printed template of any live cluster finds a cluster at similarity 1 (see
      `TemplateFindsItself` for the conditions). */
  lemma ReachableTemplateFindsItself(o: Options, ops: seq<Op>, id: Id)
    requires o.Valid() && Legal(ops) && LoadsWellFormed(o, ops)
    requires PrintableWildcard(o) && forall s :: o.mask(s) == s
    requires id in Run(o, ops).bodies && NoClash(Run(o, ops).bodies[id].tokens, o.ActiveDelimiters())
    ensures var st := Run(o, ops);
            var line := TokensOf(o, Render(st.bodies[id].tokens));
            && MatchOnly(o, st, line).Some?
            && MatchOnly(o, st, line).value in st.bodies
            && Sim(st.bodies, MatchOnly(o, st, line).value, line, o.wildcard) == 1.0
  {
    TemplatesStayWellFormed(o, ops);
    TemplateFindsItself(o, Run(o, ops), id);
  }
}
