/** A run in which a line is counted on a cluster that has been evicted between the end of the scan that found it
    and the match (crates/logdrain/src/miner.rs:176-188 and 239-274). */
module ProtocolEvictedMatch {
  import opened Wrappers
  import opened Tokenizer
  import opened Options
  import opened Templates
  import opened Index
  import II = IndexInvariant
  import opened Protocol
  import opened ProtocolLocks
  import opened ProtocolIndex
  import opened ProtocolSafety
  import opened ProtocolSequential
  import opened ProtocolProgress
  import opened ProtocolTotals

  /** One cluster to a leaf, no descent keys, and only identical lines match. */
  const SINGLE: Options := Options(1.0, 2, 1, false, "*", [], [], false, s => s)

  const SINGLE_LEAF: LeafKey := LeafKey(1, [])

  const SINGLE_PARAMS: Params := Params(SINGLE, id => 0)

  function AddOf(text: string): Request {
    Request([Token(text, None, None)], None, None, None)
  }

  /** A miner that holds one cluster, made from the line `a`. */
  ghost function Holding(): State
  {
    State(map[SINGLE_LEAF := [1]], map[1 := NewBody(1, AddOf("a"), 0)], 1, 1)
  }

  lemma SingleKey(text: string)
    ensures KeyOf(SINGLE, AddOf(text).tokens) == SINGLE_LEAF
  {
    assert DescentKeys(SINGLE, AddOf(text).tokens) == [];
  }

  lemma HoldingIsSound()
    ensures II.Inv(SINGLE, Holding()) && CountsFit(Holding())
  {
    SingleKey("a");
  }

  lemma HoldingScan(text: string)
    ensures text == "a" ==> ScanLeaf(SINGLE, Holding(), AddOf(text).tokens) == Some(Best(1, 1.0))
    ensures text == "c" ==> !Reaches(SINGLE, ScanLeaf(SINGLE, Holding(), AddOf(text).tokens))
  {
    hide Similarity;
    SingleKey(text);
    var a, line := AddOf("a").tokens, AddOf(text).tokens;
    SimilarityRange(a, line, "*");
    assert text == "a" ==> Covers(a, line, "*");
    assert text == "c" ==> !Agrees(a[0], line[0], "*");
    assert [1][..0] == [];
    assert BestMatch(Holding().bodies, [], line, "*").None?;
    assert BestMatch(Holding().bodies, [1], line, "*") == Some(Best(1, Similarity(a, line, "*")));
  }

  lemma HoldingAdds()
    requires CountsFit(Holding())
    ensures Add(SINGLE, Holding(), AddOf("a")).1 == AddResult(1, NoChange)
    ensures Add(SINGLE, Holding(), AddOf("c")).0.bodies.Keys == {2}
  {
    hide ScanLeaf;
    HoldingScan("a");
    HoldingScan("c");
    SingleKey("c");
    assert !WouldGeneralize(AddOf("a").tokens, AddOf("a").tokens, "*");
    assert Victim(Create(SINGLE, Holding(), AddOf("c")).bodies, [1]) == 1;
  }

  lemma HoldingIsReached()
    ensures CountsFit(EMPTY_STATE) && Holding() == Add(SINGLE, EMPTY_STATE, AddOf("a")).0
  {
    SingleKey("a");
    assert LeafIds(EMPTY_STATE, SINGLE_LEAF) == [];
    assert [] + [1] == [1];
  }

  // ---------------------------------------------------------------- the run

  /** An undisturbed operation takes its next step. */
  lemma StepsOn(p: Params, st: State, ws: seq<World>, t: OpId, choice: nat)
    returns (more: seq<World>)
    requires p.options.Valid() && ws != [] && Behavior(p, st, ws) && Undisturbed(p, LastOf(ws), t)
    requires !Finished(LastOf(ws).ops[t]) && Ready(p, LastOf(ws).mem, LastOf(ws).ops[t], choice)
    ensures more != [] && Behavior(p, st, more)
    ensures var w := LastOf(ws);
            LastOf(more) == World(Effect(p, w.mem, w.ops[t], choice), w.ops[t := Advance(p, w.mem, w.ops[t], choice)])
  {
    hide Effect, Advance, Ready, Held, Wanted, Behavior;
    assert Enabled(p, LastOf(ws), t, choice);
    Continues(p, st, ws, Move(p, LastOf(ws), t, choice));
    more := ws + [Move(p, LastOf(ws), t, choice)];
  }

  lemma Begins(p: Params, st: State, ws: seq<World>, t: OpId, r: Request)
    returns (more: seq<World>)
    requires p.options.Valid() && ws != [] && Behavior(p, st, ws) && t !in LastOf(ws).ops
    ensures more != [] && Behavior(p, st, more) && LastOf(more) == Invoke(LastOf(ws), t, Adding(r))
  {
    hide Behavior, Invoke;
    Continues(p, st, ws, Invoke(LastOf(ws), t, Adding(r)));
    more := ws + [Invoke(LastOf(ws), t, Adding(r))];
  }

  lemma TakesItsBody(p: Params, st: State, ws: seq<World>, t: OpId, id: Id)
    returns (more: seq<World>)
    requires p.options.Valid() && ws != [] && Behavior(p, st, ws) && Undisturbed(p, LastOf(ws), t)
    requires LastOf(ws).ops[t].point == Assigned(id) && LastOf(ws).ops[t].job.Adding?
    ensures more != [] && Behavior(p, st, more) && LastOf(more).mem == LastOf(ws).mem
    ensures LastOf(more).ops == LastOf(ws).ops[t := LastOf(ws).ops[t].(point := Touching(id))]
  {
    hide Behavior, Undisturbed, KeyOf;
    more := StepsOn(p, st, ws, t, 0);
  }

  lemma TouchesItsBody(p: Params, st: State, ws: seq<World>, t: OpId, id: Id)
    returns (more: seq<World>)
    requires p.options.Valid() && ws != [] && Behavior(p, st, ws) && Undisturbed(p, LastOf(ws), t)
    requires LastOf(ws).ops[t].point == Touching(id) && LastOf(ws).ops[t].job.Adding? && id in LastOf(ws).mem.bodies
    ensures more != [] && Behavior(p, st, more)
    ensures LastOf(more).ops == LastOf(ws).ops[t := LastOf(ws).ops[t].(point := Judging(id))]
    ensures LastOf(more).mem.live == LastOf(ws).mem.live && id in LastOf(more).mem.bodies
    ensures LastOf(more).mem.bodies[id].tokens == LastOf(ws).mem.bodies[id].tokens
  {
    TouchKeepsTokens(LastOf(ws).mem.bodies[id], 0, LastOf(ws).ops[t].job.request.event);
    hide Behavior, Undisturbed, KeyOf, Observed, Touched;
    more := StepsOn(p, st, ws, t, 0);
  }

  lemma JudgesItsBody(p: Params, st: State, ws: seq<World>, t: OpId, id: Id)
    returns (more: seq<World>)
    requires p.options.Valid() && ws != [] && Behavior(p, st, ws) && Undisturbed(p, LastOf(ws), t)
    requires LastOf(ws).ops[t].point == Judging(id) && LastOf(ws).ops[t].job.Adding? && id in LastOf(ws).mem.bodies
    requires LastOf(ws).ops[t].job.request.member.None?
    requires !WouldGeneralize(LastOf(ws).mem.bodies[id].tokens, Line(LastOf(ws).ops[t]), p.options.wildcard)
    ensures more != [] && Behavior(p, st, more) && LastOf(more).mem == LastOf(ws).mem
    ensures t in LastOf(more).ops && LastOf(more).ops[t].point == Added(AddResult(id, NoChange))
  {
    hide Behavior, Undisturbed, KeyOf, WouldGeneralize;
    more := StepsOn(p, st, ws, t, 0);
  }

  lemma StaysUndisturbed(p: Params, w: World, w': World, t: OpId)
    requires Undisturbed(p, w, t) && t in w'.ops && w'.ops == w.ops[t := w'.ops[t]]
    ensures Undisturbed(p, w', t)
  {
    hide Held;
  }

  /** An assigned operation whose line is covered applies its match: three steps, and no change of the template
      or the set of live ids. */
  lemma AppliesItsMatch(p: Params, st: State, ws: seq<World>, t: OpId, id: Id)
    returns (more: seq<World>)
    requires p.options.Valid() && ws != [] && Behavior(p, st, ws) && Undisturbed(p, LastOf(ws), t)
    requires LastOf(ws).ops[t].point == Assigned(id) && id in LastOf(ws).mem.bodies
    requires LastOf(ws).ops[t].job.Adding? && LastOf(ws).ops[t].job.request.member.None?
    requires !WouldGeneralize(LastOf(ws).mem.bodies[id].tokens, Line(LastOf(ws).ops[t]), p.options.wildcard)
    ensures more != [] && Behavior(p, st, more) && t in LastOf(more).ops
    ensures LastOf(more).ops[t].point == Added(AddResult(id, NoChange)) && LastOf(more).mem.live == LastOf(ws).mem.live
  {
    hide Behavior, WouldGeneralize, Undisturbed;
    assert t in LastOf(ws).ops by { UndisturbedIsThere(p, LastOf(ws), t); }
    var a := TakesItsBody(p, st, ws, t, id);
    StaysUndisturbed(p, LastOf(ws), LastOf(a), t);
    var b := TouchesItsBody(p, st, a, t, id);
    StaysUndisturbed(p, LastOf(a), LastOf(b), t);
    more := JudgesItsBody(p, st, b, t, id);
  }

  lemma UndisturbedIsThere(p: Params, w: World, t: OpId)
    requires Undisturbed(p, w, t)
    ensures t in w.ops
  {
  }

  /** With `a` in the index, an add of `a` is assigned to cluster 1 and stopped there. */
  lemma FirstIsAssigned() returns (ws: seq<World>)
    ensures ws != [] && Behavior(SINGLE_PARAMS, Holding(), ws) && LastOf(ws).mem == Rest(Holding()).mem
    ensures LastOf(ws).ops.Keys == {0}
    ensures LastOf(ws).ops[0].job == Adding(AddOf("a")) && LastOf(ws).ops[0].point == Assigned(1)
  {
    hide Behavior, OnTrack, Add, ScanLeaf;
    var p, st, r := SINGLE_PARAMS, Holding(), AddOf("a");
    HoldingIsSound();
    HoldingAdds();
    HoldingScan("a");
    RestBehaves(p, st);
    ws := Begins(p, st, [Rest(st)], 0, r);
    StartsOnTrack(p, st, r, 0);
    ws := RunsToItsEnd(p, st, r, 0, ws, true);
    EndsUnmatchedByCreating(p, st, r, LastOf(ws).mem, LastOf(ws).ops[0]);
    ShardIsThere();
  }

  lemma RestBehaves(p: Params, st: State)
    requires p.options.Valid()
    ensures Behavior(p, st, [Rest(st)])
  {
  }

  lemma ShardIsThere()
    ensures WithShard(Holding(), AddOf("a")) == Rest(Holding()).mem
  {
    assert SINGLE_LEAF in Holding().leaves;
    assert 1 in Rest(Holding()).mem.shards;
  }

  lemma EndsUnmatchedByCreating(p: Params, st: State, r: Request, m: Memory, op: Op)
    requires II.Inv(p.options, st) && CountsFit(st) && OnTrack(p, st, r, m, op)
    ensures Finished(op) && Unmatched(op.point) ==> Add(p.options, st, r).1.update.Created?
    ensures op.point.Assigned? ==> MatchesBest(p, st, r, op.point.id) && m == WithShard(st, r)
    ensures op.job == Adding(r)
  {
    hide Add, ScanLeaf;
  }

  /** Then an add of `c` runs to its end and evicts cluster 1. */
  lemma SecondEvicts() returns (ws: seq<World>)
    ensures ws != [] && Behavior(SINGLE_PARAMS, Holding(), ws)
    ensures LastOf(ws).ops.Keys == {0, 1} && Finished(LastOf(ws).ops[1])
    ensures LastOf(ws).ops[0].job == Adding(AddOf("a")) && LastOf(ws).ops[0].point == Assigned(1)
    ensures 1 !in LastOf(ws).mem.live
  {
    hide Behavior, OnTrack, Add, Held;
    var p, st, r := SINGLE_PARAMS, Holding(), AddOf("c");
    HoldingIsSound();
    HoldingAdds();
    ws := FirstIsAssigned();
    ws := Begins(p, st, ws, 1, r);
    StartsOnTrack(p, st, r, 1);
    AssignedHoldsNothing(p, LastOf(ws).ops[0]);
    ws := RunsToItsEnd(p, st, r, 1, ws, false);
    DeadIds(p, st, ws, r, 1);
  }

  lemma AssignedHoldsNothing(p: Params, op: Op)
    requires op.point.Assigned? || Finished(op)
    ensures Held(p, op) == {}
  {
  }

  lemma DeadIds(p: Params, st: State, ws: seq<World>, r: Request, t: OpId)
    requires II.Inv(p.options, st) && CountsFit(st) && ws != [] && Behavior(p, st, ws) && t in LastOf(ws).ops
    requires OnTrack(p, st, r, LastOf(ws).mem, LastOf(ws).ops[t]) && Finished(LastOf(ws).ops[t])
    ensures forall id | id in LastOf(ws).mem.live :: id in Add(p.options, st, r).0.bodies
  {
    hide Add, OpOk, Exclusion, OwnIds, Accounted, LeafOk, BodyOk, KeyOf, Behavior, Making, Applying;
    BehaviorKeepsInv(p, st, ws, |ws| - 1);
    LiveBodies(LastOf(ws).mem);
  }

  lemma LiveBodies(m: Memory)
    ensures forall id | id in m.live && id in m.bodies :: id in AsState(m).bodies
  {
  }

  lemma OneBodyCovers(p: Params, m: Memory)
    requires 1 in m.bodies && 1 in m.origin && m.origin[1] == AddOf("a").tokens
    requires MoreGeneral(m.origin[1], m.bodies[1].tokens, p.options.wildcard)
    ensures !WouldGeneralize(m.bodies[1].tokens, AddOf("a").tokens, p.options.wildcard)
  {
    GeneralizeIsMoreGeneral(m.bodies[1].tokens, AddOf("a").tokens, p.options.wildcard);
  }

  /** A returned id need not be live: with room for one cluster in the leaf, an add of `a` is assigned to cluster 1
      and releases the shard; an add of `c` evicts cluster 1; the first add then counts its line on it and returns
      it. `EvictionsOfALeaf` and `ReturnedIdsAreLive` say when this cannot happen. */
  lemma EvictedClusterIsReturned() returns (ws: seq<World>)
    ensures CountsFit(EMPTY_STATE) && Holding() == Add(SINGLE, EMPTY_STATE, AddOf("a")).0 && II.Inv(SINGLE, Holding())
    ensures ws != [] && Behavior(SINGLE_PARAMS, Holding(), ws)
    ensures 0 in LastOf(ws).ops && LastOf(ws).ops[0].point == Added(AddResult(1, NoChange))
    ensures 1 !in LastOf(ws).mem.live
  {
    hide Behavior, OpOk;
    var p, st := SINGLE_PARAMS, Holding();
    HoldingIsReached();
    HoldingIsSound();
    ws := SecondEvicts();
    var w := LastOf(ws);
    BehaviorKeepsInv(p, st, ws, |ws| - 1);
    InitialBodiesStay(p, st, ws, |ws| - 1);
    AssignedHoldsNothing(p, w.ops[1]);
    OneBodyCovers(p, w.mem);
    ws := AppliesItsMatch(p, st, ws, 0, 1);
  }
}
