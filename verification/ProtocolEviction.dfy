/** How many clusters of a leaf have been evicted, exactly, in every interleaving; when no assigned line can lose
    its cluster, and a run in which one does (crates/logdrain/src/miner.rs:176-206 and 278-292). */
module ProtocolEviction {
  import opened Rendering
  import opened Options
  import opened Index
  import II = IndexInvariant
  import opened IndexQueries
  import opened Protocol
  import opened ProtocolLocks
  import opened ProtocolIndex
  import opened ProtocolSafety
  import opened ProtocolCreation

  // ---------------------------------------------------------------- the balance of a leaf

  function EvictedFrom(p: Params, m: Memory, k: LeafKey): set<Id>
    requires p.options.Valid()
  {
    set id | id in m.evicted && id in m.bodies && KeyOf(p.options, m.bodies[id].tokens) == k
  }

  function CreatedIn(p: Params, w: World, k: LeafKey): set<OpId>
    requires p.options.Valid()
  {
    set t | t in w.ops && Filed(w.ops[t]) && KeyOf(p.options, Line(w.ops[t])) == k
  }

  /** The clusters of a leaf and the evicted ones are the initial and the created ones. */
  ghost predicate Balanced(p: Params, st: State, w: World, k: LeafKey)
    requires p.options.Valid()
  {
    |Ids(w.mem, k)| + |EvictedFrom(p, w.mem, k)| == |LeafIds(st, k)| + |CreatedIn(p, w, k)|
  }

  /** The operation has made room and has yet to file its cluster, or needed no room. */
  predicate Refilling(op: Op) {
    op.point.Removing? || op.point.RemovingHeld? || op.point.Filing?
  }

  /** A leaf that has lost a cluster is full, or one short while an operation is about to file. */
  ghost predicate FullSinceEviction(p: Params, w: World, k: LeafKey)
    requires p.options.Valid()
  {
    EvictedFrom(p, w.mem, k) != {} ==>
      || |Ids(w.mem, k)| == p.options.maxClustersPerLeaf
      || (&& |Ids(w.mem, k)| == p.options.maxClustersPerLeaf - 1
          && exists t :: t in w.ops && Refilling(w.ops[t]) && KeyOf(p.options, Line(w.ops[t])) == k)
  }

  predicate Evicts(op: Op) {
    op.point.Choosing? && op.point.todo == []
  }

  lemma StepLeafSize(p: Params, m: Memory, op: Op, choice: nat, k: LeafKey)
    requires p.options.Valid() && CanStep(p, m, op, choice)
    ensures var own := KeyOf(p.options, Line(op)) == k;
            |Ids(Effect(p, m, op, choice), k)|
            == |Ids(m, k)| + (if own && op.point.Filing? then 1 else 0) - (if own && Evicts(op) then 1 else 0)
    ensures Evicts(op) ==> choice in Ids(m, KeyOf(p.options, Line(op)))
  {
    hide KeyOf, SwapRemove, BodyOk, SeenOk, SeesLeaf, BelowAll, OwnOk, Rewritten, MatchOk, AddedOk, AnswerOk, ScanOk;
    var own := KeyOf(p.options, Line(op));
    if Evicts(op) {
      assert LeafOk(p, m, own);
      II.SwapRemoveContents(m.leaves[own], choice);
    }
  }

  lemma StepEvicted(p: Params, m: Memory, op: Op, choice: nat, k: LeafKey)
    requires p.options.Valid() && CanStep(p, m, op, choice)
    ensures EvictedFrom(p, Effect(p, m, op, choice), k)
         == EvictedFrom(p, m, k) + if Evicts(op) && KeyOf(p.options, Line(op)) == k then {choice} else {}
    ensures Evicts(op) ==> choice !in m.evicted
  {
    hide KeyOf, SwapRemove, BodyOk, SeenOk, SeesLeaf, BelowAll, OwnOk, Rewritten, MatchOk, AddedOk, AnswerOk, ScanOk;
    EffectGrows(p, m, op, choice);
    var own := KeyOf(p.options, Line(op));
    assert Evicts(op) ==> LeafOk(p, m, own);
  }

  lemma StepFiles(p: Params, m: Memory, op: Op, choice: nat)
    requires p.options.Valid() && CanStep(p, m, op, choice) && !Finished(op)
    ensures var op' := Advance(p, m, op, choice);
            && op'.job == op.job
            && (Filed(op') <==> op.point.Filing?)
            && (Evicts(op) ==> Refilling(op'))
            && (Refilling(op) ==> Refilling(op') || op.point.Filing?)
  {
    hide KeyOf, MemoryOk, SeenOk, SeesLeaf, BelowAll, OwnOk, MatchOk, AddedOk, AnswerOk, ScanOk;
    match op.point
    case Collecting(_, _) =>
    case Choosing(_, _, _) =>
    case Scanning(_, _, _, _) =>
    case _ =>
  }

  lemma MoveKeepsBalance(p: Params, st: State, w: World, t: OpId, choice: nat, k: LeafKey)
    requires Inv(p, w) && Enabled(p, w, t, choice) && Balanced(p, st, w, k)
    ensures Balanced(p, st, Move(p, w, t, choice), k)
  {
    hide Advance, Effect, OpOk, MemoryOk, Exclusion, Accounted, OwnIds, Ready, Held, Available, Wanted, KeyOf,
      EvictedFrom, CreatedIn, Ids;
    StepLeafSize(p, w.mem, w.ops[t], choice, k);
    StepEvicted(p, w.mem, w.ops[t], choice, k);
    EvictedAre(p, w.mem, k, choice);
    CreatedMove(p, w, t, choice, k);
  }

  lemma CreatedMove(p: Params, w: World, t: OpId, choice: nat, k: LeafKey)
    requires Inv(p, w) && Enabled(p, w, t, choice)
    ensures |CreatedIn(p, Move(p, w, t, choice), k)|
         == |CreatedIn(p, w, k)| + if w.ops[t].point.Filing? && KeyOf(p.options, Line(w.ops[t])) == k then 1 else 0
  {
    hide Advance, Effect, OpOk, MemoryOk, Exclusion, Accounted, OwnIds, Ready, Held, Available, Wanted, KeyOf;
    var w' := Move(p, w, t, choice);
    StepFiles(p, w.mem, w.ops[t], choice);
    if w.ops[t].point.Filing? && KeyOf(p.options, Line(w.ops[t])) == k {
      assert CreatedIn(p, w', k) == CreatedIn(p, w, k) + {t};
    } else {
      assert CreatedIn(p, w', k) == CreatedIn(p, w, k);
    }
  }

  lemma EvictedAre(p: Params, m: Memory, k: LeafKey, id: Id)
    requires p.options.Valid()
    ensures id in EvictedFrom(p, m, k) ==> id in m.evicted
  {
  }

  lemma MoveKeepsFull(p: Params, w: World, t: OpId, choice: nat, k: LeafKey)
    requires Inv(p, w) && Enabled(p, w, t, choice) && FullSinceEviction(p, w, k)
    ensures FullSinceEviction(p, Move(p, w, t, choice), k)
  {
    hide Advance, Effect, MemoryOk, Exclusion, Accounted, OwnIds, Ready, Held, Available, Wanted, KeyOf, EvictedFrom;
    var w' := Move(p, w, t, choice);
    StepLeafSize(p, w.mem, w.ops[t], choice, k);
    StepEvicted(p, w.mem, w.ops[t], choice, k);
    StepFiles(p, w.mem, w.ops[t], choice);
    SizesAtWork(p, w.mem, w.ops[t]);
    if u :| u in w.ops && u != t && Refilling(w.ops[u]) && KeyOf(p.options, Line(w.ops[u])) == k {
      assert w'.ops[u] == w.ops[u];
    }
    assert Refilling(w'.ops[t]) && KeyOf(p.options, Line(w.ops[t])) == k ==> w'.ops[t] == w'.ops[t];
  }

  /** What an operation knows of the size of its leaf. */
  lemma SizesAtWork(p: Params, m: Memory, op: Op)
    requires p.options.Valid() && OpOk(p, m, op) && MemoryOk(p, m)
    ensures var n := |Ids(m, KeyOf(p.options, Line(op)))|;
            && (op.point.Choosing? ==> n == p.options.maxClustersPerLeaf)
            && (Refilling(op) ==> n < p.options.maxClustersPerLeaf)
  {
    hide KeyOf, BodyOk, SeenOk, SeesLeaf, BelowAll, OwnOk;
    var k := KeyOf(p.options, Line(op));
    assert k in m.leaves ==> LeafOk(p, m, k);
  }

  lemma InvokeKeepsLeaf(p: Params, st: State, w: World, t: OpId, job: Job, k: LeafKey)
    requires p.options.Valid() && t !in w.ops && Balanced(p, st, w, k) && FullSinceEviction(p, w, k)
    ensures Balanced(p, st, Invoke(w, t, job), k) && FullSinceEviction(p, Invoke(w, t, job), k)
  {
    hide KeyOf, EvictedFrom, Ids;
    var w' := Invoke(w, t, job);
    assert CreatedIn(p, w', k) == CreatedIn(p, w, k);
    if u :| u in w.ops && Refilling(w.ops[u]) && KeyOf(p.options, Line(w.ops[u])) == k {
      assert w'.ops[u] == w.ops[u];
    }
  }

  lemma {:induction false} BehaviorKeepsLeaf(p: Params, st: State, ws: seq<World>, i: nat, k: LeafKey)
    requires II.Inv(p.options, st) && Behavior(p, st, ws) && i < |ws|
    ensures Balanced(p, st, ws[i], k) && FullSinceEviction(p, ws[i], k)
  {
    hide Inv, Enabled, Move, Invoke, Balanced, FullSinceEviction;
    if i == 0 {
      RestIsBalanced(p, st, k);
    } else {
      var w := ws[i - 1];
      BehaviorKeepsLeaf(p, st, ws, i - 1, k);
      BehaviorKeepsInv(p, st, ws, i - 1);
      assert Next(p, w, ws[i - 1 + 1]);
      if t, job :| t !in w.ops && ws[i] == Invoke(w, t, job) {
        InvokeKeepsLeaf(p, st, w, t, job, k);
      } else {
        var t, choice :| Enabled(p, w, t, choice) && ws[i] == Move(p, w, t, choice);
        MoveKeepsBalance(p, st, w, t, choice, k);
        MoveKeepsFull(p, w, t, choice, k);
      }
    }
  }

  lemma RestIsBalanced(p: Params, st: State, k: LeafKey)
    requires p.options.Valid()
    ensures Balanced(p, st, Rest(st), k) && FullSinceEviction(p, Rest(st), k)
  {
    assert CreatedIn(p, Rest(st), k) == {} && EvictedFrom(p, Rest(st).mem, k) == {};
  }

  // ---------------------------------------------------------------- the law of a leaf

  /** The clusters a leaf started with and those created in it. */
  function EverIn(p: Params, st: State, w: World, k: LeafKey): nat
    requires p.options.Valid()
  {
    |LeafIds(st, k)| + |CreatedIn(p, w, k)|
  }

  lemma FreeLeafIsFull(p: Params, w: World, k: LeafKey)
    requires Inv(p, w) && ShardFree(p, w, k.count) && FullSinceEviction(p, w, k) && EvictedFrom(p, w.mem, k) != {}
    ensures |Ids(w.mem, k)| == p.options.maxClustersPerLeaf
  {
    hide OpOk, Exclusion, MemoryOk, Accounted, OwnIds, DescentKeys, EvictedFrom, Held;
    if t :| t in w.ops && Refilling(w.ops[t]) && KeyOf(p.options, Line(w.ops[t])) == k {
      RefillerHolds(p, w.ops[t]);
    }
  }

  lemma RefillerHolds(p: Params, op: Op)
    requires Refilling(op)
    ensures Hold(ShardLock(|Line(op)|), true) in Held(p, op)
  {
  }

  /** In every interleaving, whenever a shard's write lock is free: a leaf of it holds all clusters it ever had, up
      to the cap, and what goes beyond the cap, exactly, has been evicted. So nothing of the leaf has been
      evicted, and every body made in it is live, exactly while no more clusters were ever in it than the cap. */
  lemma EvictionsOfALeaf(p: Params, st: State, ws: seq<World>, i: nat, k: LeafKey)
    requires II.Inv(p.options, st) && Behavior(p, st, ws) && i < |ws| && ShardFree(p, ws[i], k.count)
    ensures var m, cap, ever := ws[i].mem, p.options.maxClustersPerLeaf, EverIn(p, st, ws[i], k);
            && |Ids(m, k)| == Min(cap, ever)
            && |EvictedFrom(p, m, k)| == ever - Min(cap, ever)
            && (EvictedFrom(p, m, k) == {} <==> ever <= cap)
            && (ever <= cap <==>
                  forall id | id in m.bodies && KeyOf(p.options, m.bodies[id].tokens) == k :: id in m.live)
  {
    var w := ws[i];
    BehaviorKeepsInv(p, st, ws, i);
    BehaviorKeepsLeaf(p, st, ws, i, k);
    LeafBelowCap(p, w.mem, k);
    NoneEvictedAllLive(p, w, k);
    hide *;
    if EvictedFrom(p, w.mem, k) != {} { FreeLeafIsFull(p, w, k); }
    LawOfSizes(p, st, w, k);
  }

  lemma LeafBelowCap(p: Params, m: Memory, k: LeafKey)
    requires p.options.Valid() && MemoryOk(p, m)
    ensures |Ids(m, k)| <= p.options.maxClustersPerLeaf
  {
    hide KeyOf, BodyOk;
    assert k in m.leaves ==> LeafOk(p, m, k);
  }

  lemma LawOfSizes(p: Params, st: State, w: World, k: LeafKey)
    requires p.options.Valid() && Balanced(p, st, w, k) && |Ids(w.mem, k)| <= p.options.maxClustersPerLeaf
    requires EvictedFrom(p, w.mem, k) != {} ==> |Ids(w.mem, k)| == p.options.maxClustersPerLeaf
    ensures var cap, ever := p.options.maxClustersPerLeaf, EverIn(p, st, w, k);
            && |Ids(w.mem, k)| == Min(cap, ever)
            && |EvictedFrom(p, w.mem, k)| == ever - Min(cap, ever)
            && (EvictedFrom(p, w.mem, k) == {} <==> ever <= cap)
  {
    hide EvictedFrom, CreatedIn, Ids, LeafIds;
  }

  lemma NoneEvictedAllLive(p: Params, w: World, k: LeafKey)
    requires Inv(p, w) && ShardFree(p, w, k.count)
    ensures EvictedFrom(p, w.mem, k) == {}
       <==> forall id | id in w.mem.bodies && KeyOf(p.options, w.mem.bodies[id].tokens) == k :: id in w.mem.live
  {
    hide OpOk, Exclusion, Accounted, OwnIds, DescentKeys;
    var m := w.mem;
    FreeShardIsCoherent(p, w, k.count);
    forall id | id in m.bodies && KeyOf(p.options, m.bodies[id].tokens) == k
      ensures id in m.live <==> id !in EvictedFrom(p, m, k)
    {
      assert BodyOk(p, m, id);
      if id in m.live { assert LeafOk(p, m, k); }
    }
  }

  /** While no more clusters were ever in a leaf than its cap, every id that an add to it has returned is live. */
  lemma ReturnedIdsAreLive(p: Params, st: State, ws: seq<World>, i: nat, t: OpId)
    requires II.Inv(p.options, st) && Behavior(p, st, ws) && i < |ws| && t in ws[i].ops && ws[i].ops[t].point.Added?
    requires var k := KeyOf(p.options, Line(ws[i].ops[t]));
             ShardFree(p, ws[i], k.count) && EverIn(p, st, ws[i], k) <= p.options.maxClustersPerLeaf
    ensures ws[i].ops[t].point.result.id in ws[i].mem.live
  {
    var k := KeyOf(p.options, Line(ws[i].ops[t]));
    EvictionsOfALeaf(p, st, ws, i, k);
    BehaviorKeepsInv(p, st, ws, i);
    AssignedBodyFits(p, ws[i].mem, ws[i].ops[t]);
  }

  lemma AssignedBodyFits(p: Params, m: Memory, op: Op)
    requires p.options.Valid() && OpOk(p, m, op) && op.point.Added?
    ensures Fits(p, m, op.point.result.id, Line(op))
  {
  }

  /** Under the same guard no two adds of one line have both created a cluster. */
  lemma OneCreationPerLine(p: Params, st: State, ws: seq<World>, i: nat, t: OpId, u: OpId)
    requires II.Inv(p.options, st) && Behavior(p, st, ws) && i < |ws|
    requires t in ws[i].ops && u in ws[i].ops && t != u
    requires Texts(Line(ws[i].ops[t])) == Texts(Line(ws[i].ops[u]))
    requires var k := KeyOf(p.options, Line(ws[i].ops[t]));
             ShardFree(p, ws[i], k.count) && EverIn(p, st, ws[i], k) <= p.options.maxClustersPerLeaf
    ensures !(Filed(ws[i].ops[t]) && Filed(ws[i].ops[u]))
  {
    var w := ws[i];
    var k := KeyOf(p.options, Line(w.ops[t]));
    SameTextsSameKey(p.options, Line(w.ops[t]), Line(w.ops[u]));
    EvictionsOfALeaf(p, st, ws, i, k);
    BehaviorKeepsInv(p, st, ws, i);
    EvictedIsCounted(p, w.mem, w.ops[t]);
    EvictedIsCounted(p, w.mem, w.ops[u]);
    hide OpOk, Exclusion, OwnIds, Accounted, MemoryOk, KeyOf, Behavior, EvictedFrom, CreatedIn;
    if Filed(w.ops[t]) && Filed(w.ops[u]) {
      NoDuplicateCreation(p, st, ws, i, t, u);
    }
  }

  lemma EvictedIsCounted(p: Params, m: Memory, op: Op)
    requires p.options.Valid() && OpOk(p, m, op)
    ensures Filed(op) && op.point.result.id in m.evicted ==>
              op.point.result.id in EvictedFrom(p, m, KeyOf(p.options, Line(op)))
  {
  }
}
