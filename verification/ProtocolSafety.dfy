/** What holds in every interleaving: assigned lines stay covered, the index is coherent whenever a shard is
    free, nobody deadlocks, and a snapshot taken meanwhile is safe to restore
    (crates/logdrain/src/miner.rs:151-319 and 389-421). */
module ProtocolSafety {
  import opened Options
  import opened Templates
  import opened Index
  import II = IndexInvariant
  import opened Snapshots
  import opened Protocol
  import opened ProtocolLocks
  import opened ProtocolIndex

  // ---------------------------------------------------------------- the invariant holds throughout

  lemma RestHasInv(p: Params, st: State)
    requires II.Inv(p.options, st)
    ensures Inv(p, Rest(st))
  {
    hide KeyOf;
    var m := Rest(st).mem;
    assert Exclusion(p, Rest(st));
    forall k | k in m.leaves
      ensures LeafOk(p, m, k) && m.leaves[k] != []
    {
    }
  }

  lemma InvokeKeepsInv(p: Params, w: World, t: OpId, job: Job)
    requires Inv(p, w) && t !in w.ops
    ensures Inv(p, Invoke(w, t, job))
  {
    hide OpOk, Exclusion, LeafOk, BodyOk, InLeaf, KeyOf;
    var w' := Invoke(w, t, job);
    InvokeKeepsExclusion(p, w, t, job);
    StartIsOk(p, w.mem, w'.ops[t]);
    forall id | id in w'.mem.live && !InLeaf(p, w'.mem, id)
      ensures Carried(w', id)
    {
      var u :| u in w.ops && Carries(w.ops[u], id);
      assert w'.ops[u] == w.ops[u];
    }
    forall k | k in w'.mem.leaves && w'.mem.leaves[k] == []
      ensures Attended(p, w', k)
    {
      var u :| u in w.ops && Section(w.ops[u]) && KeyOf(p.options, Line(w.ops[u])) == k;
      assert w'.ops[u] == w.ops[u];
    }
    assert OwnIds(w') by {
      assert Own(w'.ops[t]).None?;
      assert forall u | u in w'.ops && u != t :: w'.ops[u] == w.ops[u];
    }
  }

  lemma StartIsOk(p: Params, m: Memory, op: Op)
    requires p.options.Valid() && op.point.Start? && op.seen == map[]
    ensures OpOk(p, m, op) && Own(op).None?
  {
  }

  lemma NextKeepsInv(p: Params, w: World, w': World)
    requires p.options.Valid() && Inv(p, w) && Next(p, w, w')
    ensures Inv(p, w')
  {
    hide Inv, Enabled, Move, Invoke;
    if t, job :| t !in w.ops && w' == Invoke(w, t, job) {
      InvokeKeepsInv(p, w, t, job);
    } else {
      var t, choice :| Enabled(p, w, t, choice) && w' == Move(p, w, t, choice);
      MoveKeepsInv(p, w, t, choice);
    }
  }

  /** The invariant holds in every state of every interleaving. */
  lemma {:induction false} BehaviorKeepsInv(p: Params, st: State, ws: seq<World>, i: nat)
    requires II.Inv(p.options, st) && Behavior(p, st, ws) && i < |ws|
    ensures Inv(p, ws[i])
  {
    hide Inv, Next;
    if i == 0 {
      RestHasInv(p, st);
    } else {
      BehaviorKeepsInv(p, st, ws, i - 1);
      assert Next(p, ws[i - 1], ws[i - 1 + 1]);
      NextKeepsInv(p, ws[i - 1], ws[i]);
    }
  }

  // ---------------------------------------------------------------- finished operations stay as they are

  lemma NextKeepsOps(p: Params, w: World, w': World, t: OpId)
    requires p.options.Valid() && Next(p, w, w') && t in w.ops
    ensures t in w'.ops && w'.ops[t].job == w.ops[t].job && (Finished(w.ops[t]) ==> w'.ops[t] == w.ops[t])
  {
    hide Advance, Effect, Ready, Available, Wanted, Held;
    if u, job :| u !in w.ops && w' == Invoke(w, u, job) {
    } else {
      var u, choice :| Enabled(p, w, u, choice) && w' == Move(p, w, u, choice);
      AdvanceHolds(p, w.mem, w.ops[u], choice);
    }
  }

  lemma {:induction false} OpsPersist(p: Params, st: State, ws: seq<World>, i: nat, j: nat, t: OpId)
    requires p.options.Valid() && Behavior(p, st, ws) && i <= j < |ws| && t in ws[i].ops
    ensures t in ws[j].ops && ws[j].ops[t].job == ws[i].ops[t].job
    ensures Finished(ws[i].ops[t]) ==> ws[j].ops[t] == ws[i].ops[t]
    decreases j - i
  {
    hide Next;
    if i < j {
      OpsPersist(p, st, ws, i, j - 1, t);
      assert Next(p, ws[j - 1], ws[j - 1 + 1]);
      NextKeepsOps(p, ws[j - 1], ws[j], t);
    }
  }

  // ---------------------------------------------------------------- coverage

  /** Once an add has returned, the body it was assigned to covers its line for the rest of the run, whatever
      other adds do to the template and even when the cluster is evicted. */
  lemma AssignedLinesStayCovered(p: Params, st: State, ws: seq<World>, i: nat, j: nat, t: OpId)
    requires II.Inv(p.options, st) && Behavior(p, st, ws) && i <= j < |ws|
    requires t in ws[i].ops && ws[i].ops[t].point.Added?
    ensures var id := ws[i].ops[t].point.result.id;
            && id in ws[j].mem.bodies
            && Covers(ws[j].mem.bodies[id].tokens, Line(ws[i].ops[t]), p.options.wildcard)
            && KeyOf(p.options, ws[j].mem.bodies[id].tokens) == KeyOf(p.options, Line(ws[i].ops[t]))
  {
    OpsPersist(p, st, ws, i, j, t);
    BehaviorKeepsInv(p, st, ws, j);
    assert OpOk(p, ws[j].mem, ws[j].ops[t]);
  }

  // ---------------------------------------------------------------- coherence

  /** The index as a query or the next writer of a shard finds it: each leaf of the shard holds live clusters
      of its own key, each once, at least one and at most the cap, and each live cluster is in its leaf. */
  ghost predicate ShardCoherent(p: Params, m: Memory, count: nat)
    requires p.options.Valid()
  {
    && (forall k | k in m.leaves && k.count == count ::
          && II.NoDuplicates(m.leaves[k])
          && 0 < |m.leaves[k]| <= p.options.maxClustersPerLeaf
          && forall id | id in m.leaves[k] ::
               id in m.live && id in m.bodies && KeyOf(p.options, m.bodies[id].tokens) == k)
    && (forall id | id in m.live ::
          && id in m.bodies && m.bodies[id].id == id && 0 < id <= m.counter
          && (|m.bodies[id].tokens| == count ==>
                && KeyOf(p.options, m.bodies[id].tokens) in m.leaves
                && id in m.leaves[KeyOf(p.options, m.bodies[id].tokens)]))
  }

  /** Nobody holds the shard exclusively. */
  ghost predicate ShardFree(p: Params, w: World, count: nat) {
    forall t | t in w.ops :: Hold(ShardLock(count), true) !in Held(p, w.ops[t])
  }

  /** What an operation carries has the token count of the shard it holds. */
  lemma CarriedFits(p: Params, m: Memory, op: Op, id: Id)
    requires p.options.Valid() && OpOk(p, m, op) && Carries(op, id)
    ensures Section(op) && Fits(p, m, id, Line(op))
  {
  }

  lemma FreeShardIsCoherent(p: Params, w: World, count: nat)
    requires Inv(p, w) && ShardFree(p, w, count)
    ensures ShardCoherent(p, w.mem, count)
  {
    hide OpOk, Held, DescentKeys, Exclusion, OwnIds;
    var m := w.mem;
    forall k | k in m.leaves && k.count == count
      ensures m.leaves[k] != []
    {
      if m.leaves[k] == [] {
        var t :| t in w.ops && Section(w.ops[t]) && KeyOf(p.options, Line(w.ops[t])) == k;
        HoldsShardHolds(p, w.ops[t]);
      }
    }
    forall id | id in m.live && |m.bodies[id].tokens| == count
      ensures InLeaf(p, m, id)
    {
      if !InLeaf(p, m, id) {
        var t :| t in w.ops && Carries(w.ops[t], id);
        CarriedFits(p, m, w.ops[t], id);
        HoldsShardHolds(p, w.ops[t]);
      }
    }
    assert forall k | k in m.leaves :: LeafOk(p, m, k);
    assert forall id | id in m.bodies :: BodyOk(p, m, id);
  }

  /** In every interleaving, whenever a shard's write lock is free its leaves and the id map agree. */
  lemma EveryFreeShardIsCoherent(p: Params, st: State, ws: seq<World>, i: nat, count: nat)
    requires II.Inv(p.options, st) && Behavior(p, st, ws) && i < |ws| && ShardFree(p, ws[i], count)
    ensures ShardCoherent(p, ws[i].mem, count)
  {
    hide Inv;
    BehaviorKeepsInv(p, st, ws, i);
    FreeShardIsCoherent(p, ws[i], count);
  }

  /** At every moment, even inside a writer's section, no leaf exceeds its cap or names a cluster twice, and a
      filed cluster is live and filed under its own key only. */
  lemma LeavesAlwaysFit(p: Params, st: State, ws: seq<World>, i: nat, k: LeafKey)
    requires II.Inv(p.options, st) && Behavior(p, st, ws) && i < |ws| && k in ws[i].mem.leaves
    ensures II.NoDuplicates(ws[i].mem.leaves[k]) && |ws[i].mem.leaves[k]| <= p.options.maxClustersPerLeaf
    ensures forall id | id in ws[i].mem.leaves[k] ::
              && id in ws[i].mem.live
              && forall k' | k' in ws[i].mem.leaves && id in ws[i].mem.leaves[k'] :: k' == k
  {
    hide OpOk, Exclusion, OwnIds, Accounted, KeyOf;
    BehaviorKeepsInv(p, st, ws, i);
    assert forall k' | k' in ws[i].mem.leaves :: LeafOk(p, ws[i].mem, k');
  }

  /** No two adds create clusters of the same id, and no created id exceeds the counter. */
  lemma CreatedIdsAreDistinct(p: Params, st: State, ws: seq<World>, i: nat, t: OpId, u: OpId)
    requires II.Inv(p.options, st) && Behavior(p, st, ws) && i < |ws| && t in ws[i].ops && u in ws[i].ops && t != u
    requires ws[i].ops[t].point.Added? && ws[i].ops[t].point.result.update.Created?
    requires ws[i].ops[u].point.Added? && ws[i].ops[u].point.result.update.Created?
    ensures ws[i].ops[t].point.result.id != ws[i].ops[u].point.result.id
    ensures ws[i].ops[t].point.result.id <= ws[i].mem.counter
  {
    hide OpOk, Exclusion, MemoryOk, Accounted;
    BehaviorKeepsInv(p, st, ws, i);
    assert Own(ws[i].ops[t]) != Own(ws[i].ops[u]);
  }

  /** The state a miner is in when no add is in flight. */
  function AsState(m: Memory): State {
    State(m.leaves, map id | id in m.live && id in m.bodies :: m.bodies[id], m.counter, 0)
  }

  /** No add is in flight; queries and snapshots may be. */
  ghost predicate Quiet(w: World) {
    forall t | t in w.ops && w.ops[t].job.Adding? :: Finished(w.ops[t])
  }

  /** What an operation of another kind never is. */
  lemma OnlyAddsHold(p: Params, m: Memory, op: Op)
    requires p.options.Valid() && OpOk(p, m, op) && !op.job.Adding?
    ensures !Section(op) && Own(op).None? && !op.point.Added?
  {
  }

  lemma QuietShardIsFree(p: Params, w: World, count: nat)
    requires Inv(p, w) && Quiet(w)
    ensures ShardFree(p, w, count)
  {
    hide Exclusion, MemoryOk, Accounted, OwnIds, OpOk;
    forall t | t in w.ops
      ensures Hold(ShardLock(count), true) !in Held(p, w.ops[t])
    {
      if w.ops[t].job.Adding? {
        LocksAreOrdered(p, w.mem, w.ops[t]);
      } else {
        OnlyAddsHold(p, w.mem, w.ops[t]);
        SharedOnly(p, w.ops[t], count);
      }
    }
  }

  lemma SharedOnly(p: Params, op: Op, count: nat)
    requires !Section(op)
    ensures Hold(ShardLock(count), true) !in Held(p, op)
  {
  }

  /** Whenever no add is in flight, the miner satisfies the invariant of the sequential index, whatever
      interleaving led there, so that all that is proved of sequential states holds of it. */
  lemma QuietStateIsSound(p: Params, st: State, ws: seq<World>, i: nat)
    requires II.Inv(p.options, st) && Behavior(p, st, ws) && i < |ws| && Quiet(ws[i])
    ensures II.Inv(p.options, AsState(ws[i].mem))
  {
    hide Inv, Quiet, ShardCoherent;
    var m := ws[i].mem;
    BehaviorKeepsInv(p, st, ws, i);
    forall count: nat
      ensures ShardCoherent(p, m, count)
    {
      QuietShardIsFree(p, ws[i], count);
      FreeShardIsCoherent(p, ws[i], count);
    }
    CoherentIsSound(p, m);
  }

  lemma CoherentIsSound(p: Params, m: Memory)
    requires p.options.Valid() && forall count: nat :: ShardCoherent(p, m, count)
    ensures II.Inv(p.options, AsState(m))
  {
    hide DescentKeys;
    var s := AsState(m);
    forall k | k in s.leaves
      ensures II.NoDuplicates(s.leaves[k]) && 0 < |s.leaves[k]| <= p.options.maxClustersPerLeaf
      ensures forall id | id in s.leaves[k] :: id in s.bodies && KeyOf(p.options, s.bodies[id].tokens) == k
    {
      assert ShardCoherent(p, m, k.count);
    }
    forall id | id in s.bodies
      ensures s.bodies[id].id == id && 0 < id <= s.counter
      ensures KeyOf(p.options, s.bodies[id].tokens) in s.leaves
      ensures id in s.leaves[KeyOf(p.options, s.bodies[id].tokens)]
    {
      assert ShardCoherent(p, m, |m.bodies[id].tokens|);
    }
  }

  // ---------------------------------------------------------------- deadlock freedom

  /** What an operation knows is enough for its next step to go through. */
  lemma KnowsEnough(p: Params, m: Memory, op: Op)
    returns (choice: nat)
    requires p.options.Valid() && OpOk(p, m, op)
    ensures Ready(p, m, op, choice)
  {
    choice := 0;
    if op.point.Choosing? { choice := Ids(m, KeyOf(p.options, Line(op)))[0]; }
  }

  /** In every state of every interleaving with an operation unfinished, some operation can take its next
      step, even when waiting writers turn readers away. */
  lemma NoDeadlock(p: Params, st: State, ws: seq<World>, i: nat)
    returns (t: OpId, choice: nat)
    requires II.Inv(p.options, st) && Behavior(p, st, ws) && i < |ws|
    requires exists u :: u in ws[i].ops && !Finished(ws[i].ops[u])
    ensures Enabled(p, ws[i], t, choice) && CanProceed(p, ws[i], t)
  {
    hide OpOk, Ready, Held, Wanted, Exclusion, MemoryOk, OwnIds, Accounted;
    BehaviorKeepsInv(p, st, ws, i);
    SomeoneCanProceed(p, ws[i]);
    t :| CanProceed(p, ws[i], t);
    choice := KnowsEnough(p, ws[i].mem, ws[i].ops[t]);
  }

  // ---------------------------------------------------------------- snapshots taken meanwhile

  /** A snapshot taken while adds run numbers its clusters within its counter, so restoring it anywhere gives
      a sound index, and the next id drawn there is none of the captured ones. */
  lemma RacingSnapshotRestores(p: Params, st: State, ws: seq<World>, i: nat, t: OpId, into: State)
    requires II.Inv(p.options, st) && Behavior(p, st, ws) && i < |ws|
    requires t in ws[i].ops && ws[i].ops[t].point.Captured?
    ensures var snap := ws[i].ops[t].point.snap;
            && WellNumbered(snap)
            && II.Inv(p.options, Restore(p.options, into, snap))
            && (forall j | 0 <= j < |snap.clusters| :: snap.clusters[j].id < Restore(p.options, into, snap).counter + 1)
            && (forall j | 0 <= j < |snap.clusters| :: snap.clusters[j].id in ws[i].mem.bodies)
  {
    BehaviorKeepsInv(p, st, ws, i);
    assert OpOk(p, ws[i].mem, ws[i].ops[t]);
    RestoreEstablishesInv(p.options, into, ws[i].ops[t].point.snap);
  }

  // ---------------------------------------------------------------- answers and creations are justified

  /** The operation saw exactly the leaf of its line as it is in `m`. */
  ghost predicate SawLeaf(p: Params, m: Memory, op: Op)
    requires p.options.Valid()
  {
    && (forall x :: x in op.seen <==> x in Ids(m, KeyOf(p.options, Line(op))))
    && (forall x | x in op.seen :: x in m.bodies && op.seen[x] == m.bodies[x].tokens)
  }

  predicate Looked(op: Op) {
    !(op.point.Start? || op.point.OnShardMap? || op.point.WantInsert? || op.point.Inserting? || op.point.WantShared?
      || op.job.Snapshotting?)
  }

  predicate Creator(op: Op) {
    Section(op) || (op.point.Added? && op.point.result.update.Created?)
  }

  /** Between the two states the operation takes its shard, exclusively if it goes on to create, or a query finds
      that there is none. */
  ghost predicate Takes(op: Op, op': Op) {
    || (op.point.OnShardMap? && op'.point.Answered?)
    || (&& (op.point.WantShared? || op.point.WantExclusive?) && HoldsShard(op')
        && (Section(op') ==> op.point.WantExclusive?))
  }

  lemma StepSees(p: Params, m: Memory, op: Op, choice: nat)
    requires p.options.Valid() && CanStep(p, m, op, choice) && Looked(Advance(p, m, op, choice))
    ensures var op' := Advance(p, m, op, choice);
            && Line(op') == Line(op)
            && if op.point.WantShared? || op.point.WantExclusive? || op.point.OnShardMap?
               then Takes(op, op') && SawLeaf(p, m, op')
               else Looked(op) && op'.seen == op.seen && (Creator(op') ==> Creator(op))
  {
    hide Similarity, DescentKeys, MoreGeneral, Covers, ChooseStep, CollectStep, ScanOk, CreatorOk, BodyOk;
    var k := KeyOf(p.options, Line(op));
    assert k in m.leaves ==> LeafOk(p, m, k);
  }

  lemma NextSees(p: Params, w: World, w': World, t: OpId)
    requires p.options.Valid() && Inv(p, w) && Next(p, w, w') && t in w'.ops && Looked(w'.ops[t])
    ensures t in w.ops && Line(w'.ops[t]) == Line(w.ops[t])
    ensures if Takes(w.ops[t], w'.ops[t]) then SawLeaf(p, w.mem, w'.ops[t])
            else Looked(w.ops[t]) && w'.ops[t].seen == w.ops[t].seen && (Creator(w'.ops[t]) ==> Creator(w.ops[t]))
  {
    hide Advance, Effect, OpOk, MemoryOk, Ready, Available, Wanted, SawLeaf, Exclusion, OwnIds, Accounted;
    if u, job :| u !in w.ops && w' == Invoke(w, u, job) {
      assert t != u;
    } else {
      var u, choice :| Enabled(p, w, u, choice) && w' == Move(p, w, u, choice);
      if u == t { StepSees(p, w.mem, w.ops[t], choice); }
    }
  }

  /** What an operation remembers of its leaf is what the leaf held when the operation last took its shard,
      exclusively if it went on to create. */
  lemma {:induction false} SeenWasTheLeaf(p: Params, st: State, ws: seq<World>, i: nat, t: OpId)
    returns (j: nat)
    requires II.Inv(p.options, st) && Behavior(p, st, ws) && i < |ws|
    requires t in ws[i].ops && Looked(ws[i].ops[t])
    ensures j < i && t in ws[j].ops && t in ws[j + 1].ops && Takes(ws[j].ops[t], ws[j + 1].ops[t])
    ensures Creator(ws[i].ops[t]) ==> ws[j].ops[t].point.WantExclusive?
    ensures SawLeaf(p, ws[j].mem, ws[i].ops[t])
  {
    hide Next, Inv, KeyOf;
    j := i - 1;
    assert Next(p, ws[j], ws[j + 1]);
    BehaviorKeepsInv(p, st, ws, j);
    NextSees(p, ws[j], ws[i], t);
    if !Takes(ws[j].ops[t], ws[i].ops[t]) {
      j := SeenWasTheLeaf(p, st, ws, j, t);
    }
  }

  /** A query answers with a cluster at threshold that scores no lower than any cluster of the leaf did when the
      query took the shard, and with nothing only if all of them were below threshold then. */
  lemma AnswersAreConclusive(p: Params, st: State, ws: seq<World>, i: nat, t: OpId)
    returns (j: nat)
    requires II.Inv(p.options, st) && Behavior(p, st, ws) && i < |ws|
    requires t in ws[i].ops && ws[i].ops[t].point.Answered?
    ensures j < i && t in ws[j].ops && t in ws[j + 1].ops && Takes(ws[j].ops[t], ws[j + 1].ops[t])
    ensures forall x | x in Ids(ws[j].mem, KeyOf(p.options, Line(ws[i].ops[t]))) :: x in ws[j].mem.bodies
    ensures var m, m' := ws[j].mem, ws[i].mem;
            var line, w := Line(ws[i].ops[t]), p.options.wildcard;
            var ids := Ids(m, KeyOf(p.options, line));
            match ws[i].ops[t].point.answer
            case None => forall x | x in ids :: Sim(m.bodies, x, line, w) < p.options.simThreshold
            case Some(id) =>
              && Fits(p, m', id, line)
              && Sim(m'.bodies, id, line, w) >= p.options.simThreshold
              && forall x | x in ids :: Sim(m.bodies, x, line, w) <= Sim(m'.bodies, id, line, w)
  {
    hide KeyOf, Similarity;
    BehaviorKeepsInv(p, st, ws, i);
    assert OpOk(p, ws[i].mem, ws[i].ops[t]);
    j := SeenWasTheLeaf(p, st, ws, i, t);
  }

  /** An add creates a cluster only if every cluster of the leaf was below threshold for its line when the add
      took the shard exclusively. */
  lemma CreationsAreJustified(p: Params, st: State, ws: seq<World>, i: nat, t: OpId)
    returns (j: nat)
    requires II.Inv(p.options, st) && Behavior(p, st, ws) && i < |ws|
    requires t in ws[i].ops && ws[i].ops[t].point.Added? && ws[i].ops[t].point.result.update.Created?
    ensures j < i && t in ws[j].ops && t in ws[j + 1].ops
    ensures ws[j].ops[t].point.WantExclusive? && HoldsShard(ws[j + 1].ops[t])
    ensures var m := ws[j].mem;
            var line := Line(ws[i].ops[t]);
            forall x | x in Ids(m, KeyOf(p.options, line)) ::
              x in m.bodies && Sim(m.bodies, x, line, p.options.wildcard) < p.options.simThreshold
  {
    hide KeyOf, Similarity;
    BehaviorKeepsInv(p, st, ws, i);
    assert OpOk(p, ws[i].mem, ws[i].ops[t]);
    j := SeenWasTheLeaf(p, st, ws, i, t);
  }
}
