/** What a snapshot taken while adds run has captured (crates/logdrain/src/miner.rs:389-421). */
module ProtocolSnapshots {
  import opened Options
  import opened Index
  import II = IndexInvariant
  import opened Snapshots
  import opened Protocol
  import opened ProtocolLocks
  import opened ProtocolIndex
  import opened ProtocolSafety

  /** `c` has every field of a cluster that is live in `m`. */
  ghost predicate RecordsLive(m: Memory, c: ClusterRecord) {
    && c.id in m.live && c.id in m.bodies
    && c.tokens == m.bodies[c.id].tokens && c.size == m.bodies[c.id].size
    && c.eventFirst == m.bodies[c.id].eventFirst && c.eventLast == m.bodies[c.id].eventLast
    && c.suffix == m.bodies[c.id].suffix && c.members == m.bodies[c.id].members
  }

  ghost predicate WasLive(ws: seq<World>, n: nat, c: ClusterRecord)
    requires n < |ws|
  {
    exists h :: 0 <= h <= n && RecordsLive(ws[h].mem, c)
  }

  /** The cluster a snapshot is about to read stays in the id map, because its bucket is held. */
  ghost predicate AtLiveCluster(p: Params, m: Memory, op: Op) {
    op.point.Collecting? && (op.point.place.WantBody? || op.point.place.InBody?) ==>
      op.point.place.id in m.live && p.bucketOf(op.point.place.id) == op.point.place.b
  }

  function RecordsOf(op: Op): seq<ClusterRecord> {
    match op.point
    case Collecting(captured, _) => captured
    case Captured(snap) => snap.clusters
    case _ => []
  }

  ghost predicate Faithful(p: Params, ws: seq<World>, n: nat, op: Op)
    requires n < |ws|
  {
    && AtLiveCluster(p, ws[n].mem, op)
    && (forall c | c in RecordsOf(op) :: WasLive(ws, n, c))
    && (op.point.Captured? ==> exists h :: 0 <= h <= n && op.point.snap.counter == ws[h].mem.counter)
  }

  // ---------------------------------------------------------------- single steps

  lemma HoldsItsBucket(p: Params, op: Op)
    ensures op.point.Collecting? && (op.point.place.WantBody? || op.point.place.InBody?) ==>
              Hold(BucketLock(op.point.place.b), false) in Held(p, op)
    ensures op.point.RemovingHeld? ==> Hold(BucketLock(p.bucketOf(op.point.victim)), true) in Held(p, op)
  {
  }

  lemma OnlyRemovalsDrop(p: Params, m: Memory, op: Op, choice: nat, id: Id)
    requires p.options.Valid() && Ready(p, m, op, choice) && id in m.live
    ensures id in Effect(p, m, op, choice).live || (op.point.RemovingHeld? && op.point.victim == id)
  {
    hide KeyOf, SwapRemove, Rewritten, Observed, Touched, NewBody;
  }

  lemma OthersKeepLive(p: Params, w: World, t: OpId, choice: nat, u: OpId)
    requires Inv(p, w) && Enabled(p, w, t, choice) && u in w.ops && u != t && AtLiveCluster(p, w.mem, w.ops[u])
    ensures AtLiveCluster(p, Move(p, w, t, choice).mem, w.ops[u])
  {
    hide Advance, Effect, OpOk, MemoryOk, Accounted, OwnIds, Ready, Held, Available, Wanted;
    var op := w.ops[u];
    if op.point.Collecting? && (op.point.place.WantBody? || op.point.place.InBody?) {
      HoldsItsBucket(p, op);
      HoldsItsBucket(p, w.ops[t]);
      OnlyRemovalsDrop(p, w.mem, w.ops[t], choice, op.point.place.id);
      var held := Hold(BucketLock(op.point.place.b), false);
      var drop := Hold(BucketLock(p.bucketOf(op.point.place.id)), true);
      assert drop in Held(p, w.ops[t]) ==> !Conflict(drop, held);
    }
  }

  /** A step of a snapshot adds at most the record of the live cluster it is at, and reads the counter last. */
  lemma CollectsLive(p: Params, m: Memory, op: Op, choice: nat)
    requires p.options.Valid() && CanStep(p, m, op, choice) && !Finished(op) && AtLiveCluster(p, m, op)
    ensures var op' := Advance(p, m, op, choice);
            && AtLiveCluster(p, Effect(p, m, op, choice), op')
            && (forall c | c in RecordsOf(op') :: c in RecordsOf(op) || RecordsLive(m, c))
            && (op'.point.Captured? ==> op'.point.snap.counter == m.counter)
  {
    hide KeyOf, MemoryOk;
    if op.point.Collecting? {
      if op.point.place.InBody? { BodyKnowsItsId(p, m, op.point.place.id); }
    }
  }

  lemma BodyKnowsItsId(p: Params, m: Memory, id: Id)
    requires p.options.Valid() && MemoryOk(p, m)
    ensures id in m.bodies ==> m.bodies[id].id == id
  {
    hide LeafOk;
    assert id in m.bodies ==> BodyOk(p, m, id);
  }

  lemma WasLiveStill(ws: seq<World>, n: nat, c: ClusterRecord)
    requires n + 1 < |ws| && WasLive(ws, n, c)
    ensures WasLive(ws, n + 1, c)
  {
  }

  // ---------------------------------------------------------------- the whole run

  lemma StepKeepsFaith(p: Params, ws: seq<World>, n: nat, t: OpId, choice: nat, u: OpId)
    requires n + 1 < |ws| && Inv(p, ws[n]) && Enabled(p, ws[n], t, choice) && ws[n + 1] == Move(p, ws[n], t, choice)
    requires u in ws[n].ops && Faithful(p, ws, n, ws[n].ops[u])
    ensures Faithful(p, ws, n + 1, ws[n + 1].ops[u])
  {
    hide Advance, Effect, OpOk, MemoryOk, Exclusion, Accounted, OwnIds, Ready, Held, Available, Wanted, AtLiveCluster,
      RecordsLive;
    var w, op, op' := ws[n], ws[n].ops[u], ws[n + 1].ops[u];
    if u == t {
      CollectsLive(p, w.mem, op, choice);
      forall c | c in RecordsOf(op')
        ensures WasLive(ws, n + 1, c)
      {
        if RecordsLive(w.mem, c) { assert WasLive(ws, n, c); }
        WasLiveStill(ws, n, c);
      }
    } else {
      OthersKeepLive(p, w, t, choice, u);
      forall c | c in RecordsOf(op)
        ensures WasLive(ws, n + 1, c)
      {
        WasLiveStill(ws, n, c);
      }
    }
  }

  lemma InvokeHasOps(w: World, t: OpId, job: Job, u: OpId)
    requires u in Invoke(w, t, job).ops && u != t
    ensures u in w.ops
  {
  }

  lemma MoveHasOps(p: Params, w: World, t: OpId, choice: nat, u: OpId)
    requires p.options.Valid() && Enabled(p, w, t, choice) && u in Move(p, w, t, choice).ops
    ensures u in w.ops
  {
    hide Advance, Effect, Ready;
  }

  lemma InvokeKeepsFaith(p: Params, ws: seq<World>, n: nat, t: OpId, job: Job, u: OpId)
    requires n + 1 < |ws| && t !in ws[n].ops && ws[n + 1] == Invoke(ws[n], t, job) && u in ws[n + 1].ops
    requires u != t ==> Faithful(p, ws, n, ws[n].ops[u])
    ensures Faithful(p, ws, n + 1, ws[n + 1].ops[u])
  {
    hide RecordsLive;
    var op' := ws[n + 1].ops[u];
    forall c | c in RecordsOf(op')
      ensures WasLive(ws, n + 1, c)
    {
      WasLiveStill(ws, n, c);
    }
  }

  /** Each record of a snapshot, finished or on its way, is in every field that of a cluster as it was, live, at some
      moment of the run, and the counter is the one of a moment of the run. */
  lemma {:induction false} CapturedWasLive(p: Params, st: State, ws: seq<World>, i: nat, u: OpId)
    requires II.Inv(p.options, st) && Behavior(p, st, ws) && i < |ws| && u in ws[i].ops
    ensures Faithful(p, ws, i, ws[i].ops[u])
  {
    hide Inv, Enabled, Move, Invoke, Faithful;
    if i > 0 {
      var w := ws[i - 1];
      BehaviorKeepsInv(p, st, ws, i - 1);
      assert Next(p, w, ws[i - 1 + 1]);
      if t, job :| t !in w.ops && ws[i] == Invoke(w, t, job) {
        if u != t {
          InvokeHasOps(w, t, job, u);
          CapturedWasLive(p, st, ws, i - 1, u);
        }
        InvokeKeepsFaith(p, ws, i - 1, t, job, u);
      } else {
        var t, choice :| Enabled(p, w, t, choice) && ws[i] == Move(p, w, t, choice);
        MoveHasOps(p, w, t, choice, u);
        CapturedWasLive(p, st, ws, i - 1, u);
        StepKeepsFaith(p, ws, i - 1, t, choice, u);
      }
    }
  }
}
