/** Mutual exclusion and deadlock freedom of the concurrent operations. */
module ProtocolLocks {
  import opened Wrappers
  import opened Options
  import opened Index
  import opened Protocol

  // ---------------------------------------------------------------- mutual exclusion

  /** Locks held by different operations never conflict. */
  ghost predicate Exclusion(p: Params, w: World) {
    forall t, u, g, h | t in w.ops && u in w.ops && t != u && g in Held(p, w.ops[t]) && h in Held(p, w.ops[u]) ::
      !Conflict(g, h)
  }

  function WantedSet(p: Params, m: Memory, op: Op): set<Hold> {
    var h := Wanted(p, m, op);
    if h.Some? then {h.value} else {}
  }

  ghost predicate AcquiresItsLock(p: Params, m: Memory, op: Op, choice: nat)
    requires p.options.Valid() && Ready(p, m, op, choice)
  {
    && Advance(p, m, op, choice).job == op.job
    && Held(p, Advance(p, m, op, choice)) <= Held(p, op) + WantedSet(p, m, op)
  }

  lemma ScanHolds(p: Params, m: Memory, op: Op, choice: nat)
    requires p.options.Valid() && Ready(p, m, op, choice) && (op.point.Scanning? || op.point.Choosing?)
    ensures AcquiresItsLock(p, m, op, choice)
  {
    hide KeyOf, Better, Reaches;
  }

  lemma CollectHolds(p: Params, m: Memory, op: Op, choice: nat)
    requires p.options.Valid() && Ready(p, m, op, choice) && op.point.Collecting?
    ensures AcquiresItsLock(p, m, op, choice)
  {
  }

  lemma OtherStepsHold(p: Params, m: Memory, op: Op, choice: nat)
    requires p.options.Valid() && Ready(p, m, op, choice)
    requires !op.point.Scanning? && !op.point.Choosing? && !op.point.Collecting?
    ensures AcquiresItsLock(p, m, op, choice)
  {
    hide KeyOf, ScanStep, ScanEnd, ChooseStep, CollectStep;
  }

  /** A step acquires at most the lock it wanted. */
  lemma AdvanceHolds(p: Params, m: Memory, op: Op, choice: nat)
    requires p.options.Valid() && Ready(p, m, op, choice)
    ensures Advance(p, m, op, choice).job == op.job
    ensures Held(p, Advance(p, m, op, choice)) <= Held(p, op) + WantedSet(p, m, op)
  {
    hide Advance, Held, WantedSet, Ready;
    if op.point.Scanning? || op.point.Choosing? {
      ScanHolds(p, m, op, choice);
    } else if op.point.Collecting? {
      CollectHolds(p, m, op, choice);
    } else {
      OtherStepsHold(p, m, op, choice);
    }
  }

  /** Acquiring only an available lock keeps exclusion. */
  lemma AcquiringKeepsExclusion(p: Params, w: World, w': World, t: OpId)
    requires Exclusion(p, w) && t in w.ops && t in w'.ops && w'.ops == w.ops[t := w'.ops[t]]
    requires Held(p, w'.ops[t]) <= Held(p, w.ops[t]) + WantedSet(p, w.mem, w.ops[t])
    requires Wanted(p, w.mem, w.ops[t]).Some? ==> Available(p, w, t, Wanted(p, w.mem, w.ops[t]).value)
    ensures Exclusion(p, w')
  {
    hide Held, Wanted;
    forall u, g, h | u in w'.ops && u != t && g in Held(p, w'.ops[t]) && h in Held(p, w'.ops[u])
      ensures !Conflict(g, h) && !Conflict(h, g)
    {
      assert w'.ops[u] == w.ops[u];
      if g in Held(p, w.ops[t]) {
        assert !Conflict(g, h);
      } else {
        assert g == Wanted(p, w.mem, w.ops[t]).value;
        assert !Conflict(h, g);
      }
    }
    assert forall u | u in w'.ops && u != t :: w'.ops[u] == w.ops[u];
  }

  lemma MoveKeepsExclusion(p: Params, w: World, t: OpId, choice: nat)
    requires p.options.Valid() && Enabled(p, w, t, choice) && Exclusion(p, w)
    ensures Exclusion(p, Move(p, w, t, choice))
  {
    hide Advance, Effect, Held, Wanted;
    AdvanceHolds(p, w.mem, w.ops[t], choice);
    AcquiringKeepsExclusion(p, w, Move(p, w, t, choice), t);
  }

  lemma InvokeKeepsExclusion(p: Params, w: World, t: OpId, job: Job)
    requires Exclusion(p, w) && t !in w.ops
    ensures Exclusion(p, Invoke(w, t, job))
  {
    var w' := Invoke(w, t, job);
    assert Held(p, w'.ops[t]) == {};
    assert forall u | u in w'.ops && u != t :: w'.ops[u] == w.ops[u];
  }

  // ---------------------------------------------------------------- deadlock freedom

  /** The order in which locks are taken: shard map, shard, id-map bucket, body. */
  function Rank(l: Lock): nat {
    match l
    case ShardMapLock => 0
    case ShardLock(_) => 1
    case BucketLock(_) => 2
    case BodyLock(_) => 3
  }

  /** An operation only ever waits for a lock above all it holds, and a finished one holds none. */
  lemma LocksAreOrdered(p: Params, m: Memory, op: Op)
    ensures Wanted(p, m, op).Some? ==> forall g | g in Held(p, op) :: Rank(g.lock) < Rank(Wanted(p, m, op).value.lock)
    ensures Finished(op) ==> Held(p, op) == {} && Wanted(p, m, op).None?
  {
  }

  /** Availability under a lock that also turns readers away while a writer waits. */
  ghost predicate StrictlyAvailable(p: Params, w: World, t: OpId, h: Hold) {
    && Available(p, w, t, h)
    && (!h.exclusive ==>
          forall u | u in w.ops && u != t :: Wanted(p, w.mem, w.ops[u]) != Some(Hold(h.lock, true)))
  }

  ghost predicate CanProceed(p: Params, w: World, t: OpId) {
    && t in w.ops && !Finished(w.ops[t])
    && (Wanted(p, w.mem, w.ops[t]).Some? ==> StrictlyAvailable(p, w, t, Wanted(p, w.mem, w.ops[t]).value))
  }

  /** A waiting operation whose lock has the highest rank among `waiting`. */
  lemma {:induction false} HighestWait(p: Params, w: World, waiting: set<OpId>)
    returns (t: OpId)
    requires waiting != {} && forall u | u in waiting :: u in w.ops && Wanted(p, w.mem, w.ops[u]).Some?
    ensures t in waiting
    ensures forall u | u in waiting ::
              Rank(Wanted(p, w.mem, w.ops[u]).value.lock) <= Rank(Wanted(p, w.mem, w.ops[t]).value.lock)
  {
    var x :| x in waiting;
    var rest := waiting - {x};
    t := x;
    assert forall u | u in waiting :: u == x || u in rest;
    if rest != {} {
      var y := HighestWait(p, w, rest);
      if Rank(Wanted(p, w.mem, w.ops[y]).value.lock) > Rank(Wanted(p, w.mem, w.ops[x]).value.lock) {
        t := y;
      }
    }
  }

  /** The lock that the highest waiter waits for is held by nobody. */
  lemma HighestLockIsFree(p: Params, w: World, t: OpId, h: Hold)
    requires t in w.ops && Wanted(p, w.mem, w.ops[t]) == Some(h)
    requires forall u | u in w.ops && !Finished(w.ops[u]) ::
               Wanted(p, w.mem, w.ops[u]).Some? && Rank(Wanted(p, w.mem, w.ops[u]).value.lock) <= Rank(h.lock)
    ensures forall u, g | u in w.ops && g in Held(p, w.ops[u]) :: g.lock != h.lock
  {
    forall u, g | u in w.ops && g in Held(p, w.ops[u])
      ensures g.lock != h.lock
    {
      LocksAreOrdered(p, w.mem, w.ops[u]);
    }
  }

  /** Deadlock freedom: while an operation is unfinished, some operation needs no lock for its next step
      or finds it available, even with writers preferred. */
  lemma SomeoneCanProceed(p: Params, w: World)
    requires exists u :: u in w.ops && !Finished(w.ops[u])
    ensures exists t :: CanProceed(p, w, t)
  {
    var unfinished := set u | u in w.ops && !Finished(w.ops[u]);
    if u :| u in unfinished && Wanted(p, w.mem, w.ops[u]).None? {
      assert CanProceed(p, w, u);
    } else {
      var t := HighestWait(p, w, unfinished);
      var h := Wanted(p, w.mem, w.ops[t]).value;
      assert forall u | u in w.ops && !Finished(w.ops[u]) :: u in unfinished;
      HighestLockIsFree(p, w, t, h);
      if !h.exclusive && exists u :: u in w.ops && Wanted(p, w.mem, w.ops[u]) == Some(Hold(h.lock, true)) {
        var u :| u in w.ops && Wanted(p, w.mem, w.ops[u]) == Some(Hold(h.lock, true));
        LocksAreOrdered(p, w.mem, w.ops[u]);
        assert CanProceed(p, w, u);
      } else {
        assert CanProceed(p, w, t);
      }
    }
  }
}
