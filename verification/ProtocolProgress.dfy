/** Every add and query needs finitely many steps of its own, and an add left alone returns
    (crates/logdrain/src/miner.rs:151-319). */
module ProtocolProgress {
  import opened Options
  import opened Index
  import II = IndexInvariant
  import opened Protocol
  import opened ProtocolSafety
  import opened ProtocolSequential

  // ---------------------------------------------------------------- own steps descend

  function Stage(point: Point): nat {
    match point
    case Start => 22
    case OnShardMap => 21
    case WantInsert => 20
    case Inserting => 19
    case WantShared => 18
    case Scanning(phase, _, _, _) => if phase.Matching? then 17 else 15
    case WantExclusive => 16
    case Drawing => 14
    case Drawn(_) => 13
    case Publishing(_) => 12
    case Published(_) => 11
    case Choosing(_, _, _) => 10
    case Removing(_, _) => 9
    case RemovingHeld(_, _) => 8
    case Filing(_) => 7
    case Assigned(_) => 6
    case Touching(_) => 5
    case Judging(_) => 4
    case WantRewrite(_, _) => 3
    case Rewriting(_, _) => 2
    case _ => 0
  }

  /** How many clusters a scan has before it, and how far it is from the next one's end. */
  function Turns(point: Point): (nat, nat) {
    match point
    case Scanning(_, todo, _, grip) => (|todo|, if grip.NoGrip? then 2 else if grip.OnBucket? then 1 else 0)
    case Choosing(_, todo, grip) => (|todo|, if grip.NoGrip? then 2 else if grip.OnBucket? then 1 else 0)
    case _ => (0, 0)
  }

  predicate Descends(a: Point, b: Point) {
    || Stage(b) < Stage(a)
    || (Stage(b) == Stage(a) && Turns(b).0 < Turns(a).0)
    || (Stage(b) == Stage(a) && Turns(b).0 == Turns(a).0 && Turns(b).1 < Turns(a).1)
  }

  /** Whatever the other operations do in between, each step of an add or a query descends in a well-founded
      order, so it takes finitely many; with `NoDeadlock`, no interleaving can go on for ever among them. */
  lemma OwnStepsDescend(p: Params, m: Memory, op: Op, choice: nat)
    requires p.options.Valid() && Ready(p, m, op, choice) && !Finished(op)
    requires !op.point.Collecting? && !op.job.Snapshotting?
    ensures Descends(op.point, Advance(p, m, op, choice).point)
  {
  }

  // ---------------------------------------------------------------- an add left alone returns

  function LastOf(ws: seq<World>): World
    requires ws != []
  {
    ws[|ws| - 1]
  }

  /** No operation but `t` holds a lock. */
  ghost predicate Undisturbed(p: Params, w: World, t: OpId) {
    t in w.ops && forall u | u in w.ops && u != t :: Held(p, w.ops[u]) == {}
  }

  lemma OnTrackIsReady(p: Params, st: State, r: Request, m: Memory, op: Op)
    requires II.Inv(p.options, st) && OnTrack(p, st, r, m, op) && !Finished(op)
    ensures Ready(p, m, op, Chosen(p, st, m, op)) && !op.point.Collecting? && !op.job.Snapshotting?
  {
    hide KeyOf, ScanLeaf, Reaches, SwapRemove, Observed, Touched, EndsAsAdd;
    if MatchingPoint(op.point) { TouchKeepsTokens(st.bodies[op.point.id], st.tick, r.event); }
  }

  /** One more world. */
  lemma Continues(p: Params, st: State, ws: seq<World>, w: World)
    requires p.options.Valid() && Behavior(p, st, ws) && Next(p, LastOf(ws), w)
    ensures Behavior(p, st, ws + [w])
  {
    hide Next, Rest;
    var more := ws + [w];
    forall i | 0 <= i < |more| - 1
      ensures Next(p, more[i], more[i + 1])
    {
      if i < |ws| - 1 { assert Next(p, ws[i], ws[i + 1]); }
    }
  }

  /** The operation has not been assigned to an existing cluster. */
  predicate Unmatched(point: Point) {
    !MatchingPoint(point) && (point.Added? ==> point.result.update.Created?)
  }

  lemma MatchesByAssignment(p: Params, m: Memory, op: Op, choice: nat)
    requires p.options.Valid() && Ready(p, m, op, choice) && !Finished(op) && Unmatched(op.point)
    ensures var next := Advance(p, m, op, choice).point; next.Assigned? || Unmatched(next)
  {
  }

  lemma MovesOn(p: Params, st: State, r: Request, w: World, t: OpId) returns (w': World)
    requires II.Inv(p.options, st) && Undisturbed(p, w, t) && OnTrack(p, st, r, w.mem, w.ops[t]) && !Finished(w.ops[t])
    ensures Next(p, w, w') && t in w'.ops && w'.ops == w.ops[t := w'.ops[t]]
    ensures OnTrack(p, st, r, w'.mem, w'.ops[t]) && Descends(w.ops[t].point, w'.ops[t].point)
    ensures Unmatched(w.ops[t].point) && !w'.ops[t].point.Assigned? ==> Unmatched(w'.ops[t].point)
  {
    hide OnTrack, Ready, Chosen, Advance, Effect, Held, Wanted;
    var c := Chosen(p, st, w.mem, w.ops[t]);
    OnTrackIsReady(p, st, r, w.mem, w.ops[t]);
    StepStaysOnTrack(p, st, r, w.mem, w.ops[t]);
    OwnStepsDescend(p, w.mem, w.ops[t], c);
    if Unmatched(w.ops[t].point) { MatchesByAssignment(p, w.mem, w.ops[t], c); }
    assert Enabled(p, w, t, c);
    w' := Move(p, w, t, c);
  }

  /** While nobody else holds a lock, an add on its way returns; with `pause`, it may instead be stopped when it
      has been assigned to a cluster and has yet to apply the match. */
  lemma {:induction false} RunsToItsEnd(p: Params, st: State, r: Request, t: OpId, ws: seq<World>, pause: bool)
    returns (more: seq<World>)
    requires II.Inv(p.options, st) && Behavior(p, st, ws) && ws != []
    requires Undisturbed(p, LastOf(ws), t) && OnTrack(p, st, r, LastOf(ws).mem, LastOf(ws).ops[t])
    requires pause ==> Unmatched(LastOf(ws).ops[t].point)
    ensures ws <= more && Behavior(p, st, more) && more != []
    ensures var w, w' := LastOf(ws), LastOf(more);
            && t in w'.ops && w'.ops == w.ops[t := w'.ops[t]]
            && OnTrack(p, st, r, w'.mem, w'.ops[t])
            && (Finished(w'.ops[t]) || (pause && w'.ops[t].point.Assigned?))
            && (pause ==> w'.ops[t].point.Assigned? || Unmatched(w'.ops[t].point))
    decreases Stage(LastOf(ws).ops[t].point), Turns(LastOf(ws).ops[t].point).0, Turns(LastOf(ws).ops[t].point).1
  {
    hide OnTrack, Behavior, Next, Held;
    var w := LastOf(ws);
    if Finished(w.ops[t]) {
      more := ws;
    } else {
      var w' := MovesOn(p, st, r, w, t);
      Continues(p, st, ws, w');
      if pause && w'.ops[t].point.Assigned? {
        more := ws + [w'];
      } else {
        more := RunsToItsEnd(p, st, r, t, ws + [w'], pause);
      }
    }
  }

  /** An add that is begun on a miner at rest and left alone returns, with the state and the result of the
      sequential step. */
  lemma LoneAddReturns(p: Params, st: State, r: Request, t: OpId)
    returns (ws: seq<World>)
    requires II.Inv(p.options, st) && CountsFit(st)
    ensures Behavior(p, st, ws) && t in LastOf(ws).ops
    ensures LastOf(ws).ops[t].point == Added(Add(p.options, st, r).1)
    ensures AsState(LastOf(ws).mem).(tick := st.tick + 1) == Add(p.options, st, r).0
  {
    hide Add, AsState, CountsFit;
    var w := Invoke(Rest(st), t, Adding(r));
    assert Next(p, Rest(st), w);
    StartsOnTrack(p, st, r, t);
    Continues(p, st, [Rest(st)], w);
    ws := RunsToItsEnd(p, st, r, t, [Rest(st), w], false);
  }
}
