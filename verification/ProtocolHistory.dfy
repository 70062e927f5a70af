/** What the operations of an interleaving add up to: sizes count the lines, templates are the least general
    ones of the lines, and each template changes only so often
    (crates/logdrain/src/miner.rs:191-206 and 239-273, crates/logdrain/src/cluster.rs:92-120 and 159-174). */
module ProtocolHistory {
  import opened Wrappers
  import opened Options
  import opened Templates
  import opened Index
  import II = IndexInvariant
  import opened Snapshots
  import opened Protocol
  import opened ProtocolLocks
  import opened ProtocolIndex
  import opened ProtocolSafety

  /** The cluster that counts the operation's line: it has been touched for it, or made from it. */
  function CountedOn(op: Op): Option<Id> {
    match op.point
    case Published(id) => Some(id)
    case Choosing(id, _, _) => Some(id)
    case Removing(id, _) => Some(id)
    case RemovingHeld(id, _) => Some(id)
    case Filing(id) => Some(id)
    case Judging(id) => Some(id)
    case WantRewrite(id, _) => Some(id)
    case Rewriting(id, _) => Some(id)
    case Added(r) => Some(r.id)
    case _ => None
  }

  predicate Makes(op: Op, id: Id) {
    Own(op) == Some(id) && CountedOn(op) == Some(id)
  }

  function Hits(w: World, id: Id): set<OpId> {
    set t | t in w.ops && CountedOn(w.ops[t]) == Some(id)
  }

  function Changes(w: World, id: Id): set<OpId> {
    set t | t in w.ops && w.ops[t].point == Added(AddResult(id, TemplateChanged))
  }

  function SizeIn(bodies: map<Id, Body>, id: Id): nat {
    if id in bodies then bodies[id].size else 0
  }

  // ---------------------------------------------------------------- the history kept by an interleaving

  /** Each body counts what it started with and the operations counted on it. */
  ghost predicate SizesAddUp(st: State, w: World) {
    forall id :: SizeIn(w.mem.bodies, id) == SizeIn(st.bodies, id) + |Hits(w, id)|
  }

  /** Each body beyond the initial ones was made by an operation. */
  ghost predicate AllMade(st: State, w: World) {
    && (forall id | id in w.mem.bodies :: id in st.bodies || exists t :: t in w.ops && Makes(w.ops[t], id))
    && (forall t | t in w.ops && Own(w.ops[t]).Some? :: st.counter < Own(w.ops[t]).value)
  }

  /** A line counted on the cluster differs at position `i` from the template it was made with. */
  ghost predicate Differs(w: World, id: Id, i: nat)
    requires id in w.mem.origin
  {
    exists t :: t in w.ops && CountedOn(w.ops[t]) == Some(id)
                && i < |Line(w.ops[t])| && i < |w.mem.origin[id]|
                && Line(w.ops[t])[i].text != w.mem.origin[id][i].text
  }

  /** Where a template has changed, some line made it. */
  ghost predicate ChangesJustified(w: World) {
    forall id, i | id in w.mem.bodies && id in w.mem.origin
                   && 0 <= i < |w.mem.bodies[id].tokens| && i < |w.mem.origin[id]|
                   && w.mem.bodies[id].tokens[i].text != w.mem.origin[id][i].text :: Differs(w, id, i)
  }

  /** Every reported change used up a non-wildcard position. */
  ghost predicate ChangesPaid(p: Params, w: World) {
    forall id | id in w.mem.bodies && id in w.mem.origin ::
      |Changes(w, id)| + NonWild(w.mem.bodies[id].tokens, p.options.wildcard)
      <= NonWild(w.mem.origin[id], p.options.wildcard)
  }

  // ---------------------------------------------------------------- single steps

  predicate Counts(op: Op) {
    op.point.Touching? || op.point.Publishing?
  }

  lemma StepCounts(p: Params, m: Memory, op: Op, choice: nat)
    requires p.options.Valid() && Ready(p, m, op, choice)
    ensures CountedOn(Advance(p, m, op, choice)) == if Counts(op) then Some(op.point.id) else CountedOn(op)
    ensures Counts(op) ==> CountedOn(op).None?
    ensures op.point.Rewriting? ==> CountedOn(op) == Some(op.point.id)
    ensures Advance(p, m, op, choice).point.Added? ==> CountedOn(op).Some?
  {
    hide KeyOf, WouldGeneralize;
  }

  lemma CountedFits(p: Params, m: Memory, op: Op)
    requires p.options.Valid() && OpOk(p, m, op)
    ensures CountedOn(op).Some? ==> Fits(p, m, CountedOn(op).value, Line(op))
  {
  }

  lemma StepSizes(p: Params, m: Memory, op: Op, choice: nat, id: Id)
    requires p.options.Valid() && CanStep(p, m, op, choice)
    ensures SizeIn(Effect(p, m, op, choice).bodies, id)
         == SizeIn(m.bodies, id) + if Counts(op) && op.point.id == id then 1 else 0
  {
    hide Similarity, DescentKeys, MoreGeneral, Covers, ScanOk, CreatorOk, BodyOk, LeafOk, RecordsOk, Generalize,
      WouldGeneralize;
  }

  lemma StepMakes(p: Params, m: Memory, op: Op, choice: nat, id: Id)
    requires p.options.Valid() && Ready(p, m, op, choice)
    ensures id in Effect(p, m, op, choice).bodies ==> id in m.bodies || Makes(Advance(p, m, op, choice), id)
    ensures Makes(op, id) ==> Makes(Advance(p, m, op, choice), id)
  {
    hide KeyOf, WouldGeneralize, Rewritten, Observed, Touched, NewBody;
  }

  /** A position changes only by an operation counted on the cluster, whose line differs there. */
  lemma StepDiffers(p: Params, m: Memory, op: Op, choice: nat, id: Id, i: nat)
    requires p.options.Valid() && CanStep(p, m, op, choice)
    requires id in m.bodies && id in Effect(p, m, op, choice).bodies
    requires i < |Effect(p, m, op, choice).bodies[id].tokens|
    ensures var t := Effect(p, m, op, choice).bodies[id].tokens;
            && |t| == |m.bodies[id].tokens|
            && (t[i].text != m.bodies[id].tokens[i].text ==>
                  CountedOn(op) == Some(id) && i < |Line(op)| && Line(op)[i].text != m.bodies[id].tokens[i].text)
  {
    hide Similarity, DescentKeys, MoreGeneral, Covers, ScanOk, CreatorOk, BodyOk, LeafOk, RecordsOk, WouldGeneralize;
  }

  /** A reported change leaves fewer non-wildcard positions. */
  lemma StepPays(p: Params, m: Memory, op: Op, choice: nat, id: Id)
    requires p.options.Valid() && CanStep(p, m, op, choice) && !Finished(op) && id in m.bodies
    ensures id in Effect(p, m, op, choice).bodies
    ensures var n, n' := NonWild(m.bodies[id].tokens, p.options.wildcard),
                         NonWild(Effect(p, m, op, choice).bodies[id].tokens, p.options.wildcard);
            n' <= n && (Advance(p, m, op, choice).point == Added(AddResult(id, TemplateChanged)) ==> n' < n)
  {
    hide Similarity, KeyOf, Covers, ScanOk, CreatorOk, BodyOk, LeafOk, RecordsOk, MoreGeneral, Generalize,
      WouldGeneralize;
    EffectGrows(p, m, op, choice);
    var m' := Effect(p, m, op, choice);
    NonWildDecreases(m.bodies[id].tokens, m'.bodies[id].tokens, p.options.wildcard);
    if op.point.Rewriting? {
      GeneralizeIsMoreGeneral(m.bodies[op.point.id].tokens, Line(op), p.options.wildcard);
    }
  }

  // ---------------------------------------------------------------- every step keeps the history

  ghost predicate History(p: Params, st: State, w: World) {
    SizesAddUp(st, w) && AllMade(st, w) && ChangesJustified(w) && ChangesPaid(p, w)
  }

  lemma MoveKeepsSizes(p: Params, st: State, w: World, t: OpId, choice: nat)
    requires Inv(p, w) && Enabled(p, w, t, choice) && SizesAddUp(st, w)
    ensures SizesAddUp(st, Move(p, w, t, choice))
  {
    hide Advance, Effect, OpOk, MemoryOk, Exclusion, Accounted, OwnIds, Ready, Held, Available, Wanted, CountedOn,
      SizeIn;
    var w' := Move(p, w, t, choice);
    StepCounts(p, w.mem, w.ops[t], choice);
    forall id
      ensures SizeIn(w'.mem.bodies, id) == SizeIn(st.bodies, id) + |Hits(w', id)|
    {
      StepSizes(p, w.mem, w.ops[t], choice, id);
      if Counts(w.ops[t]) && w.ops[t].point.id == id {
        assert Hits(w', id) == Hits(w, id) + {t};
      } else {
        assert Hits(w', id) == Hits(w, id);
      }
    }
  }

  lemma MoveKeepsMakers(p: Params, st: State, w: World, t: OpId, choice: nat)
    requires Inv(p, w) && Enabled(p, w, t, choice) && AllMade(st, w) && st.counter <= w.mem.counter
    ensures AllMade(st, Move(p, w, t, choice))
  {
    hide Advance, Effect, OpOk, MemoryOk, Exclusion, Accounted, OwnIds, Ready, Held, Available, Wanted, Makes, Own;
    var w' := Move(p, w, t, choice);
    StepOwns(p, w.mem, w.ops[t], choice);
    forall id | id in w'.mem.bodies && id !in st.bodies
      ensures exists u :: u in w'.ops && Makes(w'.ops[u], id)
    {
      StepMakes(p, w.mem, w.ops[t], choice, id);
      if !Makes(w'.ops[t], id) {
        var u :| u in w.ops && Makes(w.ops[u], id);
        assert w'.ops[u] == w.ops[u];
      }
    }
  }

  lemma MoveKeepsJustified(p: Params, w: World, t: OpId, choice: nat)
    requires Inv(p, w) && Enabled(p, w, t, choice) && ChangesJustified(w)
    ensures ChangesJustified(Move(p, w, t, choice))
  {
    hide Advance, Effect, OpOk, Exclusion, Accounted, OwnIds, Ready, Held, Available, Wanted, CountedOn, LeafOk,
      MoreGeneral, KeyOf;
    var w' := Move(p, w, t, choice);
    EffectGrows(p, w.mem, w.ops[t], choice);
    AdvanceHolds(p, w.mem, w.ops[t], choice);
    StepCounts(p, w.mem, w.ops[t], choice);
    forall id, i | id in w'.mem.bodies && id in w'.mem.origin
                   && 0 <= i < |w'.mem.bodies[id].tokens| && i < |w'.mem.origin[id]|
                   && w'.mem.bodies[id].tokens[i].text != w'.mem.origin[id][i].text
      ensures Differs(w', id, i)
    {
      if id in w.mem.bodies {
        assert BodyOk(p, w.mem, id);
        StepDiffers(p, w.mem, w.ops[t], choice, id, i);
        if w.mem.bodies[id].tokens[i].text != w.mem.origin[id][i].text {
          var u :| u in w.ops && CountedOn(w.ops[u]) == Some(id) && i < |Line(w.ops[u])|
                   && Line(w.ops[u])[i].text != w.mem.origin[id][i].text;
          assert CountedOn(w'.ops[u]) == Some(id) && Line(w'.ops[u]) == Line(w.ops[u]);
        } else {
          assert CountedOn(w'.ops[t]) == Some(id) && Line(w'.ops[t]) == Line(w.ops[t]);
        }
      } else {
        NewBodyIsItsOrigin(p, w.mem, w.ops[t], choice, id);
      }
    }
  }

  lemma NewBodyIsItsOrigin(p: Params, m: Memory, op: Op, choice: nat, id: Id)
    requires p.options.Valid() && CanStep(p, m, op, choice) && id !in m.bodies && id in Effect(p, m, op, choice).bodies
    ensures var m' := Effect(p, m, op, choice);
            id in m'.origin && m'.bodies[id].tokens == m'.origin[id] && CountedOn(op).None? && Own(op) == Some(id)
  {
    hide Similarity, DescentKeys, MoreGeneral, Covers, ScanOk, CreatorOk, BodyOk, LeafOk, RecordsOk, WouldGeneralize;
  }

  lemma ChangesMove(p: Params, w: World, t: OpId, choice: nat, id: Id)
    requires p.options.Valid() && Enabled(p, w, t, choice)
    ensures |Changes(Move(p, w, t, choice), id)|
         <= |Changes(w, id)|
            + if Advance(p, w.mem, w.ops[t], choice).point == Added(AddResult(id, TemplateChanged)) then 1 else 0
  {
    hide Advance, Effect, Ready, Held, Available, Wanted;
    var w' := Move(p, w, t, choice);
    assert Changes(w', id) <= Changes(w, id) + {t};
    if w'.ops[t].point == Added(AddResult(id, TemplateChanged)) {
      SubsetSize(Changes(w', id), Changes(w, id) + {t});
    } else {
      SubsetSize(Changes(w', id), Changes(w, id));
    }
  }

  lemma MoveKeepsPaid(p: Params, w: World, t: OpId, choice: nat)
    requires Inv(p, w) && Enabled(p, w, t, choice) && ChangesPaid(p, w)
    ensures ChangesPaid(p, Move(p, w, t, choice))
  {
    hide Advance, Effect, OpOk, Exclusion, Accounted, OwnIds, Ready, Held, Available, Wanted, CountedOn, LeafOk,
      MoreGeneral, KeyOf, NonWild, Changes;
    var w' := Move(p, w, t, choice);
    EffectGrows(p, w.mem, w.ops[t], choice);
    forall id | id in w'.mem.bodies && id in w'.mem.origin
      ensures |Changes(w', id)| + NonWild(w'.mem.bodies[id].tokens, p.options.wildcard)
           <= NonWild(w'.mem.origin[id], p.options.wildcard)
    {
      if id in w.mem.bodies {
        assert BodyOk(p, w.mem, id);
        StepPays(p, w.mem, w.ops[t], choice, id);
        ChangesMove(p, w, t, choice, id);
      } else {
        NewBodyIsItsOrigin(p, w.mem, w.ops[t], choice, id);
        NothingChangedYet(p, w, t, choice, id);
      }
    }
  }

  lemma NothingChangedYet(p: Params, w: World, t: OpId, choice: nat, id: Id)
    requires Inv(p, w) && Enabled(p, w, t, choice) && id !in w.mem.bodies && CountedOn(w.ops[t]).None?
    ensures Changes(Move(p, w, t, choice), id) == {}
  {
    hide Effect, Advance, OpOk, MemoryOk, Exclusion, Accounted, OwnIds, Held, Available, Wanted, KeyOf;
    StepCounts(p, w.mem, w.ops[t], choice);
    forall u | u in w.ops
      ensures CountedOn(w.ops[u]) != Some(id)
    {
      CountedFits(p, w.mem, w.ops[u]);
    }
  }

  /** A new operation is counted nowhere and has reported nothing. */
  lemma InvokeAddsNothing(w: World, t: OpId, job: Job, id: Id)
    requires t !in w.ops
    ensures Hits(Invoke(w, t, job), id) == Hits(w, id) && Changes(Invoke(w, t, job), id) == Changes(w, id)
  {
  }

  lemma InvokeKeepsSizes(st: State, w: World, t: OpId, job: Job)
    requires t !in w.ops && SizesAddUp(st, w)
    ensures SizesAddUp(st, Invoke(w, t, job))
  {
    hide Hits, SizeIn;
    forall id
      ensures Hits(Invoke(w, t, job), id) == Hits(w, id)
    {
      InvokeAddsNothing(w, t, job, id);
    }
  }

  lemma InvokeKeepsMakers(st: State, w: World, t: OpId, job: Job)
    requires t !in w.ops && AllMade(st, w)
    ensures AllMade(st, Invoke(w, t, job))
  {
    hide Makes;
    var w' := Invoke(w, t, job);
    forall id | id in w'.mem.bodies && id !in st.bodies
      ensures exists u :: u in w'.ops && Makes(w'.ops[u], id)
    {
      var u :| u in w.ops && Makes(w.ops[u], id);
      assert w'.ops[u] == w.ops[u];
    }
  }

  lemma InvokeKeepsJustified(w: World, t: OpId, job: Job)
    requires t !in w.ops && ChangesJustified(w)
    ensures ChangesJustified(Invoke(w, t, job))
  {
    hide CountedOn;
    var w' := Invoke(w, t, job);
    forall id, i: nat | id in w.mem.origin && Differs(w, id, i)
      ensures Differs(w', id, i)
    {
      var u :| u in w.ops && CountedOn(w.ops[u]) == Some(id) && i < |Line(w.ops[u])| && i < |w.mem.origin[id]|
               && Line(w.ops[u])[i].text != w.mem.origin[id][i].text;
      assert w'.ops[u] == w.ops[u];
    }
  }

  lemma InvokeKeepsPaid(p: Params, w: World, t: OpId, job: Job)
    requires t !in w.ops && ChangesPaid(p, w)
    ensures ChangesPaid(p, Invoke(w, t, job))
  {
    hide Changes, NonWild;
    forall id
      ensures Changes(Invoke(w, t, job), id) == Changes(w, id)
    {
      InvokeAddsNothing(w, t, job, id);
    }
  }

  lemma NextKeepsHistory(p: Params, st: State, w: World, w': World)
    requires p.options.Valid() && Inv(p, w) && Next(p, w, w') && History(p, st, w) && st.counter <= w.mem.counter
    ensures History(p, st, w') && st.counter <= w'.mem.counter
  {
    hide Inv, Advance, Effect, Enabled, SizesAddUp, AllMade, ChangesJustified, ChangesPaid;
    if t, job :| t !in w.ops && w' == Invoke(w, t, job) {
      InvokeKeepsSizes(st, w, t, job);
      InvokeKeepsMakers(st, w, t, job);
      InvokeKeepsJustified(w, t, job);
      InvokeKeepsPaid(p, w, t, job);
    } else {
      var t, choice :| Enabled(p, w, t, choice) && w' == Move(p, w, t, choice);
      MoveKeepsSizes(p, st, w, t, choice);
      MoveKeepsMakers(p, st, w, t, choice);
      MoveKeepsJustified(p, w, t, choice);
      MoveKeepsPaid(p, w, t, choice);
      MoveKeepsCounter(p, w, t, choice);
    }
  }

  lemma MoveKeepsCounter(p: Params, w: World, t: OpId, choice: nat)
    requires Inv(p, w) && Enabled(p, w, t, choice)
    ensures w.mem.counter <= Move(p, w, t, choice).mem.counter
  {
    hide Advance, Effect, OpOk, Exclusion, Accounted, OwnIds, Ready, Held, Available, Wanted, MemoryOk;
    EffectGrows(p, w.mem, w.ops[t], choice);
  }

  lemma RestHasHistory(p: Params, st: State)
    requires II.Inv(p.options, st)
    ensures History(p, st, Rest(st))
  {
    assert forall id :: Hits(Rest(st), id) == {} && Changes(Rest(st), id) == {};
  }

  lemma {:induction false} BehaviorKeepsHistory(p: Params, st: State, ws: seq<World>, i: nat)
    requires II.Inv(p.options, st) && Behavior(p, st, ws) && i < |ws|
    ensures History(p, st, ws[i]) && st.counter <= ws[i].mem.counter
  {
    hide Next, Inv, History;
    if i == 0 {
      RestHasHistory(p, st);
    } else {
      BehaviorKeepsHistory(p, st, ws, i - 1);
      BehaviorKeepsInv(p, st, ws, i - 1);
      assert Next(p, ws[i - 1], ws[i - 1 + 1]);
      NextKeepsHistory(p, st, ws[i - 1], ws[i]);
    }
  }
}
