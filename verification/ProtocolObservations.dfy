/** The event windows and member labels of bodies in every interleaving
    (crates/logdrain/src/miner.rs:193-203 and 247-264, crates/logdrain/src/cluster.rs:98-103 and 119-124). */
module ProtocolObservations {
  import opened Wrappers
  import opened Options
  import opened Templates
  import opened Index
  import II = IndexInvariant
  import opened Observations
  import opened Protocol
  import opened ProtocolLocks
  import opened ProtocolIndex
  import opened ProtocolSafety
  import opened ProtocolHistory

  /** The cluster that the operation has recorded its member label on. */
  function WroteOn(op: Op): Option<Id> {
    if op.point.Judging? || op.point.WantRewrite? || op.point.Rewriting? then None else CountedOn(op)
  }

  function EventOf(op: Op): Option<nat> {
    if op.job.Adding? then op.job.request.event else None
  }

  function MemberOf(op: Op): Option<string> {
    if op.job.Adding? then op.job.request.member else None
  }

  /** The events of the operations counted on the cluster. */
  function EventsOn(w: World, id: Id): set<nat> {
    set t | t in w.ops && CountedOn(w.ops[t]) == Some(id) && EventOf(w.ops[t]).Some? :: EventOf(w.ops[t]).value
  }

  function LabelsOn(w: World, id: Id): set<string> {
    set t | t in w.ops && WroteOn(w.ops[t]) == Some(id) && MemberOf(w.ops[t]).Some? :: MemberOf(w.ops[t]).value
  }

  function Start(st: State, id: Id): (nat, nat, seq<string>) {
    if id in st.bodies then (st.bodies[id].eventFirst, st.bodies[id].eventLast, st.bodies[id].members)
    else (EVENT_UNSET, 0, [])
  }

  ghost predicate Remembers(st: State, w: World, id: Id)
    requires id in w.mem.bodies
  {
    && WindowOf(w.mem.bodies[id], EventsOn(w, id), Start(st, id).0, Start(st, id).1)
    && MembersOf(w.mem.bodies[id], LabelsOn(w, id), Start(st, id).2)
  }

  ghost predicate AllRemember(st: State, w: World) {
    && (forall id | id in w.mem.bodies :: Remembers(st, w, id))
    && (forall id | id in st.bodies :: id in w.mem.bodies)
  }

  // ---------------------------------------------------------------- single steps

  function Gains(op: Op, id: Id): Option<nat> {
    if Counts(op) && op.point.id == id then EventOf(op) else None
  }

  function Records(op: Op, id: Id): Option<string> {
    if (op.point.Publishing? || op.point.Rewriting?) && op.point.id == id then MemberOf(op) else None
  }

  lemma StepRemembers(p: Params, m: Memory, op: Op, choice: nat, id: Id, events: set<nat>, labels: set<string>,
                      start: (nat, nat, seq<string>))
    requires p.options.Valid() && CanStep(p, m, op, choice) && id in m.bodies
    requires WindowOf(m.bodies[id], events, start.0, start.1) && MembersOf(m.bodies[id], labels, start.2)
    ensures var m' := Effect(p, m, op, choice);
            && id in m'.bodies
            && WindowOf(m'.bodies[id], events + EventsOf(Gains(op, id)), start.0, start.1)
            && MembersOf(m'.bodies[id], labels + LabelsOf(Records(op, id)), start.2)
  {
    hide WindowOf, MembersOf, KeyOf, MoreGeneral, Covers, Similarity, MemoryOk, ScanOk, CreatorOk, Observed, Touched,
      Rewritten;
    var b := m.bodies[id];
    assert events + {} == events && labels + {} == labels;
    if op.point.Touching? && op.point.id == id {
      TouchObserves(b, events, start.0, start.1, choice, op.job.request.event);
      SameMembers(b, Observed(Touched(b, choice), op.job.request.event), labels, start.2);
    } else if op.point.Rewriting? && op.point.id == id {
      RewriteObserves(b, op.job.request, op.point.needs, p.options.wildcard, events, start.0, start.1, labels, start.2);
    }
  }

  lemma SameMembers(a: Body, b: Body, labels: set<string>, start: seq<string>)
    requires MembersOf(a, labels, start) && a.members == b.members
    ensures MembersOf(b, labels, start)
  {
  }

  lemma NewBodyRemembers(p: Params, m: Memory, op: Op, choice: nat, id: Id)
    requires p.options.Valid() && CanStep(p, m, op, choice) && id !in m.bodies && id in Effect(p, m, op, choice).bodies
    ensures op.point.Publishing? && op.point.id == id
    ensures var b := Effect(p, m, op, choice).bodies[id];
            && WindowOf(b, EventsOf(EventOf(op)), EVENT_UNSET, 0)
            && MembersOf(b, LabelsOf(MemberOf(op)), [])
  {
    hide WindowOf, MembersOf, KeyOf, MoreGeneral, Covers, Similarity, MemoryOk, ScanOk, CreatorOk, Observed, Touched,
      Rewritten,
      NewBody;
    NewObserves(id, op.job.request, choice);
  }

  lemma StepWrites(p: Params, m: Memory, op: Op, choice: nat)
    requires p.options.Valid() && CanStep(p, m, op, choice)
    ensures var op' := Advance(p, m, op, choice);
            && op'.job == op.job
            && (op.point.Publishing? || op.point.Rewriting? ==> WroteOn(op).None? && WroteOn(op') == Some(op.point.id))
            && (!op.point.Publishing? && !op.point.Rewriting? ==> WroteOn(op') == WroteOn(op) || MemberOf(op).None?)
  {
    hide KeyOf, MoreGeneral, Covers, Similarity, MemoryOk, ScanOk, CreatorOk, OwnOk, AddedOk, AnswerOk, RecordsOk,
      WouldGeneralize;
  }

  // ---------------------------------------------------------------- every step

  lemma EventsMove(p: Params, w: World, t: OpId, choice: nat, id: Id)
    requires Inv(p, w) && Enabled(p, w, t, choice)
    ensures EventsOn(Move(p, w, t, choice), id) == EventsOn(w, id) + EventsOf(Gains(w.ops[t], id))
  {
    hide Advance, Effect, OpOk, MemoryOk, Exclusion, Accounted, OwnIds, Ready, Held, Available, Wanted, CountedOn;
    var w' := Move(p, w, t, choice);
    AdvanceHolds(p, w.mem, w.ops[t], choice);
    StepCounts(p, w.mem, w.ops[t], choice);
    forall e | e in EventsOn(w, id) + EventsOf(Gains(w.ops[t], id))
      ensures e in EventsOn(w', id)
    {
      if e in EventsOn(w, id) {
        var u :| u in w.ops && CountedOn(w.ops[u]) == Some(id) && EventOf(w.ops[u]) == Some(e);
        assert CountedOn(w'.ops[u]) == Some(id) && EventOf(w'.ops[u]) == Some(e);
      } else {
        assert CountedOn(w'.ops[t]) == Some(id) && EventOf(w'.ops[t]) == Some(e);
      }
    }
  }

  lemma LabelsMove(p: Params, w: World, t: OpId, choice: nat, id: Id)
    requires Inv(p, w) && Enabled(p, w, t, choice)
    ensures LabelsOn(Move(p, w, t, choice), id) == LabelsOn(w, id) + LabelsOf(Records(w.ops[t], id))
  {
    hide Advance, Effect, OpOk, MemoryOk, Exclusion, Accounted, OwnIds, Ready, Held, Available, Wanted, WroteOn;
    var w' := Move(p, w, t, choice);
    StepWrites(p, w.mem, w.ops[t], choice);
    forall m | m in LabelsOn(w, id) + LabelsOf(Records(w.ops[t], id))
      ensures m in LabelsOn(w', id)
    {
      if m in LabelsOn(w, id) {
        var u :| u in w.ops && WroteOn(w.ops[u]) == Some(id) && MemberOf(w.ops[u]) == Some(m);
        assert WroteOn(w'.ops[u]) == Some(id) && MemberOf(w'.ops[u]) == Some(m);
      } else {
        assert WroteOn(w'.ops[t]) == Some(id) && MemberOf(w'.ops[t]) == Some(m);
      }
    }
  }

  lemma MoveRemembers(p: Params, st: State, w: World, t: OpId, choice: nat)
    requires Inv(p, w) && Enabled(p, w, t, choice) && AllRemember(st, w)
    ensures AllRemember(st, Move(p, w, t, choice))
  {
    hide Advance, Effect, OpOk, MemoryOk, Exclusion, Accounted, OwnIds, Ready, Held, Available, Wanted, EventsOn,
      LabelsOn,
      WindowOf, MembersOf, Gains, Records;
    var w' := Move(p, w, t, choice);
    EffectGrows(p, w.mem, w.ops[t], choice);
    forall id | id in w'.mem.bodies
      ensures Remembers(st, w', id)
    {
      EventsMove(p, w, t, choice, id);
      LabelsMove(p, w, t, choice, id);
      if id in w.mem.bodies {
        StepRemembers(p, w.mem, w.ops[t], choice, id, EventsOn(w, id), LabelsOn(w, id), Start(st, id));
      } else {
        NewBodyRemembers(p, w.mem, w.ops[t], choice, id);
        NothingYet(p, w, id);
        GainsAll(w.ops[t], id);
      }
    }
  }

  lemma NothingYet(p: Params, w: World, id: Id)
    requires Inv(p, w) && id !in w.mem.bodies
    ensures EventsOn(w, id) == {} && LabelsOn(w, id) == {}
  {
    hide Exclusion, MemoryOk, Accounted, OwnIds, KeyOf, Covers, MoreGeneral, Similarity;
    forall t | t in w.ops
      ensures CountedOn(w.ops[t]) != Some(id)
    {
      CountedExists(p, w.mem, w.ops[t]);
    }
  }

  lemma CountedExists(p: Params, m: Memory, op: Op)
    requires p.options.Valid() && OpOk(p, m, op)
    ensures CountedOn(op).Some? ==> CountedOn(op).value in m.bodies
  {
  }

  lemma GainsAll(op: Op, id: Id)
    requires op.point.Publishing? && op.point.id == id
    ensures {} + EventsOf(Gains(op, id)) == EventsOf(EventOf(op))
    ensures {} + LabelsOf(Records(op, id)) == LabelsOf(MemberOf(op))
  {
  }

  lemma InvokeRemembers(st: State, w: World, t: OpId, job: Job)
    requires t !in w.ops && AllRemember(st, w)
    ensures AllRemember(st, Invoke(w, t, job))
  {
    hide WindowOf, MembersOf;
    var w' := Invoke(w, t, job);
    forall id
      ensures EventsOn(w', id) == EventsOn(w, id) && LabelsOn(w', id) == LabelsOn(w, id)
    {
      forall u | u in w.ops
        ensures w'.ops[u] == w.ops[u]
      {
      }
    }
    assert forall id | id in w.mem.bodies :: Remembers(st, w, id);
  }

  lemma RestRemembers(st: State)
    ensures AllRemember(st, Rest(st))
  {
    assert forall id :: EventsOn(Rest(st), id) == {} && LabelsOn(Rest(st), id) == {};
  }

  /** In every state of every interleaving, the event window of a body spans exactly the window it started with and
      the events of the operations counted on it, and its members are exactly the labels recorded on it, each once. */
  lemma {:induction false} BodiesRemember(p: Params, st: State, ws: seq<World>, i: nat)
    requires II.Inv(p.options, st) && Behavior(p, st, ws) && i < |ws|
    ensures AllRemember(st, ws[i])
  {
    hide Inv, Enabled, Move, Invoke, AllRemember;
    if i == 0 {
      RestRemembers(st);
    } else {
      var w := ws[i - 1];
      BodiesRemember(p, st, ws, i - 1);
      BehaviorKeepsInv(p, st, ws, i - 1);
      assert Next(p, w, ws[i - 1 + 1]);
      if t, job :| t !in w.ops && ws[i] == Invoke(w, t, job) {
        InvokeRemembers(st, w, t, job);
      } else {
        var t, choice :| Enabled(p, w, t, choice) && ws[i] == Move(p, w, t, choice);
        MoveRemembers(p, st, w, t, choice);
      }
    }
  }
}
