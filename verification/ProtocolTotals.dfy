/** Conservation, template and churn results for every interleaving
    (crates/logdrain/src/miner.rs:176-273, crates/logdrain/src/cluster.rs:92-120 and 159-174). */
module ProtocolTotals {
  import opened Wrappers
  import opened Tokenizer
  import opened Rendering
  import opened Options
  import opened Templates
  import opened Index
  import II = IndexInvariant
  import opened Protocol
  import opened ProtocolLocks
  import opened ProtocolIndex
  import opened ProtocolSafety
  import opened ProtocolCreation
  import opened ProtocolHistory

  // ---------------------------------------------------------------- conservation of counts

  /** The sizes of all bodies numbered up to `n`. */
  function TotalSize(bodies: map<Id, Body>, n: nat): nat {
    if n == 0 then 0 else TotalSize(bodies, n - 1) + SizeIn(bodies, n)
  }

  /** The operations past their touch or their creation step. */
  function Counted(w: World): set<OpId> {
    set t | t in w.ops && CountedOn(w.ops[t]).Some?
  }

  function CountedUpTo(w: World, n: nat): set<OpId> {
    set t | t in w.ops && CountedOn(w.ops[t]).Some? && 0 < CountedOn(w.ops[t]).value <= n
  }

  lemma {:induction false} TotalsAddUp(st: State, w: World, n: nat)
    requires SizesAddUp(st, w)
    ensures TotalSize(w.mem.bodies, n) == TotalSize(st.bodies, n) + |CountedUpTo(w, n)|
  {
    hide SizeIn, CountedOn;
    if n == 0 {
      assert CountedUpTo(w, 0) == {};
    } else {
      TotalsAddUp(st, w, n - 1);
      assert CountedUpTo(w, n) == CountedUpTo(w, n - 1) + Hits(w, n);
      assert CountedUpTo(w, n - 1) !! Hits(w, n);
      assert SizeIn(w.mem.bodies, n) == SizeIn(st.bodies, n) + |Hits(w, n)|;
    }
  }

  lemma {:induction false} NothingBeyond(bodies: map<Id, Body>, c: nat, n: nat)
    requires c <= n && forall id | id in bodies :: id <= c
    ensures TotalSize(bodies, n) == TotalSize(bodies, c)
  {
    if c < n { NothingBeyond(bodies, c, n - 1); }
  }

  /** In every state of every interleaving, the sizes of all bodies ever made, live or evicted, are the initial
      sizes and one for each add past its touch or creation step. */
  lemma CountsAreConserved(p: Params, st: State, ws: seq<World>, i: nat)
    requires II.Inv(p.options, st) && Behavior(p, st, ws) && i < |ws|
    ensures var m := ws[i].mem;
            TotalSize(m.bodies, m.counter) == TotalSize(st.bodies, st.counter) + |Counted(ws[i])|
    ensures forall id | id in ws[i].mem.bodies :: 0 < id <= ws[i].mem.counter
  {
    hide CountedOn, SizeIn, OpOk, Exclusion, OwnIds, Accounted, AllMade, ChangesJustified, ChangesPaid;
    var w := ws[i];
    BehaviorKeepsInv(p, st, ws, i);
    BehaviorKeepsHistory(p, st, ws, i);
    TotalsAddUp(st, w, w.mem.counter);
    NothingBeyond(st.bodies, st.counter, w.mem.counter);
    assert forall id | id in w.mem.bodies :: BodyOk(p, w.mem, id);
    forall t | t in Counted(w)
      ensures t in CountedUpTo(w, w.mem.counter)
    {
      CountedFits(p, w.mem, w.ops[t]);
    }
    assert Counted(w) == CountedUpTo(w, w.mem.counter);
  }

  function AddsDone(w: World): set<OpId> {
    set t | t in w.ops && w.ops[t].point.Added?
  }

  function Creations(w: World): set<OpId> {
    set t | t in w.ops && Filed(w.ops[t])
  }

  /** At rest, an operation that is counted on a cluster is an add that has returned. */
  lemma CountedHasReturned(p: Params, w: World, t: OpId)
    requires Inv(p, w) && Quiet(w) && t in w.ops && CountedOn(w.ops[t]).Some?
    ensures w.ops[t].job.Adding? && Finished(w.ops[t]) && w.ops[t].point.Added?
  {
    hide Exclusion, MemoryOk, Accounted, OwnIds;
    assert OpOk(p, w.mem, w.ops[t]);
  }

  /** At rest, a body is evicted or live, and not both. */
  lemma LiveOrEvicted(p: Params, w: World)
    requires Inv(p, w) && Quiet(w)
    ensures w.mem.bodies.Keys == w.mem.live + w.mem.evicted && w.mem.live !! w.mem.evicted
  {
    hide OpOk, Exclusion, OwnIds, KeyOf;
    var m := w.mem;
    assert forall id | id in m.bodies :: BodyOk(p, m, id);
    forall t, id | t in w.ops
      ensures !Carries(w.ops[t], id)
    {
      if !w.ops[t].job.Adding? { OnlyAddsHold(p, m, w.ops[t]); }
    }
    forall id | id in m.live
      ensures id !in m.evicted
    {
      assert InLeaf(p, m, id);
      assert LeafOk(p, m, KeyOf(p.options, m.bodies[id].tokens));
    }
  }

  /** With no add in flight and nothing evicted, the sizes of the live clusters are the initial sizes and
      one for each add. */
  lemma LiveSizesCountTheAdds(p: Params, st: State, ws: seq<World>, i: nat)
    requires II.Inv(p.options, st) && Behavior(p, st, ws) && i < |ws| && Quiet(ws[i]) && ws[i].mem.evicted == {}
    ensures var m := ws[i].mem;
            TotalSize(AsState(m).bodies, m.counter) == TotalSize(st.bodies, st.counter) + |AddsDone(ws[i])|
  {
    hide OpOk, Exclusion, OwnIds, Accounted, MemoryOk;
    CountsAreConserved(p, st, ws, i);
    BehaviorKeepsInv(p, st, ws, i);
    LiveOrEvicted(p, ws[i]);
    assert AsState(ws[i].mem).bodies == ws[i].mem.bodies;
    forall t | t in Counted(ws[i])
      ensures t in AddsDone(ws[i])
    {
      CountedHasReturned(p, ws[i], t);
    }
    assert Counted(ws[i]) == AddsDone(ws[i]);
  }

  function IdsOf(w: World, ts: set<OpId>): set<Id>
    requires forall t | t in ts :: t in w.ops && Own(w.ops[t]).Some?
  {
    set t | t in ts :: Own(w.ops[t]).value
  }

  lemma {:induction false} DistinctIds(w: World, ts: set<OpId>)
    requires OwnIds(w) && forall t | t in ts :: t in w.ops && Own(w.ops[t]).Some?
    ensures |IdsOf(w, ts)| == |ts|
  {
    hide Own;
    if ts != {} {
      var t :| t in ts;
      DistinctIds(w, ts - {t});
      assert IdsOf(w, ts) == IdsOf(w, ts - {t}) + {Own(w.ops[t]).value};
      assert forall u | u in ts - {t} :: Own(w.ops[u]) != Own(w.ops[t]);
    }
  }

  /** With no add in flight, the live clusters are the initial ones and the created ones less the evicted. */
  lemma LiveClustersAreConserved(p: Params, st: State, ws: seq<World>, i: nat)
    requires II.Inv(p.options, st) && Behavior(p, st, ws) && i < |ws| && Quiet(ws[i])
    ensures |AsState(ws[i].mem).bodies| + |ws[i].mem.evicted| == |st.bodies| + |Creations(ws[i])|
  {
    hide Exclusion, Accounted, SizesAddUp, ChangesJustified, ChangesPaid, KeyOf, LeafOk;
    var w := ws[i];
    var m := w.mem;
    BehaviorKeepsInv(p, st, ws, i);
    BehaviorKeepsHistory(p, st, ws, i);
    LiveOrEvicted(p, w);
    MadeIds(p, st, ws, i);
    var made := IdsOf(w, Creations(w));
    DistinctIds(w, Creations(w));
    assert m.bodies.Keys == st.bodies.Keys + made && st.bodies.Keys !! made;
    assert AsState(m).bodies.Keys == m.live;
    assert |m.bodies.Keys| == |m.live| + |m.evicted| == |st.bodies.Keys| + |made|;
  }

  lemma MakesCounts(op: Op, id: Id)
    requires Makes(op, id)
    ensures CountedOn(op) == Some(id)
  {
  }

  lemma MakerFiled(op: Op, id: Id)
    requires Makes(op, id) && Finished(op)
    ensures Filed(op) && op.point.result.id == id
  {
  }

  lemma FilerMadeIt(p: Params, m: Memory, op: Op)
    requires p.options.Valid() && OpOk(p, m, op) && Filed(op)
    ensures Own(op) == Some(op.point.result.id) && op.point.result.id in m.bodies
    ensures op.point.result.id in m.origin && m.origin[op.point.result.id] == Line(op)
  {
  }

  lemma MadeIds(p: Params, st: State, ws: seq<World>, i: nat)
    requires II.Inv(p.options, st) && Behavior(p, st, ws) && i < |ws| && Quiet(ws[i])
    ensures ws[i].mem.bodies.Keys == st.bodies.Keys + IdsOf(ws[i], Creations(ws[i]))
    ensures st.bodies.Keys !! IdsOf(ws[i], Creations(ws[i]))
  {
    hide Exclusion, Accounted, MemoryOk, OwnIds, OpOk, SizesAddUp, ChangesJustified, ChangesPaid, Makes;
    var w := ws[i];
    BehaviorKeepsInv(p, st, ws, i);
    BehaviorKeepsHistory(p, st, ws, i);
    InitialBodiesStay(p, st, ws, i);
    var made := IdsOf(w, Creations(w));
    forall id | id in w.mem.bodies && id !in st.bodies
      ensures id in made
    {
      var t :| t in w.ops && Makes(w.ops[t], id);
      MakesCounts(w.ops[t], id);
      CountedHasReturned(p, w, t);
      MakerFiled(w.ops[t], id);
      FilerMadeIt(p, w.mem, w.ops[t]);
      assert t in Creations(w);
    }
    forall id | id in made
      ensures id in w.mem.bodies && id !in st.bodies
    {
      var t :| t in Creations(w) && Own(w.ops[t]).value == id;
      FilerMadeIt(p, w.mem, w.ops[t]);
    }
  }

  // ---------------------------------------------------------------- initial bodies

  lemma NextGrows(p: Params, w: World, w': World)
    requires p.options.Valid() && Inv(p, w) && Next(p, w, w')
    ensures Grow(p, w.mem, w'.mem)
  {
    hide Advance, Effect, OpOk, MemoryOk, Exclusion, Accounted, OwnIds, Ready, Held, Available, Wanted;
    if t, job :| t !in w.ops && w' == Invoke(w, t, job) {
    } else {
      var t, choice :| Enabled(p, w, t, choice) && w' == Move(p, w, t, choice);
      EffectGrows(p, w.mem, w.ops[t], choice);
    }
  }

  /** The clusters a run starts with keep their bodies and the record of their templates. */
  lemma {:induction false} InitialBodiesStay(p: Params, st: State, ws: seq<World>, i: nat)
    requires II.Inv(p.options, st) && Behavior(p, st, ws) && i < |ws|
    ensures forall id | id in st.bodies ::
              id in ws[i].mem.bodies && id in ws[i].mem.origin && ws[i].mem.origin[id] == st.bodies[id].tokens
  {
    hide Next, Inv;
    if i > 0 {
      InitialBodiesStay(p, st, ws, i - 1);
      BehaviorKeepsInv(p, st, ws, i - 1);
      assert Next(p, ws[i - 1], ws[i - 1 + 1]);
      NextGrows(p, ws[i - 1], ws[i]);
    }
  }

  // ---------------------------------------------------------------- interleaving-independent templates

  /** The template a cluster was made with and all lines ever counted on it. */
  ghost function LinesOn(w: World, id: Id): set<seq<Token>>
    requires id in w.mem.origin
  {
    {w.mem.origin[id]} + set t | t in Hits(w, id) :: Line(w.ops[t])
  }

  lemma TemplateCoversAll(p: Params, w: World, id: Id, line: seq<Token>)
    requires Inv(p, w) && Quiet(w) && id in w.mem.bodies && id in w.mem.origin && line in LinesOn(w, id)
    ensures Covers(w.mem.bodies[id].tokens, line, p.options.wildcard)
  {
    hide Exclusion, Accounted, OwnIds, LeafOk, KeyOf, Similarity;
    assert BodyOk(p, w.mem, id);
    if line != w.mem.origin[id] {
      var t :| t in Hits(w, id) && Line(w.ops[t]) == line;
      assert OpOk(p, w.mem, w.ops[t]) && Finished(w.ops[t]);
    }
  }

  ghost predicate PositionIsLeast(t: Template, creator: seq<Token>, lines: set<seq<Token>>, w: string, k: nat) {
    && k < |t| == |creator|
    && t[k] == creator[k].(text := t[k].text)
    && (SameTextAt(lines, k) ==> t[k].text == creator[k].text)
    && (!SameTextAt(lines, k) ==> t[k].text == w)
  }

  lemma QuietPositionIsLeast(p: Params, w: World, id: Id, k: nat)
    requires Inv(p, w) && Quiet(w) && ChangesJustified(w) && id in w.mem.bodies && id in w.mem.origin
    requires k < |w.mem.bodies[id].tokens|
    ensures PositionIsLeast(w.mem.bodies[id].tokens, w.mem.origin[id], LinesOn(w, id), p.options.wildcard, k)
  {
    hide Exclusion, Accounted, OwnIds, LeafOk, KeyOf, Similarity, OpOk, CountedOn;
    var t, creator, lines := w.mem.bodies[id].tokens, w.mem.origin[id], LinesOn(w, id);
    assert BodyOk(p, w.mem, id);
    if t[k].text != creator[k].text {
      var u :| u in w.ops && CountedOn(w.ops[u]) == Some(id)
               && k < |Line(w.ops[u])| && Line(w.ops[u])[k].text != creator[k].text;
      assert u in Hits(w, id);
      assert Line(w.ops[u]) in lines && creator in lines;
    }
    if !SameTextAt(lines, k) {
      var a: seq<Token>, b: seq<Token> :| a in lines && b in lines && k < |a| && k < |b| && a[k].text != b[k].text;
      TemplateCoversAll(p, w, id, a);
      TemplateCoversAll(p, w, id, b);
      assert Agrees(t[k], a[k], p.options.wildcard) && Agrees(t[k], b[k], p.options.wildcard);
    }
  }

  lemma QuietTemplateIsLeast(p: Params, st: State, w: World, id: Id)
    requires Inv(p, w) && Quiet(w) && History(p, st, w) && id in w.mem.bodies && id in w.mem.origin
    ensures LeastGeneral(w.mem.bodies[id].tokens, w.mem.origin[id], LinesOn(w, id), p.options.wildcard)
  {
    hide Exclusion, Accounted, OwnIds, LeafOk, KeyOf, OpOk, SizesAddUp, ChangesPaid, AllMade, LinesOn, SameTextAt;
    var t, creator, lines := w.mem.bodies[id].tokens, w.mem.origin[id], LinesOn(w, id);
    assert BodyOk(p, w.mem, id);
    forall k | 0 <= k < |t|
      ensures t[k] == creator[k].(text := t[k].text)
      ensures SameTextAt(lines, k) ==> t[k].text == creator[k].text
      ensures !SameTextAt(lines, k) ==> t[k].text == p.options.wildcard
    {
      QuietPositionIsLeast(p, w, id, k);
    }
  }

  lemma OriginExplained(p: Params, st: State, ws: seq<World>, i: nat, id: Id)
    requires II.Inv(p.options, st) && Behavior(p, st, ws) && i < |ws| && Quiet(ws[i]) && id in ws[i].mem.bodies
    ensures id in ws[i].mem.origin
    ensures if id in st.bodies then ws[i].mem.origin[id] == st.bodies[id].tokens
            else exists t :: t in Hits(ws[i], id) && Filed(ws[i].ops[t]) && Line(ws[i].ops[t]) == ws[i].mem.origin[id]
  {
    hide Exclusion, Accounted, OwnIds, LeafOk, KeyOf, SizesAddUp, ChangesPaid, ChangesJustified, OpOk;
    var w := ws[i];
    BehaviorKeepsInv(p, st, ws, i);
    BehaviorKeepsHistory(p, st, ws, i);
    InitialBodiesStay(p, st, ws, i);
    assert BodyOk(p, w.mem, id);
    if id !in st.bodies {
      var t :| t in w.ops && Makes(w.ops[t], id);
      CountedHasReturned(p, w, t);
      assert t in Hits(w, id);
      FilerMadeIt(p, w.mem, w.ops[t]);
    }
  }

  /** Whenever no add is in flight, every template is the least general one of the line it was made from
      and all lines assigned to it since, in whatever order the generalizations ran: the common text where they
      agree, the wildcard where two differ, and the creating line's delimiter flags. */
  lemma QuietTemplatesAreLeastGeneral(p: Params, st: State, ws: seq<World>, i: nat, id: Id)
    requires II.Inv(p.options, st) && Behavior(p, st, ws) && i < |ws| && Quiet(ws[i]) && id in ws[i].mem.bodies
    ensures id in ws[i].mem.origin
    ensures LeastGeneral(ws[i].mem.bodies[id].tokens, ws[i].mem.origin[id], LinesOn(ws[i], id), p.options.wildcard)
    ensures if id in st.bodies then ws[i].mem.origin[id] == st.bodies[id].tokens
            else exists t :: t in Hits(ws[i], id) && Filed(ws[i].ops[t]) && Line(ws[i].ops[t]) == ws[i].mem.origin[id]
  {
    hide Inv, History, Quiet, LinesOn, LeastGeneral, Hits, Behavior;
    BehaviorKeepsInv(p, st, ws, i);
    BehaviorKeepsHistory(p, st, ws, i);
    OriginExplained(p, st, ws, i, id);
    QuietTemplateIsLeast(p, st, ws[i], id);
  }

  // ---------------------------------------------------------------- bounded churn

  /** Over any interleaving, the number of adds that report a changed template of a cluster is at most its token
      count less the non-wildcard keys of its leaf path. */
  lemma ChurnIsBounded(p: Params, st: State, ws: seq<World>, i: nat, id: Id)
    requires II.Inv(p.options, st) && Behavior(p, st, ws) && i < |ws| && id in ws[i].mem.bodies
    ensures var t := ws[i].mem.bodies[id].tokens;
            |Changes(ws[i], id)| + NonWildKeys(KeyOf(p.options, t).path, p.options.wildcard) <= |t|
  {
    hide Exclusion, Accounted, OwnIds, LeafOk, Similarity, OpOk, SizesAddUp, AllMade, ChangesJustified, Changes;
    BehaviorKeepsInv(p, st, ws, i);
    BehaviorKeepsHistory(p, st, ws, i);
    assert BodyOk(p, ws[i].mem, id);
    NonWildAtLeastKeys(p.options, ws[i].mem.bodies[id].tokens);
  }

  // ---------------------------------------------------------------- many adds of one line

  /** The operation that made the cluster an add was assigned to. */
  lemma MakerOf(p: Params, ws: seq<World>, i: nat, u: OpId)
    returns (t: OpId)
    requires p.options.Valid() && Behavior(p, EMPTY_STATE, ws) && i < |ws| && Quiet(ws[i])
    requires u in ws[i].ops && ws[i].ops[u].job.Adding?
    ensures ws[i].ops[u].point.Added?
    ensures t in ws[i].ops && Filed(ws[i].ops[t]) && ws[i].ops[t].point.result.id == ws[i].ops[u].point.result.id
  {
    hide Exclusion, Accounted, OwnIds, MemoryOk, OpOk, Finished, Makes, Filed, SizesAddUp, ChangesJustified,
      ChangesPaid;
    BehaviorKeepsInv(p, EMPTY_STATE, ws, i);
    BehaviorKeepsHistory(p, EMPTY_STATE, ws, i);
    AddReturned(p, ws[i].mem, ws[i].ops[u]);
    t :| t in ws[i].ops && Makes(ws[i].ops[t], ws[i].ops[u].point.result.id);
    MakesCounts(ws[i].ops[t], ws[i].ops[u].point.result.id);
    CountedHasReturned(p, ws[i], t);
    MakerFiled(ws[i].ops[t], ws[i].ops[u].point.result.id);
  }

  lemma AddReturned(p: Params, m: Memory, op: Op)
    requires p.options.Valid() && OpOk(p, m, op) && Finished(op) && op.job.Adding?
    ensures op.point.Added? && op.point.result.id in m.bodies
  {
  }

  /** Every operation is an add of a line with these texts. */
  ghost predicate AllAdd(w: World, texts: seq<string>) {
    forall u | u in w.ops :: w.ops[u].job.Adding? && Texts(Line(w.ops[u])) == texts
  }

  lemma MakerOrigin(p: Params, m: Memory, op: Op, id: Id)
    requires p.options.Valid() && OpOk(p, m, op) && Makes(op, id)
    ensures id in m.origin && m.origin[id] == Line(op)
  {
  }

  /** An add that finds its leaf full has seen a cluster there. */
  lemma FullLeafIsSeen(p: Params, m: Memory, op: Op)
    returns (x: Id)
    requires p.options.Valid() && OpOk(p, m, op) && op.point.Choosing?
    ensures x in op.seen && x in m.bodies && SeenOk(p, m, op) && BelowAll(p, op)
  {
    x := Ids(m, KeyOf(p.options, Line(op)))[0];
  }

  lemma MoveEvictsNothing(p: Params, w: World, t: OpId, choice: nat, texts: seq<string>)
    requires Inv(p, w) && AllMade(EMPTY_STATE, w) && Enabled(p, w, t, choice) && AllAdd(w, texts)
    ensures Move(p, w, t, choice).mem.evicted == w.mem.evicted
  {
    hide OpOk, SeenOk, BelowAll, Makes, KeyOf, MemoryOk, Accounted, Exclusion, OwnIds, Held, Wanted, Available, Advance;
    if w.ops[t].point.Choosing? {
      var x := FullLeafIsSeen(p, w.mem, w.ops[t]);
      var u :| u in w.ops && Makes(w.ops[u], x);
      MakerOrigin(p, w.mem, w.ops[u], x);
      OwnTextsUnseen(p, w.mem, w.ops[t], x);
    }
  }

  lemma {:induction false} OneLineEvictsNothing(p: Params, ws: seq<World>, i: nat, texts: seq<string>)
    requires p.options.Valid() && Behavior(p, EMPTY_STATE, ws) && i < |ws| && AllAdd(ws[i], texts)
    ensures ws[i].mem.evicted == {}
  {
    hide Inv, Enabled, Move, SizesAddUp, ChangesJustified, ChangesPaid, AllMade;
    if i > 0 {
      var w := ws[i - 1];
      assert Next(p, w, ws[i - 1 + 1]);
      forall u | u in w.ops
        ensures w.ops[u].job.Adding? && Texts(Line(w.ops[u])) == texts
      {
        OpsPersist(p, EMPTY_STATE, ws, i - 1, i, u);
      }
      OneLineEvictsNothing(p, ws, i - 1, texts);
      BehaviorKeepsInv(p, EMPTY_STATE, ws, i - 1);
      BehaviorKeepsHistory(p, EMPTY_STATE, ws, i - 1);
      if t, job :| t !in w.ops && ws[i] == Invoke(w, t, job) {
      } else {
        var t, choice :| Enabled(p, w, t, choice) && ws[i] == Move(p, w, t, choice);
        MoveEvictsNothing(p, w, t, choice, texts);
      }
    }
  }

  /** Any number of concurrent adds of one line to an empty miner create exactly one cluster and
      evict nothing; all of them are assigned to it and its size is their number. */
  lemma OneLineOneCluster(p: Params, ws: seq<World>, i: nat, texts: seq<string>)
    returns (t: OpId)
    requires p.options.Valid() && Behavior(p, EMPTY_STATE, ws) && i < |ws| && Quiet(ws[i])
    requires ws[i].ops != map[] && AllAdd(ws[i], texts)
    ensures ws[i].mem.evicted == {}
    ensures t in ws[i].ops && Filed(ws[i].ops[t])
    ensures forall u | u in ws[i].ops ::
              && ws[i].ops[u].point.Added?
              && (Filed(ws[i].ops[u]) ==> u == t)
              && ws[i].ops[u].point.result.id == ws[i].ops[t].point.result.id
    ensures SizeIn(ws[i].mem.bodies, ws[i].ops[t].point.result.id) == |ws[i].ops|
  {
    hide Inv, SizesAddUp, ChangesJustified, ChangesPaid, AllMade, SizeIn, Behavior, Quiet;
    OneLineEvictsNothing(p, ws, i, texts);
    var w := ws[i];
    var any :| any in w.ops;
    t := MakerOf(p, ws, i, any);
    var id := w.ops[t].point.result.id;
    forall u | u in w.ops
      ensures w.ops[u].point.Added? && w.ops[u].point.result.id == id && (Filed(w.ops[u]) ==> u == t)
    {
      if Filed(w.ops[u]) && u != t { NoDuplicateCreation(p, EMPTY_STATE, ws, i, t, u); }
      var v := MakerOf(p, ws, i, u);
      if v != t { NoDuplicateCreation(p, EMPTY_STATE, ws, i, t, v); }
    }
    BehaviorKeepsHistory(p, EMPTY_STATE, ws, i);
    SizeOfAll(w, id);
  }

  lemma SizeOfAll(w: World, id: Id)
    requires SizesAddUp(EMPTY_STATE, w)
    requires forall u | u in w.ops :: w.ops[u].point.Added? && w.ops[u].point.result.id == id
    ensures SizeIn(w.mem.bodies, id) == |w.ops|
  {
    assert Hits(w, id) == w.ops.Keys;
    assert SizeIn(EMPTY_STATE.bodies, id) == 0;
  }
}
