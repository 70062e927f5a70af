/** No two concurrent adds of the same line both create a cluster (crates/logdrain/src/miner.rs:176-210). */
module ProtocolCreation {
  import opened Tokenizer
  import opened Rendering
  import opened Options
  import opened Templates
  import opened Index
  import II = IndexInvariant
  import opened IndexQueries
  import opened Protocol
  import opened ProtocolLocks
  import opened ProtocolIndex
  import opened ProtocolSafety

  /** The operation has created a cluster and filed it. */
  predicate Filed(op: Op) {
    op.point.Added? && op.point.result.update.Created?
  }

  predicate SeesOrGone(m: Memory, a: Op, b: Op)
    requires Filed(a)
  {
    a.point.result.id in b.seen || a.point.result.id in m.evicted
  }

  /** Of two creators in one leaf, one saw the cluster the other had filed, unless that is evicted. */
  ghost predicate Ordered(p: Params, m: Memory, a: Op, b: Op)
    requires p.options.Valid()
  {
    Filed(a) && Creator(b) && KeyOf(p.options, Line(a)) == KeyOf(p.options, Line(b)) ==>
      SeesOrGone(m, a, b) || (Filed(b) && SeesOrGone(m, b, a))
  }

  ghost predicate CreatorsOrdered(p: Params, w: World)
    requires p.options.Valid()
  {
    forall t, u | t in w.ops && u in w.ops && t != u :: Ordered(p, w.mem, w.ops[t], w.ops[u])
  }

  // ---------------------------------------------------------------- the order is kept

  lemma EvictedGrows(p: Params, m: Memory, op: Op, choice: nat)
    requires p.options.Valid() && Ready(p, m, op, choice)
    ensures m.evicted <= Effect(p, m, op, choice).evicted
  {
  }

  /** Whoever takes the shard exclusively sees every cluster filed there before, unless it is evicted. */
  lemma NewcomerSees(p: Params, w: World, t: OpId, choice: nat, a: OpId)
    requires Inv(p, w) && Enabled(p, w, t, choice) && w.ops[t].point.WantExclusive?
    requires a in w.ops && a != t && Filed(w.ops[a])
    requires KeyOf(p.options, Line(w.ops[a])) == KeyOf(p.options, Line(w.ops[t]))
    ensures SeesOrGone(w.mem, w.ops[a], Advance(p, w.mem, w.ops[t], choice))
  {
    hide Similarity, DescentKeys, MoreGeneral, Covers, Exclusion, OwnIds, Held, Available, Wanted;
    var m := w.mem;
    var id := w.ops[a].point.result.id;
    assert AddedOk(p, m, w.ops[a], w.ops[a].point.result);
    assert BodyOk(p, m, id);
    if id !in m.evicted && !InLeaf(p, m, id) {
      var u :| u in w.ops && Carries(w.ops[u], id);
      CarriedFits(p, m, w.ops[u], id);
      NoOtherHolder(p, w, t, choice, u);
    }
  }

  /** How a step can make an operation a creator, or a creator a filer. */
  lemma StepCreates(p: Params, m: Memory, op: Op, choice: nat)
    requires p.options.Valid() && CanStep(p, m, op, choice) && !Finished(op)
    ensures var op' := Advance(p, m, op, choice);
            && op'.job == op.job
            && (Creator(op') ==> op.point.WantExclusive? || (Section(op) && op'.seen == op.seen))
            && (Filed(op') ==> Section(op))
  {
    hide Similarity, DescentKeys, MoreGeneral, Covers, ScanOk, CreatorOk, BodyOk, LeafOk;
    match op.point
    case Collecting(_, _) =>
    case Choosing(_, _, _) =>
    case Scanning(_, _, _, _) =>
    case _ =>
  }

  lemma PairStaysOrdered(p: Params, w: World, t: OpId, choice: nat, a: OpId, b: OpId)
    requires Inv(p, w) && CreatorsOrdered(p, w) && Enabled(p, w, t, choice)
    requires a in w.ops && b in w.ops && a != b
    ensures var w' := Move(p, w, t, choice);
            a in w'.ops && b in w'.ops && Ordered(p, w'.mem, w'.ops[a], w'.ops[b])
  {
    hide Advance, Effect, OpOk, MemoryOk, Ready, Available, Wanted, Held, Accounted, OwnIds, KeyOf, Section;
    var w' := Move(p, w, t, choice);
    EvictedGrows(p, w.mem, w.ops[t], choice);
    StepCreates(p, w.mem, w.ops[t], choice);
    assert Ordered(p, w.mem, w.ops[a], w.ops[b]) && Ordered(p, w.mem, w.ops[b], w.ops[a]);
    if Filed(w'.ops[a]) && Creator(w'.ops[b]) && KeyOf(p.options, Line(w.ops[a])) == KeyOf(p.options, Line(w.ops[b])) {
      SameKeySameCount(p, Line(w.ops[a]), Line(w.ops[b]));
      if t == a {
        FilersHold(w.ops[a], w.ops[b]);
        if Section(w.ops[b]) { OneHolder(p, w, b, a); }
      } else if t == b && w.ops[b].point.WantExclusive? {
        NewcomerSees(p, w, t, choice, a);
      }
    }
  }

  lemma FilersHold(a: Op, b: Op)
    ensures Section(a) ==> HoldsShard(a) && Creator(a) && !Filed(a) && !a.point.WantExclusive?
    ensures Creator(b) && !Section(b) ==> Filed(b)
  {
  }

  lemma SameKeySameCount(p: Params, a: seq<Token>, b: seq<Token>)
    requires p.options.Valid() && KeyOf(p.options, a) == KeyOf(p.options, b)
    ensures |a| == |b|
  {
  }

  lemma NextKeepsOrder(p: Params, w: World, w': World)
    requires p.options.Valid() && Inv(p, w) && CreatorsOrdered(p, w) && Next(p, w, w')
    ensures CreatorsOrdered(p, w')
  {
    hide Advance, Effect, Inv, Enabled, Ordered;
    if t, job :| t !in w.ops && w' == Invoke(w, t, job) {
      forall a, b | a in w'.ops && b in w'.ops && a != b
        ensures Ordered(p, w'.mem, w'.ops[a], w'.ops[b])
      {
        if a == t || b == t {
          NewIsNoCreator(p, w'.mem, w'.ops[a], w'.ops[b]);
        } else {
          assert Ordered(p, w.mem, w.ops[a], w.ops[b]);
        }
      }
    } else {
      var t, choice :| Enabled(p, w, t, choice) && w' == Move(p, w, t, choice);
      assert t in w.ops by { EnabledIsThere(p, w, t, choice); }
      forall a, b | a in w'.ops && b in w'.ops && a != b
        ensures Ordered(p, w'.mem, w'.ops[a], w'.ops[b])
      {
        PairStaysOrdered(p, w, t, choice, a, b);
      }
    }
  }

  lemma EnabledIsThere(p: Params, w: World, t: OpId, choice: nat)
    requires p.options.Valid() && Enabled(p, w, t, choice)
    ensures t in w.ops
  {
  }

  lemma NewIsNoCreator(p: Params, m: Memory, a: Op, b: Op)
    requires p.options.Valid() && (a.point.Start? || b.point.Start?)
    ensures Ordered(p, m, a, b)
  {
  }

  lemma {:induction false} BehaviorKeepsOrder(p: Params, st: State, ws: seq<World>, i: nat)
    requires II.Inv(p.options, st) && Behavior(p, st, ws) && i < |ws|
    ensures CreatorsOrdered(p, ws[i])
  {
    hide Next, Inv, Ordered;
    if i > 0 {
      BehaviorKeepsOrder(p, st, ws, i - 1);
      BehaviorKeepsInv(p, st, ws, i - 1);
      assert Next(p, ws[i - 1], ws[i - 1 + 1]);
      NextKeepsOrder(p, ws[i - 1], ws[i]);
    }
  }

  // ---------------------------------------------------------------- no duplicate creation

  /** An operation that found every cluster below threshold saw none that was created from its own texts. */
  lemma OwnTextsUnseen(p: Params, m: Memory, op: Op, id: Id)
    requires SeenOk(p, m, op) && BelowAll(p, op) && p.options.Valid()
    requires id in m.origin && Texts(m.origin[id]) == Texts(Line(op))
    ensures id !in op.seen
  {
    var line := Line(op);
    assert |m.origin[id]| == |Texts(m.origin[id])| == |line|;
    forall i | 0 <= i < |line|
      ensures Agrees(m.origin[id][i], line[i], p.options.wildcard)
    {
      assert Texts(m.origin[id])[i] == Texts(line)[i];
    }
    if id in op.seen {
      CoversMonotone(m.origin[id], op.seen[id], line, p.options.wildcard);
      SimilarityRange(op.seen[id], line, p.options.wildcard);
      assert false;
    }
  }

  lemma FilerSawNothing(p: Params, m: Memory, a: Op, b: Op)
    requires p.options.Valid() && OpOk(p, m, a) && OpOk(p, m, b) && Filed(a) && Filed(b)
    requires Texts(Line(a)) == Texts(Line(b))
    ensures a.point.result.id !in b.seen
  {
    hide SeenOk, BelowAll, KeyOf;
    OwnTextsUnseen(p, m, b, a.point.result.id);
  }

  /** Two adds of one line never both create a cluster, unless one of the two clusters has been evicted. */
  lemma NoDuplicateCreation(p: Params, st: State, ws: seq<World>, i: nat, t: OpId, u: OpId)
    requires II.Inv(p.options, st) && Behavior(p, st, ws) && i < |ws|
    requires t in ws[i].ops && u in ws[i].ops && t != u && Filed(ws[i].ops[t]) && Filed(ws[i].ops[u])
    requires Texts(Line(ws[i].ops[t])) == Texts(Line(ws[i].ops[u]))
    ensures ws[i].ops[t].point.result.id in ws[i].mem.evicted || ws[i].ops[u].point.result.id in ws[i].mem.evicted
  {
    hide OpOk, MemoryOk, Exclusion, OwnIds, Accounted, KeyOf;
    var w := ws[i];
    BehaviorKeepsOrder(p, st, ws, i);
    BehaviorKeepsInv(p, st, ws, i);
    SameTextsSameKey(p.options, Line(w.ops[t]), Line(w.ops[u]));
    FilerSawNothing(p, w.mem, w.ops[t], w.ops[u]);
    FilerSawNothing(p, w.mem, w.ops[u], w.ops[t]);
    assert Ordered(p, w.mem, w.ops[t], w.ops[u]);
  }
}
