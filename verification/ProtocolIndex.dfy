/** What every interleaving keeps: the shared index stays coherent, and each operation in flight may rely
    on the facts it gathered (crates/logdrain/src/miner.rs:164-292). */
module ProtocolIndex {
  import opened Wrappers
  import opened Tokenizer
  import opened Options
  import opened Templates
  import opened Index
  import opened IndexInvariant
  import opened Snapshots
  import opened Protocol
  import opened ProtocolLocks

  // ---------------------------------------------------------------- facts about one operation

  /** The points at which an operation holds its shard exclusively. */
  predicate Section(op: Op) {
    match op.point
    case Scanning(phase, _, _, _) => phase.Creating?
    case Drawing => true
    case Drawn(_) => true
    case Publishing(_) => true
    case Published(_) => true
    case Choosing(_, _, _) => true
    case Removing(_, _) => true
    case RemovingHeld(_, _) => true
    case Filing(_) => true
    case _ => false
  }

  predicate HoldsShard(op: Op) {
    op.point.Scanning? || Section(op)
  }

  /** The id an operation drew from the counter. */
  function Own(op: Op): Option<Id> {
    match op.point
    case Drawn(id) => Some(id)
    case Publishing(id) => Some(id)
    case Published(id) => Some(id)
    case Choosing(id, _, _) => Some(id)
    case Removing(id, _) => Some(id)
    case RemovingHeld(id, _) => Some(id)
    case Filing(id) => Some(id)
    case Added(r) => if r.update.Created? then Some(r.id) else None
    case _ => None
  }

  /** Live clusters that are in no leaf because an operation is about to file or to drop them. */
  predicate Carries(op: Op, id: Id) {
    match op.point
    case Published(own) => id == own
    case Choosing(own, _, _) => id == own
    case Removing(own, v) => id == own || id == v
    case RemovingHeld(own, v) => id == own || id == v
    case Filing(own) => id == own
    case _ => false
  }

  ghost predicate Fits(p: Params, m: Memory, id: Id, line: seq<Token>)
    requires p.options.Valid()
  {
    id in m.bodies && KeyOf(p.options, m.bodies[id].tokens) == KeyOf(p.options, line)
  }

  /** Whatever the operation saw in its leaf still exists; the template it saw lies between the one the cluster
      was made with and the present one. */
  ghost predicate SeenOk(p: Params, m: Memory, op: Op) {
    forall x | x in op.seen ::
      && x in m.bodies && x in m.origin
      && MoreGeneral(m.origin[x], op.seen[x], p.options.wildcard)
      && MoreGeneral(op.seen[x], m.bodies[x].tokens, p.options.wildcard)
  }

  /** Every cluster the leaf held when the operation last took its shard was below threshold for its line. */
  ghost predicate BelowAll(p: Params, op: Op) {
    forall x | x in op.seen :: Similarity(op.seen[x], Line(op), p.options.wildcard) < p.options.simThreshold
  }

  ghost predicate BestOk(p: Params, m: Memory, line: seq<Token>, best: Option<Best>)
    requires p.options.Valid()
  {
    best.Some? ==>
      && Fits(p, m, best.value.id, line)
      && best.value.id in Ids(m, KeyOf(p.options, line))
      && best.value.sim <= Sim(m.bodies, best.value.id, line, p.options.wildcard)
  }

  /** What the scan has passed scored no higher than its best. */
  ghost predicate Passed(p: Params, op: Op, todo: seq<Id>, best: Option<Best>) {
    forall x | x in op.seen && x !in todo ::
      best.Some? && Similarity(op.seen[x], Line(op), p.options.wildcard) <= best.value.sim
  }

  ghost predicate ScanOk(p: Params, m: Memory, op: Op, phase: Phase, todo: seq<Id>, best: Option<Best>)
    requires p.options.Valid()
  {
    var k := KeyOf(p.options, Line(op));
    && !op.job.Snapshotting? && |Line(op)| in m.shards
    && (phase.Creating? ==> op.job.Adding? && k in m.leaves)
    && SeesLeaf(p, m, op)
    && (forall x | x in todo :: x in Ids(m, k))
    && SeenOk(p, m, op)
    && BestOk(p, m, Line(op), best)
    && Passed(p, op, todo, best)
  }

  ghost predicate CreatorOk(p: Params, m: Memory, op: Op)
    requires p.options.Valid()
  {
    op.job.Adding? && KeyOf(p.options, Line(op)) in m.leaves && SeenOk(p, m, op) && BelowAll(p, op)
  }

  /** The leaf is still what the operation saw. */
  ghost predicate SeesLeaf(p: Params, m: Memory, op: Op)
    requires p.options.Valid()
  {
    forall x :: x in op.seen <==> x in Ids(m, KeyOf(p.options, Line(op)))
  }

  ghost predicate FreshId(m: Memory, id: Id) {
    0 < id <= m.counter && id !in m.bodies
  }

  /** The new cluster between its insertion into the id map and its filing. */
  ghost predicate OwnOk(p: Params, m: Memory, op: Op, id: Id)
    requires p.options.Valid()
  {
    && id in m.live && id !in m.evicted
    && Fits(p, m, id, Line(op))
    && Covers(m.bodies[id].tokens, Line(op), p.options.wildcard)
    && id in m.origin && m.origin[id] == Line(op)
    && id !in Ids(m, KeyOf(p.options, Line(op)))
  }

  ghost predicate RoomOk(p: Params, m: Memory, op: Op)
    requires p.options.Valid()
  {
    |Ids(m, KeyOf(p.options, Line(op)))| < p.options.maxClustersPerLeaf
  }

  ghost predicate VictimOk(p: Params, m: Memory, op: Op, id: Id, v: Id)
    requires p.options.Valid()
  {
    && v != id && v in m.live && v in m.evicted
    && Fits(p, m, v, Line(op))
    && v !in Ids(m, KeyOf(p.options, Line(op)))
  }

  /** A cluster the operation was assigned to: it reached the threshold and always will. */
  ghost predicate MatchOk(p: Params, m: Memory, op: Op, id: Id)
    requires p.options.Valid()
  {
    && op.job.Adding?
    && Fits(p, m, id, Line(op))
    && Sim(m.bodies, id, Line(op), p.options.wildcard) >= p.options.simThreshold
  }

  ghost predicate AddedOk(p: Params, m: Memory, op: Op, r: AddResult)
    requires p.options.Valid()
  {
    && op.job.Adding?
    && Fits(p, m, r.id, Line(op))
    && Covers(m.bodies[r.id].tokens, Line(op), p.options.wildcard)
    && (r.update.Created? ==> r.id in m.origin && m.origin[r.id] == Line(op) && SeenOk(p, m, op) && BelowAll(p, op))
  }

  ghost predicate AnswerOk(p: Params, m: Memory, op: Op, answer: Option<Id>)
    requires p.options.Valid()
  {
    && op.job.Querying?
    && SeenOk(p, m, op)
    && match answer
       case None => BelowAll(p, op)
       case Some(id) =>
         && Fits(p, m, id, Line(op))
         && Sim(m.bodies, id, Line(op), p.options.wildcard) >= p.options.simThreshold
         && forall x | x in op.seen ::
              Similarity(op.seen[x], Line(op), p.options.wildcard) <= Sim(m.bodies, id, Line(op), p.options.wildcard)
  }

  ghost predicate RecordsOk(p: Params, m: Memory, cs: seq<ClusterRecord>) {
    && (forall i | 0 <= i < |cs| ::
          cs[i].id in m.bodies && MoreGeneral(cs[i].tokens, m.bodies[cs[i].id].tokens, p.options.wildcard))
    && (forall i, j | 0 <= i < j < |cs| :: cs[i].id != cs[j].id)
  }

  ghost predicate PlaceOk(m: Memory, captured: seq<ClusterRecord>, place: Place) {
    place.WantBody? || place.InBody? ==>
      place.id in m.bodies && forall i | 0 <= i < |captured| :: captured[i].id != place.id
  }

  /** What an operation in flight may rely on at its point, and what a finished one has achieved. */
  ghost predicate OpOk(p: Params, m: Memory, op: Op)
    requires p.options.Valid()
  {
    match op.point
    case Start => op.seen == map[]
    case OnShardMap => !op.job.Snapshotting? && op.seen == map[]
    case WantInsert => op.job.Adding?
    case Inserting => op.job.Adding?
    case WantShared => !op.job.Snapshotting? && |Line(op)| in m.shards
    case Scanning(phase, todo, best, _) => ScanOk(p, m, op, phase, todo, best)
    case WantExclusive => op.job.Adding? && |Line(op)| in m.shards
    case Drawing => CreatorOk(p, m, op) && SeesLeaf(p, m, op)
    case Drawn(id) => CreatorOk(p, m, op) && SeesLeaf(p, m, op) && FreshId(m, id)
    case Publishing(id) => CreatorOk(p, m, op) && SeesLeaf(p, m, op) && FreshId(m, id)
    case Published(id) => CreatorOk(p, m, op) && SeesLeaf(p, m, op) && OwnOk(p, m, op, id)
    case Choosing(id, todo, _) =>
      CreatorOk(p, m, op) && SeesLeaf(p, m, op) && OwnOk(p, m, op, id)
      && |Ids(m, KeyOf(p.options, Line(op)))| >= p.options.maxClustersPerLeaf
    case Removing(id, v) => CreatorOk(p, m, op) && OwnOk(p, m, op, id) && RoomOk(p, m, op) && VictimOk(p, m, op, id, v)
    case RemovingHeld(id, v) =>
      CreatorOk(p, m, op) && OwnOk(p, m, op, id) && RoomOk(p, m, op) && VictimOk(p, m, op, id, v)
    case Filing(id) => CreatorOk(p, m, op) && OwnOk(p, m, op, id) && RoomOk(p, m, op)
    case Assigned(id) => MatchOk(p, m, op, id)
    case Touching(id) => MatchOk(p, m, op, id)
    case Judging(id) => MatchOk(p, m, op, id)
    case WantRewrite(id, needs) =>
      MatchOk(p, m, op, id) && (!needs ==> Covers(m.bodies[id].tokens, Line(op), p.options.wildcard))
    case Rewriting(id, needs) =>
      MatchOk(p, m, op, id) && (!needs ==> Covers(m.bodies[id].tokens, Line(op), p.options.wildcard))
    case Added(r) => AddedOk(p, m, op, r)
    case Answered(answer) => AnswerOk(p, m, op, answer)
    case Collecting(captured, place) =>
      op.job.Snapshotting? && RecordsOk(p, m, captured) && PlaceOk(m, captured, place)
    case Captured(snap) => op.job.Snapshotting? && RecordsOk(p, m, snap.clusters) && WellNumbered(snap)
  }

  // ---------------------------------------------------------------- facts about the shared index

  ghost predicate LeafOk(p: Params, m: Memory, k: LeafKey)
    requires p.options.Valid() && k in m.leaves
  {
    && NoDuplicates(m.leaves[k])
    && |m.leaves[k]| <= p.options.maxClustersPerLeaf
    && forall id | id in m.leaves[k] ::
         id in m.live && id !in m.evicted && id in m.bodies && KeyOf(p.options, m.bodies[id].tokens) == k
  }

  ghost predicate BodyOk(p: Params, m: Memory, id: Id)
    requires p.options.Valid() && id in m.bodies
  {
    && m.bodies[id].id == id
    && 0 < id <= m.counter
    && id in m.origin
    && MoreGeneral(m.origin[id], m.bodies[id].tokens, p.options.wildcard)
    && (id in m.live || id in m.evicted)
  }

  ghost predicate InLeaf(p: Params, m: Memory, id: Id)
    requires p.options.Valid() && id in m.bodies
  {
    id in Ids(m, KeyOf(p.options, m.bodies[id].tokens))
  }

  ghost predicate Carried(w: World, id: Id) {
    exists t :: t in w.ops && Carries(w.ops[t], id)
  }

  ghost predicate Attended(p: Params, w: World, k: LeafKey)
    requires p.options.Valid()
  {
    exists t :: t in w.ops && Section(w.ops[t]) && KeyOf(p.options, Line(w.ops[t])) == k
  }

  /** Every live cluster is in its leaf or in the hands of an operation; only a leaf that an operation is
      working on is empty. */
  ghost predicate Accounted(p: Params, w: World)
    requires p.options.Valid()
  {
    && (forall id | id in w.mem.live :: id in w.mem.bodies && (InLeaf(p, w.mem, id) || Carried(w, id)))
    && (forall k | k in w.mem.leaves && w.mem.leaves[k] == [] :: Attended(p, w, k))
  }

  ghost predicate MemoryOk(p: Params, m: Memory)
    requires p.options.Valid()
  {
    && (forall k | k in m.leaves :: k.count in m.shards && LeafOk(p, m, k))
    && (forall id | id in m.bodies :: BodyOk(p, m, id))
    && (forall id | id in m.live || id in m.evicted || id in m.origin :: id in m.bodies)
  }

  ghost predicate OwnIds(w: World) {
    && (forall t | t in w.ops && Own(w.ops[t]).Some? :: Own(w.ops[t]).value <= w.mem.counter)
    && (forall t, u | t in w.ops && u in w.ops && t != u && Own(w.ops[t]).Some? :: Own(w.ops[t]) != Own(w.ops[u]))
  }

  ghost predicate Inv(p: Params, w: World) {
    && p.options.Valid()
    && Exclusion(p, w)
    && MemoryOk(p, w.mem)
    && Accounted(p, w)
    && OwnIds(w)
    && forall t | t in w.ops :: OpOk(p, w.mem, w.ops[t])
  }

  // ---------------------------------------------------------------- what a step may do to the others

  /** Bodies are never lost and only get more general; ids are never drawn twice. */
  ghost predicate Grow(p: Params, m: Memory, m': Memory)
    requires p.options.Valid()
  {
    && m.counter <= m'.counter && m.shards <= m'.shards
    && (forall id | id in m.bodies ::
          && id in m'.bodies
          && KeyOf(p.options, m'.bodies[id].tokens) == KeyOf(p.options, m.bodies[id].tokens)
          && MoreGeneral(m.bodies[id].tokens, m'.bodies[id].tokens, p.options.wildcard))
    && (forall id | id in m.origin :: id in m'.origin && m'.origin[id] == m.origin[id])
  }

  /** The leaves and the live clusters of one shard are untouched. */
  ghost predicate Kept(m: Memory, m': Memory, count: nat) {
    && (forall k: LeafKey | k.count == count :: Ids(m', k) == Ids(m, k) && (k in m.leaves <==> k in m'.leaves))
    && (forall id | id in m.bodies && |m.bodies[id].tokens| == count ::
          (id in m'.live <==> id in m.live) && (id in m'.evicted <==> id in m.evicted))
  }

  /** The facts a step needs about the memory it runs in. */
  ghost predicate CanStep(p: Params, m: Memory, op: Op, choice: nat)
    requires p.options.Valid()
  {
    MemoryOk(p, m) && OpOk(p, m, op) && Ready(p, m, op, choice)
  }

  lemma RewriteGrows(p: Params, b: Body, r: Request, needs: bool)
    requires p.options.Valid() && KeyOf(p.options, b.tokens) == KeyOf(p.options, r.tokens)
    ensures |b.tokens| == |r.tokens|
    ensures var b' := Rewritten(b, r, needs, p.options.wildcard);
            && b'.id == b.id
            && KeyOf(p.options, b'.tokens) == KeyOf(p.options, b.tokens)
            && MoreGeneral(b.tokens, b'.tokens, p.options.wildcard)
            && (needs || Covers(b.tokens, r.tokens, p.options.wildcard) ==>
                  Covers(b'.tokens, r.tokens, p.options.wildcard))
  {
    GeneralizeKeepsKey(p.options, b.tokens, r.tokens);
    GeneralizeIsMoreGeneral(b.tokens, r.tokens, p.options.wildcard);
  }

  /** Every step lets templates only grow. */
  lemma EffectGrows(p: Params, m: Memory, op: Op, choice: nat)
    requires p.options.Valid() && CanStep(p, m, op, choice)
    ensures Grow(p, m, Effect(p, m, op, choice))
  {
    hide Similarity, Covers, ScanOk, CreatorOk, LeafOk, BodyOk, KeyOf, Rewritten, Generalize;
    if op.point.Rewriting? { RewriteGrows(p, m.bodies[op.point.id], op.job.request, op.point.needs); }
  }

  /** The steps that change a leaf or the set of live ids. */
  predicate ChangesShard(op: Op) {
    op.point.WantExclusive? || op.point.Publishing? || op.point.Choosing? || op.point.RemovingHeld? || op.point.Filing?
  }

  lemma OtherStepsKeep(p: Params, m: Memory, op: Op, choice: nat)
    requires p.options.Valid() && Ready(p, m, op, choice) && !ChangesShard(op)
    ensures var m' := Effect(p, m, op, choice);
            m'.leaves == m.leaves && m'.live == m.live && m'.evicted == m.evicted
  {
    hide KeyOf, Rewritten, Observed, Touched;
  }

  lemma KeyCounts(p: Params, line: seq<Token>)
    requires p.options.Valid()
    ensures KeyOf(p.options, line).count == |line|
  {
  }

  lemma LeafStepsKeep(p: Params, m: Memory, op: Op, choice: nat, count: nat)
    requires p.options.Valid() && CanStep(p, m, op, choice) && |Line(op)| != count
    requires op.point.WantExclusive? || op.point.Choosing? || op.point.Filing?
    ensures Kept(m, Effect(p, m, op, choice), count)
  {
    hide KeyOf, SeenOk, SeesLeaf, BelowAll, SwapRemove, BodyOk, OwnOk;
    KeyCounts(p, Line(op));
    if op.point.Choosing? && op.point.todo == [] {
      assert LeafOk(p, m, KeyOf(p.options, Line(op)));
      KeyCounts(p, m.bodies[choice].tokens);
    }
  }

  lemma MapStepsKeep(p: Params, m: Memory, op: Op, choice: nat, count: nat)
    requires p.options.Valid() && CanStep(p, m, op, choice) && |Line(op)| != count
    requires op.point.Publishing? || op.point.RemovingHeld?
    ensures Kept(m, Effect(p, m, op, choice), count)
  {
    hide KeyOf, SeenOk, SeesLeaf, BelowAll, MemoryOk, NewBody, OwnOk;
    KeyCounts(p, Line(op));
    if op.point.RemovingHeld? { KeyCounts(p, m.bodies[op.point.victim].tokens); }
  }

  /** A step changes a shard's leaves only with that shard held exclusively. */
  lemma EffectKeeps(p: Params, m: Memory, op: Op, choice: nat, count: nat)
    requires p.options.Valid() && CanStep(p, m, op, choice)
    requires (Section(op) || op.point.WantExclusive?) ==> |Line(op)| != count
    ensures Kept(m, Effect(p, m, op, choice), count)
  {
    hide Effect, OpOk, MemoryOk, Ready;
    if ChangesShard(op) {
      if op.point.Publishing? || op.point.RemovingHeld? {
        MapStepsKeep(p, m, op, choice, count);
      } else {
        LeafStepsKeep(p, m, op, choice, count);
      }
    } else {
      OtherStepsKeep(p, m, op, choice);
    }
  }

  lemma HoldsShardHolds(p: Params, op: Op)
    ensures HoldsShard(op) ==>
              Hold(ShardLock(|Line(op)|), false) in Held(p, op) || Hold(ShardLock(|Line(op)|), true) in Held(p, op)
    ensures Section(op) ==> Hold(ShardLock(|Line(op)|), true) in Held(p, op)
  {
  }

  /** Of two operations on one shard, at most one holds it exclusively. */
  lemma OneHolder(p: Params, w: World, t: OpId, u: OpId)
    requires Exclusion(p, w) && t in w.ops && u in w.ops && t != u
    requires Section(w.ops[t]) && HoldsShard(w.ops[u])
    ensures |Line(w.ops[t])| != |Line(w.ops[u])|
  {
    HoldsShardHolds(p, w.ops[t]);
    HoldsShardHolds(p, w.ops[u]);
    var g := Hold(ShardLock(|Line(w.ops[t])|), true);
    assert forall h | h in Held(p, w.ops[u]) :: !Conflict(g, h);
  }

  /** An operation about to hold a shard exclusively finds no other holder. */
  lemma NoOtherHolder(p: Params, w: World, t: OpId, choice: nat, u: OpId)
    requires p.options.Valid() && Enabled(p, w, t, choice) && u in w.ops && u != t
    requires w.ops[t].point.WantExclusive? && HoldsShard(w.ops[u])
    ensures |Line(w.ops[t])| != |Line(w.ops[u])|
  {
    HoldsShardHolds(p, w.ops[u]);
    var h := Hold(ShardLock(|Line(w.ops[t])|), true);
    assert Wanted(p, w.mem, w.ops[t]) == Some(h);
    assert forall g | g in Held(p, w.ops[u]) :: !Conflict(g, h);
  }

  // ---------------------------------------------------------------- what an operation knows stays true

  lemma FitsStable(p: Params, m: Memory, m': Memory, id: Id, line: seq<Token>)
    requires p.options.Valid() && Grow(p, m, m') && Fits(p, m, id, line)
    ensures Fits(p, m', id, line)
    ensures Sim(m.bodies, id, line, p.options.wildcard) <= Sim(m'.bodies, id, line, p.options.wildcard)
    ensures Covers(m.bodies[id].tokens, line, p.options.wildcard) ==>
              Covers(m'.bodies[id].tokens, line, p.options.wildcard)
  {
    SimilarityMonotone(m.bodies[id].tokens, m'.bodies[id].tokens, line, p.options.wildcard);
    if Covers(m.bodies[id].tokens, line, p.options.wildcard) {
      CoversMonotone(m.bodies[id].tokens, m'.bodies[id].tokens, line, p.options.wildcard);
    }
  }

  lemma SeenStable(p: Params, m: Memory, m': Memory, op: Op)
    requires p.options.Valid() && Grow(p, m, m') && SeenOk(p, m, op)
    ensures SeenOk(p, m', op)
  {
    forall x | x in op.seen
      ensures MoreGeneral(op.seen[x], m'.bodies[x].tokens, p.options.wildcard)
    {
      MoreGeneralTransitive(op.seen[x], m.bodies[x].tokens, m'.bodies[x].tokens, p.options.wildcard);
    }
  }

  lemma RecordsStable(p: Params, m: Memory, m': Memory, cs: seq<ClusterRecord>)
    requires p.options.Valid() && Grow(p, m, m') && RecordsOk(p, m, cs)
    ensures RecordsOk(p, m', cs)
  {
    forall i | 0 <= i < |cs|
      ensures MoreGeneral(cs[i].tokens, m'.bodies[cs[i].id].tokens, p.options.wildcard)
    {
      MoreGeneralTransitive(cs[i].tokens, m.bodies[cs[i].id].tokens, m'.bodies[cs[i].id].tokens, p.options.wildcard);
    }
  }

  lemma CreatorStable(p: Params, m: Memory, m': Memory, op: Op)
    requires p.options.Valid() && Section(op) && !op.point.Scanning?
    requires OpOk(p, m, op) && Grow(p, m, m') && Kept(m, m', |Line(op)|)
    requires (op.point.Drawn? || op.point.Publishing?) && op.point.id in m'.bodies ==> op.point.id in m.bodies
    ensures OpOk(p, m', op)
  {
    hide Similarity, DescentKeys, Covers, MoreGeneral;
    SeenStable(p, m, m', op);
    if Own(op).Some? && Own(op).value in m.bodies { FitsStable(p, m, m', Own(op).value, Line(op)); }
    match op.point
    case Removing(_, v) => FitsStable(p, m, m', v, Line(op));
    case RemovingHeld(_, v) => FitsStable(p, m, m', v, Line(op));
    case _ =>
  }

  lemma ScanStable(p: Params, m: Memory, m': Memory, op: Op)
    requires p.options.Valid() && OpOk(p, m, op) && Grow(p, m, m') && op.point.Scanning? && Kept(m, m', |Line(op)|)
    ensures OpOk(p, m', op)
  {
    hide Similarity, DescentKeys, Covers, MoreGeneral;
    SeenStable(p, m, m', op);
    if op.point.best.Some? { FitsStable(p, m, m', op.point.best.value.id, Line(op)); }
  }

  lemma MatchStable(p: Params, m: Memory, m': Memory, op: Op)
    requires p.options.Valid() && OpOk(p, m, op) && Grow(p, m, m')
    requires !HoldsShard(op) && !Finished(op) && !op.point.Collecting?
    ensures OpOk(p, m', op)
  {
    hide Similarity, DescentKeys, Covers, MoreGeneral;
    if op.point.Assigned? || op.point.Touching? || op.point.Judging? || op.point.WantRewrite? || op.point.Rewriting? {
      FitsStable(p, m, m', op.point.id, Line(op));
    }
  }

  lemma ResultStable(p: Params, m: Memory, m': Memory, op: Op)
    requires p.options.Valid() && OpOk(p, m, op) && Grow(p, m, m') && (op.point.Added? || op.point.Answered?)
    ensures OpOk(p, m', op)
  {
    hide Similarity, DescentKeys, Covers, MoreGeneral;
    match op.point
    case Added(r) =>
      FitsStable(p, m, m', r.id, Line(op));
      if r.update.Created? { SeenStable(p, m, m', op); }
    case Answered(answer) =>
      SeenStable(p, m, m', op);
      if answer.Some? { FitsStable(p, m, m', answer.value, Line(op)); }
    case _ =>
  }

  lemma CollectStable(p: Params, m: Memory, m': Memory, op: Op)
    requires p.options.Valid() && OpOk(p, m, op) && Grow(p, m, m') && (op.point.Collecting? || op.point.Captured?)
    ensures OpOk(p, m', op)
  {
    hide KeyOf, MoreGeneral, RecordsOk;
    RecordsStable(p, m, m', if op.point.Collecting? then op.point.captured else op.point.snap.clusters);
  }

  /** What an operation knows survives any step of another one that respects its locks. */
  lemma OpStable(p: Params, m: Memory, m': Memory, op: Op)
    requires p.options.Valid() && OpOk(p, m, op) && Grow(p, m, m')
    requires HoldsShard(op) ==> Kept(m, m', |Line(op)|)
    requires (op.point.Drawn? || op.point.Publishing?) && op.point.id in m'.bodies ==> op.point.id in m.bodies
    ensures OpOk(p, m', op)
  {
    hide OpOk, Grow, Kept;
    if op.point.Scanning? {
      ScanStable(p, m, m', op);
    } else if Section(op) {
      CreatorStable(p, m, m', op);
    } else if op.point.Added? || op.point.Answered? {
      ResultStable(p, m, m', op);
    } else if op.point.Collecting? || op.point.Captured? {
      CollectStable(p, m, m', op);
    } else {
      MatchStable(p, m, m', op);
    }
  }

  // ---------------------------------------------------------------- each step establishes its point's facts

  /** With the shard just taken, what is seen is the leaf as it is. */
  lemma LeafIsSeen(p: Params, m: Memory, m': Memory, op: Op, phase: Phase)
    requires p.options.Valid() && MemoryOk(p, m) && m'.bodies == m.bodies && m'.origin == m.origin
    requires Ids(m', KeyOf(p.options, Line(op))) == Ids(m, KeyOf(p.options, Line(op)))
    ensures var op' := BeginScan(m, KeyOf(p.options, Line(op)), op, phase);
            SeesLeaf(p, m', op') && SeenOk(p, m', op') && Passed(p, op', op'.point.todo, None)
  {
    hide Similarity, KeyOf;
    var k := KeyOf(p.options, Line(op));
    assert k in m.leaves ==> LeafOk(p, m, k);
    assert forall x | x in Ids(m, k) :: x in m.bodies && BodyOk(p, m, x);
  }

  lemma ScanBegins(p: Params, m: Memory, op: Op, choice: nat)
    requires p.options.Valid() && CanStep(p, m, op, choice) && (op.point.WantShared? || op.point.WantExclusive?)
    ensures OpOk(p, Effect(p, m, op, choice), Advance(p, m, op, choice))
  {
    hide KeyOf, SeenOk, SeesLeaf, Passed, MemoryOk;
    LeafIsSeen(p, m, Effect(p, m, op, choice), op, if op.point.WantShared? then Matching else Creating);
  }

  lemma ScanTakes(p: Params, m: Memory, op: Op, phase: Phase, todo: seq<Id>, best: Option<Best>, grip: Grip)
    requires p.options.Valid() && ScanOk(p, m, op, phase, todo, best) && todo != [] && !grip.OnBody?
    requires KeyOf(p.options, Line(op)) in m.leaves && LeafOk(p, m, KeyOf(p.options, Line(op)))
    ensures var next := ScanStep(p, m, Line(op), phase, todo, best, grip);
            next == Scanning(phase, todo, best, if grip.NoGrip? then OnBucket else OnBody)
  {
    hide KeyOf, Similarity, Passed, SeenOk, BestOk;
    assert todo[0] in Ids(m, KeyOf(p.options, Line(op)));
  }

  lemma ScanCompares(p: Params, m: Memory, op: Op, phase: Phase, todo: seq<Id>, best: Option<Best>)
    requires p.options.Valid() && ScanOk(p, m, op, phase, todo, best) && todo != []
    requires KeyOf(p.options, Line(op)) in m.leaves && LeafOk(p, m, KeyOf(p.options, Line(op)))
    ensures var next := ScanStep(p, m, Line(op), phase, todo, best, OnBody);
            next.Scanning? && next.phase == phase && ScanOk(p, m, op, phase, next.todo, next.best)
  {
    hide KeyOf, Similarity, MoreGeneral;
    var id := todo[0];
    assert id in Ids(m, KeyOf(p.options, Line(op)));
    assert forall x | x in todo :: x == id || x in todo[1..];
    SimilarityMonotone(op.seen[id], m.bodies[id].tokens, Line(op), p.options.wildcard);
  }

  lemma ScanEndOk(p: Params, m: Memory, op: Op, phase: Phase, best: Option<Best>)
    requires p.options.Valid() && ScanOk(p, m, op, phase, [], best)
    ensures OpOk(p, m, op.(point := ScanEnd(p, op.job, phase, best)))
  {
    hide Similarity, KeyOf;
    var next := op.(point := ScanEnd(p, op.job, phase, best));
    assert forall x | x in op.seen ::
        best.Some? && Similarity(op.seen[x], Line(op), p.options.wildcard) <= best.value.sim;
    assert SeenOk(p, m, next);
  }

  lemma ScanAdvances(p: Params, m: Memory, op: Op, choice: nat)
    requires p.options.Valid() && CanStep(p, m, op, choice) && op.point.Scanning?
    ensures OpOk(p, Effect(p, m, op, choice), Advance(p, m, op, choice))
  {
    hide KeyOf, Similarity, Passed, SeenOk, BestOk, LeafOk, BodyOk, ScanEnd;
    var Scanning(phase, todo, best, grip) := op.point;
    if todo == [] {
      ScanEndOk(p, m, op, phase, best);
    } else {
      assert todo[0] in Ids(m, KeyOf(p.options, Line(op)));
      if grip.OnBody? {
        ScanCompares(p, m, op, phase, todo, best);
        ScanPointOk(p, m, op, Advance(p, m, op, choice).point);
      } else {
        ScanTakes(p, m, op, phase, todo, best, grip);
        ScanPointOk(p, m, op, Advance(p, m, op, choice).point);
      }
    }
  }

  /** What is known of a scan concerns the line, not the point. */
  lemma ScanPointOk(p: Params, m: Memory, op: Op, point: Point)
    requires p.options.Valid() && point.Scanning? && ScanOk(p, m, op, point.phase, point.todo, point.best)
    ensures OpOk(p, m, op.(point := point))
  {
    hide KeyOf, Similarity, MoreGeneral;
    assert SeenOk(p, m, op.(point := point));
  }

  /** Moving on without touching the shard or the seen leaf keeps what a creator knows. */
  lemma CreatorMovesOn(p: Params, m: Memory, m': Memory, op: Op, point: Point)
    requires p.options.Valid() && CreatorOk(p, m, op) && m'.leaves.Keys >= m.leaves.Keys
    requires m'.bodies == m.bodies && m'.origin == m.origin
    ensures CreatorOk(p, m', op.(point := point))
    ensures SeesLeaf(p, m, op) && m'.leaves == m.leaves ==> SeesLeaf(p, m', op.(point := point))
  {
    hide KeyOf, MoreGeneral, Similarity;
    assert SeenOk(p, m', op.(point := point));
    assert BelowAll(p, op.(point := point));
  }

  lemma CreationAdvances(p: Params, m: Memory, op: Op, choice: nat)
    requires p.options.Valid() && CanStep(p, m, op, choice)
    requires op.point.Drawing? || op.point.Drawn? || op.point.Published?
    ensures OpOk(p, Effect(p, m, op, choice), Advance(p, m, op, choice))
  {
    hide KeyOf, Covers, CreatorOk, SeesLeaf, LeafOk, ScanOk, AddedOk, AnswerOk, RecordsOk, MatchOk;
    CreatorMovesOn(p, m, Effect(p, m, op, choice), op, Advance(p, m, op, choice).point);
  }

  lemma RemovalAdvances(p: Params, m: Memory, op: Op, choice: nat)
    requires p.options.Valid() && CanStep(p, m, op, choice) && (op.point.Removing? || op.point.RemovingHeld?)
    ensures OpOk(p, Effect(p, m, op, choice), Advance(p, m, op, choice))
  {
    hide KeyOf, Covers, CreatorOk, MemoryOk, SeesLeaf, ScanOk, AddedOk, AnswerOk, RecordsOk, MatchOk;
    CreatorMovesOn(p, m, Effect(p, m, op, choice), op, Advance(p, m, op, choice).point);
  }

  lemma FilingAdvances(p: Params, m: Memory, op: Op, choice: nat)
    requires p.options.Valid() && CanStep(p, m, op, choice) && op.point.Filing?
    ensures OpOk(p, Effect(p, m, op, choice), Advance(p, m, op, choice))
  {
    hide Similarity, DescentKeys, MoreGeneral, Covers, MemoryOk;
    assert SeenOk(p, Effect(p, m, op, choice), Advance(p, m, op, choice));
    assert BelowAll(p, Advance(p, m, op, choice));
  }

  lemma PublicationAdvances(p: Params, m: Memory, op: Op, choice: nat)
    requires p.options.Valid() && CanStep(p, m, op, choice) && op.point.Publishing?
    ensures OpOk(p, Effect(p, m, op, choice), Advance(p, m, op, choice))
  {
    hide Similarity, DescentKeys, MoreGeneral;
    var k := KeyOf(p.options, Line(op));
    assert LeafOk(p, m, k);
    assert SeenOk(p, Effect(p, m, op, choice), Advance(p, m, op, choice));
    assert BelowAll(p, Advance(p, m, op, choice));
  }

  lemma ChoiceAdvances(p: Params, m: Memory, op: Op, choice: nat)
    requires p.options.Valid() && CanStep(p, m, op, choice) && op.point.Choosing?
    ensures OpOk(p, Effect(p, m, op, choice), Advance(p, m, op, choice))
  {
    hide Similarity, DescentKeys, MoreGeneral, SwapRemove;
    var k := KeyOf(p.options, Line(op));
    assert LeafOk(p, m, k);
    if op.point.todo == [] {
      SwapRemoveContents(m.leaves[k], choice);
    }
    assert SeenOk(p, Effect(p, m, op, choice), Advance(p, m, op, choice));
    assert BelowAll(p, Advance(p, m, op, choice));
  }

  lemma JudgementAdvances(p: Params, m: Memory, op: Op, choice: nat)
    requires p.options.Valid() && CanStep(p, m, op, choice) && op.point.Judging?
    ensures OpOk(p, Effect(p, m, op, choice), Advance(p, m, op, choice))
  {
    hide Similarity, DescentKeys, MoreGeneral, Covers, WouldGeneralize, Generalize;
    GeneralizeIsMoreGeneral(m.bodies[op.point.id].tokens, Line(op), p.options.wildcard);
  }

  lemma RewriteAdvances(p: Params, m: Memory, op: Op, choice: nat)
    requires p.options.Valid() && CanStep(p, m, op, choice) && op.point.Rewriting?
    ensures OpOk(p, Effect(p, m, op, choice), Advance(p, m, op, choice))
  {
    hide Similarity, DescentKeys, MoreGeneral, Covers, WouldGeneralize, Rewritten;
    RewriteGrows(p, m.bodies[op.point.id], op.job.request, op.point.needs);
  }

  lemma MatchAdvances(p: Params, m: Memory, op: Op, choice: nat)
    requires p.options.Valid() && CanStep(p, m, op, choice)
    requires op.point.Assigned? || op.point.Touching? || op.point.WantRewrite?
    ensures OpOk(p, Effect(p, m, op, choice), Advance(p, m, op, choice))
  {
    hide Similarity, DescentKeys, MoreGeneral, Covers;
  }

  lemma CollectAdvances(p: Params, m: Memory, op: Op, choice: nat)
    requires p.options.Valid() && CanStep(p, m, op, choice) && op.point.Collecting?
    ensures OpOk(p, Effect(p, m, op, choice), Advance(p, m, op, choice))
  {
    hide Similarity, DescentKeys, Covers;
    assert forall id | id in m.bodies :: BodyOk(p, m, id);
  }

  /** Each step establishes the facts of the point it leads to. */
  lemma AdvanceOk(p: Params, m: Memory, op: Op, choice: nat)
    requires p.options.Valid() && CanStep(p, m, op, choice) && !Finished(op)
    ensures OpOk(p, Effect(p, m, op, choice), Advance(p, m, op, choice))
  {
    hide MemoryOk;
    match op.point
    case Start =>
    case OnShardMap =>
    case WantInsert =>
    case Inserting =>
    case WantShared => ScanBegins(p, m, op, choice);
    case WantExclusive => ScanBegins(p, m, op, choice);
    case Scanning(_, _, _, _) => ScanAdvances(p, m, op, choice);
    case Drawing => CreationAdvances(p, m, op, choice);
    case Drawn(_) => CreationAdvances(p, m, op, choice);
    case Publishing(_) => PublicationAdvances(p, m, op, choice);
    case Published(_) => CreationAdvances(p, m, op, choice);
    case Choosing(_, _, _) => ChoiceAdvances(p, m, op, choice);
    case Filing(_) => FilingAdvances(p, m, op, choice);
    case Collecting(_, _) => CollectAdvances(p, m, op, choice);
    case Judging(_) => JudgementAdvances(p, m, op, choice);
    case Rewriting(_, _) => RewriteAdvances(p, m, op, choice);
    case Removing(_, _) => RemovalAdvances(p, m, op, choice);
    case RemovingHeld(_, _) => RemovalAdvances(p, m, op, choice);
    case _ => MatchAdvances(p, m, op, choice);
  }

  // ---------------------------------------------------------------- the shared index stays coherent

  /** The leaf an operation works on stays in order. */
  lemma OwnLeafOk(p: Params, m: Memory, op: Op, choice: nat)
    requires p.options.Valid() && CanStep(p, m, op, choice)
    requires op.point.WantExclusive? || op.point.Choosing? || op.point.Filing?
    ensures var k := KeyOf(p.options, Line(op));
            k in Effect(p, m, op, choice).leaves && LeafOk(p, Effect(p, m, op, choice), k)
  {
    hide Similarity, DescentKeys, MoreGeneral, Covers, SeenOk, SeesLeaf, BelowAll, SwapRemove, BodyOk, VictimOk;
    var k := KeyOf(p.options, Line(op));
    assert k in m.leaves ==> LeafOk(p, m, k);
    if op.point.Choosing? && op.point.todo == [] {
      SwapRemoveContents(m.leaves[k], choice);
    }
    assert forall i | 0 <= i < |Ids(m, k)| :: Ids(m, k)[i] in Ids(m, k);
  }

  /** Taking a victim out of the id map leaves every leaf in order. */
  lemma DroppedLeafOk(p: Params, m: Memory, op: Op, choice: nat, k: LeafKey)
    requires p.options.Valid() && CanStep(p, m, op, choice) && op.point.RemovingHeld? && k in m.leaves
    ensures LeafOk(p, Effect(p, m, op, choice), k)
  {
    hide Similarity, KeyOf, MoreGeneral, Covers, SeenOk, SeesLeaf, BelowAll, BodyOk, NoDuplicates;
    assert LeafOk(p, m, k);
  }

  /** A step that works on no leaf and drops no id leaves every leaf in order. */
  lemma OtherLeafOk(p: Params, m: Memory, op: Op, choice: nat, k: LeafKey)
    requires p.options.Valid() && CanStep(p, m, op, choice) && k in m.leaves && k in Effect(p, m, op, choice).leaves
    requires !op.point.RemovingHeld?
    requires k != KeyOf(p.options, Line(op)) || !(op.point.WantExclusive? || op.point.Choosing? || op.point.Filing?)
    ensures LeafOk(p, Effect(p, m, op, choice), k)
  {
    EffectGrows(p, m, op, choice);
    assert LeafOk(p, m, k);
    if op.point.Choosing? && op.point.todo == [] { assert LeafOk(p, m, KeyOf(p.options, Line(op))); }
    hide KeyOf, MoreGeneral, OpOk, SwapRemove, Rewritten, NewBody, Observed, Touched, BodyOk, NoDuplicates, MemoryOk;
  }

  lemma EffectLeafOk(p: Params, m: Memory, op: Op, choice: nat, k: LeafKey)
    requires p.options.Valid() && CanStep(p, m, op, choice) && k in Effect(p, m, op, choice).leaves
    ensures LeafOk(p, Effect(p, m, op, choice), k)
  {
    LeafIsOldOrOwn(p, m, op, choice, k);
    hide Effect, OpOk, LeafOk, KeyOf;
    if k == KeyOf(p.options, Line(op)) && (op.point.WantExclusive? || op.point.Choosing? || op.point.Filing?) {
      OwnLeafOk(p, m, op, choice);
    } else if op.point.RemovingHeld? {
      DroppedLeafOk(p, m, op, choice, k);
    } else {
      OtherLeafOk(p, m, op, choice, k);
    }
  }

  lemma LeafIsOldOrOwn(p: Params, m: Memory, op: Op, choice: nat, k: LeafKey)
    requires p.options.Valid() && CanStep(p, m, op, choice) && k in Effect(p, m, op, choice).leaves
    ensures k in m.leaves
            || (k == KeyOf(p.options, Line(op)) && (op.point.WantExclusive? || op.point.Choosing? || op.point.Filing?))
  {
    hide KeyOf, OpOk, SwapRemove, MemoryOk;
  }

  lemma RewrittenBodyOk(p: Params, m: Memory, op: Op, choice: nat)
    requires p.options.Valid() && CanStep(p, m, op, choice) && op.point.Rewriting?
    ensures BodyOk(p, Effect(p, m, op, choice), op.point.id)
  {
    hide Similarity, KeyOf, Covers, MoreGeneral, Rewritten, LeafOk;
    var id := op.point.id;
    assert BodyOk(p, m, id);
    RewriteGrows(p, m.bodies[id], op.job.request, op.point.needs);
    var m' := Effect(p, m, op, choice);
    MoreGeneralTransitive(m.origin[id], m.bodies[id].tokens, m'.bodies[id].tokens, p.options.wildcard);
  }

  lemma CreationBodyOk(p: Params, m: Memory, op: Op, choice: nat, id: Id)
    requires p.options.Valid() && CanStep(p, m, op, choice) && id in Effect(p, m, op, choice).bodies
    requires op.point.Publishing? || op.point.RemovingHeld?
    ensures BodyOk(p, Effect(p, m, op, choice), id)
  {
    hide KeyOf, Covers, SeenOk, SeesLeaf, BelowAll, LeafOk;
    assert id in m.bodies ==> BodyOk(p, m, id);
  }

  lemma EffectBodyOk(p: Params, m: Memory, op: Op, choice: nat, id: Id)
    requires p.options.Valid() && CanStep(p, m, op, choice) && id in Effect(p, m, op, choice).bodies
    ensures BodyOk(p, Effect(p, m, op, choice), id)
  {
    hide OpOk, KeyOf, MoreGeneral, SwapRemove, LeafOk;
    if op.point.Rewriting? && op.point.id == id {
      RewrittenBodyOk(p, m, op, choice);
    } else if op.point.Publishing? || op.point.RemovingHeld? {
      CreationBodyOk(p, m, op, choice, id);
    } else {
      hide Rewritten;
      assert BodyOk(p, m, id);
    }
  }

  lemma EffectDomains(p: Params, m: Memory, op: Op, choice: nat)
    requires p.options.Valid() && CanStep(p, m, op, choice)
    ensures var m' := Effect(p, m, op, choice);
            && (forall id | id in m'.live || id in m'.evicted || id in m'.origin :: id in m'.bodies)
            && (forall id | id in m'.bodies :: id in m.bodies || (op.point.Publishing? && id == op.point.id))
  {
    hide Similarity, KeyOf, Covers, ScanOk, SeenOk, BelowAll, SwapRemove, Rewritten, BodyOk;
    var k := KeyOf(p.options, Line(op));
    assert k in m.leaves ==> LeafOk(p, m, k);
  }

  lemma EffectShards(p: Params, m: Memory, op: Op, choice: nat)
    requires p.options.Valid() && CanStep(p, m, op, choice)
    ensures forall k | k in Effect(p, m, op, choice).leaves :: k.count in Effect(p, m, op, choice).shards
  {
    hide DescentKeys, LeafOk, BodyOk, SeenOk, SeesLeaf, BelowAll, Passed, OwnOk, VictimOk, MatchOk, AddedOk, AnswerOk;
  }

  lemma EffectMemoryOk(p: Params, m: Memory, op: Op, choice: nat)
    requires p.options.Valid() && CanStep(p, m, op, choice)
    ensures MemoryOk(p, Effect(p, m, op, choice))
  {
    hide Effect, LeafOk, BodyOk, OpOk, Ready;
    var m' := Effect(p, m, op, choice);
    EffectDomains(p, m, op, choice);
    EffectShards(p, m, op, choice);
    forall k | k in m'.leaves
      ensures LeafOk(p, m', k)
    {
      EffectLeafOk(p, m, op, choice, k);
    }
    forall id | id in m'.bodies
      ensures BodyOk(p, m', id)
    {
      EffectBodyOk(p, m, op, choice, id);
    }
  }

  // ---------------------------------------------------------------- no cluster is lost on the way

  /** A cluster in its leaf or carried by the operation is so after the step too. */
  ghost predicate StaysAccountedFor(p: Params, m: Memory, op: Op, choice: nat, id: Id)
    requires p.options.Valid() && Ready(p, m, op, choice)
  {
    && id in Effect(p, m, op, choice).bodies
    && (InLeaf(p, Effect(p, m, op, choice), id) || Carries(Advance(p, m, op, choice), id))
  }

  lemma EvictionAccountsFor(p: Params, m: Memory, op: Op, choice: nat, id: Id)
    requires p.options.Valid() && CanStep(p, m, op, choice) && op.point.Choosing? && id in m.live
    requires id in m.bodies && (InLeaf(p, m, id) || Carries(op, id))
    ensures StaysAccountedFor(p, m, op, choice, id)
  {
    hide Similarity, DescentKeys, MoreGeneral, Covers, SeenOk, BelowAll, SwapRemove, BodyOk;
    var k := KeyOf(p.options, Line(op));
    assert LeafOk(p, m, k);
    if op.point.todo == [] {
      SwapRemoveContents(m.leaves[k], choice);
    }
  }

  lemma CreationAccountsFor(p: Params, m: Memory, op: Op, choice: nat, id: Id)
    requires p.options.Valid() && CanStep(p, m, op, choice) && Section(op) && !op.point.Choosing?
    requires id in Effect(p, m, op, choice).live
    requires id in m.live ==> id in m.bodies && (InLeaf(p, m, id) || Carries(op, id))
    ensures StaysAccountedFor(p, m, op, choice, id)
  {
    hide Similarity, DescentKeys, MoreGeneral, Covers, ScanOk, SeenOk, BelowAll, BodyOk, LeafOk;
  }

  lemma StepAccountsFor(p: Params, m: Memory, op: Op, choice: nat, id: Id)
    requires p.options.Valid() && CanStep(p, m, op, choice) && id in Effect(p, m, op, choice).live
    requires id in m.live ==> id in m.bodies && (InLeaf(p, m, id) || Carries(op, id))
    ensures StaysAccountedFor(p, m, op, choice, id)
  {
    hide Similarity, KeyOf, MoreGeneral, Covers, OpOk, SwapRemove, Rewritten, BodyOk, LeafOk, NewBody, WouldGeneralize;
    if op.point.Choosing? {
      EvictionAccountsFor(p, m, op, choice, id);
    } else if Section(op) {
      CreationAccountsFor(p, m, op, choice, id);
    } else {
      EffectGrows(p, m, op, choice);
    }
  }

  /** An operation gives its shard up only when its leaf holds a cluster: the one it matched or the one it filed. */
  lemma ScanAttends(p: Params, m: Memory, op: Op, choice: nat)
    requires p.options.Valid() && CanStep(p, m, op, choice) && op.point.Scanning? && Section(op)
    ensures Section(Advance(p, m, op, choice)) || Ids(m, KeyOf(p.options, Line(op))) != []
  {
    hide KeyOf, SeenOk, SeesLeaf, Passed, MemoryOk, Better;
  }

  lemma CreationAttends(p: Params, m: Memory, op: Op, choice: nat)
    requires p.options.Valid() && CanStep(p, m, op, choice)
    requires (Section(op) && !op.point.Scanning?) || op.point.WantExclusive?
    ensures Section(Advance(p, m, op, choice)) || op.point.Filing?
  {
    hide KeyOf, OpOk, MemoryOk, ChooseStep;
    ChoosingGoesOn(m, op);
  }

  lemma ChoosingGoesOn(m: Memory, op: Op)
    ensures op.point.Choosing? && op.point.todo != [] ==>
              var next := ChooseStep(m, op.point.id, op.point.todo, op.point.grip);
              next.Choosing? && next.id == op.point.id
  {
  }

  /** A step changes no leaf but its own. */
  lemma OtherLeavesStay(p: Params, m: Memory, op: Op, choice: nat, k: LeafKey)
    requires p.options.Valid() && Ready(p, m, op, choice) && k in Effect(p, m, op, choice).leaves
    ensures (k == KeyOf(p.options, Line(op)) && (op.point.WantExclusive? || op.point.Choosing? || op.point.Filing?))
            || (k in m.leaves && Effect(p, m, op, choice).leaves[k] == m.leaves[k])
  {
    hide KeyOf, SwapRemove, Rewritten, Observed, Touched, NewBody;
  }

  /** A leaf that a step empties, or leaves empty, is one the operation is working on. */
  lemma StepAttends(p: Params, m: Memory, op: Op, choice: nat, k: LeafKey)
    requires p.options.Valid() && CanStep(p, m, op, choice)
    requires k in Effect(p, m, op, choice).leaves && Effect(p, m, op, choice).leaves[k] == []
    ensures var op' := Advance(p, m, op, choice);
            || (Section(op') && KeyOf(p.options, Line(op')) == k)
            || (k in m.leaves && m.leaves[k] == [] && !(Section(op) && KeyOf(p.options, Line(op)) == k))
  {
    hide Advance, KeyOf, OpOk, MemoryOk, Ready, Held, WantedSet;
    AdvanceHolds(p, m, op, choice);
    OtherLeavesStay(p, m, op, choice, k);
    if op.point.Scanning? && Section(op) {
      ScanAttends(p, m, op, choice);
    } else if Section(op) || op.point.WantExclusive? {
      CreationAttends(p, m, op, choice);
    }
  }

  lemma StepOwns(p: Params, m: Memory, op: Op, choice: nat)
    requires p.options.Valid() && CanStep(p, m, op, choice)
    ensures Own(Advance(p, m, op, choice)) == if op.point.Drawing? then Some(m.counter + 1) else Own(op)
    ensures Effect(p, m, op, choice).counter == if op.point.Drawing? then m.counter + 1 else m.counter
  {
    hide Similarity, DescentKeys, MoreGeneral, Covers, SeenOk, BelowAll, SwapRemove, Rewritten, BodyOk, LeafOk;
  }

  lemma MoveAccountsFor(p: Params, w: World, t: OpId, choice: nat, id: Id)
    requires Inv(p, w) && Enabled(p, w, t, choice) && id in Move(p, w, t, choice).mem.live
    ensures var w' := Move(p, w, t, choice);
            id in w'.mem.bodies && (InLeaf(p, w'.mem, id) || Carried(w', id))
  {
    hide Effect, Advance, OpOk, Exclusion, OwnIds, InLeaf, LeafOk, BodyOk, KeyOf, Carries, Grow, Held, Available,
      Wanted;
    var w' := Move(p, w, t, choice);
    EffectGrows(p, w.mem, w.ops[t], choice);
    if id in w.mem.live && !InLeaf(p, w.mem, id) && !Carries(w.ops[t], id) {
      var u :| u in w.ops && Carries(w.ops[u], id);
      assert Carries(w'.ops[u], id);
      EffectBodiesStay(p, w.mem, w.ops[t], choice, id);
    } else {
      StepAccountsFor(p, w.mem, w.ops[t], choice, id);
      assert Carries(w'.ops[t], id) ==> Carried(w', id);
    }
  }

  lemma EffectBodiesStay(p: Params, m: Memory, op: Op, choice: nat, id: Id)
    requires p.options.Valid() && CanStep(p, m, op, choice) && id in m.bodies
    ensures id in Effect(p, m, op, choice).bodies
  {
    hide Effect, CanStep;
    EffectGrows(p, m, op, choice);
  }

  lemma MoveAttends(p: Params, w: World, t: OpId, choice: nat, k: LeafKey)
    requires Inv(p, w) && Enabled(p, w, t, choice)
    requires k in Move(p, w, t, choice).mem.leaves && Move(p, w, t, choice).mem.leaves[k] == []
    ensures Attended(p, Move(p, w, t, choice), k)
  {
    hide Effect, Advance, OpOk, Exclusion, OwnIds, LeafOk, BodyOk, KeyOf, Section, Held, Available, Wanted;
    var w' := Move(p, w, t, choice);
    StepAttends(p, w.mem, w.ops[t], choice, k);
    if Section(w'.ops[t]) && KeyOf(p.options, Line(w'.ops[t])) == k {
    } else {
      var u :| u in w.ops && Section(w.ops[u]) && KeyOf(p.options, Line(w.ops[u])) == k;
      assert u != t;
      assert w'.ops[u] == w.ops[u];
    }
  }

  lemma MoveKeepsOwnIds(p: Params, w: World, t: OpId, choice: nat)
    requires Inv(p, w) && Enabled(p, w, t, choice)
    ensures OwnIds(Move(p, w, t, choice))
  {
    hide Effect, Advance, OpOk, Exclusion, LeafOk, BodyOk, KeyOf, Own, Held, Available, Wanted;
    StepOwns(p, w.mem, w.ops[t], choice);
  }

  /** The facts of the other operations survive the step. */
  lemma OthersStayOk(p: Params, w: World, t: OpId, choice: nat, u: OpId)
    requires Inv(p, w) && Enabled(p, w, t, choice) && u in w.ops && u != t
    ensures OpOk(p, Effect(p, w.mem, w.ops[t], choice), w.ops[u])
  {
    hide Effect, Advance, OpOk, LeafOk, BodyOk, KeyOf, Held, Wanted, Available;
    EffectGrows(p, w.mem, w.ops[t], choice);
    EffectDomains(p, w.mem, w.ops[t], choice);
    if HoldsShard(w.ops[u]) {
      if Section(w.ops[t]) { OneHolder(p, w, t, u); }
      if w.ops[t].point.WantExclusive? { NoOtherHolder(p, w, t, choice, u); }
      EffectKeeps(p, w.mem, w.ops[t], choice, |Line(w.ops[u])|);
    }
    OpStable(p, w.mem, Effect(p, w.mem, w.ops[t], choice), w.ops[u]);
  }

  lemma MoveKeepsInv(p: Params, w: World, t: OpId, choice: nat)
    requires Inv(p, w) && Enabled(p, w, t, choice)
    ensures Inv(p, Move(p, w, t, choice))
  {
    hide Effect, Advance, OpOk, Exclusion, OwnIds, LeafOk, BodyOk, KeyOf, InLeaf, Carried, Attended, Held, Wanted,
      Available;
    var w' := Move(p, w, t, choice);
    MoveKeepsExclusion(p, w, t, choice);
    EffectMemoryOk(p, w.mem, w.ops[t], choice);
    MoveKeepsOwnIds(p, w, t, choice);
    AdvanceOk(p, w.mem, w.ops[t], choice);
    forall u | u in w'.ops
      ensures OpOk(p, w'.mem, w'.ops[u])
    {
      if u != t { OthersStayOk(p, w, t, choice, u); }
    }
    forall id | id in w'.mem.live
      ensures id in w'.mem.bodies && (InLeaf(p, w'.mem, id) || Carried(w', id))
    {
      MoveAccountsFor(p, w, t, choice, id);
    }
    forall k | k in w'.mem.leaves && w'.mem.leaves[k] == []
      ensures Attended(p, w', k)
    {
      MoveAttends(p, w, t, choice, k);
    }
  }
}
