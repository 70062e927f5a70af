/** An add that runs alone, storing the next tick and evicting the least recently used cluster, takes exactly
    the sequential step (crates/logdrain/src/miner.rs:151-211 and 239-292). */
module ProtocolSequential {
  import opened Wrappers
  import opened Options
  import opened Templates
  import opened Index
  import II = IndexInvariant
  import opened Protocol
  import opened ProtocolIndex
  import opened ProtocolSafety

  /** What a lone operation does where interleavings leave a choice. */
  function Chosen(p: Params, st: State, m: Memory, op: Op): nat
    requires p.options.Valid()
  {
    var ids := Ids(m, KeyOf(p.options, Line(op)));
    if op.point.Choosing? && op.point.todo == [] && ids != [] then Victim(m.bodies, ids) else st.tick
  }

  /** Operation `t` alone, from a miner at rest. */
  ghost predicate Alone(p: Params, st: State, r: Request, t: OpId, ws: seq<World>)
    requires p.options.Valid()
  {
    && ws != []
    && ws[0] == Invoke(Rest(st), t, Adding(r))
    && forall i | 0 <= i < |ws| - 1 ::
         && t in ws[i].ops
         && Enabled(p, ws[i], t, Chosen(p, st, ws[i].mem, ws[i].ops[t]))
         && ws[i + 1] == Move(p, ws[i], t, Chosen(p, st, ws[i].mem, ws[i].ops[t]))
  }

  // ---------------------------------------------------------------- the memory on the way

  function AtRest(st: State): Memory {
    Rest(st).mem
  }

  /** The shard exists. */
  function WithShard(st: State, r: Request): Memory {
    AtRest(st).(shards := AtRest(st).shards + {|r.tokens|})
  }

  /** The leaf exists. */
  function WithLeaf(p: Params, st: State, r: Request): Memory
    requires p.options.Valid()
  {
    var k := KeyOf(p.options, r.tokens);
    WithShard(st, r).(leaves := st.leaves[k := LeafIds(st, k)])
  }

  function WithBody(p: Params, st: State, r: Request): Memory
    requires p.options.Valid()
  {
    var m, id := WithLeaf(p, st, r), st.counter + 1;
    m.(counter := id,
       bodies := m.bodies[id := NewBody(id, r, st.tick)],
       live := m.live + {id},
       origin := m.origin[id := r.tokens])
  }

  predicate Full(p: Params, st: State, r: Request)
    requires p.options.Valid()
  {
    |LeafIds(st, KeyOf(p.options, r.tokens))| >= p.options.maxClustersPerLeaf
  }

  function Loser(p: Params, st: State, r: Request): Id
    requires p.options.Valid() && Full(p, st, r)
  {
    Victim(WithBody(p, st, r).bodies, LeafIds(st, KeyOf(p.options, r.tokens)))
  }

  function WithRoom(p: Params, st: State, r: Request): Memory
    requires p.options.Valid() && Full(p, st, r)
  {
    var k := KeyOf(p.options, r.tokens);
    var m, v := WithBody(p, st, r), Loser(p, st, r);
    m.(leaves := m.leaves[k := SwapRemove(LeafIds(st, k), v)], evicted := m.evicted + {v})
  }

  function Touch(st: State, r: Request, id: Id): Memory
    requires id in st.bodies
  {
    WithShard(st, r).(bodies := st.bodies[id := Observed(Touched(st.bodies[id], st.tick), r.event)])
  }

  /** The scan has compared the ids before `todo`. */
  ghost predicate ScannedUpTo(p: Params, st: State, r: Request, todo: seq<Id>, best: Option<Best>)
    requires p.options.Valid()
  {
    var ids := LeafIds(st, KeyOf(p.options, r.tokens));
    && |todo| <= |ids| && todo == ids[|ids| - |todo|..]
    && best == BestMatch(st.bodies, ids[..|ids| - |todo|], r.tokens, p.options.wildcard)
  }

  ghost predicate MatchesBest(p: Params, st: State, r: Request, id: Id)
    requires p.options.Valid()
  {
    var best := ScanLeaf(p.options, st, r.tokens);
    Reaches(p.options, best) && best.value.id == id && id in st.bodies && |st.bodies[id].tokens| == |r.tokens|
  }

  predicate Missed(p: Params, st: State, r: Request)
    requires p.options.Valid()
  {
    !Reaches(p.options, ScanLeaf(p.options, st, r.tokens))
  }

  predicate CreatingPoint(point: Point) {
    point.Drawing? || point.Drawn? || point.Publishing? || point.Published? || point.Choosing? || point.Removing?
    || point.RemovingHeld? || point.Filing?
  }

  predicate MatchingPoint(point: Point) {
    point.Assigned? || point.Touching? || point.Judging? || point.WantRewrite? || point.Rewriting?
  }

  /** Up to the end of the scans. */
  ghost predicate Searching(p: Params, st: State, r: Request, m: Memory, point: Point)
    requires p.options.Valid()
  {
    match point
    case Start => m == AtRest(st)
    case OnShardMap => m == AtRest(st)
    case WantInsert => m == AtRest(st)
    case Inserting => m == AtRest(st)
    case WantShared => m == WithShard(st, r)
    case Scanning(phase, todo, best, _) =>
      && m == (if phase.Matching? then WithShard(st, r) else WithLeaf(p, st, r))
      && ScannedUpTo(p, st, r, todo, best) && (phase.Creating? ==> Missed(p, st, r))
    case WantExclusive => m == WithShard(st, r) && Missed(p, st, r)
    case _ => false
  }

  /** While a new cluster is made. */
  ghost predicate Making(p: Params, st: State, r: Request, m: Memory, point: Point)
    requires p.options.Valid()
  {
    var next := st.counter + 1;
    && Missed(p, st, r)
    && match point
       case Drawing => m == WithLeaf(p, st, r)
       case Drawn(id) => m == WithLeaf(p, st, r).(counter := next) && id == next
       case Publishing(id) => m == WithLeaf(p, st, r).(counter := next) && id == next
       case Published(id) => m == WithBody(p, st, r) && id == next
       case Choosing(id, _, _) => m == WithBody(p, st, r) && id == next && Full(p, st, r)
       case Removing(id, v) => Full(p, st, r) && m == WithRoom(p, st, r) && v == Loser(p, st, r) && id == next
       case RemovingHeld(id, v) => Full(p, st, r) && m == WithRoom(p, st, r) && v == Loser(p, st, r) && id == next
       case Filing(id) => m == BeforeFiling(p, st, r) && id == next
       case _ => false
  }

  /** While a match is applied. */
  ghost predicate Applying(p: Params, st: State, r: Request, m: Memory, point: Point)
    requires p.options.Valid() && MatchingPoint(point)
  {
    && MatchesBest(p, st, r, point.id)
    && m == (if point.Assigned? || point.Touching? then WithShard(st, r) else Touch(st, r, point.id))
    && (point.WantRewrite? || point.Rewriting? ==>
          point.needs == WouldGeneralize(st.bodies[point.id].tokens, r.tokens, p.options.wildcard))
  }

  ghost predicate OnTrack(p: Params, st: State, r: Request, m: Memory, op: Op)
    requires II.Inv(p.options, st)
  {
    && op.job == Adding(r)
    && if op.point.Added? then EndsAsAdd(p, st, r, m, op.point.result)
       else if CreatingPoint(op.point) then Making(p, st, r, m, op.point)
       else if MatchingPoint(op.point) then Applying(p, st, r, m, op.point)
       else Searching(p, st, r, m, op.point)
  }

  /** The memory and the result are those of the sequential step. */
  ghost predicate EndsAsAdd(p: Params, st: State, r: Request, m: Memory, result: AddResult)
    requires II.Inv(p.options, st)
  {
    II.InvCountsFit(p.options, st);
    AsState(m).(tick := st.tick + 1) == Add(p.options, st, r).0 && result == Add(p.options, st, r).1
  }

  // ---------------------------------------------------------------- single steps

  ghost predicate StaysOnTrack(p: Params, st: State, r: Request, m: Memory, op: Op)
    requires II.Inv(p.options, st) && Ready(p, m, op, Chosen(p, st, m, op))
  {
    OnTrack(p, st, r, Effect(p, m, op, Chosen(p, st, m, op)), Advance(p, m, op, Chosen(p, st, m, op)))
  }

  lemma ScanTurnStaysOnTrack(p: Params, st: State, r: Request, m: Memory, op: Op)
    requires II.Inv(p.options, st) && OnTrack(p, st, r, m, op) && Ready(p, m, op, Chosen(p, st, m, op))
    requires op.point.Scanning? && op.point.todo != []
    ensures StaysOnTrack(p, st, r, m, op)
  {
    hide Making, Applying, Similarity, KeyOf, ScanLeaf, Reaches, EndsAsAdd, MatchesBest;
    var k := KeyOf(p.options, r.tokens);
    var ids := LeafIds(st, k);
    var todo := op.point.todo;
    var n := |ids| - |todo|;
    assert ids[n] == todo[0] && ids[n] in ids && k in st.leaves;
    assert ids[..n + 1][..n] == ids[..n] && ids[..n + 1][n] == ids[n];
    assert todo[1..] == ids[n + 1..];
  }

  lemma ScanEndStaysOnTrack(p: Params, st: State, r: Request, m: Memory, op: Op)
    requires II.Inv(p.options, st) && OnTrack(p, st, r, m, op) && Ready(p, m, op, Chosen(p, st, m, op))
    requires op.point.Scanning? && op.point.todo == []
    ensures StaysOnTrack(p, st, r, m, op)
  {
    hide EndsAsAdd, Similarity, DescentKeys, BestMatch;
    var ids := LeafIds(st, KeyOf(p.options, r.tokens));
    assert ids[..|ids| - 0] == ids;
    if Reaches(p.options, op.point.best) { BestIsAmong(st.bodies, ids, r.tokens, p.options.wildcard); }
  }

  lemma ShardStaysOnTrack(p: Params, st: State, r: Request, m: Memory, op: Op)
    requires II.Inv(p.options, st) && OnTrack(p, st, r, m, op) && Ready(p, m, op, Chosen(p, st, m, op))
    requires op.point.Start? || op.point.OnShardMap? || op.point.WantInsert? || op.point.Inserting?
    ensures StaysOnTrack(p, st, r, m, op)
  {
    hide Making, Applying, KeyOf, EndsAsAdd, ScannedUpTo, Missed, WithLeaf;
    assert |r.tokens| in AtRest(st).shards ==> AtRest(st).shards + {|r.tokens|} == AtRest(st).shards;
  }

  lemma ScanStartStaysOnTrack(p: Params, st: State, r: Request, m: Memory, op: Op)
    requires II.Inv(p.options, st) && OnTrack(p, st, r, m, op) && Ready(p, m, op, Chosen(p, st, m, op))
    requires op.point.WantShared? || op.point.WantExclusive?
    ensures StaysOnTrack(p, st, r, m, op)
  {
    hide Making, Applying, KeyOf, EndsAsAdd, Missed, ScannedUpTo;
    NothingScanned(p, st, r);
  }

  lemma NothingScanned(p: Params, st: State, r: Request)
    requires p.options.Valid()
    ensures ScannedUpTo(p, st, r, LeafIds(st, KeyOf(p.options, r.tokens)), None)
  {
    hide KeyOf;
    var ids := LeafIds(st, KeyOf(p.options, r.tokens));
    assert ids[|ids| - |ids|..] == ids && ids[..0] == [];
  }

  lemma CreationStaysOnTrack(p: Params, st: State, r: Request, m: Memory, op: Op)
    requires II.Inv(p.options, st) && OnTrack(p, st, r, m, op) && Ready(p, m, op, Chosen(p, st, m, op))
    requires op.point.Drawing? || op.point.Drawn? || op.point.Publishing? || op.point.Published?
    ensures StaysOnTrack(p, st, r, m, op)
  {
    hide Searching, Applying, Similarity, DescentKeys, ScanLeaf, Reaches, Victim, SwapRemove, EndsAsAdd, MatchesBest,
      NewBody;
  }

  lemma EvictionStaysOnTrack(p: Params, st: State, r: Request, m: Memory, op: Op)
    requires II.Inv(p.options, st) && OnTrack(p, st, r, m, op) && Ready(p, m, op, Chosen(p, st, m, op))
    requires op.point.Choosing? || op.point.Removing? || op.point.RemovingHeld?
    ensures StaysOnTrack(p, st, r, m, op)
  {
    hide OnTrack, StaysOnTrack, II.Inv, Effect, Advance, Ready, Chosen;
    if op.point.Choosing? {
      ChoosingStaysOnTrack(p, st, r, m, op);
    } else {
      RemovalStaysOnTrack(p, st, r, m, op);
    }
  }

  lemma RemovalStaysOnTrack(p: Params, st: State, r: Request, m: Memory, op: Op)
    requires II.Inv(p.options, st) && OnTrack(p, st, r, m, op) && Ready(p, m, op, Chosen(p, st, m, op))
    requires op.point.Removing? || op.point.RemovingHeld?
    ensures StaysOnTrack(p, st, r, m, op)
  {
    hide Searching, Applying, KeyOf, Missed, SwapRemove, EndsAsAdd, Victim, WithRoom, WithBody, Loser;
  }

  lemma ChoosingStaysOnTrack(p: Params, st: State, r: Request, m: Memory, op: Op)
    requires II.Inv(p.options, st) && OnTrack(p, st, r, m, op) && Ready(p, m, op, Chosen(p, st, m, op))
    requires op.point.Choosing?
    ensures StaysOnTrack(p, st, r, m, op)
  {
    hide Searching, Applying, KeyOf, Missed, SwapRemove, EndsAsAdd, NewBody, ChooseStep, Victim, MemoryOk;
    ChoosingGoesOn(m, op);
  }

  /** The state and the result of the sequential step when nothing matches. */
  lemma AddWhenMissed(p: Params, st: State, r: Request)
    requires II.Inv(p.options, st) && !Reaches(p.options, ScanLeaf(p.options, st, r.tokens)) && CountsFit(st)
    ensures Add(p.options, st, r) == (Create(p.options, st, r), AddResult(st.counter + 1, Created))
  {
  }

  /** The memory before the new cluster is filed. */
  function BeforeFiling(p: Params, st: State, r: Request): Memory
    requires p.options.Valid()
  {
    if Full(p, st, r) then WithRoom(p, st, r).(live := WithRoom(p, st, r).live - {Loser(p, st, r)})
    else WithBody(p, st, r)
  }

  lemma SameLoser(p: Params, st: State, r: Request)
    requires II.Inv(p.options, st) && Full(p, st, r)
    ensures var st1 := st.(counter := st.counter + 1, tick := st.tick + 1,
                           bodies := st.bodies[st.counter + 1 := NewBody(st.counter + 1, r, st.tick)]);
            var k := KeyOf(p.options, r.tokens);
            var v := Loser(p, st, r);
            && v in LeafIds(st, k) && v in st.bodies
            && EvictIfFull(p.options, st1, k)
               == st1.(leaves := st1.leaves[k := SwapRemove(LeafIds(st, k), v)], bodies := st1.bodies - {v})
  {
    hide KeyOf, SwapRemove, Victim, NewBody;
  }

  /** Filing from `m` ends in the state of the sequential creation. */
  ghost predicate CreatesFrom(p: Params, st: State, r: Request, m: Memory)
    requires p.options.Valid()
  {
    var k := KeyOf(p.options, r.tokens);
    AsState(m.(leaves := m.leaves[k := Ids(m, k) + [st.counter + 1]])).(tick := st.tick + 1) == Create(p.options, st, r)
  }

  /** The live bodies after inserting one and dropping another. */
  lemma DroppedBodies(bodies: map<Id, Body>, id: Id, b: Body, v: Id)
    ensures var all := bodies[id := b];
            (map x | x in bodies.Keys + {id} - {v} && x in all :: all[x]) == all - {v}
  {
  }

  lemma MemoryOfFullLeaf(p: Params, st: State, r: Request)
    requires II.Inv(p.options, st) && Full(p, st, r)
    ensures var v, id, k := Loser(p, st, r), st.counter + 1, KeyOf(p.options, r.tokens);
            var left, m := SwapRemove(LeafIds(st, k), v), BeforeFiling(p, st, r);
            && m.live == st.bodies.Keys + {id} - {v} && m.bodies == st.bodies[id := NewBody(id, r, st.tick)]
            && m.counter == id && m.leaves == st.leaves[k := left] && Ids(m, k) == left
  {
    hide KeyOf, SwapRemove, Victim, NewBody, Loser, II.LeavesOk, II.BodiesOk;
  }

  lemma FilingInFullLeaf(p: Params, st: State, r: Request)
    requires II.Inv(p.options, st) && Full(p, st, r)
    ensures CreatesFrom(p, st, r, BeforeFiling(p, st, r))
  {
    hide KeyOf, SwapRemove, Victim, NewBody, Loser, Full, EvictIfFull, BeforeFiling, II.LeavesOk, II.BodiesOk;
    SameLoser(p, st, r);
    MemoryOfFullLeaf(p, st, r);
    DroppedBodies(st.bodies, st.counter + 1, NewBody(st.counter + 1, r, st.tick), Loser(p, st, r));
  }

  lemma FilingWithRoom(p: Params, st: State, r: Request)
    requires II.Inv(p.options, st) && !Full(p, st, r)
    ensures CreatesFrom(p, st, r, BeforeFiling(p, st, r))
  {
    hide KeyOf, SwapRemove, Victim, NewBody, Loser;
    var m, k := BeforeFiling(p, st, r), KeyOf(p.options, r.tokens);
    var m' := m.(leaves := m.leaves[k := Ids(m, k) + [st.counter + 1]]);
    assert AsState(m').bodies == Create(p.options, st, r).bodies;
    assert m'.leaves == Create(p.options, st, r).leaves;
  }

  lemma FilingStaysOnTrack(p: Params, st: State, r: Request, m: Memory, op: Op)
    requires II.Inv(p.options, st) && OnTrack(p, st, r, m, op) && Ready(p, m, op, Chosen(p, st, m, op))
    requires op.point.Filing?
    ensures StaysOnTrack(p, st, r, m, op)
  {
    hide Searching, Applying, KeyOf, ScanLeaf, Reaches, BeforeFiling, Create, Add, AsState, MatchesBest, Full;
    II.InvCountsFit(p.options, st);
    AddWhenMissed(p, st, r);
    if Full(p, st, r) { FilingInFullLeaf(p, st, r); } else { FilingWithRoom(p, st, r); }
  }

  lemma WaitStaysOnTrack(p: Params, st: State, r: Request, m: Memory, op: Op)
    requires II.Inv(p.options, st) && OnTrack(p, st, r, m, op) && Ready(p, m, op, Chosen(p, st, m, op))
    requires op.point.Assigned? || op.point.WantRewrite?
    ensures StaysOnTrack(p, st, r, m, op)
  {
    hide Searching, Making, KeyOf, MatchesBest, WouldGeneralize, EndsAsAdd, Touch, WithShard;
  }

  lemma TouchStaysOnTrack(p: Params, st: State, r: Request, m: Memory, op: Op)
    requires II.Inv(p.options, st) && OnTrack(p, st, r, m, op) && Ready(p, m, op, Chosen(p, st, m, op))
    requires op.point.Touching?
    ensures StaysOnTrack(p, st, r, m, op)
  {
    hide Searching, Making, KeyOf, ScanLeaf, Reaches, WouldGeneralize, EndsAsAdd, Observed, Touched;
  }

  /** The state and the result of the sequential step when the line matches. */
  lemma AddWhenMatched(p: Params, st: State, r: Request, id: Id)
    requires II.Inv(p.options, st) && MatchesBest(p, st, r, id) && CountsFit(st)
    ensures var b := st.bodies[id];
            var w := p.options.wildcard;
            Add(p.options, st, r) == (st.(bodies := st.bodies[id := Matched(b, r, st.tick, w)], tick := st.tick + 1),
                                      AddResult(id, if WouldGeneralize(b.tokens, r.tokens, w) then TemplateChanged
                                                    else NoChange))
  {
  }

  lemma AfterMatch(p: Params, st: State, r: Request, id: Id)
    requires II.Inv(p.options, st) && MatchesBest(p, st, r, id) && CountsFit(st)
    ensures var m, b, w := Touch(st, r, id), st.bodies[id], p.options.wildcard;
            var b' := Matched(b, r, st.tick, w);
            && AsState(m.(bodies := m.bodies[id := b'])).(tick := st.tick + 1) == Add(p.options, st, r).0
            && (m.bodies[id] == b' ==> AsState(m).(tick := st.tick + 1) == Add(p.options, st, r).0)
  {
    hide ScanLeaf, Reaches, Matched, Observed, Touched, Add;
    AddWhenMatched(p, st, r, id);
    var m, b' := Touch(st, r, id), Matched(st.bodies[id], r, st.tick, p.options.wildcard);
    assert AsState(m.(bodies := m.bodies[id := b'])).bodies == st.bodies[id := b'];
    assert m.bodies[id] == b' ==> m.bodies == m.bodies[id := b'];
  }

  lemma NothingToRewrite(b: Body, r: Request, tick: nat, w: string)
    requires |b.tokens| == |r.tokens| && !WouldGeneralize(b.tokens, r.tokens, w) && r.member.None?
    ensures Matched(b, r, tick, w) == Observed(Touched(b, tick), r.event)
  {
  }

  lemma JudgementStaysOnTrack(p: Params, st: State, r: Request, m: Memory, op: Op)
    requires II.Inv(p.options, st) && OnTrack(p, st, r, m, op) && Ready(p, m, op, Chosen(p, st, m, op))
    requires op.point.Judging?
    ensures StaysOnTrack(p, st, r, m, op)
  {
    hide Searching, Making, KeyOf, ScanLeaf, Reaches, WouldGeneralize, Observed, Touched, Matched, Add, AsState;
    II.InvCountsFit(p.options, st);
    var b := st.bodies[op.point.id];
    TouchKeepsTokens(b, st.tick, r.event);
    if !WouldGeneralize(b.tokens, r.tokens, p.options.wildcard) && r.member.None? {
      AddWhenMatched(p, st, r, op.point.id);
      NothingToRewrite(b, r, st.tick, p.options.wildcard);
      AfterMatch(p, st, r, op.point.id);
    }
  }

  lemma TouchKeepsTokens(b: Body, tick: nat, event: Option<nat>)
    ensures Observed(Touched(b, tick), event).tokens == b.tokens
  {
  }

  lemma RewriteStaysOnTrack(p: Params, st: State, r: Request, m: Memory, op: Op)
    requires II.Inv(p.options, st) && OnTrack(p, st, r, m, op) && Ready(p, m, op, Chosen(p, st, m, op))
    requires op.point.Rewriting?
    ensures StaysOnTrack(p, st, r, m, op)
  {
    hide Searching, Making, KeyOf, ScanLeaf, Reaches, WouldGeneralize, Rewritten, Observed, Touched, Add, AsState;
    II.InvCountsFit(p.options, st);
    AddWhenMatched(p, st, r, op.point.id);
    TouchKeepsTokens(st.bodies[op.point.id], st.tick, r.event);
    AfterMatch(p, st, r, op.point.id);
  }

  lemma StepStaysOnTrack(p: Params, st: State, r: Request, m: Memory, op: Op)
    requires II.Inv(p.options, st) && OnTrack(p, st, r, m, op) && Ready(p, m, op, Chosen(p, st, m, op))
    requires !Finished(op)
    ensures StaysOnTrack(p, st, r, m, op)
  {
    hide StaysOnTrack, Ready;
    match op.point
    case Scanning(_, todo, _, _) =>
      if todo == [] { ScanEndStaysOnTrack(p, st, r, m, op); } else { ScanTurnStaysOnTrack(p, st, r, m, op); }
    case Filing(_) => FilingStaysOnTrack(p, st, r, m, op);
    case Judging(_) => JudgementStaysOnTrack(p, st, r, m, op);
    case Rewriting(_, _) => RewriteStaysOnTrack(p, st, r, m, op);
    case Choosing(_, _, _) => EvictionStaysOnTrack(p, st, r, m, op);
    case Removing(_, _) => EvictionStaysOnTrack(p, st, r, m, op);
    case RemovingHeld(_, _) => EvictionStaysOnTrack(p, st, r, m, op);
    case Assigned(_) => WaitStaysOnTrack(p, st, r, m, op);
    case Touching(_) => TouchStaysOnTrack(p, st, r, m, op);
    case WantRewrite(_, _) => WaitStaysOnTrack(p, st, r, m, op);
    case Start => ShardStaysOnTrack(p, st, r, m, op);
    case OnShardMap => ShardStaysOnTrack(p, st, r, m, op);
    case WantInsert => ShardStaysOnTrack(p, st, r, m, op);
    case Inserting => ShardStaysOnTrack(p, st, r, m, op);
    case WantShared => ScanStartStaysOnTrack(p, st, r, m, op);
    case WantExclusive => ScanStartStaysOnTrack(p, st, r, m, op);
    case _ => CreationStaysOnTrack(p, st, r, m, op);
  }

  lemma {:induction false} StaysOnTrackThroughout(p: Params, st: State, r: Request, t: OpId, ws: seq<World>, i: nat)
    requires II.Inv(p.options, st) && Alone(p, st, r, t, ws) && i < |ws|
    ensures t in ws[i].ops && OnTrack(p, st, r, ws[i].mem, ws[i].ops[t])
  {
    hide OnTrack, Effect, Advance, Ready, Wanted, Available, Chosen;
    if i == 0 {
      StartsOnTrack(p, st, r, t);
    } else {
      StaysOnTrackThroughout(p, st, r, t, ws, i - 1);
      assert ws[i - 1 + 1] == ws[i];
      StepStaysOnTrack(p, st, r, ws[i - 1].mem, ws[i - 1].ops[t]);
    }
  }

  lemma StartsOnTrack(p: Params, st: State, r: Request, t: OpId)
    requires II.Inv(p.options, st)
    ensures var w := Invoke(Rest(st), t, Adding(r)); OnTrack(p, st, r, w.mem, w.ops[t])
  {
  }

  /** An add that runs alone returns what the sequential step returns and leaves the miner in its state. */
  lemma LoneAddIsSequential(p: Params, st: State, r: Request, t: OpId, ws: seq<World>, i: nat)
    requires II.Inv(p.options, st) && CountsFit(st) && Alone(p, st, r, t, ws) && i < |ws|
    requires t in ws[i].ops && Finished(ws[i].ops[t])
    ensures ws[i].ops[t].point == Added(Add(p.options, st, r).1)
    ensures AsState(ws[i].mem).(tick := st.tick + 1) == Add(p.options, st, r).0
  {
    hide Alone, Add, Effect, Advance, ScanLeaf, AsState;
    StaysOnTrackThroughout(p, st, r, t, ws, i);
  }
}
