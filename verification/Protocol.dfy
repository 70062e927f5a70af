/** Concurrent `add`, `match_only` and `snapshot` as a state machine over lock-sized steps
    (crates/logdrain/src/miner.rs:151-319 and 389-421). Any number of operations may be in flight.
    A body outlives its entry in the id map, because an operation may still hold it. Which cluster of
    a full leaf is evicted, and the recency a touch stores, are left open, so every outcome of the
    racing recency stores is covered. */
module Protocol {
  import opened Wrappers
  import opened Tokenizer
  import opened Options
  import opened Templates
  import opened Index
  import opened Snapshots

  type OpId = nat

  datatype Job = Adding(request: Request) | Querying(line: seq<Token>) | Snapshotting

  datatype Phase = Matching | Creating

  /** How much of the next cluster a scan holds: nothing, its id-map bucket, or also its body. */
  datatype Grip = NoGrip | OnBucket | OnBody

  /** Where a snapshot is in its walk over the id map. */
  datatype Place = Outside | WantBucket(b: nat) | InBucket(b: nat) | WantBody(b: nat, id: Id) | InBody(b: nat, id: Id)

  datatype Point =
    | Start                                                                  // wants the shard map, shared
    | OnShardMap
    | WantInsert                                                             // wants the shard map, exclusive
    | Inserting
    | WantShared                                                             // wants the shard, shared
    | Scanning(phase: Phase, todo: seq<Id>, best: Option<Best>, grip: Grip)  // best_match
    | WantExclusive                                                          // wants the shard, exclusive
    | Drawing                                                                // nothing matched: draw an id
    | Drawn(id: Id)
    | Publishing(id: Id)                                                     // insert into the id map
    | Published(id: Id)
    | Choosing(id: Id, todo: seq<Id>, grip: Grip)                            // evict_if_full: read recencies
    | Removing(id: Id, victim: Id)                                           // victim is out of its leaf
    | RemovingHeld(id: Id, victim: Id)
    | Filing(id: Id)
    | Assigned(id: Id)                                                       // apply_match: wants the body
    | Touching(id: Id)
    | Judging(id: Id)                                                        // would_generalize
    | WantRewrite(id: Id, needs: bool)
    | Rewriting(id: Id, needs: bool)
    | Added(result: AddResult)
    | Answered(answer: Option<Id>)
    | Collecting(captured: seq<ClusterRecord>, place: Place)
    | Captured(snap: Snapshot)

  /** `seen` records the templates of the leaf at the moment the operation last took its shard's lock. */
  datatype Op = Op(job: Job, point: Point, seen: map<Id, Template>)

  /** `bucketOf` says which bucket of the id map an id lives in. */
  datatype Params = Params(options: Options, bucketOf: Id -> nat)

  /** What the operations share. `shards` holds the token counts that have a shard, `bodies` every body ever made, and
      `live` is the id map; `origin` and `evicted` record the templates bodies were made with and the ids taken out
      of a leaf. */
  datatype Memory = Memory(
    leaves: map<LeafKey, seq<Id>>,
    shards: set<nat>,
    bodies: map<Id, Body>,
    live: set<Id>,
    counter: nat,
    origin: map<Id, Template>,
    evicted: set<Id>)

  datatype World = World(mem: Memory, ops: map<OpId, Op>)

  function Line(op: Op): seq<Token> {
    match op.job
    case Adding(r) => r.tokens
    case Querying(line) => line
    case Snapshotting => []
  }

  predicate Finished(op: Op) {
    op.point.Added? || op.point.Answered? || op.point.Captured?
  }

  function Ids(m: Memory, k: LeafKey): seq<Id> {
    if k in m.leaves then m.leaves[k] else []
  }

  // ---------------------------------------------------------------- locks

  datatype Lock = ShardMapLock | ShardLock(count: nat) | BucketLock(b: nat) | BodyLock(id: Id)

  datatype Hold = Hold(lock: Lock, exclusive: bool)

  function GripHolds(p: Params, todo: seq<Id>, grip: Grip): set<Hold> {
    if todo == [] || grip.NoGrip? then {}
    else
      var bucket := Hold(BucketLock(p.bucketOf(todo[0])), false);
      if grip.OnBucket? then {bucket} else {bucket, Hold(BodyLock(todo[0]), false)}
  }

  /** The locks an operation holds at its point. */
  function Held(p: Params, op: Op): set<Hold> {
    var shard := ShardLock(|Line(op)|);
    match op.point
    case OnShardMap => {Hold(ShardMapLock, false)}
    case Inserting => {Hold(ShardMapLock, true)}
    case Scanning(phase, todo, _, grip) => {Hold(shard, phase.Creating?)} + GripHolds(p, todo, grip)
    case Drawing => {Hold(shard, true)}
    case Drawn(_) => {Hold(shard, true)}
    case Publishing(id) => {Hold(shard, true), Hold(BucketLock(p.bucketOf(id)), true)}
    case Published(_) => {Hold(shard, true)}
    case Choosing(_, todo, grip) => {Hold(shard, true)} + GripHolds(p, todo, grip)
    case Removing(_, _) => {Hold(shard, true)}
    case RemovingHeld(_, v) => {Hold(shard, true), Hold(BucketLock(p.bucketOf(v)), true)}
    case Filing(_) => {Hold(shard, true)}
    case Touching(id) => {Hold(BodyLock(id), false)}
    case Judging(id) => {Hold(BodyLock(id), false)}
    case Rewriting(id, _) => {Hold(BodyLock(id), true)}
    case Collecting(_, place) =>
      (match place
       case InBucket(b) => {Hold(BucketLock(b), false)}
       case WantBody(b, _) => {Hold(BucketLock(b), false)}
       case InBody(b, id) => {Hold(BucketLock(b), false), Hold(BodyLock(id), false)}
       case _ => {})
    case _ => {}
  }

  function GripWants(p: Params, m: Memory, todo: seq<Id>, grip: Grip): Option<Hold> {
    if todo == [] then None
    else if grip.NoGrip? then Some(Hold(BucketLock(p.bucketOf(todo[0])), false))
    else if grip.OnBucket? && todo[0] in m.live then Some(Hold(BodyLock(todo[0]), false))
    else None
  }

  /** The lock an operation has to take for its next step, if that step takes one. */
  function Wanted(p: Params, m: Memory, op: Op): Option<Hold> {
    var shard := ShardLock(|Line(op)|);
    match op.point
    case Start => if op.job.Snapshotting? then None else Some(Hold(ShardMapLock, false))
    case WantInsert => Some(Hold(ShardMapLock, true))
    case WantShared => Some(Hold(shard, false))
    case WantExclusive => Some(Hold(shard, true))
    case Scanning(_, todo, _, grip) => GripWants(p, m, todo, grip)
    case Drawn(id) => Some(Hold(BucketLock(p.bucketOf(id)), true))
    case Choosing(_, todo, grip) => GripWants(p, m, todo, grip)
    case Removing(_, v) => Some(Hold(BucketLock(p.bucketOf(v)), true))
    case Assigned(id) => Some(Hold(BodyLock(id), false))
    case WantRewrite(id, _) => Some(Hold(BodyLock(id), true))
    case Collecting(_, place) =>
      (match place
       case WantBucket(b) => Some(Hold(BucketLock(b), false))
       case WantBody(_, id) => Some(Hold(BodyLock(id), false))
       case _ => None)
    case _ => None
  }

  predicate Conflict(g: Hold, h: Hold) {
    g.lock == h.lock && (g.exclusive || h.exclusive)
  }

  /** No other operation holds a conflicting lock. */
  ghost predicate Available(p: Params, w: World, t: OpId, h: Hold) {
    forall u, g | u in w.ops && u != t && g in Held(p, w.ops[u]) :: !Conflict(g, h)
  }

  // ---------------------------------------------------------------- steps

  /** The facts the next step of an operation reads without checking; `choice` resolves what the model
      leaves open: the recency stored, the victim, the walk of a snapshot. */
  ghost predicate Ready(p: Params, m: Memory, op: Op, choice: nat)
    requires p.options.Valid()
  {
    match op.point
    case Publishing(id) => op.job.Adding?
    case Touching(id) => op.job.Adding? && id in m.bodies
    case Judging(id) => op.job.Adding? && id in m.bodies
    case Rewriting(id, _) => op.job.Adding? && id in m.bodies && |m.bodies[id].tokens| == |Line(op)|
    case Choosing(_, todo, _) => todo == [] ==> choice in Ids(m, KeyOf(p.options, Line(op)))
    case _ => true
  }

  ghost predicate Enabled(p: Params, w: World, t: OpId, choice: nat)
    requires p.options.Valid()
  {
    && t in w.ops && !Finished(w.ops[t])
    && Ready(p, w.mem, w.ops[t], choice)
    && (Wanted(p, w.mem, w.ops[t]).Some? ==> Available(p, w, t, Wanted(p, w.mem, w.ops[t]).value))
  }

  /** One turn of a scan: take the bucket, then the body (or skip a missing one), then compare. */
  function ScanStep(p: Params, m: Memory, line: seq<Token>, phase: Phase, todo: seq<Id>, best: Option<Best>, grip: Grip)
    : Point
    requires todo != []
  {
    match grip
    case NoGrip => Scanning(phase, todo, best, OnBucket)
    case OnBucket =>
      if todo[0] in m.live then Scanning(phase, todo, best, OnBody) else Scanning(phase, todo[1..], best, NoGrip)
    case OnBody =>
      Scanning(phase, todo[1..], Better(m.bodies, best, todo[0], line, p.options.wildcard), NoGrip)
  }

  /** Where an operation goes when its scan is over. */
  function ScanEnd(p: Params, job: Job, phase: Phase, best: Option<Best>): Point {
    if job.Adding? then
      if Reaches(p.options, best) then Assigned(best.value.id)
      else if phase.Matching? then WantExclusive
      else Drawing
    else Answered(if Reaches(p.options, best) then Some(best.value.id) else None)
  }

  /** One turn of reading the recencies of a full leaf. */
  function ChooseStep(m: Memory, id: Id, todo: seq<Id>, grip: Grip): Point
    requires todo != []
  {
    match grip
    case NoGrip => Choosing(id, todo, OnBucket)
    case OnBucket => if todo[0] in m.live then Choosing(id, todo, OnBody) else Choosing(id, todo[1..], NoGrip)
    case OnBody => Choosing(id, todo[1..], NoGrip)
  }

  /** A snapshot walks the buckets in any order, captures each live cluster it meets once, and reads the
      counter after the walk. */
  function CollectStep(p: Params, m: Memory, captured: seq<ClusterRecord>, place: Place, choice: nat): Point {
    match place
    case Outside =>
      if choice == 0 then Captured(Snapshot(m.counter, captured)) else Collecting(captured, WantBucket(choice - 1))
    case WantBucket(b) => Collecting(captured, InBucket(b))
    case InBucket(b) =>
      if choice in m.live && choice in m.bodies && p.bucketOf(choice) == b
         && (forall i | 0 <= i < |captured| :: captured[i].id != choice)
      then Collecting(captured, WantBody(b, choice))
      else Collecting(captured, Outside)
    case WantBody(b, id) => Collecting(captured, InBody(b, id))
    case InBody(b, id) =>
      Collecting(if id in m.bodies then captured + [RecordOf(m.bodies[id])] else captured, InBucket(b))
  }

  /** With the shard's lock just taken, an operation starts on its leaf. */
  function BeginScan(m: Memory, k: LeafKey, op: Op, phase: Phase): Op {
    op.(point := Scanning(phase, Ids(m, k), None, NoGrip),
        seen := map x | x in Ids(m, k) && x in m.bodies :: m.bodies[x].tokens)
  }

  /** The operation after its next step. */
  ghost function Advance(p: Params, m: Memory, op: Op, choice: nat): Op
    requires p.options.Valid() && Ready(p, m, op, choice)
  {
    var k := KeyOf(p.options, Line(op));
    match op.point
    case Start => op.(point := if op.job.Snapshotting? then Collecting([], Outside) else OnShardMap)
    case OnShardMap =>
      op.(point := if |Line(op)| in m.shards then WantShared else if op.job.Adding? then WantInsert else Answered(None))
    case WantInsert => op.(point := Inserting)
    case Inserting => op.(point := WantShared)
    case WantShared => BeginScan(m, k, op, Matching)
    case Scanning(phase, todo, best, grip) =>
      op.(point := if todo != [] then ScanStep(p, m, Line(op), phase, todo, best, grip)
                   else ScanEnd(p, op.job, phase, best))
    case WantExclusive => BeginScan(m, k, op, Creating)
    case Drawing => op.(point := Drawn(m.counter + 1))
    case Drawn(id) => op.(point := Publishing(id))
    case Publishing(id) => op.(point := Published(id))
    case Published(id) =>
      op.(point := if |Ids(m, k)| >= p.options.maxClustersPerLeaf then Choosing(id, Ids(m, k), NoGrip) else Filing(id))
    case Choosing(id, todo, grip) =>
      op.(point := if todo != [] then ChooseStep(m, id, todo, grip) else Removing(id, choice))
    case Removing(id, v) => op.(point := RemovingHeld(id, v))
    case RemovingHeld(id, v) => op.(point := Filing(id))
    case Filing(id) => op.(point := Added(AddResult(id, Created)))
    case Assigned(id) => op.(point := Touching(id))
    case Touching(id) => op.(point := Judging(id))
    case Judging(id) =>
      var needs := WouldGeneralize(m.bodies[id].tokens, Line(op), p.options.wildcard);
      op.(point := if needs || op.job.request.member.Some? then WantRewrite(id, needs)
                   else Added(AddResult(id, NoChange)))
    case WantRewrite(id, needs) => op.(point := Rewriting(id, needs))
    case Rewriting(id, needs) =>
      var changed := needs && WouldGeneralize(m.bodies[id].tokens, Line(op), p.options.wildcard);
      op.(point := Added(AddResult(id, if changed then TemplateChanged else NoChange)))
    case Collecting(captured, place) => op.(point := CollectStep(p, m, captured, place, choice))
    case _ => op
  }

  /** What the next step of an operation does to the shared memory. */
  ghost function Effect(p: Params, m: Memory, op: Op, choice: nat): Memory
    requires p.options.Valid() && Ready(p, m, op, choice)
  {
    var k := KeyOf(p.options, Line(op));
    match op.point
    case Inserting => m.(shards := m.shards + {|Line(op)|})
    case WantExclusive => m.(leaves := m.leaves[k := Ids(m, k)])
    case Drawing => m.(counter := m.counter + 1)
    case Publishing(id) =>
      m.(bodies := m.bodies[id := NewBody(id, op.job.request, choice)],
         live := m.live + {id},
         origin := m.origin[id := Line(op)])
    case Choosing(id, todo, _) =>
      if todo != [] then m
      else m.(leaves := m.leaves[k := SwapRemove(Ids(m, k), choice)], evicted := m.evicted + {choice})
    case RemovingHeld(id, v) => m.(live := m.live - {v})
    case Filing(id) => m.(leaves := m.leaves[k := Ids(m, k) + [id]])
    case Touching(id) =>
      m.(bodies := m.bodies[id := Observed(Touched(m.bodies[id], choice), op.job.request.event)])
    case Rewriting(id, needs) =>
      m.(bodies := m.bodies[id := Rewritten(m.bodies[id], op.job.request, needs, p.options.wildcard)])
    case _ => m
  }

  ghost function Move(p: Params, w: World, t: OpId, choice: nat): World
    requires p.options.Valid() && Enabled(p, w, t, choice)
  {
    World(Effect(p, w.mem, w.ops[t], choice), w.ops[t := Advance(p, w.mem, w.ops[t], choice)])
  }

  function Invoke(w: World, t: OpId, job: Job): World {
    w.(ops := w.ops[t := Op(job, Start, map[])])
  }

  /** One step of the world: a new operation begins, or one in flight moves. */
  ghost predicate Next(p: Params, w: World, w': World)
    requires p.options.Valid()
  {
    || (exists t, job :: t !in w.ops && w' == Invoke(w, t, job))
    || (exists t, choice :: Enabled(p, w, t, choice) && w' == Move(p, w, t, choice))
  }

  /** A miner at rest in state `st`. */
  function Rest(st: State): World {
    World(Memory(st.leaves, set k | k in st.leaves :: k.count, st.bodies, st.bodies.Keys, st.counter,
                 map id | id in st.bodies :: st.bodies[id].tokens, {}),
          map[])
  }

  /** An interleaving: any sequence of steps from a miner at rest. */
  ghost predicate Behavior(p: Params, st: State, ws: seq<World>)
    requires p.options.Valid()
  {
    && ws != []
    && ws[0] == Rest(st)
    && forall i | 0 <= i < |ws| - 1 :: Next(p, ws[i], ws[i + 1])
  }
}
