/** The state of a miner as a value, and what its operations do to it
    (crates/logdrain/src/miner.rs, crates/logdrain/src/cluster.rs:38-120, crates/logdrain/src/tree.rs:11-49). */
module Index {
  import opened Wrappers
  import opened Tokenizer
  import opened Options
  import opened Templates

  type Id = nat

  /** `u64::MAX`: no event timestamp recorded. */
  const EVENT_UNSET: nat := 0xFFFF_FFFF_FFFF_FFFF

  /** A cluster body; the wall-clock fields are not modelled. */
  datatype Body = Body(
    id: Id,
    tokens: Template,
    size: nat,
    lastUsed: nat,
    eventFirst: nat,
    eventLast: nat,
    suffix: Option<string>,
    members: seq<string>)

  /** `leaves` is the prefix tree seen as a map from leaf to bucket; `bodies` is the id map. */
  datatype State = State(leaves: map<LeafKey, seq<Id>>, bodies: map<Id, Body>, counter: nat, tick: nat)

  const EMPTY_STATE := State(map[], map[], 0, 0)

  /** A preprocessed line with the arguments of `add_inner`. */
  datatype Request = Request(tokens: seq<Token>, suffix: Option<string>, member: Option<string>, event: Option<nat>)

  datatype Update = Created | TemplateChanged | NoChange

  datatype AddResult = AddResult(id: Id, update: Update)

  function RequestOf(o: Options, line: string, member: Option<string>, event: Option<nat>): Request {
    Request(TokensOf(o, line), SplitRecord(o, line).1, member, event)
  }

  // ---------------------------------------------------------------- cluster bodies

  function AddMember(members: seq<string>, m: string): seq<string> {
    if m in members then members else members + [m]
  }

  function Labelled(b: Body, member: Option<string>): Body {
    match member
    case None => b
    case Some(m) => b.(members := AddMember(b.members, m))
  }

  function NewBody(id: Id, r: Request, tick: nat): Body {
    Labelled(Body(id, r.tokens, 1, tick,
                  if r.event.Some? then r.event.value else EVENT_UNSET,
                  if r.event.Some? then r.event.value else 0,
                  r.suffix, []),
             r.member)
  }

  function Touched(b: Body, tick: nat): Body {
    b.(size := b.size + 1, lastUsed := tick)
  }

  function Observed(b: Body, event: Option<nat>): Body {
    match event
    case None => b
    case Some(ms) =>
      b.(eventFirst := if ms < b.eventFirst then ms else b.eventFirst,
         eventLast := if ms > b.eventLast then ms else b.eventLast)
  }

  /** The write section of a match: generalize when asked to, then record the member. */
  function Rewritten(b: Body, r: Request, needs: bool, w: string): Body
    requires |b.tokens| == |r.tokens|
  {
    Labelled(if needs then b.(tokens := Generalize(b.tokens, r.tokens, w)) else b, r.member)
  }

  /** The effect of a whole match on a body. */
  function Matched(b: Body, r: Request, tick: nat, w: string): Body
    requires |b.tokens| == |r.tokens|
  {
    Rewritten(Observed(Touched(b, tick), r.event), r, WouldGeneralize(b.tokens, r.tokens, w), w)
  }

  // ---------------------------------------------------------------- leaf buckets

  function IndexOf(ids: seq<Id>, v: Id): (p: nat)
    requires v in ids
    ensures p < |ids| && ids[p] == v && forall j | 0 <= j < p :: ids[j] != v
  {
    if ids[0] == v then 0 else 1 + IndexOf(ids[1..], v)
  }

  /** Removes the first occurrence of `v`, if any, moving the last element into its place. */
  function SwapRemove(ids: seq<Id>, v: Id): seq<Id> {
    if v !in ids then ids
    else
      var last := |ids| - 1;
      ids[IndexOf(ids, v) := ids[last]][..last]
  }

  function Recency(bodies: map<Id, Body>, id: Id): nat {
    if id in bodies then bodies[id].lastUsed else 0
  }

  /** The first id of least recency. */
  function Victim(bodies: map<Id, Body>, ids: seq<Id>): (v: Id)
    requires ids != []
    ensures v in ids
  {
    var last := |ids| - 1;
    if last == 0 then ids[0]
    else
      var v := Victim(bodies, ids[..last]);
      if Recency(bodies, ids[last]) < Recency(bodies, v) then ids[last] else v
  }

  datatype Best = Best(id: Id, sim: real)

  function Sim(bodies: map<Id, Body>, id: Id, line: seq<Token>, w: string): real
    requires id in bodies
  {
    Similarity(bodies[id].tokens, line, w)
  }

  /** The scan of a leaf: ids without a body are skipped, and only a strictly better score replaces
      the best so far. */
  function BestMatch(bodies: map<Id, Body>, ids: seq<Id>, line: seq<Token>, w: string): Option<Best> {
    if ids == [] then None
    else
      var last := ids[|ids| - 1];
      Better(bodies, BestMatch(bodies, ids[..|ids| - 1], line, w), last, line, w)
  }

  function Better(bodies: map<Id, Body>, best: Option<Best>, id: Id, line: seq<Token>, w: string): Option<Best> {
    if id in bodies && (best.None? || Sim(bodies, id, line, w) > best.value.sim)
    then Some(Best(id, Sim(bodies, id, line, w)))
    else best
  }

  predicate Reaches(o: Options, best: Option<Best>) {
    best.Some? && best.value.sim >= o.simThreshold
  }

  function LeafIds(st: State, k: LeafKey): seq<Id> {
    if k in st.leaves then st.leaves[k] else []
  }

  // ---------------------------------------------------------------- operations

  /** Makes room in leaf `k`. */
  function EvictIfFull(o: Options, st: State, k: LeafKey): State {
    var ids := LeafIds(st, k);
    if |ids| >= o.maxClustersPerLeaf && ids != [] then
      var v := Victim(st.bodies, ids);
      st.(leaves := st.leaves[k := SwapRemove(ids, v)], bodies := st.bodies - {v})
    else st
  }

  function FileId(st: State, k: LeafKey, id: Id): State {
    st.(leaves := st.leaves[k := LeafIds(st, k) + [id]])
  }

  /** A new cluster: draw an id, insert its body, make room in the leaf, file it. */
  function Create(o: Options, st: State, r: Request): State
    requires o.Valid()
  {
    var k := KeyOf(o, r.tokens);
    var id := st.counter + 1;
    var st1 := st.(counter := id, tick := st.tick + 1, bodies := st.bodies[id := NewBody(id, r, st.tick)]);
    FileId(EvictIfFull(o, st1, k), k, id)
  }

  function ScanLeaf(o: Options, st: State, line: seq<Token>): Option<Best>
    requires o.Valid()
  {
    BestMatch(st.bodies, LeafIds(st, KeyOf(o, line)), line, o.wildcard)
  }

  /** Every body in a leaf has as many tokens as the leaf's shard says. */
  predicate CountsFit(st: State) {
    forall k, id | k in st.leaves && id in st.leaves[k] && id in st.bodies :: |st.bodies[id].tokens| == k.count
  }

  lemma {:induction false} BestIsAmong(bodies: map<Id, Body>, ids: seq<Id>, line: seq<Token>, w: string)
    requires BestMatch(bodies, ids, line, w).Some?
    ensures var b := BestMatch(bodies, ids, line, w).value;
            b.id in ids && b.id in bodies && b.sim == Sim(bodies, b.id, line, w)
  {
    if BestMatch(bodies, ids[..|ids| - 1], line, w).Some? {
      BestIsAmong(bodies, ids[..|ids| - 1], line, w);
    }
  }

  function Add(o: Options, st: State, r: Request): (State, AddResult)
    requires o.Valid() && CountsFit(st)
  {
    var best := ScanLeaf(o, st, r.tokens);
    if Reaches(o, best) then
      var id := best.value.id;
      BestIsAmong(st.bodies, LeafIds(st, KeyOf(o, r.tokens)), r.tokens, o.wildcard);
      var b := st.bodies[id];
      (st.(bodies := st.bodies[id := Matched(b, r, st.tick, o.wildcard)], tick := st.tick + 1),
       AddResult(id, if WouldGeneralize(b.tokens, r.tokens, o.wildcard) then TemplateChanged else NoChange))
    else
      (Create(o, st, r), AddResult(st.counter + 1, Created))
  }

  function MatchOnly(o: Options, st: State, line: seq<Token>): Option<Id>
    requires o.Valid()
  {
    var best := ScanLeaf(o, st, line);
    if Reaches(o, best) then Some(best.value.id) else None
  }

  /** The line's texts at the template's wildcard positions. */
  function Params(t: Template, line: seq<Token>, w: string): seq<string>
    requires |t| <= |line|
  {
    if t == [] then []
    else Params(t[..|t| - 1], line, w) + if t[|t| - 1].text == w then [line[|t| - 1].text] else []
  }

  /** `pos` lists the wildcard positions of the template from left to right. */
  ghost predicate WildcardsAt(t: Template, w: string, pos: seq<nat>) {
    && (forall i, j | 0 <= i < j < |pos| :: pos[i] < pos[j])
    && (forall i: nat :: i in pos <==> i < |t| && t[i].text == w)
  }

  ghost predicate TextsAt(params: seq<string>, line: seq<Token>, pos: seq<nat>) {
    |params| == |pos| && forall j | 0 <= j < |pos| :: pos[j] < |line| && params[j] == line[pos[j]].text
  }

  lemma WildcardsOneMore(t: Template, w: string, pos: seq<nat>)
    requires t != [] && WildcardsAt(t[..|t| - 1], w, pos)
    ensures WildcardsAt(t, w, if t[|t| - 1].text == w then pos + [|t| - 1] else pos)
  {
    var last: nat := |t| - 1;
    forall j | 0 <= j < |pos|
      ensures pos[j] < last
    {
      assert pos[j] in pos;
    }
    assert forall i | 0 <= i < last :: t[..last][i] == t[i];
    assert forall i: nat :: i in pos + [last] <==> i in pos || i == last;
  }

  /** Whether or not the template covers the line, the parameters are the line's texts at the wildcard positions of
      the template, in order. */
  lemma {:induction false} ParamsStandAtWildcards(t: Template, line: seq<Token>, w: string)
    returns (pos: seq<nat>)
    requires |t| <= |line|
    ensures WildcardsAt(t, w, pos) && TextsAt(Params(t, line, w), line, pos)
  {
    if t == [] {
      pos := [];
    } else {
      hide WildcardsAt;
      var last := |t| - 1;
      pos := ParamsStandAtWildcards(t[..last], line, w);
      WildcardsOneMore(t, w, pos);
      if t[last].text == w { pos := pos + [last]; }
    }
  }

  function Extract(o: Options, st: State, line: seq<Token>): Option<(Id, seq<string>)>
    requires o.Valid() && CountsFit(st)
  {
    match MatchOnly(o, st, line)
    case None => None
    case Some(id) =>
      BestIsAmong(st.bodies, LeafIds(st, KeyOf(o, line)), line, o.wildcard);
      Some((id, Params(st.bodies[id].tokens, line, o.wildcard)))
  }
}
