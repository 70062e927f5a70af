/** The invariant of a miner's state and its preservation: the leaves partition the live clusters by the
    descent keys of their stored, generalized templates. */
module IndexInvariant {
  import opened Tokenizer
  import opened Rendering
  import opened Options
  import opened Templates
  import opened Index

  ghost predicate NoDuplicates(ids: seq<Id>) {
    forall i, j | 0 <= i < j < |ids| :: ids[i] != ids[j]
  }

  /** Leaves hold live clusters of their own key, each once, at least one and at most the cap. */
  ghost predicate LeavesOk(o: Options, st: State)
    requires o.Valid()
  {
    forall k | k in st.leaves ::
      && NoDuplicates(st.leaves[k])
      && 0 < |st.leaves[k]| <= o.maxClustersPerLeaf
      && forall id | id in st.leaves[k] :: id in st.bodies && KeyOf(o, st.bodies[id].tokens) == k
  }

  /** Every live cluster is filed under the key of its stored template; ids were drawn from the counter. */
  ghost predicate BodiesOk(o: Options, st: State)
    requires o.Valid()
  {
    forall id | id in st.bodies ::
      && st.bodies[id].id == id
      && 0 < id <= st.counter
      && KeyOf(o, st.bodies[id].tokens) in st.leaves
      && id in st.leaves[KeyOf(o, st.bodies[id].tokens)]
  }

  ghost predicate Inv(o: Options, st: State) {
    o.Valid() && LeavesOk(o, st) && BodiesOk(o, st)
  }

  lemma InvCountsFit(o: Options, st: State)
    requires Inv(o, st)
    ensures CountsFit(st)
  {
    forall k, id | k in st.leaves && id in st.leaves[k] && id in st.bodies
      ensures |st.bodies[id].tokens| == k.count
    {
      assert KeyOf(o, st.bodies[id].tokens) == k;
    }
  }

  // ---------------------------------------------------------------- buckets

  lemma SwapRemoveContents(ids: seq<Id>, v: Id)
    requires NoDuplicates(ids) && v in ids
    ensures var r := SwapRemove(ids, v);
            && |r| == |ids| - 1
            && NoDuplicates(r)
            && forall x :: x in r <==> x in ids && x != v
  {
    var r := SwapRemove(ids, v);
    var p := IndexOf(ids, v);
    var last := |ids| - 1;
    forall i | 0 <= i < |r|
      ensures r[i] == if i == p then ids[last] else ids[i]
      ensures r[i] != v
    {
    }
    forall x | x in ids && x != v
      ensures x in r
    {
      var i :| 0 <= i < |ids| && ids[i] == x;
      if i == last { assert r[p] == x; } else { assert r[i] == x; }
    }
  }

  // ---------------------------------------------------------------- preservation

  lemma MatchedKeepsKey(o: Options, b: Body, r: Request, tick: nat)
    requires o.Valid() && KeyOf(o, b.tokens) == KeyOf(o, r.tokens)
    ensures |b.tokens| == |r.tokens|
    ensures KeyOf(o, Matched(b, r, tick, o.wildcard).tokens) == KeyOf(o, b.tokens)
  {
    GeneralizeKeepsKey(o, b.tokens, r.tokens);
  }

  /** Replacing the body of a filed cluster by one of the same key keeps the invariant. */
  lemma UpdateBodyKeepsInv(o: Options, st: State, id: Id, b: Body, tick: nat)
    requires Inv(o, st) && id in st.bodies
    requires b.id == id && KeyOf(o, b.tokens) == KeyOf(o, st.bodies[id].tokens)
    ensures Inv(o, st.(bodies := st.bodies[id := b], tick := tick))
  {
  }

  /** The invariant while room is made in leaf `k`: it is below the cap and may be empty. */
  ghost predicate RoomIn(o: Options, st: State, k: LeafKey)
    requires o.Valid()
  {
    && |LeafIds(st, k)| < o.maxClustersPerLeaf
    && (forall k' | k' in st.leaves ::
          && NoDuplicates(st.leaves[k'])
          && (k' != k ==> 0 < |st.leaves[k']| <= o.maxClustersPerLeaf)
          && forall id | id in st.leaves[k'] :: id in st.bodies && KeyOf(o, st.bodies[id].tokens) == k')
    && BodiesOk(o, st)
  }

  lemma EvictMakesRoom(o: Options, st: State, k: LeafKey)
    requires Inv(o, st)
    ensures RoomIn(o, EvictIfFull(o, st, k), k)
    ensures var st' := EvictIfFull(o, st, k);
            && st'.counter == st.counter
            && (forall x | x in LeafIds(st', k) :: x in LeafIds(st, k))
            && (forall x | x in st'.bodies :: x in st.bodies && st'.bodies[x] == st.bodies[x])
  {
    if k in st.leaves && |st.leaves[k]| >= o.maxClustersPerLeaf {
      SwapRemoveContents(st.leaves[k], Victim(st.bodies, st.leaves[k]));
    }
  }

  /** Filing a fresh id together with its body. */
  lemma FileKeepsInv(o: Options, st: State, b: Body, counter: nat)
    requires o.Valid() && RoomIn(o, st, KeyOf(o, b.tokens))
    requires b.id !in st.bodies && 0 < b.id <= counter && st.counter <= counter
    ensures Inv(o, FileId(st, KeyOf(o, b.tokens), b.id).(bodies := st.bodies[b.id := b], counter := counter))
  {
    var k := KeyOf(o, b.tokens);
    var ids := LeafIds(st, k);
    assert b.id !in ids;
    assert NoDuplicates(ids + [b.id]);
    var fin := FileId(st, k, b.id).(bodies := st.bodies[b.id := b], counter := counter);
    forall k' | k' in fin.leaves
      ensures forall id | id in fin.leaves[k'] :: id in fin.bodies && KeyOf(o, fin.bodies[id].tokens) == k'
    {
      assert k' != k ==> fin.leaves[k'] == st.leaves[k'];
      assert forall id | id in fin.leaves[k'] && !(k' == k && id == b.id) :: id in LeafIds(st, k') && id in st.bodies;
    }
    forall id | id in fin.bodies
      ensures KeyOf(o, fin.bodies[id].tokens) in fin.leaves && id in fin.leaves[KeyOf(o, fin.bodies[id].tokens)]
    {
      if id != b.id { assert id in LeafIds(st, KeyOf(o, st.bodies[id].tokens)); }
    }
  }

  /** Creating commutes with inserting the body last, which is how restore files clusters. */
  lemma CreateAsInsert(o: Options, st: State, r: Request)
    requires Inv(o, st)
    ensures var k := KeyOf(o, r.tokens);
            var id := st.counter + 1;
            var mid := FileId(EvictIfFull(o, st, k), k, id);
            Create(o, st, r) == mid.(bodies := mid.bodies[id := NewBody(id, r, st.tick)],
                                     counter := id, tick := st.tick + 1)
  {
    var k := KeyOf(o, r.tokens);
    var id := st.counter + 1;
    var ids := LeafIds(st, k);
    assert id !in st.bodies;
    if ids != [] && |ids| >= o.maxClustersPerLeaf {
      VictimIgnoresOthers(st.bodies, ids, id, NewBody(id, r, st.tick));
      var v := Victim(st.bodies, ids);
      assert st.bodies[id := NewBody(id, r, st.tick)] - {v} == (st.bodies - {v})[id := NewBody(id, r, st.tick)];
    }
  }

  lemma {:induction false} VictimIgnoresOthers(bodies: map<Id, Body>, ids: seq<Id>, id: Id, b: Body)
    requires ids != [] && id !in ids
    ensures Victim(bodies[id := b], ids) == Victim(bodies, ids)
  {
    if |ids| > 1 {
      VictimIgnoresOthers(bodies, ids[..|ids| - 1], id, b);
    }
  }

  lemma CreateKeepsInv(o: Options, st: State, r: Request)
    requires Inv(o, st)
    ensures Inv(o, Create(o, st, r))
    ensures var k := KeyOf(o, r.tokens);
            var id := st.counter + 1;
            var st' := Create(o, st, r);
            && id in st'.bodies && st'.bodies[id] == NewBody(id, r, st.tick)
            && id !in st.bodies && id !in LeafIds(st, k)
            && LeafIds(st', k) == LeafIds(EvictIfFull(o, st, k), k) + [id]
            && (forall x | x in LeafIds(EvictIfFull(o, st, k), k) ::
                  x in LeafIds(st, k) && x in st.bodies && x in st'.bodies && st'.bodies[x] == st.bodies[x])
  {
    var k := KeyOf(o, r.tokens);
    CreateAsInsert(o, st, r);
    EvictMakesRoom(o, st, k);
    FileKeepsInv(o, EvictIfFull(o, st, k), NewBody(st.counter + 1, r, st.tick), st.counter + 1);
  }

  /** Whatever a line does to the index, the invariant survives. */
  lemma AddKeepsInv(o: Options, st: State, r: Request)
    requires Inv(o, st)
    ensures CountsFit(st) && Inv(o, Add(o, st, r).0)
  {
    InvCountsFit(o, st);
    var best := ScanLeaf(o, st, r.tokens);
    if Reaches(o, best) {
      BestIsAmong(st.bodies, LeafIds(st, KeyOf(o, r.tokens)), r.tokens, o.wildcard);
      var b := st.bodies[best.value.id];
      MatchedKeepsKey(o, b, r, st.tick);
      UpdateBodyKeepsInv(o, st, b.id, Matched(b, r, st.tick, o.wildcard), st.tick + 1);
    } else {
      CreateKeepsInv(o, st, r);
    }
  }

  /** What one add does to the cluster it is assigned to, and that it changes no other body. */
  ghost predicate AddEffect(o: Options, st: State, r: Request, st': State, res: AddResult) {
    && st'.tick == st.tick + 1
    && res.id in st'.bodies && st'.bodies[res.id].lastUsed == st.tick
    && (forall id | id in st'.bodies && id != res.id :: id in st.bodies && st'.bodies[id] == st.bodies[id])
    && match res.update
       case Created =>
         && res.id == st.counter + 1 == st'.counter
         && st'.bodies[res.id] == NewBody(res.id, r, st.tick)
       case _ =>
         && res.id in st.bodies && st'.counter == st.counter && st'.bodies.Keys == st.bodies.Keys
         && |st.bodies[res.id].tokens| == |r.tokens|
         && st'.bodies[res.id].size == st.bodies[res.id].size + 1
         && st'.bodies[res.id].tokens == Generalize(st.bodies[res.id].tokens, r.tokens, o.wildcard)
         && st'.bodies[res.id] == Matched(st.bodies[res.id], r, st.tick, o.wildcard)
  }

  lemma MatchHasEffect(o: Options, st: State, r: Request, id: Id)
    requires o.Valid() && id in st.bodies && KeyOf(o, st.bodies[id].tokens) == KeyOf(o, r.tokens)
    ensures var b := st.bodies[id];
            var update := if WouldGeneralize(b.tokens, r.tokens, o.wildcard) then TemplateChanged else NoChange;
            && |b.tokens| == |r.tokens|
            && AddEffect(o, st, r,
                         st.(bodies := st.bodies[id := Matched(b, r, st.tick, o.wildcard)], tick := st.tick + 1),
                         AddResult(id, update))
  {
    MatchedKeepsKey(o, st.bodies[id], r, st.tick);
    GeneralizeIsMoreGeneral(st.bodies[id].tokens, r.tokens, o.wildcard);
  }

  lemma CreateHasEffect(o: Options, st: State, r: Request)
    requires Inv(o, st)
    ensures AddEffect(o, st, r, Create(o, st, r), AddResult(st.counter + 1, Created))
  {
    CreateAsInsert(o, st, r);
    EvictMakesRoom(o, st, KeyOf(o, r.tokens));
  }

  lemma AddHasEffect(o: Options, st: State, r: Request)
    requires Inv(o, st) && CountsFit(st)
    ensures AddEffect(o, st, r, Add(o, st, r).0, Add(o, st, r).1)
  {
    var best := ScanLeaf(o, st, r.tokens);
    if Reaches(o, best) {
      BestIsAmong(st.bodies, LeafIds(st, KeyOf(o, r.tokens)), r.tokens, o.wildcard);
      MatchHasEffect(o, st, r, best.value.id);
    } else {
      CreateHasEffect(o, st, r);
    }
  }

  // ---------------------------------------------------------------- well-formed templates

  /** A wildcard that survives printing and re-tokenizing: one piece without delimiters. */
  predicate PrintableWildcard(o: Options) {
    IsPiece(o.wildcard) && NoDelims(o.wildcard, o.ActiveDelimiters())
  }

  ghost predicate TemplatesWellFormed(o: Options, st: State) {
    forall id | id in st.bodies :: AllWellFormed(st.bodies[id].tokens, o.ActiveDelimiters())
  }

  lemma AddKeepsWellFormed(o: Options, st: State, r: Request)
    requires Inv(o, st) && CountsFit(st) && PrintableWildcard(o)
    requires TemplatesWellFormed(o, st) && AllWellFormed(r.tokens, o.ActiveDelimiters())
    ensures TemplatesWellFormed(o, Add(o, st, r).0)
  {
    var best := ScanLeaf(o, st, r.tokens);
    if Reaches(o, best) {
      BestIsAmong(st.bodies, LeafIds(st, KeyOf(o, r.tokens)), r.tokens, o.wildcard);
      var t := st.bodies[best.value.id].tokens;
      var g := Generalize(t, r.tokens, o.wildcard);
      forall i | 0 <= i < |g|
        ensures WellFormed(g[i], o.ActiveDelimiters())
      {
        assert WellFormed(t[i], o.ActiveDelimiters());
      }
    } else {
      CreateAsInsert(o, st, r);
    }
  }
}
