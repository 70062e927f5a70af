/** Snapshot records, the v2 upgrade, and restore as a replay of clusters into an empty tree
    (crates/logdrain/src/snapshot.rs:18-86, crates/logdrain/src/miner.rs:361-460). */
module Snapshots {
  import opened Wrappers
  import opened Tokenizer
  import opened Options
  import opened Templates
  import opened Index
  import opened IndexInvariant
  import opened IndexQueries

  /** One serialized cluster: a body without its recency. */
  datatype ClusterRecord = ClusterRecord(
    id: Id,
    tokens: Template,
    size: nat,
    eventFirst: nat,
    eventLast: nat,
    suffix: Option<string>,
    members: seq<string>)

  datatype Snapshot = Snapshot(counter: nat, clusters: seq<ClusterRecord>)

  /** The version 2 layout: no event window. */
  datatype ClusterRecordV2 = ClusterRecordV2(
    id: Id,
    tokens: Template,
    size: nat,
    suffix: Option<string>,
    members: seq<string>)

  datatype SnapshotV2 = SnapshotV2(counter: nat, clusters: seq<ClusterRecordV2>)

  function Upgrade(v2: SnapshotV2): Snapshot {
    Snapshot(v2.counter,
             seq(|v2.clusters|, i requires 0 <= i < |v2.clusters| =>
               var c := v2.clusters[i];
               ClusterRecord(c.id, c.tokens, c.size, EVENT_UNSET, 0, c.suffix, c.members)))
  }

  /** Whatever the clusters, an upgrade keeps every field a version 2 record has and leaves the event window unset. */
  lemma UpgradeKeepsFields(v2: SnapshotV2)
    ensures Upgrade(v2).counter == v2.counter && |Upgrade(v2).clusters| == |v2.clusters|
    ensures forall i | 0 <= i < |v2.clusters| ::
              var a, c := v2.clusters[i], Upgrade(v2).clusters[i];
              && c.id == a.id && c.tokens == a.tokens && c.size == a.size
              && c.suffix == a.suffix && c.members == a.members
              && c.eventFirst == 0xFFFF_FFFF_FFFF_FFFF && c.eventLast == 0
  {
  }

  function RecordOf(b: Body): ClusterRecord {
    ClusterRecord(b.id, b.tokens, b.size, b.eventFirst, b.eventLast, b.suffix, b.members)
  }

  /** A restored body: recency starts at 0. */
  function BodyOf(c: ClusterRecord): Body {
    Body(c.id, c.tokens, c.size, 0, c.eventFirst, c.eventLast, c.suffix, c.members)
  }

  /** Files one restored body; its leaf is found from its stored template. */
  function InsertExisting(o: Options, st: State, b: Body): State
    requires o.Valid()
  {
    var k := KeyOf(o, b.tokens);
    var mid := FileId(EvictIfFull(o, st, k), k, b.id);
    mid.(bodies := mid.bodies[b.id := b])
  }

  function Replay(o: Options, st: State, clusters: seq<ClusterRecord>): State
    requires o.Valid()
  {
    if clusters == [] then st
    else InsertExisting(o, Replay(o, st, clusters[..|clusters| - 1]), BodyOf(clusters[|clusters| - 1]))
  }

  /** Replaces the state; the recency clock is left alone. */
  function Restore(o: Options, st: State, snap: Snapshot): State
    requires o.Valid()
  {
    Replay(o, State(map[], map[], snap.counter, st.tick), snap.clusters)
  }

  // ---------------------------------------------------------------- any snapshot restores to a sound index

  /** Ids are distinct and were drawn from the counter. */
  ghost predicate WellNumbered(snap: Snapshot) {
    && (forall i | 0 <= i < |snap.clusters| :: 0 < snap.clusters[i].id <= snap.counter)
    && (forall i, j | 0 <= i < j < |snap.clusters| :: snap.clusters[i].id != snap.clusters[j].id)
  }

  lemma {:induction false} ReplayKeepsInv(o: Options, tick: nat, snap: Snapshot, n: nat)
    requires o.Valid() && WellNumbered(snap) && n <= |snap.clusters|
    ensures var st := Replay(o, State(map[], map[], snap.counter, tick), snap.clusters[..n]);
            && Inv(o, st) && st.counter == snap.counter && st.tick == tick
            && forall id | id in st.bodies ::
                 exists i :: 0 <= i < n && snap.clusters[i].id == id && st.bodies[id] == BodyOf(snap.clusters[i])
  {
    if n > 0 {
      assert snap.clusters[..n][..n - 1] == snap.clusters[..n - 1];
      ReplayKeepsInv(o, tick, snap, n - 1);
      var st := Replay(o, State(map[], map[], snap.counter, tick), snap.clusters[..n - 1]);
      var b := BodyOf(snap.clusters[n - 1]);
      var k := KeyOf(o, b.tokens);
      EvictMakesRoom(o, st, k);
      FileKeepsInv(o, EvictIfFull(o, st, k), b, snap.counter);
      var fin := InsertExisting(o, st, b);
      var room := EvictIfFull(o, st, k);
      assert fin == FileId(room, k, b.id).(bodies := room.bodies[b.id := b], counter := snap.counter);
    }
  }

  /** Restoring into a miner of any configuration gives a sound index whose next id is fresh. */
  lemma RestoreEstablishesInv(o: Options, st: State, snap: Snapshot)
    requires o.Valid() && WellNumbered(snap)
    ensures Inv(o, Restore(o, st, snap))
    ensures Restore(o, st, snap).counter == snap.counter
    ensures forall id | id in Restore(o, st, snap).bodies :: id < Restore(o, st, snap).counter + 1
  {
    assert snap.clusters[..|snap.clusters|] == snap.clusters;
    ReplayKeepsInv(o, st.tick, snap, |snap.clusters|);
  }

  /** The ids of the records with key `k`, in order. */
  function IdsUnder(o: Options, cs: seq<ClusterRecord>, k: LeafKey): seq<Id>
    requires o.Valid()
  {
    if cs == [] then []
    else
      var n := |cs| - 1;
      IdsUnder(o, cs[..n], k) + if KeyOf(o, cs[n].tokens) == k then [cs[n].id] else []
  }

  /** No leaf gets more records than its cap. */
  ghost predicate FitsCaps(o: Options, cs: seq<ClusterRecord>)
    requires o.Valid()
  {
    forall k :: |IdsUnder(o, cs, k)| <= o.maxClustersPerLeaf
  }

  lemma FitsCapsBefore(o: Options, cs: seq<ClusterRecord>)
    requires o.Valid() && cs != [] && FitsCaps(o, cs)
    ensures var n := |cs| - 1;
            && FitsCaps(o, cs[..n])
            && |IdsUnder(o, cs[..n], KeyOf(o, cs[n].tokens))| < o.maxClustersPerLeaf
  {
    var n := |cs| - 1;
    forall k
      ensures |IdsUnder(o, cs[..n], k)| <= |IdsUnder(o, cs, k)| <= o.maxClustersPerLeaf
    {
    }
  }

  /** Within the caps, a replay files every record in order and evicts nothing. */
  lemma {:induction false} ReplayFilesAll(o: Options, st: State, cs: seq<ClusterRecord>, k: LeafKey)
    requires o.Valid() && st.leaves == map[] && st.bodies == map[] && FitsCaps(o, cs)
    ensures LeafIds(Replay(o, st, cs), k) == IdsUnder(o, cs, k)
    ensures Replay(o, st, cs).counter == st.counter
  {
    if cs != [] {
      hide KeyOf, FitsCaps;
      var n := |cs| - 1;
      var own := KeyOf(o, cs[n].tokens);
      FitsCapsBefore(o, cs);
      ReplayFilesAll(o, st, cs[..n], k);
      ReplayFilesAll(o, st, cs[..n], own);
    }
  }

  lemma {:induction false} UnderDistinct(o: Options, cs: seq<ClusterRecord>, k: LeafKey, i: nat, j: nat)
    requires o.Valid() && i < j < |cs| && KeyOf(o, cs[i].tokens) == k && KeyOf(o, cs[j].tokens) == k
    requires NoDuplicates(IdsUnder(o, cs, k))
    ensures cs[i].id != cs[j].id
  {
    hide KeyOf;
    var n := |cs| - 1;
    var before := IdsUnder(o, cs[..n], k);
    assert forall x | 0 <= x < |before| :: IdsUnder(o, cs, k)[x] == before[x];
    if j == n {
      IsUnder(o, cs[..n], i);
      var x :| 0 <= x < |before| && before[x] == cs[i].id;
      assert IdsUnder(o, cs, k)[x] == cs[i].id && IdsUnder(o, cs, k)[|before|] == cs[n].id;
    } else {
      UnderDistinct(o, cs[..n], k, i, j);
    }
  }

  lemma {:induction false} IsUnder(o: Options, cs: seq<ClusterRecord>, i: nat)
    requires o.Valid() && i < |cs|
    ensures cs[i].id in IdsUnder(o, cs, KeyOf(o, cs[i].tokens))
  {
    if i < |cs| - 1 { IsUnder(o, cs[..|cs| - 1], i); }
  }

  /** Of a snapshot that fits the caps, restoring gives a sound index if and only if its ids are distinct and within
      its counter. */
  lemma RestoreIsSoundExactly(o: Options, st: State, snap: Snapshot)
    requires o.Valid() && FitsCaps(o, snap.clusters)
    ensures Inv(o, Restore(o, st, snap)) <==> WellNumbered(snap)
  {
    var cs, re := snap.clusters, Restore(o, st, snap);
    if WellNumbered(snap) {
      RestoreEstablishesInv(o, st, snap);
    } else if Inv(o, re) {
      hide KeyOf, FitsCaps, Replay;
      forall i | 0 <= i < |cs|
        ensures LeafIds(re, KeyOf(o, cs[i].tokens)) == IdsUnder(o, cs, KeyOf(o, cs[i].tokens))
        ensures cs[i].id in LeafIds(re, KeyOf(o, cs[i].tokens)) && 0 < cs[i].id <= snap.counter
      {
        ReplayFilesAll(o, State(map[], map[], snap.counter, st.tick), cs, KeyOf(o, cs[i].tokens));
        IsUnder(o, cs, i);
      }
      forall i, j | 0 <= i < j < |cs|
        ensures cs[i].id != cs[j].id
      {
        if KeyOf(o, cs[i].tokens) == KeyOf(o, cs[j].tokens) { UnderDistinct(o, cs, KeyOf(o, cs[i].tokens), i, j); }
      }
    }
  }

  // ---------------------------------------------------------------- snapshot, then restore

  /** `snap` lists every live cluster once, in some order. */
  ghost predicate IsSnapshotOf(snap: Snapshot, st: State) {
    && snap.counter == st.counter
    && (forall i | 0 <= i < |snap.clusters| ::
          snap.clusters[i].id in st.bodies && snap.clusters[i] == RecordOf(st.bodies[snap.clusters[i].id]))
    && (forall i, j | 0 <= i < j < |snap.clusters| :: snap.clusters[i].id != snap.clusters[j].id)
    && (forall id | id in st.bodies :: exists i :: 0 <= i < |snap.clusters| && snap.clusters[i].id == id)
  }

  /** A snapshot has every field of the clusters but their recency. */
  lemma SnapshotFields(snap: Snapshot, st: State)
    requires IsSnapshotOf(snap, st)
    ensures snap.counter == st.counter
    ensures forall i | 0 <= i < |snap.clusters| ::
              var c := snap.clusters[i];
              && c.id in st.bodies && c.tokens == st.bodies[c.id].tokens && c.size == st.bodies[c.id].size
              && c.eventFirst == st.bodies[c.id].eventFirst && c.eventLast == st.bodies[c.id].eventLast
              && c.suffix == st.bodies[c.id].suffix && c.members == st.bodies[c.id].members
  {
  }

  function Elements(ids: seq<Id>): set<Id> {
    set x | x in ids
  }

  lemma {:induction false} DistinctLength(ids: seq<Id>)
    requires NoDuplicates(ids)
    ensures |Elements(ids)| == |ids|
  {
    if ids != [] {
      var last := ids[|ids| - 1];
      var before := ids[..|ids| - 1];
      DistinctLength(before);
      assert forall i | 0 <= i < |before| :: before[i] != last;
      assert Elements(ids) == Elements(before) + {last} && last !in Elements(before);
    }
  }

  lemma SubsetIsShorter(a: seq<Id>, b: seq<Id>, x: Id)
    requires NoDuplicates(a) && NoDuplicates(b)
    requires (forall y | y in a :: y in b) && x in b && x !in a
    ensures |a| < |b|
  {
    DistinctLength(a);
    DistinctLength(b);
    assert Elements(a) + {x} <= Elements(b);
    SubsetSize(Elements(a) + {x}, Elements(b));
  }

  lemma {:induction false} SubsetSize<T>(a: set<T>, b: set<T>)
    requires a <= b
    ensures |a| <= |b|
  {
    if a != {} {
      var x :| x in a;
      SubsetSize(a - {x}, b - {x});
    }
  }

  /** `re` holds restored copies of exactly the first `n` clusters of the snapshot. */
  ghost predicate Copies(re: State, st: State, snap: Snapshot, n: nat)
    requires n <= |snap.clusters|
  {
    && (forall id | id in re.bodies :: id in st.bodies && re.bodies[id] == st.bodies[id].(lastUsed := 0))
    && (forall i | 0 <= i < n :: snap.clusters[i].id in re.bodies)
    && (forall id | id in re.bodies :: exists i :: 0 <= i < n && snap.clusters[i].id == id)
  }

  /** Replaying a prefix of a snapshot evicts nothing and rebuilds its bodies. */
  lemma {:induction false} ReplayRebuilds(o: Options, st: State, tick: nat, snap: Snapshot, n: nat)
    requires Inv(o, st) && IsSnapshotOf(snap, st) && WellNumbered(snap) && n <= |snap.clusters|
    ensures Copies(Replay(o, State(map[], map[], snap.counter, tick), snap.clusters[..n]), st, snap, n)
  {
    if n > 0 {
      hide LeavesOk, BodiesOk, InsertExisting, IsSnapshotOf, Copies;
      assert snap.clusters[..n][..n - 1] == snap.clusters[..n - 1];
      ReplayRebuilds(o, st, tick, snap, n - 1);
      ReplayKeepsInv(o, tick, snap, n - 1);
      var re := Replay(o, State(map[], map[], snap.counter, tick), snap.clusters[..n - 1]);
      CopyOneMore(o, st, re, snap, n - 1);
    }
  }

  lemma RecordIsCaptured(o: Options, st: State, snap: Snapshot, n: nat)
    requires Inv(o, st) && IsSnapshotOf(snap, st) && n < |snap.clusters|
    ensures var c := snap.clusters[n];
            && c.id in st.bodies && st.bodies[c.id].id == c.id && c == RecordOf(st.bodies[c.id])
            && forall i | 0 <= i < n :: snap.clusters[i].id != c.id
  {
    hide LeavesOk, KeyOf;
  }

  lemma CopyOneMore(o: Options, st: State, re: State, snap: Snapshot, n: nat)
    requires Inv(o, st) && IsSnapshotOf(snap, st) && Inv(o, re)
    requires n < |snap.clusters| && Copies(re, st, snap, n)
    ensures Copies(InsertExisting(o, re, BodyOf(snap.clusters[n])), st, snap, n + 1)
  {
    hide LeavesOk, BodiesOk, KeyOf, EvictIfFull, IsSnapshotOf;
    var c := snap.clusters[n];
    RecordIsCaptured(o, st, snap, n);
    NothingToEvict(o, st, re, BodyOf(c));
    assert InsertExisting(o, re, BodyOf(c)).bodies == re.bodies[c.id := BodyOf(c)];
  }

  /** A leaf that lacks one of the clusters it had when the snapshot was taken is not full. */
  lemma NothingToEvict(o: Options, st: State, re: State, b: Body)
    requires Inv(o, st) && Inv(o, re)
    requires b.id in st.bodies && b.tokens == st.bodies[b.id].tokens && b.id !in re.bodies
    requires forall id | id in re.bodies :: id in st.bodies && re.bodies[id] == st.bodies[id].(lastUsed := 0)
    ensures EvictIfFull(o, re, KeyOf(o, b.tokens)) == re
  {
    var k := KeyOf(o, b.tokens);
    if k in re.leaves {
      forall y | y in re.leaves[k]
        ensures y in st.leaves[k]
      {
        assert KeyOf(o, re.bodies[y].tokens) == k;
      }
      SubsetIsShorter(re.leaves[k], st.leaves[k], b.id);
    }
  }

  lemma SnapshotIsWellNumbered(o: Options, st: State, snap: Snapshot)
    requires Inv(o, st) && IsSnapshotOf(snap, st)
    ensures WellNumbered(snap)
  {
  }

  /** Snapshot then restore, under equal options, rebuilds the index: the same leaves with the same
      clusters, nothing evicted, and every body equal up to recency. */
  lemma RestoreRebuilds(o: Options, st: State, into: State, snap: Snapshot)
    requires Inv(o, st) && IsSnapshotOf(snap, st)
    ensures Inv(o, Restore(o, into, snap))
    ensures var re := Restore(o, into, snap);
            && re.counter == st.counter
            && re.bodies.Keys == st.bodies.Keys
            && (forall id | id in st.bodies :: re.bodies[id] == st.bodies[id].(lastUsed := 0))
            && re.leaves.Keys == st.leaves.Keys
            && (forall k | k in st.leaves :: multiset(re.leaves[k]) == multiset(st.leaves[k]))
  {
    SnapshotIsWellNumbered(o, st, snap);
    hide LeavesOk, BodiesOk, IsSnapshotOf, WellNumbered, Copies, Replay, NoDuplicates;
    var n := |snap.clusters|;
    var re := Restore(o, into, snap);
    RestoreEstablishesInv(o, into, snap);
    ReplayRebuilds(o, st, into.tick, snap, n);
    assert snap.clusters[..n] == snap.clusters;
    AllCopied(st, re, snap);
    SameBodiesSameLeaves(o, st, re);
  }

  lemma AllCopied(st: State, re: State, snap: Snapshot)
    requires IsSnapshotOf(snap, st) && Copies(re, st, snap, |snap.clusters|)
    ensures re.bodies.Keys == st.bodies.Keys
    ensures forall id | id in st.bodies :: re.bodies[id] == st.bodies[id].(lastUsed := 0)
  {
    forall id | id in st.bodies
      ensures id in re.bodies
    {
      var i :| 0 <= i < |snap.clusters| && snap.clusters[i].id == id;
    }
  }

  lemma SameBodiesSameLeaf(o: Options, a: State, b: State, k: LeafKey)
    requires Inv(o, a) && Inv(o, b) && a.bodies.Keys == b.bodies.Keys && k in a.leaves
    requires forall id | id in a.bodies :: a.bodies[id].tokens == b.bodies[id].tokens
    ensures k in b.leaves && forall id | id in a.leaves[k] :: id in b.leaves[k]
  {
    assert a.leaves[k][0] in a.leaves[k];
  }

  /** The leaves are determined by the bodies, up to the order within a leaf. */
  lemma SameBodiesSameLeaves(o: Options, a: State, b: State)
    requires Inv(o, a) && Inv(o, b) && a.bodies.Keys == b.bodies.Keys
    requires forall id | id in a.bodies :: a.bodies[id].tokens == b.bodies[id].tokens
    ensures a.leaves.Keys == b.leaves.Keys
    ensures forall k | k in a.leaves :: multiset(b.leaves[k]) == multiset(a.leaves[k])
  {
    forall k
      ensures k in a.leaves <==> k in b.leaves
      ensures k in a.leaves ==> multiset(b.leaves[k]) == multiset(a.leaves[k])
    {
      if k in a.leaves { SameBodiesSameLeaf(o, a, b, k); }
      if k in b.leaves { SameBodiesSameLeaf(o, b, a, k); }
      if k in a.leaves { DistinctMultiset(b.leaves[k], a.leaves[k]); }
    }
  }

  lemma DistinctMultiset(a: seq<Id>, b: seq<Id>)
    requires NoDuplicates(a) && NoDuplicates(b) && forall x :: x in a <==> x in b
    ensures multiset(a) == multiset(b)
  {
    forall x
      ensures multiset(a)[x] == multiset(b)[x]
    {
      DistinctCount(a, x);
      DistinctCount(b, x);
    }
  }

  lemma {:induction false} DistinctCount(a: seq<Id>, x: Id)
    requires NoDuplicates(a)
    ensures multiset(a)[x] == if x in a then 1 else 0
  {
    if a != [] {
      var before := a[..|a| - 1];
      var last := a[|a| - 1];
      assert a == before + [last];
      assert forall i | 0 <= i < |before| :: before[i] != last;
      DistinctCount(before, x);
    }
  }

  /** The restored miner answers every query as the original: something or nothing alike, with the same
      best similarity, and with the same cluster when only one has it. */
  lemma RestoredQueriesAgree(o: Options, st: State, into: State, snap: Snapshot, line: seq<Token>)
    requires Inv(o, st) && IsSnapshotOf(snap, st)
    ensures Inv(o, Restore(o, into, snap))
    ensures var a, b := MatchOnly(o, st, line), MatchOnly(o, Restore(o, into, snap), line);
            && (a.Some? <==> b.Some?)
            && (a.Some? ==>
                  && a.value in st.bodies && b.value in st.bodies
                  && Sim(st.bodies, a.value, line, o.wildcard) == Sim(st.bodies, b.value, line, o.wildcard)
                  && ((forall id | Candidate(o, st, line, id) && id != a.value ::
                         Sim(st.bodies, id, line, o.wildcard) < Sim(st.bodies, a.value, line, o.wildcard)) ==> a == b))
  {
    RestoreRebuilds(o, st, into, snap);
    var re := Restore(o, into, snap);
    IndexRefinesLinearScan(o, st, line);
    IndexRefinesLinearScan(o, re, line);
    assert forall id :: Candidate(o, st, line, id) <==> Candidate(o, re, line, id);
    assert forall id | id in st.bodies :: Sim(st.bodies, id, line, o.wildcard) == Sim(re.bodies, id, line, o.wildcard);
  }

  /** A version 2 snapshot builds the same tree and the same bodies as any version 3 snapshot whose clusters have its
      ids, templates, sizes, suffixes and members; only the event windows differ, and they read as unset. */
  lemma {:induction false} UpgradeBuildsTheSameTree(o: Options, st: State, v2: SnapshotV2, snap: Snapshot)
    requires o.Valid() && v2.counter == snap.counter && |v2.clusters| == |snap.clusters|
    requires forall i | 0 <= i < |v2.clusters| ::
               var a, c := v2.clusters[i], snap.clusters[i];
               && c.id == a.id && c.tokens == a.tokens && c.size == a.size
               && c.suffix == a.suffix && c.members == a.members
    ensures var a, b := Restore(o, st, Upgrade(v2)), Restore(o, st, snap);
            && a.leaves == b.leaves && a.bodies.Keys == b.bodies.Keys
            && forall id | id in a.bodies ::
                 && a.bodies[id].eventFirst == EVENT_UNSET && a.bodies[id].eventLast == 0
                 && a.bodies[id] == b.bodies[id].(eventFirst := EVENT_UNSET, eventLast := 0)
  {
    ReplayIgnoresEvents(o, State(map[], map[], snap.counter, st.tick), Upgrade(v2).clusters, snap.clusters);
  }

  /** Equal up to event windows, which `x` has unset. */
  ghost predicate AlikeButEvents(x: State, y: State) {
    && x.leaves == y.leaves && x.bodies.Keys == y.bodies.Keys
    && forall id | id in x.bodies :: x.bodies[id] == y.bodies[id].(eventFirst := EVENT_UNSET, eventLast := 0)
  }

  lemma InsertIgnoresEvents(o: Options, x: State, y: State, a: Body, b: Body)
    requires o.Valid() && AlikeButEvents(x, y) && a == b.(eventFirst := EVENT_UNSET, eventLast := 0)
    ensures AlikeButEvents(InsertExisting(o, x, a), InsertExisting(o, y, b))
  {
    hide KeyOf, SwapRemove;
    var k := KeyOf(o, a.tokens);
    if LeafIds(x, k) != [] {
      VictimByRecency(x.bodies, y.bodies, LeafIds(x, k));
    }
  }

  lemma {:induction false} ReplayIgnoresEvents(o: Options, st: State, a: seq<ClusterRecord>, b: seq<ClusterRecord>)
    requires o.Valid() && |a| == |b| && st.bodies == map[]
    requires forall i | 0 <= i < |a| :: a[i] == b[i].(eventFirst := EVENT_UNSET, eventLast := 0)
    ensures AlikeButEvents(Replay(o, st, a), Replay(o, st, b))
  {
    if a != [] {
      hide InsertExisting, AlikeButEvents;
      var n := |a| - 1;
      ReplayIgnoresEvents(o, st, a[..n], b[..n]);
      InsertIgnoresEvents(o, Replay(o, st, a[..n]), Replay(o, st, b[..n]), BodyOf(a[n]), BodyOf(b[n]));
    }
  }

  lemma {:induction false} VictimByRecency(a: map<Id, Body>, b: map<Id, Body>, ids: seq<Id>)
    requires ids != [] && a.Keys == b.Keys
    requires forall id | id in a :: a[id].lastUsed == b[id].lastUsed
    ensures Victim(a, ids) == Victim(b, ids)
  {
    if |ids| > 1 {
      VictimByRecency(a, b, ids[..|ids| - 1]);
    }
  }
}
