/** The miner (crates/logdrain/src/miner.rs), called from one thread. Its methods update shards, leaf
    buckets, cluster bodies, the id map and the counters in place, and are proved against the
    operations of `Index` and `Snapshots`. */
module Miner {
  import opened Wrappers
  import opened Tokenizer
  import opened Options
  import opened Templates
  import opened Index
  import opened IndexInvariant
  import opened Snapshots
  import opened Cluster
  import opened Tree

  class Miner {
    const options: Options
    var shards: map<nat, Shard>
    var clusters: map<Id, ClusterInner>
    var counter: nat
    var tick: nat

    /** The index as values, the bucket of every leaf, and the objects the miner owns. */
    ghost var leaves: map<LeafKey, seq<Id>>
    ghost var bodies: map<Id, Body>
    ghost var leafAt: map<LeafKey, LeafBucket>
    ghost var Repr: set<object>

    /** The state as a value. */
    ghost function View(): State
      reads this
    {
      State(leaves, bodies, counter, tick)
    }

    ghost function Height(count: nat): nat
      requires options.Valid()
    {
      Min(options.PrefixLen(), count)
    }

    /** The shard trees hold exactly the buckets of `leafAt`. */
    ghost predicate TreesFit()
      reads `shards, `leafAt, shards.Values
      requires options.Valid()
    {
      && (forall c | c in shards ::
            && shards[c].count == c
            && Uniform(shards[c].root, Height(c))
            && Holds(shards[c].root, c, Height(c), leafAt))
      && (forall k | k in leafAt :: k.count in shards && |k.path| == Height(k.count))
    }

    ghost predicate LeavesFit()
      reads `leaves, `leafAt, leafAt.Values
    {
      && leaves.Keys == leafAt.Keys
      && (forall k | k in leafAt ::
            leafAt[k].key == k && leafAt[k].cap == options.maxClustersPerLeaf && leaves[k] == leafAt[k].ids)
    }

    ghost predicate ClustersFit()
      reads `bodies, `clusters, clusters.Values
    {
      && bodies.Keys == clusters.Keys
      && (forall id | id in clusters :: clusters[id].id == id && clusters[id].Value() == bodies[id])
    }

    ghost predicate OwnsAll()
      reads `Repr, `shards, `leafAt, `clusters
    {
      && this in Repr
      && (forall c | c in shards :: shards[c] in Repr)
      && (forall k | k in leafAt :: leafAt[k] in Repr)
      && (forall id | id in clusters :: clusters[id] in Repr)
    }

    ghost predicate Grew(before: set<object>, o: object)
      reads `Repr
    {
      Repr == before + {o}
    }

    /** The fields represent `View()`. */
    ghost predicate Coupled()
      reads this, shards.Values, leafAt.Values, clusters.Values
    {
      options.Valid() && OwnsAll() && TreesFit() && LeavesFit() && ClustersFit()
    }

    ghost predicate Valid()
      reads this, shards.Values, leafAt.Values, clusters.Values
    {
      Coupled() && Inv(options, View())
    }

    constructor (options: Options)
      requires options.Valid()
      ensures Valid() && fresh(Repr) && this.options == options
      ensures View() == EMPTY_STATE
    {
      this.options := options;
      shards := map[];
      clusters := map[];
      counter := 0;
      tick := 0;
      leaves := map[];
      bodies := map[];
      leafAt := map[];
      Repr := {this};
    }

    /** Masks, splits off the first line if configured, tokenizes. */
    method Preprocess(line: string) returns (tokens: seq<Token>, suffix: Option<string>)
      ensures tokens == TokensOf(options, line) && suffix == SplitRecord(options, line).1
      ensures var masked := options.mask(line);
              var delims := if options.firstLineOnly && options.firstLinePathDelimiters != []
                            then options.firstLinePathDelimiters else options.pathDelimiters;
              match suffix
              case None => tokens == Tokenize(masked, delims) && (options.firstLineOnly ==> '\n' !in masked)
              case Some(rest) =>
                var n := |masked| - |rest| - 1;
                && options.firstLineOnly
                && 0 <= n && masked[n] == '\n' && masked[n + 1..] == rest
                && '\n' !in masked[..n] && tokens == Tokenize(masked[..n], delims)
    {
      var masked := options.mask(line);
      var first := masked;
      suffix := None;
      if options.firstLineOnly {
        var parts := SplitFirstLine(masked);
        first, suffix := parts.0, parts.1;
        assert suffix.Some? ==> masked == first + (['\n'] + suffix.value);
        assert suffix.Some? ==> masked[..|first|] == first && masked[|first| + 1..] == suffix.value;
      }
      ghost var cuts;
      tokens, cuts := TokenizeWith(first, options.ActiveDelimiters());
    }

    method ComputeDescentKeys(tokens: seq<Token>) returns (keys: seq<string>)
      requires options.Valid()
      ensures keys == DescentKeys(options, tokens)
      ensures |keys| == if options.depth - 2 <= |tokens| then options.depth - 2 else |tokens|
      ensures forall i | 0 <= i < |keys| ::
                var text := tokens[i].text;
                var digits := text != [] && forall j | 0 <= j < |text| :: '0' <= text[j] <= '9';
                keys[i] == if options.parametrizeNumeric && digits then options.wildcard else text
    {
      var n := Min(options.PrefixLen(), |tokens|);
      keys := [];
      for i := 0 to n
        invariant keys == DescentKeys(options, tokens)[..i]
      {
        if options.parametrizeNumeric && IsNumeric(tokens[i].text) {
          keys := keys + [options.wildcard];
        } else {
          keys := keys + [tokens[i].text];
        }
      }
    }

    /** The shard of a token count, created if absent. */
    method ShardFor(count: nat) returns (shard: Shard)
      requires Coupled()
      modifies `shards, `Repr
      ensures Coupled() && Grew(old(Repr), shard) && (shard in old(Repr) || fresh(shard))
      ensures count in shards && shards[count] == shard
    {
      hide LeavesFit, ClustersFit, Holds;
      if count in shards {
        shard := shards[count];
        assert shard in Repr;
        return;
      }
      EmptyHolds(count, Height(count), leafAt);
      shard := new Shard(count);
      shards := shards[count := shard];
      Repr := Repr + {shard};
    }

    /** Grows the shard's tree to the leaf of `k`, if it is absent. */
    method GrowTree(shard: Shard, ghost k: LeafKey, keys: seq<string>) returns (leaf: LeafBucket)
      requires options.Valid() && TreesFit() && k.count in shards && shards[k.count] == shard
      requires keys == k.path && |keys| == Height(k.count)
      modifies shard, `leafAt
      ensures TreesFit() && leafAt == old(leafAt)[k := leaf]
      ensures if k in old(leafAt) then leaf == old(leafAt)[k]
              else fresh(leaf) && leaf.ids == [] && leaf.key == k && leaf.cap == options.maxClustersPerLeaf
    {
      ghost var root := shard.root;
      var updated;
      updated, leaf := DescendOrCreate(shard.root, keys, options.maxClustersPerLeaf, k);
      PlantKeepsShape(root, keys, leaf);
      assert Descend(root, keys).Some? <==> k in leafAt by {
        assert LeafKey(k.count, k.path) == k;
      }
      forall c | c in shards
        ensures Holds(if c == k.count then updated else shards[c].root, c, Height(c), leafAt[k := leaf])
      {
        HoldsAfterPlant(shards[c].root, c, Height(c), leafAt, k, leaf);
      }
      shard.root := updated;
      leafAt := leafAt[k := leaf];
    }

    /** Records a leaf that the tree now holds. */
    ghost method Register(leaf: LeafBucket, k: LeafKey)
      requires options.Valid() && this in Repr && TreesFit() && ClustersFit()
      requires k in leafAt && leafAt[k] == leaf && leafAt.Keys == leaves.Keys + {k}
      requires leaf.key == k && leaf.cap == options.maxClustersPerLeaf
      requires forall j | j in leafAt && j != k ::
                 && leafAt[j] in Repr && leafAt[j].key == j && leafAt[j].cap == options.maxClustersPerLeaf
                 && leaves[j] == leafAt[j].ids
      requires (forall c | c in shards :: shards[c] in Repr) && (forall id | id in clusters :: clusters[id] in Repr)
      modifies `leaves, `Repr
      ensures Coupled() && leaves == old(leaves)[k := leaf.ids] && Repr == old(Repr) + {leaf}
    {
      hide TreesFit, ClustersFit;
      leaves, Repr := leaves[k := leaf.ids], Repr + {leaf};
    }

    /** The leaf of `k`, created if absent. */
    method LeafFor(shard: Shard, ghost k: LeafKey, keys: seq<string>) returns (leaf: LeafBucket)
      requires Coupled() && k.count in shards && shards[k.count] == shard
      requires keys == k.path && |keys| == Height(k.count)
      modifies shard, `leaves, `leafAt, `Repr
      ensures Coupled() && Grew(old(Repr), leaf) && (leaf in old(Repr) || fresh(leaf))
      ensures k in leafAt && leafAt[k] == leaf
      ensures leaf.ids == if k in old(leaves) then old(leaves)[k] else []
      ensures leaves == old(leaves)[k := leaf.ids]
    {
      hide TreesFit, ClustersFit;
      assert forall x | x in clusters.Values :: x as object != shard;
      leaf := GrowTree(shard, k, keys);
      Register(leaf, k);
    }

    /** Highest-similarity cluster of a leaf. */
    method BestIn(leaf: LeafBucket, tokens: seq<Token>) returns (best: Option<Best>)
      requires ClustersFit()
      ensures best == BestMatch(bodies, leaf.ids, tokens, options.wildcard)
      ensures best.Some? ==> best.value.id in clusters
    {
      best := None;
      var ids := leaf.ids;
      for i := 0 to |ids|
        invariant best == BestMatch(bodies, ids[..i], tokens, options.wildcard)
        invariant best.Some? ==> best.value.id in clusters
      {
        assert ids[..i + 1][..i] == ids[..i];
        var id := ids[i];
        if id in clusters {
          assert clusters[id].Value() == bodies[id];
          var sim := ComputeSimilarity(clusters[id].tokens, tokens, options.wildcard);
          if best.None? || sim > best.value.sim {
            best := Some(Best(id, sim));
          }
        }
      }
      assert ids[..|ids|] == ids;
    }

    /** Bumps the cluster's hit count and recency, and generalizes it or records a member if needed. */
    method ApplyMatch(id: Id, tokens: seq<Token>, member: Option<string>, event: Option<nat>)
      returns (result: AddResult)
      requires Coupled() && id in clusters && id in bodies && |bodies[id].tokens| == |tokens|
      modifies `tick, `bodies, clusters[id]
      ensures Coupled() && tick == old(tick) + 1
      ensures bodies == old(bodies)[id := Matched(old(bodies)[id], Request(tokens, None, member, event),
                                                  old(tick), options.wildcard)]
      ensures result == AddResult(id, if WouldGeneralize(old(bodies)[id].tokens, tokens, options.wildcard)
                                      then TemplateChanged else NoChange)
    {
      hide TreesFit, LeavesFit;
      var body := clusters[id];
      assert body.Value() == bodies[id];
      var t := tick;
      tick := tick + 1;
      var changed := body.Hit(t, tokens, member, event, options.wildcard);
      bodies := bodies[id := body.Value()];
      result := AddResult(id, if changed then TemplateChanged else NoChange);
    }

    /** The id of least recency, the first such in leaf order. */
    method LeastRecent(ids: seq<Id>) returns (victim: Id)
      requires ClustersFit() && ids != []
      ensures victim == Victim(bodies, ids)
    {
      victim := ids[0];
      var least := RecencyOf(victim);
      assert ids[..1] == [victim];
      for i := 1 to |ids|
        invariant victim == Victim(bodies, ids[..i]) && least == Recency(bodies, victim)
      {
        assert ids[..i + 1][..i] == ids[..i];
        var recency := RecencyOf(ids[i]);
        if recency < least {
          victim, least := ids[i], recency;
        }
      }
      assert ids[..|ids|] == ids;
    }

    function RecencyOf(id: Id): (r: nat)
      requires ClustersFit()
      reads this, clusters.Values
      ensures r == Recency(bodies, id)
    {
      if id in clusters then
        assert clusters[id].Value() == bodies[id];
        clusters[id].lastUsed
      else 0
    }

    /** Takes an id out of its leaf. */
    method RemoveId(leaf: LeafBucket, ghost k: LeafKey, id: Id)
      requires Coupled() && k in leafAt && leafAt[k] == leaf && k in leaves
      modifies `leaves, leaf
      ensures Coupled()
      ensures leaves == old(leaves)[k := SwapRemove(old(leaves)[k], id)]
    {
      hide TreesFit, ClustersFit, SwapRemove;
      leaf.Remove(id);
      leaves := leaves[k := leaf.ids];
    }

    /** Takes a body out of the id map. */
    method RemoveBody(id: Id)
      requires Coupled()
      modifies `clusters, `bodies
      ensures Coupled() && bodies == old(bodies) - {id}
    {
      hide TreesFit, LeavesFit;
      clusters := clusters - {id};
      bodies := bodies - {id};
    }

    /** Makes room in a full leaf. */
    method MakeRoom(leaf: LeafBucket, ghost k: LeafKey)
      requires Coupled() && k in leafAt && leafAt[k] == leaf
      modifies `clusters, `leaves, `bodies, leaf
      ensures Coupled()
      ensures View() == EvictIfFull(options, old(View()), k)
    {
      hide TreesFit, ClustersFit, SwapRemove;
      if leaf.IsFull() && leaf.ids != [] {
        var victim := LeastRecent(leaf.ids);
        RemoveId(leaf, k, victim);
        RemoveBody(victim);
      }
    }

    /** Puts a new body into the id map. */
    method InsertBody(body: ClusterInner)
      requires Coupled() && body !in Repr
      modifies `clusters, `bodies, `Repr
      ensures Coupled() && Repr == old(Repr) + {body}
      ensures bodies == old(bodies)[body.id := body.Value()]
    {
      hide TreesFit, LeavesFit;
      clusters := clusters[body.id := body];
      bodies := bodies[body.id := body.Value()];
      Repr := Repr + {body};
    }

    /** Files an id in a leaf. */
    method InsertId(leaf: LeafBucket, ghost k: LeafKey, id: Id)
      requires Coupled() && k in leafAt && leafAt[k] == leaf
      modifies `leaves, leaf
      ensures Coupled()
      ensures View() == FileId(old(View()), k, id)
    {
      hide TreesFit, ClustersFit;
      leaf.Insert(id);
      leaves := leaves[k := leaf.ids];
    }

    /** The scan of phase 1 and of queries: grows nothing, learns nothing. */
    method ScanShard(shard: Shard, keys: seq<string>, tokens: seq<Token>) returns (best: Option<Best>)
      requires Coupled() && |tokens| in shards && shards[|tokens|] == shard && keys == DescentKeys(options, tokens)
      ensures best == if Reaches(options, ScanLeaf(options, View(), tokens))
                      then ScanLeaf(options, View(), tokens) else None
      ensures best.Some? ==> best.value.id in clusters
    {
      ghost var k := KeyOf(options, tokens);
      best := None;
      var leaf := Descend(shard.root, keys);
      assert LeafKey(k.count, keys) == k;
      if leaf.Some? {
        assert k in leafAt && leafAt[k] == leaf.value;
        best := BestIn(leaf.value, tokens);
        if best.Some? && best.value.sim < options.simThreshold {
          best := None;
        }
      } else {
        assert k !in leafAt;
      }
    }

    /** Draws an id and a tick for a new cluster body. */
    method NewCluster(tokens: seq<Token>, suffix: Option<string>, member: Option<string>, event: Option<nat>)
      returns (body: ClusterInner)
      modifies `counter, `tick
      ensures fresh(body) && counter == old(counter) + 1 && tick == old(tick) + 1
      ensures body.Value() == NewBody(old(counter) + 1, Request(tokens, suffix, member, event), old(tick))
    {
      counter := counter + 1;
      body := new ClusterInner(counter, tokens, suffix, event);
      body.lastUsed := tick;
      tick := tick + 1;
      match member {
        case Some(m) => body.AddMember(m);
        case None =>
      }
    }

    /** Files a new cluster in `leaf`. */
    method CreateIn(leaf: LeafBucket, ghost k: LeafKey, tokens: seq<Token>, suffix: Option<string>,
                    member: Option<string>, event: Option<nat>) returns (id: Id)
      requires Coupled() && k in leafAt && leafAt[k] == leaf && k == KeyOf(options, tokens)
      requires counter + 1 !in bodies
      modifies `counter, `tick, `clusters, `leaves, `bodies, `Repr, leaf
      ensures Coupled() && fresh(Repr - old(Repr))
      ensures id == old(counter) + 1
      ensures View() == Create(options, old(View()), Request(tokens, suffix, member, event))
    {
      hide TreesFit, LeavesFit, ClustersFit, EvictIfFull, FileId, KeyOf;
      var body := NewCluster(tokens, suffix, member, event);
      id := body.id;
      InsertBody(body);
      MakeRoom(leaf, k);
      InsertId(leaf, k, id);
    }

    /** Phase 2: under the write lock, scan once more and create a cluster if nothing matches. */
    method MatchOrCreate(shard: Shard, keys: seq<string>, tokens: seq<Token>, suffix: Option<string>,
                         member: Option<string>, event: Option<nat>) returns (result: AddResult)
      requires Valid() && |tokens| in shards && shards[|tokens|] == shard && keys == DescentKeys(options, tokens)
      modifies this, Repr
      ensures Coupled() && fresh(Repr - old(Repr)) && CountsFit(old(View()))
      ensures (View(), result) == Add(options, old(View()), Request(tokens, suffix, member, event))
    {
      hide TreesFit, LeavesFit, ClustersFit, Inv, Create, Matched;
      ghost var st := View();
      ghost var r := Request(tokens, suffix, member, event);
      ghost var k := KeyOf(options, tokens);
      InvCountsFit(options, st);
      NextIdIsFresh(options, st);
      var leaf := LeafFor(shard, k, keys);
      var best := BestIn(leaf, tokens);
      if best.Some? && best.value.sim >= options.simThreshold {
        MatchedAdd(options, st, r);
        assert leaves == st.leaves;
        result := ApplyMatch(best.value.id, tokens, member, event);
      } else {
        assert View() == st.(leaves := st.leaves[k := LeafIds(st, k)]);
        CreateIgnoresEmptyLeaf(options, st, r);
        var id := CreateIn(leaf, k, tokens, suffix, member, event);
        result := AddResult(id, Created);
      }
    }

    /** Phase 1: finds the shard, creating it if absent, and scans it under the read lock. */
    method Locate(tokens: seq<Token>) returns (shard: Shard, keys: seq<string>, best: Option<Best>)
      requires Coupled()
      modifies `shards, `Repr
      ensures Coupled() && fresh(Repr - old(Repr))
      ensures |tokens| in shards && shards[|tokens|] == shard && keys == DescentKeys(options, tokens)
      ensures best == if Reaches(options, ScanLeaf(options, View(), tokens))
                      then ScanLeaf(options, View(), tokens) else None
      ensures best.Some? ==> best.value.id in clusters
    {
      hide TreesFit, LeavesFit, ClustersFit, ScanLeaf, Reaches;
      keys := ComputeDescentKeys(tokens);
      shard := ShardFor(|tokens|);
      best := ScanShard(shard, keys, tokens);
    }

    /** Ingests a line. */
    method AddInner(line: string, member: Option<string>, event: Option<nat>) returns (result: AddResult)
      requires Valid()
      modifies this, Repr
      ensures Valid() && fresh(Repr - old(Repr)) && CountsFit(old(View()))
      ensures (View(), result) == Add(options, old(View()), RequestOf(options, line, member, event))
    {
      hide TreesFit, LeavesFit, ClustersFit, Inv, Add, ScanLeaf, Reaches, Matched, KeyOf;
      ghost var st := View();
      var tokens, suffix := Preprocess(line);
      ghost var r := Request(tokens, suffix, member, event);
      AddKeepsInv(options, st, r);
      var shard, keys, best := Locate(tokens);
      if best.Some? {
        MatchedAdd(options, st, r);
        result := ApplyMatch(best.value.id, tokens, member, event);
      } else {
        result := MatchOrCreate(shard, keys, tokens, suffix, member, event);
      }
    }

    /** The best cluster at or above threshold; learns nothing and touches no recency. */
    method FindMatch(line: string) returns (found: Option<Id>)
      requires Valid()
      ensures found == MatchOnly(options, View(), TokensOf(options, line))
    {
      var tokens, _ := Preprocess(line);
      var keys := ComputeDescentKeys(tokens);
      if |tokens| !in shards {
        assert KeyOf(options, tokens) !in leafAt;
        return None;
      }
      var best := ScanShard(shards[|tokens|], keys, tokens);
      found := if best.Some? then Some(best.value.id) else None;
    }

    /** A match with the line's texts at the template's wildcard positions. */
    method ExtractParams(line: string) returns (found: Option<(Id, seq<string>)>, ghost pos: seq<nat>)
      requires Valid()
      ensures CountsFit(View()) && found == Extract(options, View(), TokensOf(options, line))
      ensures found.None? <==> MatchOnly(options, View(), TokensOf(options, line)).None?
      ensures found.Some? ==>
                var (id, params) := found.value;
                && MatchOnly(options, View(), TokensOf(options, line)) == Some(id) && id in bodies
                && (forall i, j | 0 <= i < j < |pos| :: pos[i] < pos[j])
                && (forall i: nat :: i in pos <==>
                      i < |bodies[id].tokens| && bodies[id].tokens[i].text == options.wildcard)
                && |params| == |pos|
                && forall j | 0 <= j < |pos| ::
                     pos[j] < |TokensOf(options, line)| && params[j] == TokensOf(options, line)[pos[j]].text
    {
      hide TreesFit, LeavesFit, LeavesOk, BodiesOk;
      InvCountsFit(options, View());
      pos := [];
      var id := FindMatch(line);
      if id.None? {
        return None, [];
      }
      var tokens, _ := Preprocess(line);
      BestIsAmong(bodies, LeafIds(View(), KeyOf(options, tokens)), tokens, options.wildcard);
      var body := clusters[id.value];
      assert body.Value() == bodies[id.value];
      var params := [];
      for i := 0 to |body.tokens|
        invariant params == Params(body.tokens[..i], tokens, options.wildcard)
      {
        assert body.tokens[..i + 1][..i] == body.tokens[..i];
        if body.tokens[i].text == options.wildcard {
          params := params + [tokens[i].text];
        }
      }
      assert body.tokens[..|body.tokens|] == body.tokens;
      pos := ParamsStandAtWildcards(body.tokens, tokens, options.wildcard);
      found := Some((id.value, params));
    }

    // -------------------------------------------------------------- snapshot and restore

    /** The flat cluster list and the counter; the tree is not part of it. */
    method TakeSnapshot() returns (snap: Snapshot)
      requires Valid()
      ensures IsSnapshotOf(snap, View())
      ensures snap.counter == counter
      ensures forall i | 0 <= i < |snap.clusters| ::
                var c := snap.clusters[i];
                && c.id in bodies && c.tokens == bodies[c.id].tokens && c.size == bodies[c.id].size
                && c.eventFirst == bodies[c.id].eventFirst && c.eventLast == bodies[c.id].eventLast
                && c.suffix == bodies[c.id].suffix && c.members == bodies[c.id].members
    {
      hide TreesFit, LeavesFit, LeavesOk, BodiesOk, OwnsAll, Collected, IsSnapshotOf;
      var records: seq<ClusterRecord> := [];
      var todo := clusters.Keys;
      NothingCollected(bodies);
      while todo != {}
        invariant todo <= clusters.Keys
        invariant Collected(records, bodies, todo)
        decreases |todo|
      {
        var id :| id in todo;
        var b := clusters[id];
        assert b.Value() == bodies[id] && bodies[id].id == id;
        CollectOneMore(records, bodies, todo, id);
        records := records + [ClusterRecord(b.id, b.tokens, b.size, b.eventFirst, b.eventLast, b.suffix, b.members)];
        todo := todo - {id};
      }
      snap := Snapshot(counter, records);
      AllCollected(records, View());
      SnapshotFields(snap, View());
    }

    /** The leaf of a restored template, created if absent. */
    method LeafOf(tokens: seq<Token>, ghost k: LeafKey) returns (leaf: LeafBucket)
      requires Coupled() && k == KeyOf(options, tokens)
      modifies this, Repr
      ensures Coupled() && fresh(Repr - old(Repr)) && k in leafAt && leafAt[k] == leaf
      ensures leaf in old(Repr) || fresh(leaf)
      ensures View() == old(View()).(leaves := old(View()).leaves[k := LeafIds(old(View()), k)])
      ensures clusters == old(clusters)
    {
      hide TreesFit, LeavesFit, ClustersFit;
      var keys := ComputeDescentKeys(tokens);
      var shard := ShardFor(|tokens|);
      leaf := LeafFor(shard, k, keys);
    }

    /** Files a body read from a snapshot. */
    method AddExisting(body: ClusterInner)
      requires Coupled() && body !in Repr
      modifies this, Repr
      ensures Coupled() && fresh(Repr - old(Repr) - {body})
      ensures View() == InsertExisting(options, old(View()), body.Value())
    {
      hide TreesFit, LeavesFit, EvictIfFull;
      ghost var st := View();
      ghost var k := KeyOf(options, body.tokens);
      InsertIgnoresEmptyLeaf(options, st, body.Value());
      var leaf := LeafOf(body.tokens, k);
      MakeRoom(leaf, k);
      InsertId(leaf, k, body.id);
      InsertBody(body);
    }

    /** Drops every cluster and the whole tree. */
    method Clear(newCounter: nat)
      requires options.Valid()
      modifies `shards, `clusters, `counter, `leaves, `bodies, `leafAt, `Repr
      ensures Coupled() && Repr == {this}
      ensures View() == State(map[], map[], newCounter, tick)
    {
      shards := map[];
      clusters := map[];
      leafAt := map[];
      leaves := map[];
      bodies := map[];
      Repr := {this};
      counter := newCounter;
    }

    /** Replaces the state by a snapshot, whatever it holds. */
    method RestoreFrom(snap: Snapshot)
      requires Coupled()
      modifies this
      ensures Coupled() && fresh(Repr - old(Repr))
      ensures View() == Restore(options, old(View()), snap)
      ensures WellNumbered(snap) ==> Valid()
    {
      hide TreesFit, LeavesFit, LeavesOk, BodiesOk;
      ghost var st := View();
      ghost var start := State(map[], map[], snap.counter, tick);
      Clear(snap.counter);
      for i := 0 to |snap.clusters|
        invariant Coupled() && fresh(Repr - {this})
        invariant View() == Replay(options, start, snap.clusters[..i])
      {
        assert snap.clusters[..i + 1][..i] == snap.clusters[..i];
        var body := new ClusterInner.FromRecord(snap.clusters[i]);
        AddExisting(body);
      }
      assert snap.clusters[..|snap.clusters|] == snap.clusters;
      if WellNumbered(snap) { RestoreEstablishesInv(options, st, snap); }
    }
  }

  lemma NextIdIsFresh(o: Options, st: State)
    requires Inv(o, st)
    ensures st.counter + 1 !in st.bodies
  {
  }

  /** The tree's leaves at depth `height` are the buckets that `leafAt` gives for shard `c`. */
  ghost predicate Holds(root: TreeNode, c: nat, height: nat, leafAt: map<LeafKey, LeafBucket>) {
    forall path | |path| == height ::
      Descend(root, path) == if LeafKey(c, path) in leafAt then Some(leafAt[LeafKey(c, path)]) else None
  }

  lemma EmptyHolds(c: nat, height: nat, leafAt: map<LeafKey, LeafBucket>)
    requires forall k | k in leafAt :: k.count != c
    ensures Holds(EMPTY_NODE, c, height, leafAt)
  {
  }

  lemma HoldsAfterPlant(root: TreeNode, c: nat, height: nat, leafAt: map<LeafKey, LeafBucket>, k: LeafKey,
                        leaf: LeafBucket)
    requires Holds(root, c, height, leafAt) && Uniform(root, height)
    requires c == k.count ==> |k.path| == height
    ensures Holds(if c == k.count then Plant(root, k.path, leaf) else root, c, height, leafAt[k := leaf])
  {
    forall path | |path| == height && c == k.count
      ensures Descend(Plant(root, k.path, leaf), path) == if path == k.path then Some(leaf) else Descend(root, path)
    {
      PlantResolves(root, k.path, leaf, path);
    }
  }

  /** `records` lists the bodies outside `todo`, each once. */
  ghost predicate Collected(records: seq<ClusterRecord>, bodies: map<Id, Body>, todo: set<Id>) {
    && (forall i | 0 <= i < |records| ::
          records[i].id in bodies && records[i].id !in todo && records[i] == RecordOf(bodies[records[i].id]))
    && (forall i, j | 0 <= i < j < |records| :: records[i].id != records[j].id)
    && (forall id | id in bodies && id !in todo :: exists i :: 0 <= i < |records| && records[i].id == id)
  }

  lemma NothingCollected(bodies: map<Id, Body>)
    ensures Collected([], bodies, bodies.Keys)
  {
  }

  lemma AllCollected(records: seq<ClusterRecord>, st: State)
    requires Collected(records, st.bodies, {})
    ensures IsSnapshotOf(Snapshot(st.counter, records), st)
  {
  }

  lemma CollectOneMore(records: seq<ClusterRecord>, bodies: map<Id, Body>, todo: set<Id>, id: Id)
    requires Collected(records, bodies, todo) && id in todo && id in bodies && bodies[id].id == id
    ensures Collected(records + [RecordOf(bodies[id])], bodies, todo - {id})
  {
    var more := records + [RecordOf(bodies[id])];
    assert more[|records|].id == id;
    forall x | x in bodies && x !in todo - {id}
      ensures exists i :: 0 <= i < |more| && more[i].id == x
    {
      if x != id {
        var i :| 0 <= i < |records| && records[i].id == x;
        assert more[i].id == x;
      }
    }
  }

  /** What `Add` is when the scan reaches the threshold. */
  lemma MatchedAdd(o: Options, st: State, r: Request)
    requires Inv(o, st) && CountsFit(st) && Reaches(o, ScanLeaf(o, st, r.tokens))
    ensures var id := ScanLeaf(o, st, r.tokens).value.id;
            var bare := Request(r.tokens, None, r.member, r.event);
            && id in st.bodies && |st.bodies[id].tokens| == |r.tokens|
            && LeafIds(st, KeyOf(o, r.tokens)) != []
            && Add(o, st, r) == (st.(bodies := st.bodies[id := Matched(st.bodies[id], bare, st.tick, o.wildcard)],
                                     tick := st.tick + 1),
                                 AddResult(id, if WouldGeneralize(st.bodies[id].tokens, r.tokens, o.wildcard)
                                               then TemplateChanged else NoChange))
  {
    BestIsAmong(st.bodies, LeafIds(st, KeyOf(o, r.tokens)), r.tokens, o.wildcard);
  }

  /** Creating is blind to whether an empty leaf was already made. */
  lemma CreateIgnoresEmptyLeaf(o: Options, st: State, r: Request)
    requires o.Valid()
    ensures var k := KeyOf(o, r.tokens);
            Create(o, st.(leaves := st.leaves[k := LeafIds(st, k)]), r) == Create(o, st, r)
  {
  }

  lemma InsertIgnoresEmptyLeaf(o: Options, st: State, b: Body)
    requires o.Valid()
    ensures var k := KeyOf(o, b.tokens);
            InsertExisting(o, st.(leaves := st.leaves[k := LeafIds(st, k)]), b) == InsertExisting(o, st, b)
  {
  }
}
