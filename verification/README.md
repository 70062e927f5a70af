# logdrain: a verified model

logdrain groups log lines into clusters. Each cluster has a *template*, a token vector in which a wildcard stands for
the positions where its lines differ. A line is tokenized, its first tokens choose a leaf of a prefix tree, and the most
similar cluster of that leaf takes the line if it reaches a threshold; otherwise a new cluster is created, evicting the
least recently used one of a full leaf. Many threads may add, query and take snapshots at once.

The project models this in three layers, each tied to the next by proof.

* **Values.** `Tokenizer`, `Rendering`, `Options`, `Templates`, `Index`, `Snapshots` and `Records` define what each
  operation computes. `IndexInvariant`, `IndexQueries`, `Observations` and `Runs` prove what users rely on. The invariant at the centre:
  a cluster is filed under the descent keys of its *stored* template, however often that template has been
  generalized since. Queries, eviction and restore are correct because of it.
* **Objects.** `Cluster`, `Tree` and `Miner` are the mutable objects of the program: cluster bodies, leaf buckets,
  shards and the miner, with loops and updates in place. Each method is proved equal to the value operation it carries out.
* **Concurrent steps.** `Protocol` is a state machine whose steps are the lock-sized steps of concurrent `add`,
  `match_only` and `snapshot`, with the locks themselves (shard map, shard, id-map bucket, body) explicit. `ProtocolLocks`
  proves mutual exclusion and freedom from deadlock; `ProtocolIndex` proves the invariant of all interleavings in
  rely/guarantee style (what a step may do to the others, what an operation's knowledge survives); `ProtocolSafety`,
  `ProtocolCreation`, `ProtocolHistory`, `ProtocolTotals`, `ProtocolEviction`, `ProtocolSnapshots` and
  `ProtocolObservations` draw the results; `ProtocolSequential` proves that an add which runs alone takes exactly the
  step of the value layer, `ProtocolProgress` that operations end, and `ProtocolEvictedMatch` holds an example run.

`Records` is separate: the record splitters of the command-line program.

## How the code is read

* Similarity is a real number, so comparing two scores of one leaf compares match counts. Counters, ticks and sizes are
  unbounded naturals; atomics are sequentially consistent.
* Masks are an arbitrary pure function on the line, a field of `Options`.
* In `Protocol`, the recency a touch stores, the victim of a full leaf and the walk of a snapshot over the id map are left
  open, so every outcome of the racing recency stores is covered. A body outlives its entry in the id map, because
  an operation may still hold it; `bodies` holds every body ever made and `live` is the id map.
* The comment at `crates/logdrain/src/miner.rs:176-177` (a re-scan match cannot vanish) holds only while the shard's write
  lock is held. After `drop(guard)` the cluster may be evicted before `apply_match` runs; the line is then counted on a body
  that is no longer live, and its id is returned all the same. `ProtocolEvictedMatch.EvictedClusterIsReturned` is such a
  run. `ProtocolEviction.EvictionsOfALeaf` says exactly when it can happen: a leaf has lost a cluster if and only if
  more clusters were ever in it (those it started with and those created) than its cap, and what goes beyond the cap is
  what has been evicted. Up to the cap every returned id is live (`ProtocolEviction.ReturnedIdsAreLive`). The coverage
  results speak of bodies, so they hold for an evicted cluster too.
* The comment at `crates/logdrain/src/cluster.rs:32-34` calls eviction order precise. It is, in every sequential run from
  an empty miner (`Runs.ExactLru`); when adds race, `last_used` is a plain store (`crates/logdrain/src/cluster.rs:95`), so a
  later store may carry an earlier tick. After a restore into a miner whose clock stands at 0 it is not: the first touch
  stores tick 0, which is also the recency of untouched restored clusters. `Runs.LruAfterRestore` gives the exact
  condition, in terms of the clock, the history of touches and the leaf's order, and `Runs.UsedClusterGoesFirst` an example.
* `insert_existing` assumes that ids do not repeat (`crates/logdrain/src/miner.rs:359-360`), which `restore` does not check.
  `Snapshots.RestoreIsSoundExactly` proves that, within the caps, this and ids within the counter is just what is needed.
* `--multiline-start` does not preserve all input lines: an empty record in progress counts as none, so a blank first
  line, and any blank line the start pattern matches, is dropped. `Records.MultilineJoinsBack` gives the exact
  condition and `Records.BlankFirstLineIsLost` an example.

## Model

| member | source | states |
|---|---|---|
| `Tokenizer.PushPathTokens` | crates/logdrain/src/tokenize.rs:64-98 | the loop with `cur_leading` and `seg_start` appends exactly the path tokens of the piece |
| `Tokenizer.PathTokensAreTheRuns` | crates/logdrain/src/tokenize.rs:61-98 | the i-th token is the i-th maximal delimiter-free run of the piece from the left, each run exactly once, with the delimiters right beside it as flags |
| `Tokenizer.SegmentsOfDelimiters` | crates/logdrain/src/tokenize.rs:90-97 | a piece yields no run exactly when it is all delimiters, which is when it is kept verbatim |
| `Tokenizer.TokenizeWith` | crates/logdrain/src/tokenize.rs:53-59 | the loop over whitespace pieces computes the tokenization of the line, which is the tokens of piece 0, then of piece 1, and so on |
| `Tokenizer.SplitFirstPiece` | crates/logdrain/src/tokenize.rs:55-57 | a whitespace-free stretch at the start of a line is its first piece and the rest is split alike |
| `Tokenizer.PiecesAreTheWords` | crates/logdrain/src/tokenize.rs:55-57 | the pieces of a line are all its maximal whitespace-free stretches, from left to right |
| `Tokenizer.DelimitersAreKept` | crates/logdrain/src/tokenize.rs:90-97 | a piece of delimiters only is kept whole in one token without flags |
| `Tokenizer.SplitFirstLine` | crates/logdrain/src/tokenize.rs:100-106 | the first line has no newline, and putting the newline and suffix back gives the line |
| `Rendering.TokenizeWellFormed` | crates/logdrain/src/tokenize.rs:61-98 | every token is a non-empty whitespace-free text without delimiters, or an all-delimiter text without flags |
| `Rendering.RereadRendering` | crates/logdrain/src/cluster.rs:126-153 | what the tokenizer reads back from a printed template, token by token, for every well-formed template |
| `Rendering.TemplateRoundTrip` | crates/logdrain/src/cluster.rs:126-153 | texts survive printing and re-reading if and only if no all-delimiter token is glued to the token before it; printing is then a fixed point |
| `Rendering.LineTextsRoundTrip` | crates/logdrain/src/tokenize.rs:53-98 | the same for every line, in terms of its pieces |
| `Rendering.RenderTokenizeIdentity` | crates/logdrain/src/cluster.rs:126-153 | a line is its own rendering if and only if it is single-spaced and its pieces are ones printing gives back |
| `Templates.ComputeSimilarity` | crates/logdrain/src/similarity.rs:9-23 | 0 for differing lengths, 1 for two empty vectors, otherwise the number of positions that hold the wildcard or the line's text, wherever they stand, over the length |
| `Templates.SimilarityRange` | crates/logdrain/src/similarity.rs:7-23 | similarity lies in [0, 1] and, for equal lengths, is 1 exactly when every position is the wildcard or equal |
| `Templates.SimilarityMonotone` | crates/logdrain/src/similarity.rs:16-22 | generalizing a template never lowers its similarity to any line |
| `Templates.GeneralizeIsMoreGeneral` | crates/logdrain/src/cluster.rs:110-117 | generalization only introduces wildcards and covers the line; `would_generalize` holds exactly when it changes something, which is exactly when the line was not covered |
| `Templates.GeneralizeKeepsKey` | crates/logdrain/src/cluster.rs:159-174 | generalizing against a line of the same leaf leaves the template's own descent keys unchanged, numeric texts and literal wildcards included |
| `Templates.CoversMonotone` | crates/logdrain/src/cluster.rs:155-174 | a covered line stays covered under generalization |
| `Templates.NonWildDecreases` | crates/logdrain/src/cluster.rs:159-174 | every change strictly reduces the non-wildcard positions |
| `Templates.NonWildAtLeastKeys` | crates/logdrain/src/miner.rs:90-101 | a template keeps at least as many non-wildcard positions as its leaf path has non-wildcard keys |
| `Options.LeafIsShared` | crates/logdrain/src/miner.rs:90-101 | two lines share a leaf if and only if they have equally many tokens and, in each of the first `depth - 2`, equal texts or texts that both read as the wildcard |
| `Templates.FoldIsLeastGeneral` | crates/logdrain/src/cluster.rs:155-174 | generalizing over lines one after the other gives the common text where all agree and the wildcard where two differ, with the creator's flags |
| `Index.BestIsAmong` | crates/logdrain/src/miner.rs:216-234 | the best match is a live id of the leaf with its own similarity |
| `IndexInvariant.SwapRemoveContents` | crates/logdrain/src/tree.rs:42-47 | removal by swapping takes out exactly that id and keeps the ids distinct |
| `IndexInvariant.MatchedKeepsKey` | crates/logdrain/src/miner.rs:239-274 | a match leaves the cluster under its leaf's key |
| `IndexInvariant.EvictMakesRoom` | crates/logdrain/src/miner.rs:276-292 | after eviction the leaf is below its cap, and nothing but the victim is gone |
| `IndexInvariant.FileKeepsInv` | crates/logdrain/src/miner.rs:204-206 | filing a fresh cluster under its own key restores the invariant |
| `IndexInvariant.CreateKeepsInv` | crates/logdrain/src/miner.rs:190-211 | creation draws a fresh id, never evicts the cluster being created, and keeps the invariant |
| `IndexInvariant.AddKeepsInv` | crates/logdrain/src/miner.rs:151-211 | every add keeps the invariant: leaves partition the live clusters by the descent keys of their stored templates |
| `IndexInvariant.AddHasEffect` | crates/logdrain/src/miner.rs:151-211 | an add changes one body only: a new one of size 1, or one more hit and the generalized template |
| `IndexInvariant.AddKeepsWellFormed` | crates/logdrain/src/cluster.rs:159-174 | stored templates keep the shape of tokenized lines |
| `IndexQueries.BestMatchIsFirstBest` | crates/logdrain/src/miner.rs:216-234 | the leaf scan finds the first cluster, in leaf order, of maximal similarity among those with a body |
| `IndexQueries.IndexRefinesLinearScan` | crates/logdrain/src/miner.rs:308-319 | a query answers as a linear scan over all live clusters of the line's key: something if and only if one reaches the threshold, then one of maximal similarity |
| `IndexQueries.AddTakesTheFirstBest` | crates/logdrain/src/miner.rs:160-210 | an add creates if and only if no candidate reaches the threshold, whether or not the leaf is full; otherwise it takes the cluster a query would have answered, the first in leaf order of maximal similarity, and reports a change exactly when that template did not cover the line |
| `IndexQueries.CreatedBody` | crates/logdrain/src/miner.rs:190-206 | a created cluster has the line's tokens, size 1, event and label, and as suffix the text after the first newline of the masked line, in first-line mode only |
| `IndexQueries.AddLeavesInOrder` | crates/logdrain/src/tree.rs:38-47 | the exact order an add leaves: a match moves nothing; a creation puts the new id last and, in a full leaf, the last id in the victim's place |
| `IndexQueries.AddThenQuery` | crates/logdrain/src/miner.rs:308-337 | from every state: after an add the query answers the assigned cluster, adding again changes no template, and the extracted parameters fill the template back to the line |
| `IndexQueries.FillInParams` | crates/logdrain/src/miner.rs:323-337 | for a covered line the extracted parameters, filled into the wildcard positions, give the line's texts |
| `IndexQueries.ExtractGivesTheTexts` | crates/logdrain/src/miner.rs:323-337 | in every sound state an extraction has the query's cluster and the line's texts at exactly its wildcard positions, whether or not the line is covered |
| `IndexQueries.TemplateFindsItself` | crates/logdrain/src/miner.rs:308-319 | querying with the printed template of any live cluster finds a cluster at similarity 1 |
| `Snapshots.RestoreEstablishesInv` | crates/logdrain/src/miner.rs:430-460 | restoring any snapshot with distinct ids within its counter gives a sound index, under any options and caps, whose next id is fresh |
| `Snapshots.RestoreIsSoundExactly` | crates/logdrain/src/miner.rs:430-460 | for every snapshot that gives no leaf more records than its cap, the restored index is sound if and only if the ids are distinct, positive and within the counter |
| `Snapshots.NothingToEvict` | crates/logdrain/src/miner.rs:361-386 | replaying a miner's own clusters never meets a full leaf |
| `Snapshots.RestoreRebuilds` | crates/logdrain/src/miner.rs:389-460 | snapshot then restore under equal options gives the same leaves with the same clusters and equal bodies up to recency |
| `Snapshots.RestoredQueriesAgree` | crates/logdrain/src/miner.rs:308-319 | the restored miner answers every query alike, with the same best similarity, and the same id when the maximum is unique |
| `Snapshots.UpgradeKeepsFields` | crates/logdrain/src/snapshot.rs:70-87 | the counter and each record's id, tokens, size, suffix and members survive the upgrade; the event window is unset |
| `Snapshots.UpgradeBuildsTheSameTree` | crates/logdrain/src/snapshot.rs:72-95 | an upgraded version 2 snapshot restores to the same tree and bodies as any version 3 snapshot with the same ids, templates, sizes, suffixes and members, with the event window unset |
| `Runs.Run` | crates/logdrain/src/miner.rs:151-211 | every state reachable by adds and restores satisfies the invariant |
| `Runs.ReachableStatesAnswer` | crates/logdrain/src/miner.rs:308-337 | in every reachable state: a query answers if and only if a candidate reaches the threshold, then with one of maximal similarity; after an add the query answers the assigned cluster, a second add changes nothing, and the parameters fill the template back to the line |
| `Runs.RecencyAndSize` | crates/logdrain/src/cluster.rs:92-96 | over any run, recency is the position of a cluster's latest create-or-match in the whole history and size is the number of its lines |
| `Runs.VictimIsLeast` | crates/logdrain/src/miner.rs:278-292 | the victim is the first cluster, in leaf order, of least recency |
| `Runs.WhoIsEvicted` | crates/logdrain/src/miner.rs:200-206 | an add evicts exactly when it creates in a full leaf, and then exactly the victim |
| `Runs.ExactLru` | crates/logdrain/src/miner.rs:276-292 | in every sequential run from an empty miner the evicted cluster is the one of its leaf whose latest use is earliest in the history; never the new one |
| `Runs.LruAfterRestore` | crates/logdrain/src/miner.rs:451 | after a restore and any adds the evicted cluster is not the oldest of its leaf if and only if the clock stood at 0, some cluster of the leaf is unused, and the cluster of the first line, not used again, stands before every unused one in leaf order |
| `Runs.UsedClusterGoesFirst` | crates/logdrain/src/miner.rs:451 | a concrete run where a used cluster is evicted before an unused one |
| `Runs.TemplatesAreLeastGeneral` | crates/logdrain/src/cluster.rs:155-174 | over any run each template is the least general one of the lines assigned to it |
| `Runs.ClustersRemember` | crates/logdrain/src/cluster.rs:98-124 | over any run of adds each cluster's window is the minimum and maximum of the events of its lines, and its members are their labels, each once |
| `Observations.MatchObserves` | crates/logdrain/src/miner.rs:247-264 | a match widens the window by exactly its event and records exactly its label |
| `Runs.ReachableTemplateFindsItself` | crates/logdrain/tests/properties.rs:80-90 | the template round trip through the index in every reachable state |
| `Cluster.ClusterInner.constructor` | crates/logdrain/src/cluster.rs:64-87 | a fresh body of size 1 with the event window of its line |
| `Cluster.ClusterInner.FromRecord` | crates/logdrain/src/miner.rs:444-456 | a restored body has every field of its record and recency 0 |
| `Cluster.ClusterInner.Touch` | crates/logdrain/src/cluster.rs:92-96 | one more hit, and the recency given; nothing else changes |
| `Cluster.ClusterInner.ObserveEvent` | crates/logdrain/src/cluster.rs:100-103 | the event window becomes the minimum and maximum |
| `Cluster.ClusterInner.AddMember` | crates/logdrain/src/cluster.rs:120-124 | a new label is appended, a known one is not |
| `Cluster.ClusterInner.GeneralizeTo` | crates/logdrain/src/cluster.rs:159-174 | exactly the texts that differ from the line's become the wildcard, flags kept; a change is reported exactly when `would_generalize` held, and the line is covered |
| `Cluster.ClusterInner.Hit` | crates/logdrain/src/miner.rs:239-274 | both sections of a match together: one more hit, the recency, the label appended if new, the differing texts generalized |
| `Cluster.ClusterInner.RenderTemplate` | crates/logdrain/src/cluster.rs:131-153 | the printing loop with `prev_trailing` computes the rendering |
| `Tree.LeafBucket.Insert` | crates/logdrain/src/tree.rs:38-40 | the id is appended |
| `Tree.LeafBucket.Remove` | crates/logdrain/src/tree.rs:43-47 | the first occurrence is removed, the last id takes its place and all others keep theirs |
| `Tree.PlantKeepsShape` | crates/logdrain/src/tree.rs:71-104 | trees keep uniform height, so neither `unreachable!` is reached and becoming a leaf discards no children |
| `Tree.PlantResolves` | crates/logdrain/src/tree.rs:71-119 | afterwards the path leads to the leaf and every other path of that length resolves as before |
| `Tree.DescendOrCreate` | crates/logdrain/src/tree.rs:71-104 | returns the leaf that was there, leaving the tree alone, or a fresh empty one planted at the path |
| `Miner.Miner.constructor` | crates/logdrain/src/miner.rs:57-65 | an empty valid miner |
| `Miner.Miner.Preprocess` | crates/logdrain/src/miner.rs:152-158 | what is tokenized is the masked line, or in first-line mode its part before the first newline, the suffix being the part after; the first-line delimiters apply in that mode unless there are none |
| `Miner.Miner.ComputeDescentKeys` | crates/logdrain/src/miner.rs:90-101 | there are `depth - 2` keys, or as many as tokens if fewer; a key is the wildcard exactly when parametrization is on and the text is non-empty and all ASCII digits, otherwise the text |
| `Miner.Miner.ShardFor` | crates/logdrain/src/miner.rs:104-116 | finds or makes the shard of a token count, changing no leaf |
| `Miner.Miner.BestIn` | crates/logdrain/src/miner.rs:216-234 | the scan loop computes the best match |
| `Miner.Miner.ApplyMatch` | crates/logdrain/src/miner.rs:239-274 | exactly the matched body changes, and the tick advances |
| `Miner.Miner.LeastRecent` | crates/logdrain/src/miner.rs:282-287 | the minimum search finds the victim, an absent body counting as recency 0 |
| `Miner.Miner.MakeRoom` | crates/logdrain/src/miner.rs:278-292 | eviction in place equals eviction on the state |
| `Miner.Miner.MatchOrCreate` | crates/logdrain/src/miner.rs:178-210 | phase 2 leads to the state and result of the sequential add |
| `Miner.Miner.AddInner` | crates/logdrain/src/miner.rs:151-211 | an add in place has exactly the state and result of the add on values, and the miner stays valid |
| `Miner.Miner.FindMatch` | crates/logdrain/src/miner.rs:308-319 | `match_only` changes nothing and answers the query on values |
| `Miner.Miner.ExtractParams` | crates/logdrain/src/miner.rs:323-337 | `extract` changes nothing, answers whenever the query does, and for covered and uncovered lines alike returns the line's texts at exactly the template's wildcard positions, in order |
| `Miner.Miner.TakeSnapshot` | crates/logdrain/src/miner.rs:389-421 | lists every live cluster once, with all its fields but the recency, and the counter |
| `Miner.Miner.AddExisting` | crates/logdrain/src/miner.rs:361-386 | files a restored body under the key of its stored template, making room first |
| `Miner.Miner.RestoreFrom` | crates/logdrain/src/miner.rs:430-460 | clearing and replaying any snapshot in place gives the restored state, and the miner is valid when the snapshot's ids are distinct and within its counter |
| `Records.FindSub` | crates/logdrain-cli/src/main.rs:120-122 | the first occurrence, or none |
| `Records.FindSubAppend` | crates/logdrain-cli/src/main.rs:287-291 | what is found in a buffer stays the first occurrence when more bytes arrive |
| `Records.PiecesAreTheLeftmostSplit` | crates/logdrain-cli/src/main.rs:276-278 | the pieces are the one and only leftmost non-overlapping split that joins back to the stream |
| `Records.PiecesResume` | crates/logdrain-cli/src/main.rs:282-292 | splitting may resume from the unfinished piece when more bytes arrive |
| `Records.RecordsJoinBack` | crates/logdrain-cli/src/main.rs:293-295 | joining the records gives the stream; only a separator at its very end is not between records |
| `Records.RecordsAreTheSplit` | crates/logdrain-cli/src/main.rs:276-296 | the records of a stream are its leftmost split, the last one non-empty, or that split without its empty last piece |
| `Records.DrainRecords` | crates/logdrain-cli/src/main.rs:288-291 | the drain loop cuts off exactly the complete records of the buffer |
| `Records.IngestSeparated` | crates/logdrain-cli/src/main.rs:279-297 | for every way of reading a stream in chunks the records fed are the leftmost split of the bytes delivered, less its last piece when that is empty and only then; on an I/O error, the pieces completed before it |
| `Records.SameBytesSameRecords` | crates/logdrain-cli/src/main.rs:279-297 | two readings that deliver the same bytes feed the same records, however they are cut into chunks |
| `Records.IngestMultilineStart` | crates/logdrain-cli/src/main.rs:254-274 | the loop assembles the records line by line; each begins with a line that is not blank and is those lines up to the next one the pattern matches, or the end, and only blank lines are in none |
| `Records.MultilineJoinsBack` | crates/logdrain-cli/src/main.rs:254-256 | the records give the input back, line breaks included, if and only if the first line is not blank and no blank line matches the start pattern, or the input is one blank line |
| `Records.BlankFirstLineIsLost` | crates/logdrain-cli/src/main.rs:265-268 | a concrete input of which a line is lost |
| `ProtocolLocks.AdvanceHolds` | crates/logdrain/src/miner.rs:164-292 | a step acquires at most the lock the operation was waiting for |
| `ProtocolLocks.MoveKeepsExclusion` | crates/logdrain/src/miner.rs:164-292 | locks held by different operations never conflict |
| `ProtocolLocks.LocksAreOrdered` | crates/logdrain/src/miner.rs:164-292 | an operation only waits for a lock above all it holds, in the order shard map, shard, id-map bucket, body |
| `ProtocolLocks.SomeoneCanProceed` | crates/logdrain/src/miner.rs:164-292 | while an operation is unfinished, some operation needs no lock or finds it free, even with writers preferred |
| `ProtocolIndex.EffectGrows` | crates/logdrain/src/miner.rs:239-274 | every step leaves each body under its key and at most more general |
| `ProtocolIndex.EffectKeeps` | crates/logdrain/src/miner.rs:176-206 | a step changes a shard's leaves and live ids only with that shard held exclusively |
| `ProtocolIndex.OpStable` | crates/logdrain/src/miner.rs:164-274 | what an operation knows at its point survives every step of the others |
| `ProtocolIndex.AdvanceOk` | crates/logdrain/src/miner.rs:151-292 | each step establishes the facts of the point it leads to |
| `ProtocolIndex.EffectMemoryOk` | crates/logdrain/src/miner.rs:176-292 | each step keeps leaves, bodies and the id map in order |
| `ProtocolIndex.StepAccountsFor` | crates/logdrain/src/miner.rs:200-206 | a live cluster is always in its leaf or in the hands of the operation that files or drops it |
| `ProtocolIndex.MoveKeepsInv` | crates/logdrain/src/miner.rs:151-319 | every step of every operation keeps the invariant of the interleaving |
| `ProtocolSafety.BehaviorKeepsInv` | crates/logdrain/src/miner.rs:151-319 | the invariant holds in every state of every interleaving |
| `ProtocolSafety.AssignedLinesStayCovered` | crates/logdrain/src/miner.rs:239-274 | when an add returns, the body it was assigned to covers its line, and does so for the rest of the run |
| `ProtocolSafety.EveryFreeShardIsCoherent` | crates/logdrain/src/miner.rs:176-210 | whenever a shard's write lock is free its leaves and the id map agree, in both directions |
| `ProtocolSafety.LeavesAlwaysFit` | crates/logdrain/src/miner.rs:278-292 | at every moment no leaf exceeds its cap, names a cluster twice or shares one with another leaf |
| `ProtocolSafety.CreatedIdsAreDistinct` | crates/logdrain/src/miner.rs:191 | created ids are distinct and within the counter |
| `ProtocolSafety.QuietStateIsSound` | crates/logdrain/src/miner.rs:151-319 | with no add in flight the miner satisfies the invariant of the sequential index, whatever interleaving led there |
| `ProtocolSafety.NoDeadlock` | crates/logdrain/src/miner.rs:164-292 | in every reachable state with an operation unfinished, some operation can take its next step |
| `ProtocolSafety.RacingSnapshotRestores` | crates/logdrain/src/miner.rs:389-421 | a snapshot taken while adds run has distinct ids within its counter, so restoring it is sound and never reissues a captured id |
| `ProtocolSnapshots.CapturedWasLive` | crates/logdrain/src/miner.rs:389-421 | each record of a snapshot taken while adds run is, in every field, that of a cluster as it was, live, at some moment of the run, and the counter is that of some moment of the run |
| `ProtocolSafety.SeenWasTheLeaf` | crates/logdrain/src/miner.rs:164-183 | what an operation remembers of its leaf is the leaf when it last took the shard, exclusively if it goes on to create |
| `ProtocolSafety.AnswersAreConclusive` | crates/logdrain/src/miner.rs:308-319 | a racing query answers nothing only if every cluster of the leaf was below threshold when it took the shard, and otherwise one at threshold that scores at least as high as each did then |
| `ProtocolSafety.CreationsAreJustified` | crates/logdrain/src/miner.rs:176-210 | a cluster is created only if every cluster of the leaf was below threshold when the add took the shard exclusively |
| `ProtocolCreation.NewcomerSees` | crates/logdrain/src/miner.rs:178-188 | whoever takes the shard exclusively sees every cluster filed before, unless it is evicted |
| `ProtocolCreation.NoDuplicateCreation` | crates/logdrain/src/miner.rs:176-210 | two adds of one line never both create, unless one of the two clusters has been evicted |
| `ProtocolHistory.StepDiffers` | crates/logdrain/src/miner.rs:261-262 | a template position changes only by an operation counted on the cluster whose line differs there |
| `ProtocolHistory.StepPays` | crates/logdrain/src/miner.rs:261-273 | a reported change leaves strictly fewer non-wildcard positions |
| `ProtocolHistory.BehaviorKeepsHistory` | crates/logdrain/src/miner.rs:191-273 | in every state sizes, makers, changed positions and reported changes are accounted for by operations of the run |
| `ProtocolTotals.CountsAreConserved` | crates/logdrain/src/miner.rs:191-249 | the sizes of all bodies ever made are the initial sizes and one for each add past its touch or creation step |
| `ProtocolTotals.LiveSizesCountTheAdds` | crates/logdrain/tests/concurrency.rs:41-50 | with no add in flight and nothing evicted, the live sizes are the initial sizes and one for each add |
| `ProtocolTotals.LiveClustersAreConserved` | crates/logdrain/src/miner.rs:190-206 | with no add in flight, live clusters are the initial and the created ones less the evicted |
| `ProtocolTotals.QuietTemplatesAreLeastGeneral` | crates/logdrain/src/cluster.rs:155-174 | with no add in flight, every template is the least general one of its lines, whatever order the generalizations ran in, with the creating line's flags |
| `ProtocolTotals.ChurnIsBounded` | crates/logdrain/src/miner.rs:261-273 | the adds that report a changed template of a cluster number at most its token count less the non-wildcard keys of its path |
| `ProtocolTotals.OneLineOneCluster` | crates/logdrain/src/miner.rs:176-210 | any number of concurrent adds of one line to an empty miner create exactly one cluster and evict nothing; all are assigned to it and its size is their number |
| `ProtocolSequential.LoneAddIsSequential` | crates/logdrain/src/miner.rs:151-211 | an add that runs alone returns the result and leaves the state of the sequential add |
| `ProtocolProgress.OwnStepsDescend` | crates/logdrain/src/miner.rs:151-319 | each step of an add or a query descends in a well-founded order, whatever the others do in between |
| `ProtocolProgress.LoneAddReturns` | crates/logdrain/src/miner.rs:151-211 | from every sound state there is a run in which an add returns the result of the sequential add and leaves its state |
| `ProtocolEviction.EvictionsOfALeaf` | crates/logdrain/src/miner.rs:278-292 | in every interleaving, whenever the shard's write lock is free, a leaf holds the smaller of its cap and the number of clusters ever in it, and exactly the excess has been evicted; every body of the leaf is live if and only if there is no excess |
| `ProtocolEviction.ReturnedIdsAreLive` | crates/logdrain/src/miner.rs:183-188 | while no more clusters were ever in a leaf than its cap, every id an add to it has returned is live |
| `ProtocolEviction.OneCreationPerLine` | crates/logdrain/src/miner.rs:176-210 | under the same guard two adds of one line never both create |
| `ProtocolEvictedMatch.EvictedClusterIsReturned` | crates/logdrain/src/miner.rs:176-188 | a concrete run, with a leaf cap of 1, in which an add returns the id of a cluster evicted after the add released its shard |
| `ProtocolObservations.BodiesRemember` | crates/logdrain/src/cluster.rs:98-124 | in every state of every interleaving each body's window is the minimum and maximum of the events counted on it and its members are the labels recorded on it, each once, whatever the order |

## Left out

- Snapshots.RestoreEstablishesInv: requires distinct ids within the counter, without which it is false (`Snapshots.RestoreIsSoundExactly`); for a snapshot that gives a leaf more records than its cap only this direction is proved, since an evicted record may take a repeated id with it.
- Miner.Miner.RestoreFrom: of a snapshot that repeats an id it promises the state that results, not a valid miner.
- Miner.Miner.AddInner: the class is called from one thread; locks and interleavings are in `Protocol`, on values.
- Tree.DescendOrCreate: a node is a value, so the updated path is returned and put back instead of being updated in place; no aliasing of nodes exists in the source either, since a node is owned by its parent. Buckets are objects.
- ProtocolSafety.NoDeadlock: says that some operation can step, and `ProtocolProgress.OwnStepsDescend` that adds and queries run out of steps; that a particular one is ever scheduled, and that a snapshot ends its walk, is not modelled.
- ProtocolSnapshots.CapturedWasLive: that a snapshot taken while adds run misses no cluster that stays live throughout is not stated, since the walk of the concurrent map is left open; `Miner.Miner.TakeSnapshot` states it for a miner at rest.
- The order of evictions under races: the recency a touch stores is left open.
- Regex masks: an arbitrary pure function stands for them, because the regular expressions are not visible.
- `f64` rounding of similarity and of the threshold comparison: scores are real numbers.
- Widths: `u64` counters, ticks and sizes and `usize` lengths do not wrap.
- Wall-clock fields (`created_at`, `updated_at_ms`) and the rates computed from them: observational only.
- Snapshot bytes: the header check in `decode`, bincode payloads and the options field carried for self-description.
- `restore` racing with `add`: it clears the two maps in separate steps with no global lock, so it is modelled with no operation in flight.
- Memory ordering, hash functions and the number of buckets of the concurrent maps: atomics are sequentially consistent, the shard map is one lock (taken shared, then exclusively only to insert) and an id's bucket is any function of the id.
- `extract`, `cluster`, `clusters` and `len` under concurrency: `extract` is a query followed by one body read.
- Persistence backends, the builder, command-line parsing, field extraction, timestamps and output formatting.
- Line reading in `ingest_reader` and decoding of bytes to text: the splitter's records are byte sequences, and `--multiline-start` starts from lines.
