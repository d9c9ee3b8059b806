# Batched dynamic subgraph matching: a verified model

CGBDSM answers continuous subgraph matching over a stream of edge insertions. A CPU index (CaLiG) keeps, for every
data vertex and query vertex, one bit and a set of candidates per query neighbour. After each batch the entries over
new edges are staged beside the main lists of the index, and one search per query edge, run as breadth-first passes
of GPU warps and a final count on GPU and CPU, reports the matches that the batch has created. This project models
that pipeline and the data structures below it, and proves the properties they are there for.

The chain of main results, from the index to the number that is printed:

1. *Nothing is lost.* `CaligFilter` is the index with its worklists; `CaligIndex` and `CaligRounds` hold its
   invariant. Entries are erased from one side only, so the invariant carries a ghost time at which each pair went off:
   a missing entry points at a pair that went off earlier than its owner. Hence no embedding is filtered out, in the
   initial graph and after every batch (`StaticFilter`, `UpdateIndex`). Both loops end, and between batches no on pair
   has an off or an empty set of candidates. `CaligGroups` describes whole runs of rounds, with the checks of label
   groups: an on pair is supported if it has at most one such group, and `CaligExample` is a run that leaves an on pair
   with two groups unsupported.
2. *Every new match once.* `MatchSearch` is the reference search. `ExactlyOnce` proves that the searches of all query
   edges, each over its own choice of main and update lists, report together the matches over both stages minus those
   over the main stage. `Batches` joins this with the index: the number reported is that of the embeddings which use
   an edge of the batch.
3. *The fast forms are the search.* `CpuDfs` (recursive), `WarpSpec` and `Warp` (the stack machine with 32-wide
   compaction and rescans) and `Cartesian` (mixed-radix decoding over prefix sums) are each proved against the reference
   search; the warp lists the same rows in the same order.
4. *Passes do not matter.* `Frontier`, `InitialRows`, `Ring` and `Matching` follow a batch through the ring buffer:
   the reported number does not depend on where passes stop, on overflow, on the wrap, or on the CPU/GPU split.
5. *The plan is good.* `BreadthFirst`, `QueryPaths`, `RebuildFlags` and `Planner` show that the indexing orders are the
   breadth-first ones, that the generated orders are what the searches need, that the hand-written backtracking marks
   exactly the edges on simple paths, and that the branch "Error in order generation" cannot be reached.
6. *The engine.* `CaligLogs`, `Staging` and `Stages` follow the logs of the filter into the packed edges and the main and
   update lists, which keep entries of pairs that have gone off. `Engine` runs both stages of `main` in any
   interleaving, on the filter, the plan (`Loading`), the lists and the matching of the other modules. `Pipeline.Run`
   states the number that is printed: the number of embeddings in the final graph that are not embeddings in the first
   one plus, for each batch, the number of those before it that use an edge which the batch gives again (`Runs.Again`).
   So it is the number of new embeddings exactly when no batch gives an edge that an embedding in the graph before it
   uses (`Runs.NeverAgain`), for one when all edges of the stream are new; `Runs.OneAgain` is an input where it is not.

Below this pipeline: `RobinHood` (hash table), `GpmaMath` and `Gpma` (packed memory array), `WorkStealing` and
`StealProgress` (chunk protocol between warps, over all interleavings: safety, and that all warps can leave), `Bucket`
and `KCore` (core numbers by peeling), `EdgeLists` and `Mirror` (CPU copy of the staged index).

Code that updates state is written as classes and loops with the source's fields; the functions they are proved
against and the lemmas about these are beside them; `dafny verify dfyconfig.toml` checks them all. A `parallel_for` is
one phase whose tasks run in any order; the phases follow each other.

What the engine asks for: a connected simple query of at least three vertices and at most 16 edges, data vertices
below 2^27, a data graph without loops, and batches in which no pair occurs twice, in either direction, and no pair is a
loop. The code writes the first frontier of a batch without a look at the room in the ring, of 2^30 words
(kernels/enumeration.cu:727-809, utils/config.h:20). Nothing is said of the number if a first frontier is larger;
`Pipeline.Run` tells the most words that the first frontier of one of its batches has taken and bounds them by twice the
number of query edges times that of the directed edges of the final graph (`InitialRows.InitialBound`), so a ring of
this size is always large enough.

Where comment and code differ the model follows the code. The comment at index/cpu_dfs.h:21-29 says that the CPU count
does not consult the support masks and matches the GPU "bit-for-bit"; the code does consult them when they are there
(index/cpu_dfs.cpp:92-115), and the counts agree because a mask that covers all matches is invisible. The
repository's README.md:96 says that the batch size counts updates; the code counts vertex numbers, two per update
(main_calig.cpp:220-222, index/calig.cpp:971-976), so an odd size tears pairs apart (`Streams.BatchesAreTheStream`).
utils/config.h:6 admits 42 query edges, but a packed edge has five bits for the directed query edge
(index/calig_helper_gamma.cu:382), so that 16 are the most that fit (`EdgeLists.EncodeRoundTrip`).
`GetFree` (utils/mem_pool.h:66-69) reports 0 for an empty ring.

## Model

| member | source | states |
|---|---|---|
| CaligIndex.NoEmbeddingLost | index/calig.cpp:705-717 | under the filter invariant every embedding of the query in the current graph is retained: all its pairs are on and each of its edges is in both candidate sets |
| CaligIndex.FirstOffIsSupported | index/calig.cpp:385-408 | the pair of an embedding that went off first still sees all the other vertices of the embedding, so its neighbour check would succeed |
| CaligIndex.EmbeddingSupports | index/calig.cpp:385-408 | the images of the query neighbours under an embedding are distinct representatives for its pair |
| CaligRounds.SweepEstablishes | index/calig.cpp:499-516 | one sweep of neighbour checks over the freshly built index establishes the filter invariant, with what went off as the first delete queue |
| CaligRounds.DelKeepsOrder | index/calig.cpp:410-439 | after the one-sided erasures of a delete round, a missing entry still points at a pair that is off and went off before its owner |
| CaligRounds.DelStepKeeps | index/calig.cpp:410-475 | a delete round keeps the whole filter invariant, with what it turned off as the queue of the next round |
| CaligRounds.TurnOnKeeps | index/calig.cpp:640-693 | inserting the edges of a batch turns the invariant between batches into the invariant of the add loop over the grown graph |
| CaligRounds.AddStepKeeps | index/calig.cpp:536-638 | an add round keeps the invariant of the add loop: one direction of every entry is present, and an entry is missing only towards an off or queued pair |
| CaligRounds.AddToDel | index/calig.cpp:695-703 | when the add queue is empty, the failed pairs that are still off are exactly a sound queue for the delete loop |
| CaligRounds.SupportMonotone | index/calig.cpp:385-408 | a pair that passes the neighbour check still passes it with more candidates |
| CaligCheck.RepresentableCons | index/calig.cpp:371-381 | distinct representatives for a list exist iff some unused candidate of its head leaves representatives for the rest |
| CaligCheck.SupportedGroup | index/calig.cpp:400-406 | a supported pair has distinct representatives within every same-label group |
| CaligCheck.GroupsSupport | index/calig.cpp:394-407 | non-empty candidate sets and representatives for each same-label group give distinct representatives for all query neighbours at once |
| CaligCheck.EmptyRefutes | index/calig.cpp:394-399 | a pair with an empty candidate set fails the neighbour check |
| CaligFilter.CaLiG.constructor | index/calig.cpp:325-356 | the new filter holds every label-compatible pair and every label-compatible neighbour |
| CaligFilter.CaLiG.ConstructCand | index/calig.cpp:325-356 | builds exactly the unfiltered index: all pairs of equal label on, all neighbours of the right label in the slots |
| CaligFilter.CaLiG.ConstructVertex | index/calig.cpp:331-354 | adds exactly the pairs and full slots of one data vertex and leaves the others alone |
| CaligFilter.CaLiG.TryNei | index/calig.cpp:358-383 | true exactly when the remaining query neighbours have distinct representatives outside `used`; `used` is restored on failure |
| CaligFilter.CaLiG.CheckGroups | index/calig.cpp:400-407 | success gives representatives for each group; failure shows that the pair has no distinct representatives |
| CaligFilter.CaLiG.CheckNei | index/calig.cpp:385-408 | true exactly when all query neighbours have distinct candidates |
| CaligFilter.CaLiG.TurnOff | index/calig.cpp:499-516 | of the on pairs of a data vertex exactly the unsupported ones go off and are queued |
| CaligFilter.CaLiG.GatherErasures | index/calig.cpp:412-425 | the erasures collected are exactly the entries that on owners hold for queued pairs, read from the reverse side |
| CaligFilter.CaLiG.EraseOne | index/calig.cpp:429-453 | takes one candidate out and logs it if it was there; an emptied slot turns its owner off, otherwise the label group is scheduled for a check |
| CaligFilter.CaLiG.EraseTasks | index/calig.cpp:429-454 | in whatever order they run, the erasures take out and log exactly their entries, turn off only pairs with an emptied slot, leave no emptied slot to an on pair, and schedule exactly the label groups of the others |
| CaligFilter.CaLiG.CheckTask | index/calig.cpp:458-474 | each pair is checked once: it goes off exactly when its group has no distinct representatives any more; an on pair that goes off is not supported |
| CaligFilter.CaLiG.CheckTasks | index/calig.cpp:458-474 | after all checks, in any order, a scheduled pair that is still on has passed one of its checks; what went off is reported and is not supported |
| CaligFilter.CaLiG.DelAndCheck | index/calig.cpp:410-475 | one call is one delete round: exact erasures, exactly logged; a pair goes off only for an emptied slot or a failed check of a group in which it has lost a candidate, no on pair keeps an emptied slot, and one that has lost a candidate in a group and stays on has passed the check of one such group |
| CaligFilter.CaLiG.DelLoop | index/calig.cpp:1039-1044 | the delete rounds end, and what they make of the filter is a run of such rounds, each on what the one before has turned off, until nothing is left; then no on pair holds an off candidate or an empty slot, every on pair has distinct representatives in one of its label groups at least, and the log has grown by exactly the entries that the rounds have taken out |
| CaligFilter.CaLiG.StaticFilter | index/calig.cpp:705-717 | ends, and the filter comes from one sweep over all pairs and a run of delete rounds; establishes the invariant and retains every embedding of the query in the initial graph |
| CaligGroups.SweepTests | index/calig.cpp:499-516 | the sweep leaves every on pair with distinct representatives in its label groups |
| CaligGroups.DelRoundTests | index/calig.cpp:429-474 | a delete round keeps for every on pair distinct representatives in one of its label groups at least: those that it had, or those that a check has found |
| CaligGroups.TurnOnTests | index/calig.cpp:657-693 | the edges of a batch keep that as well |
| CaligGroups.AddRoundTests | index/calig.cpp:536-638 | and so does an add round |
| CaligGroups.OnIsSupported | index/calig.cpp:385-408 | between batches an on pair passes the neighbour check if and only if all its label groups have distinct representatives, and so whenever its query vertex has at most one group |
| CaligExample.OnUnsupported | index/calig.cpp:458-474 | full support of on pairs fails at a concrete input: the filter of a graph of six vertices can end with an on pair one of whose two groups has no distinct representatives, since the round has checked the other one |
| CaligFilter.CaLiG.AllRetained | index/calig.cpp:705-717 | between batches every embedding is retained |
| CaligFilter.CaLiG.ReadBatch | index/calig.cpp:975-999 | the new directed edges are exactly both directions of the labelled batch edges that are not in the graph yet |
| CaligFilter.CaLiG.TurnOnCond | index/calig.cpp:640-655 | the insertions collected are exactly those that a new edge may make |
| CaligFilter.CaLiG.InsertEdges | index/calig.cpp:1007-1013 | the adjacency sets grow by exactly the new edges |
| CaligFilter.CaLiG.InsertNew | index/calig.cpp:659-668 | the candidate sets grow by exactly the collected entries |
| CaligFilter.CaLiG.CheckGrown | index/calig.cpp:678-692 | of the pairs to check exactly the supported ones go on; the others are handed back as failed |
| CaligFilter.CaLiG.CheckOwners | index/calig.cpp:669-692 | the owners of the new entries that are on afterwards are queued; those that stay off fail the neighbour check |
| CaligFilter.CaLiG.TurnOnCheck | index/calig.cpp:657-693 | one call inserts all new entries and settles all their owners; the activated list grows by exactly the pairs that go on |
| CaligFilter.CaLiG.GatherOne | index/calig.cpp:582-597 | the handed-over entries and the off pairs to check that one queued pair asks for |
| CaligFilter.CaLiG.GatherAdds | index/calig.cpp:538-599 | the same for the whole queue; each off pair that a queued pair lists is checked again |
| CaligFilter.CaLiG.AddAndCheck | index/calig.cpp:536-638 | one call is one add round: every queued pair is handed to its candidates, every off candidate is settled against the grown sets, and exactly those that fail are handed back; insertions and activated pairs are logged exactly |
| CaligFilter.CaLiG.AddLoop | index/calig.cpp:1028-1033 | the add rounds end with an empty queue, and what they make of the filter is a run of such rounds, each on what the one before has turned on; the pairs handed back are exactly those that have failed in one of the rounds; the invariant of the add loop holds, and the logs are exact |
| CaligFilter.CaLiG.UpdateIndex | index/calig.cpp:950-1068 | the graph grows by exactly the labelled batch edges; the filter comes from the new entries, a run of add rounds and a run of delete rounds on what has failed and is still off; every embedding in the grown graph is retained, and the logs account for every entry: an entry of an on pair that was not one before is logged as inserted, an entry that has gone is logged as erased |
| CaligFilter.CaLiG.InsertBatch | index/calig.cpp:972-1022 | inserting a batch keeps the invariant of the add loop, with the queue that the loop starts from |
| CaligFilter.CaLiG.RecordActivated | index/calig.cpp:1048-1067 | every entry of an activated pair that is still on is logged as inserted |
| CaligLogs.DeltasMade | index/calig.cpp:1048-1067 | the logs of the rounds together are the logs of the batch, although a pair may go on, lose candidates and go off again within it |
| CaligLogs.EntriesReverse | index/calig.cpp:776-804 | between batches an entry of an on pair and its reverse stand or fall together |
| CaligFilter.CaLiG.PairEntries | index/calig.cpp:780-803 | the staged entries of one batch edge are exactly the live entries over it, in both directions, although the code looks at one direction only |
| CaligFilter.CaLiG.ConstructUpdate | index/calig.cpp:776-804 | the staged entries are exactly the live entries over the batch edges, each once if no pair occurs twice in the batch, and each is logged as erased as well |
| MatchSearch.CompleteContents | index/cpu_dfs.cpp:81-132 | the search lists exactly the full-length rows that extend the prefix injectively and meet mask and backward lists at every position |
| MatchSearch.CompleteNoDup | index/cpu_dfs.cpp:129-130 | no completion is listed twice |
| MatchSearch.CompleteInTwo | index/cpu_dfs.cpp:81-132 | stopping at any depth and going on from the rows found gives the same completions in the same order |
| MatchSearch.PassInTwo | graph/graph_gpu.cu:1309-1380 | two passes over a frontier give what one pass gives, wherever the first one stops |
| MatchSearch.PassConcat | graph/graph_gpu.cu:1220-1246 | a pass over a frontier is the pass over its front part followed by the pass over the rest |
| MatchSearch.CompleteFromConcat | index/cpu_dfs.cpp:129-130 | trying a base list and then an update list is trying their concatenation |
| MatchSearch.MaskIsInvisible | index/cpu_dfs.cpp:92-95 | pruning with any mask that admits every vertex of every match leaves the completions unchanged |
| CpuDfs.LbIndex | index/cpu_dfs.cpp:19-24 | the index splits a sorted list into the elements below the value and the others |
| CpuDfs.ListContains | index/cpu_dfs.cpp:28-40 | membership in a base list followed by an update list, decided by two binary searches |
| CpuDfs.PackRoundTrip | index/cpu_dfs.cpp:159-160 | edge number and vertex come back from the packed word, which fits 32 bits, for numbers below 32 and ids below 2^27 |
| CpuDfs.DFSRunner.Hoist | index/cpu_dfs.cpp:97-110 | the lists resolved once per frame are the ones each candidate has to be looked up in |
| CpuDfs.DFSRunner.TryNbr | index/cpu_dfs.cpp:113-128 | counts the completions through one candidate; the prefix in `matched` is left as it was |
| CpuDfs.DFSRunner.TryAll | index/cpu_dfs.cpp:129-130 | counts the completions through the candidates of one list |
| CpuDfs.DFSRunner.Run | index/cpu_dfs.cpp:81-132 | returns exactly the number of completions of the matched prefix and leaves the prefix as it was |
| CpuDfs.DFSRunner.LoadRow | index/cpu_dfs.cpp:157-162 | a packed row gives the edge number and the matched prefix |
| CpuDfs.DFSRunner.CountRow | index/cpu_dfs.cpp:157-167 | one row adds the number of its matches, also when it is already a full one |
| CpuDfs.DFSRunner.CountRows | index/cpu_dfs.cpp:137-170 | the total over a frontier is the sum of the matches below its rows |
| ExactlyOnce.MatchesAre | index/cpu_dfs.cpp:81-132 | the search finds exactly the injective assignments that map every query edge into the list chosen for it |
| ExactlyOnce.EdgeMatch | index/cpu_dfs.cpp:67-78 | search `ei` finds the assignments with edge `ei` in the update lists, lower edges in either, and higher edges in the main lists |
| ExactlyOnce.OldMatch | index/cpu_dfs.cpp:67-78 | a match over the main lists maps every query edge into a main list |
| ExactlyOnce.NewMatch | index/cpu_dfs.cpp:67-78 | a match over both stages maps every query edge into a main or an update list |
| ExactlyOnce.StagedDistinct | index/calig.cpp:793-798 | with disjoint, repetition-free stages, as the engine keeps them (see `Stages.ListsAreGood`), no search meets a candidate twice in one list |
| ExactlyOnce.FoundTwiceNever | index/cpu_dfs.cpp:67-78 | no match is found by the searches of two different query edges |
| ExactlyOnce.FoundIsNew | index/cpu_dfs.cpp:67-78 | every match found is a match over both stages and not one over the main stage |
| ExactlyOnce.HighestUpdate | index/cpu_dfs.cpp:67-78 | a row has a highest numbered edge in the update lists, or none |
| ExactlyOnce.NewIsFound | index/cpu_dfs.cpp:67-78 | every new match is found, by the search of its highest update edge |
| ExactlyOnce.ReportedIsFound | index/cpu_dfs.cpp:67-78 | the sum of the counts of the first searches is the size of the set of matches they found |
| ExactlyOnce.CountsNewMatchesOnce | index/cpu_dfs.cpp:67-78 | the counts of all query edges together are the matches over both stages minus those over the main stage |
| Batches.OverIsEmbedding | index/calig.cpp:776-804 | an injective assignment all of whose query edges run over data edges with the right labels is an embedding, and the other way round |
| Batches.HitIsOver | index/calig.cpp:793-798 | every listed entry lies over a data edge, every live entry is listed, and a live entry is in the main lists exactly when its edge is not in the batch |
| Batches.BackwardCovers | graph/plan.cpp:721-734 | every query edge is a backward edge of the order, in one direction or the other |
| Batches.NewMatchesAreEmbeddings | index/calig.cpp:950-1045 | the matches over both stages are the embeddings in the graph after the batch, read in matching order, also when main lists hold entries of pairs that have gone off |
| Batches.OldEmbeddings | index/calig.cpp:1007-1013 | the embeddings in a graph are those in the graph with more edges that avoid these |
| Batches.OldMatchesAreEmbeddings | index/calig.cpp:776-804 | the matches over the main lists alone are the embeddings that avoid the edges of the batch |
| Batches.RowsOf | index/cpu_dfs.cpp:137-170 | a repetition-free list of matches has as many rows as there are assignments that it stands for |
| Batches.ReportsUsing | index/calig.cpp:776-804 | what all searches of a batch report together is the number of embeddings in the graph after the batch that use an edge of the batch |
| Batches.UsingAre | index/calig.cpp:985-999 | these are the new embeddings and, beyond them, the earlier ones that use an edge which is given again |
| Batches.UsingAreNew | index/calig.cpp:985-999 | so a batch reports exactly its new embeddings if and only if no earlier embedding uses an edge of the batch |
| Batches.PlannedFor | graph/plan.cpp:718-744 | the generated global order is a plan for the query in the sense of the other theorems |
| QueryMeta.SetQueryMeta | graph/graph.cpp:137-148 | the directed query edges are numbered without gaps, and every query edge is listed once from its smaller end, both in the order of the vertices |
| QueryMeta.BuildDirToEdge | index/cpu_index_mirror.cpp:37-46 | both directions of a listed query edge lead to its place in the list |
| QueryMeta.MetaNumbers | graph/graph.cpp:137-199 | two directed edges have the same place exactly when they are the same query edge |
| QueryMeta.SeedDirections | index/cpu_dfs.cpp:58-62 | the seed test by two directed numbers is the test by the place of the query edge |
| Staging.PrepareUpdateAll | index/calig_helper_gamma.cu:363-401 | packs exactly the logged insertions of on pairs and all logged erasures |
| Staging.PrepareUpdateIndex | index/calig_helper_gamma.cu:403-438 | packs every staged entry and flags the query edges with entries in both directions |
| Staging.VsOfEntries | index/calig_helper_gamma.cu:403-438 | the list that packed edges give for a slot holds exactly the entries of the slot |
| Staging.MainDuring | index/calig_helper_gamma.cu:485-517 | merging the insertions and taking out erasures and updates turns main lists for the filter before the batch into main lists for the filter after it, without the live entries over its edges, although entries of off pairs may stay behind |
| Staging.MainAfter | index/calig_helper_gamma.cu:539-567 | merging the updates afterwards makes the main lists those of the filter again |
| Stages.EdgesKnown | index/calig_helper_gamma.cu:382-399 | every packed edge fits 64 bits and belongs to a known list |
| Stages.MergedLists | index/calig_helper_gamma.cu:446-483 | merging packed edges adds, or takes out, exactly the entries they stand for |
| Stages.SortedStrict | index/calig_helper_gamma.cu:569-574 | sorting staged edges without repetition gives strictly ascending lists |
| Stages.ListsAreGood | index/calig_helper_gamma.cu:485-574 | the lists of a batch are ascending, without repetition, disjoint, and hold neighbours in the data graph only |
| Stages.BatchSkips | index/calig_helper_gamma.cu:438-444 | a query edge that is flagged as idle has no update lists in one direction |
| Stages.BatchReady | main_calig.cpp:294-327 | the lists of the second stage meet what the matching of a batch asks for |
| Stages.NothingUsing | main_calig.cpp:301-302 | when nothing is staged, no embedding uses an edge of the batch |
| Loading.PlanSearch | main_calig.cpp:112-151 | orders, marks and rebuild flags for a connected query, ready for the search, with the most selective backward neighbour first |
| Loading.ConvertGlobalIndex | index/calig_helper_gamma.cu:238-310 | the first main lists hold exactly the entries of the pairs that are on |
| Streams.BatchesAreTheStream | main_calig.cpp:220-222 | the batches are the edges of the stream if and only if the batch size is even or one batch takes all: the size counts vertex numbers, two per edge |
| Streams.ThreeTears | main_calig.cpp:220-222 | a batch size of three loses the second edge of two |
| Streams.GoodStream | main_calig.cpp:220-222 | a stream without repeated pairs is cut into batches without repeated pairs |
| Streams.CutJoined | main_calig.cpp:220-222 | the batches, one after the other, are the edges that the stream is read as |
| Streams.StillFresh | index/calig.cpp:985-999 | what comes later in a stream of new edges without repetitions is still new when its batch comes |
| Runs.BatchReports | index/calig.cpp:985-999 | one batch reports its new embeddings and, beyond them, the embeddings before it that use an edge which it gives again |
| Runs.NeverAgain | main_calig.cpp:178-400 | nothing is reported again over a whole run if and only if no batch gives an edge that an embedding in the graph before it uses |
| Runs.BeforeApplied | index/calig.cpp:972-1013 | the graph between two batches is the first one with the labelled edges of all batches before |
| Runs.FreshNeverAgain | main_calig.cpp:178-400 | over a stream of new edges without repetitions nothing is reported again |
| Runs.OneAgain | index/calig.cpp:776-804 | at a concrete input more is reported than is new: a path with one embedding, and a stream that gives its first edge again, which changes nothing and is still counted as one match |
| Streams.AllApplied | index/calig.cpp:985-999 | edges at vertices whose label no query vertex has make no difference to the embeddings |
| Engine.Pipeline.constructor | main_calig.cpp:88-176 | filter, plan and main lists agree before the first batch |
| Engine.Pipeline.Prepare | main_calig.cpp:224-251 | the first stage hands over what the logs of a batch ask for |
| Engine.Pipeline.Stage1 | main_calig.cpp:220-267 | filters the next batch and adds it to those that wait, with the graph that the batch makes and the edges that it names; whatever the second stage has reached is not disturbed |
| Engine.Pipeline.Transfer | index/calig_helper_gamma.cu:485-517 | the main lists become those of the filter after the batch, without the live entries over its edges |
| Engine.Pipeline.TransferUpdateIndex | index/calig_helper_gamma.cu:569-597 | both copies of the update lists are those of the batch |
| Engine.Pipeline.Count | main_calig.cpp:308-327 | counts the embeddings that use an edge of the batch, unless the first frontier takes more words than the ring has, which are at most two per query edge and directed data edge |
| Engine.Pipeline.BatchUpdateGlobalIndex | index/calig_helper_gamma.cu:539-567 | the main lists are those of the filter again |
| Engine.Pipeline.MatchStage | main_calig.cpp:281-384 | takes a batch from main lists to main lists and returns the number of embeddings that use an edge of it, unless its first frontier is larger than the ring |
| Engine.Pipeline.Stage2 | main_calig.cpp:281-384 | the number grows by the embeddings after the batch that use an edge of it, unless its first frontier is larger than the ring; those that were there before are told apart |
| Engine.Pipeline.Run | main_calig.cpp:178-400 | end to end, in every interleaving of the two stages, unless a first frontier is larger than the ring: the number printed is that of the embeddings which the stream has created plus, batch by batch, exactly those before the batch that use an edge which it gives again; it is the number of new embeddings if and only if there are none of the latter; and the largest first frontier, which one of the batches has, takes at most two words per query edge and directed edge of the final graph |
| GpuSearch.LowerBound | utils/search.cuh:8-26 | the index splits an ascending list into the elements below the value and the others |
| GpuSearch.InLists | kernels/enumeration.cu:1078-1086 | membership in a base list, or in the update list where that is visible |
| WarpSpec.Descend | kernels/enumeration.cu:1141-1152 | moving to the next level keeps the output that is still owed and lowers the work measure |
| WarpSpec.Pop | kernels/enumeration.cu:886-903 | giving up an exhausted level keeps the output that is owed and lowers the work measure; below the start level nothing is owed |
| WarpSpec.Scan | kernels/enumeration.cu:904-1138 | a scan of up to 32 kept candidates emits or queues exactly what it takes off the owed output, and rescanning starts behind the last kept one |
| WarpSpec.TurnOwes | kernels/enumeration.cu:879-1154 | every turn of the machine keeps output plus owed output, in order, and lowers the work measure |
| Warp.FiltersSift | kernels/enumeration.cu:951-1094 | mask and injectivity first, backward lists second, accept the candidates that the recursive search accepts |
| Warp.WarpRun.Lane | kernels/enumeration.cu:954-982 | a lane with a fresh candidate takes the place of its rank if that is among the first 32 |
| Warp.WarpRun.Batch | kernels/enumeration.cu:951-987 | 32 lanes compact their candidates; what is beyond 32 is left for a rescan |
| Warp.WarpRun.Compact | kernels/enumeration.cu:947-995 | collects the first at most 32 fresh candidates in list order together with the place up to which the list has been used up |
| Warp.WarpRun.Filter | kernels/enumeration.cu:1022-1094 | keeps exactly the candidates that are in all other backward lists |
| Warp.WarpRun.ReadList | kernels/enumeration.cu:928-947 | the list to scan, the cursor it belongs to, and the place to go on from |
| Warp.WarpRun.ScanOn | kernels/enumeration.cu:904-1094 | one scan yields a step of the machine as `WarpSpec.Scan` assumes it |
| Warp.WarpRun.Store | kernels/enumeration.cu:1000-1028 | writes queue, scan marks and cursor of the current level |
| Warp.WarpRun.Emit | kernels/enumeration.cu:1104-1125 | appends one full row per accepted candidate of the last level |
| Warp.WarpRun.Fill | kernels/enumeration.cu:904-1139 | scans on in the list of the current level and queues or emits what it accepts |
| Warp.WarpRun.Give | kernels/enumeration.cu:888-903 | resets the level, goes up one level and advances its cursor |
| Warp.WarpRun.Turn | kernels/enumeration.cu:879-1154 | one turn of the loop does one of the three steps whose effect is proved above |
| Warp.WarpRun.Extend | kernels/enumeration.cu:879-1155 | the loop ends, and the rows it has emitted are the completions of its start row |
| Warp.ExtendRow | kernels/enumeration.cu:811-1155 | the stack machine emits exactly the rows that the recursive search lists, in the same order, each once |
| Cartesian.Exchange | kernels/cartesian_product.cu:380-381 | splitting the numbers below a product by their last digits gives, digit by digit, the sub-searches |
| Cartesian.DecodeCounts | kernels/cartesian_product.cu:304-427 | the numbers of a row that decode to an injective, admissible tuple are as many as the completions of the row |
| Cartesian.CountToStep | kernels/cartesian_product.cu:336-337 | a number is counted for the one row whose interval contains it, also when rows of size zero lie between |
| Cartesian.CountToEnds | kernels/cartesian_product.cu:336-337 | all numbers below the total count every match of every row once |
| Cartesian.NumTree | kernels/cartesian_product.cu:276-301 | the product of the leaf list sizes of one row |
| Cartesian.DecodeDigit | kernels/cartesian_product.cu:371-417 | one division takes off one digit, picks its candidate, and leaves the decoding of the rest |
| Cartesian.DecodeOne | kernels/cartesian_product.cu:334-419 | a number is accepted exactly when its digits pick distinct, admissible leaves |
| Cartesian.PrefixSums | graph/graph_gpu.cu:1398-1399 | exclusive prefix sums of the products, with the total at the end |
| Cartesian.RowOf | kernels/cartesian_product.cu:336-337 | the binary search in the prefix sums finds the row of a number and never an empty one |
| Cartesian.Enumerate | kernels/cartesian_product.cu:324-427 | counts exactly the matches below the rows of the frontier |
| Cartesian.NumberRoundTrip | kernels/cartesian_product.cu:367-386 | every number of a row picks one candidate per remaining leaf, and that tuple has the number |
| Cartesian.TupleRoundTrip | kernels/cartesian_product.cu:367-386 | every tuple of candidates, injective or not, has a number below the product, and the number picks it |
| Cartesian.DecodedRow | kernels/cartesian_product.cu:367-424 | a number is accepted exactly when the search lists the row with its candidates |
| Cartesian.PlaceOfNumber | kernels/cartesian_product.cu:336-337 | every number of every row has a place of its own below the total |
| Ring.WrapDistinct | utils/mem_pool.h:66-77 | positions less than one turn apart are different slots |
| Ring.CyclicQueue.constructor | utils/mem_pool.h:46-52 | a new ring holds nothing |
| Ring.CyclicQueue.Reset | utils/mem_pool.h:57-61 | the ring holds nothing and starts at slot 0 |
| Ring.CyclicQueue.GetFree | utils/mem_pool.h:66-69 | the free room, except that an empty ring reports 0 like a full one |
| Ring.CyclicQueue.Stage | kernels/enumeration.cu:1119-1123 | words written from the start mark on, across the wrap, overwrite nothing that is in use |
| Ring.CyclicQueue.Push | utils/mem_pool.h:70-73 | the staged words join the contents at the end |
| Ring.CyclicQueue.Pop | utils/mem_pool.h:74-77 | the oldest words leave the contents |
| Ring.CyclicQueue.Replace | graph/graph_gpu.cu:1330-1332 | push and pop together leave exactly the new words, starting where they were written |
| Ring.CyclicQueue.Read | kernels/enumeration.cu:848-854 | reading across the wrap gives the words of the contents |
| Frontier.BelowConcat | graph/graph_gpu.cu:1220-1246 | the matches below a frontier are those below its front part plus those below the rest |
| Frontier.EncodedBelow | kernels/enumeration.cu:1119-1123 | packed rows lead to the matches of the rows, with the edge number they carry |
| Frontier.ExtendedBelow | kernels/enumeration.cu:846-854 | replacing a packed row by its packed extensions keeps the matches below it |
| Frontier.ExtendOne | kernels/enumeration.cu:846-1155 | a warp replaces a row by its packed completions to the new depth, with the same matches below |
| Frontier.ExtendAll | graph/graph_gpu.cu:1317-1320 | a pass makes the frontier that holds the completions of all rows to the new depth, with the same matches below |
| Frontier.ExtensionTwice | graph/graph_gpu.cu:1309-1380 | two passes make the frontier that one pass to the last depth makes |
| InitialRows.MaskedSeed | kernels/enumeration.cu:757-766 | skipping seeds and partners by the mask loses no match of the seed |
| InitialRows.IdleEdge | index/calig_helper_gamma.cu:438-444 | an edge with no update entries in one direction has none in the other one either, no initial row, and nothing to find |
| InitialRows.WritePairs | kernels/enumeration.cu:788-807 | one packed pair per visible neighbour of a seed vertex that passes the mask at the second position, each once, which lead to the matches of the seed |
| InitialRows.WriteVertex | kernels/enumeration.cu:757-808 | the pairs of one data vertex, none if it fails the mask at the first position, lead to its share of the matches |
| InitialRows.WriteEdge | kernels/enumeration.cu:736-809 | the pairs of one query edge, none if it is skipped, lead to all its matches |
| InitialRows.WriteInitial | kernels/enumeration.cu:727-809 | the words are exactly the packed triples of a query edge that is not skipped and two data vertices that pass its masks, the second in a visible list of the first, each once; and this frontier leads to exactly the matches that the searches of all query edges report |
| InitialRows.InitialBound | kernels/enumeration.cu:727-809 | the first frontier has at most one row per query edge and directed data edge |
| Matching.SplitAt | graph/graph_gpu.cu:1189-1225 | cutting a frontier at any row splits the matches below it |
| Matching.FullRows | index/cpu_dfs.cpp:166 | rows of full length are counted one each |
| Matching.Tasks | kernels/cartesian_product.cu:276-294 | the rows of a frontier whose remaining vertices are leaves, as decoding tasks |
| Matching.GPUGraphLoader.FetchRows | graph/graph_gpu.cu:1207-1218 | one or two copies fetch the first rows, also across the end of the ring |
| Matching.GPUGraphLoader.Begin | graph/graph_gpu.cu:1299-1305 | the first frontier is claimed in the emptied ring |
| Matching.GPUGraphLoader.Advance | graph/graph_gpu.cu:1330-1335 | the frontier is replaced by the rows of the pass |
| Matching.GPUGraphLoader.Discard | graph/graph_gpu.cu:1323-1327 | rows that a pass has written but that are never claimed leave the frontier as it is |
| Matching.GPUGraphLoader.Pass | graph/graph_gpu.cu:1311-1336 | a pass is given up exactly when its rows are not fewer than there is room for; otherwise the ring holds exactly the extended rows; the pending matches stay the same |
| Matching.GPUGraphLoader.SmallPasses | graph/graph_gpu.cu:1309-1337 | the frontier becomes that of the depth at which the passes stop: because it is empty, large, one level before the end, or its next pass does not fit |
| Matching.GPUGraphLoader.LongPass | graph/graph_gpu.cu:1343-1380 | the frontier becomes that of the first depth with a tree-shaped tail, unless there is none, too few levels are left, or its rows do not fit |
| Matching.GPUGraphLoader.CountByDecoding | graph/graph_gpu.cu:1389-1435 | on a marked tail the decoded tuples count exactly the pending matches |
| Matching.GPUGraphLoader.CountBySearch | graph/graph_gpu.cu:1185-1246 | rows `[0, k)` on the CPU and the rest by warps count the pending matches, for every `k` |
| Matching.GPUGraphLoader.FinalCount | graph/graph_gpu.cu:1384-1465 | whichever way of counting is chosen, it counts the pending matches |
| Matching.GPUGraphLoader.CountFrontier | graph/graph_gpu.cu:1307-1465 | from any frontier, all passes and the final count give the pending matches |
| Matching.GPUGraphLoader.MatchingBitAll | graph/graph_gpu.cu:1261-1465 | one batch whose first frontier fits into the ring reports the matches over both stages minus those over the main stage, independent of overflow, ring position, stopping depth and split |
| QueryPaths.WayBack | graph/plan.cpp:1194-1210 | in a breadth-first order a path over earlier vertices leads from every vertex to the updated edge |
| QueryPaths.SpliceApart | graph/plan.cpp:1347-1368 | a way back that avoids a path leaves it with the wanted edge |
| QueryPaths.SpliceBehind | graph/plan.cpp:1347-1368 | a way back that meets a path further on becomes a detour through the wanted edge |
| QueryPaths.SpliceBefore | graph/plan.cpp:1347-1368 | a way back that meets a path earlier on is walked backwards through the wanted edge |
| QueryPaths.Splice | graph/plan.cpp:1347-1368 | a vertex on a simple path to the updated edge is, by each of its backward edges, on such a path through that edge |
| QueryPaths.AllOrNone | graph/plan.cpp:1356-1368 | the backward edges of a vertex lie all or none on paths from a starting vertex to the updated edge |
| RebuildFlags.OpenIsShort | graph/plan.cpp:1318-1320 | a path that goes on has fewer vertices than the query, so the path buffer is never overrun |
| RebuildFlags.TriedBelow | graph/plan.cpp:1322-1329 | when everything below a neighbour has been tried, the neighbour has been tried |
| RebuildFlags.MarkPath | graph/plan.cpp:1308-1312 | marks the edges of a found path in both directions and nothing else |
| RebuildFlags.TryNext | graph/plan.cpp:1296-1321 | one neighbour is skipped, completes a path, or extends the current one; the work left shrinks |
| RebuildFlags.GoDown | graph/plan.cpp:1296-1321 | goes on until the last vertex of the current path has no neighbour left |
| RebuildFlags.MarkFrom | graph/plan.cpp:1286-1331 | the backtracking from one start ends and has marked the edges of every simple path to the updated edge |
| RebuildFlags.GenerateRebuildFlagsWithOrder | graph/plan.cpp:1277-1332 | the flags are exactly the updated edge and the edges on simple paths from a starting vertex to it |
| Planner.Visit | graph/plan.cpp:1198-1206 | appends exactly the neighbours that have not been visited, in the order of their numbers, and so deals with one place of the breadth-first order |
| Planner.VisitLevel | graph/plan.cpp:1194-1210 | deals with all places of a level, and returns what it has appended as the next one |
| Planner.Backward | graph/plan.cpp:1218-1232 | the backward positions are exactly the earlier neighbours, in ascending order |
| Planner.BuildIndexingOrder | graph/plan.cpp:1180-1232 | the order is a breadth-first permutation of the query: later vertices have later first neighbours in it, or the same one and a larger number; its backward slices are ascending |
| BreadthFirst.SearchedMore | graph/plan.cpp:1196-1206 | appending the next new neighbour keeps what has been searched in turn |
| BreadthFirst.OnlyOrder | graph/plan.cpp:1180-1210 | there is only one breadth-first order from an edge |
| BreadthFirst.DistancesAscend | graph/plan.cpp:1192-1210 | the distances from the starting edge never fall along the order |
| Planner.MarkedBackward | graph/plan.cpp:1347-1355 | the sum tells whether none, and whether all, of the backward edges are flagged |
| Planner.NotMixed | graph/plan.cpp:1356-1368 | the backward edges of a vertex are never flagged in part |
| Planner.FlagVertex | graph/plan.cpp:1341-1368 | one vertex is flagged when its backward edges are; the error branch is not reached |
| Planner.GenerateRebuildVFlagsWithOrder | graph/plan.cpp:1334-1370 | never ends in the error branch, and flags the first vertex and, of the others, exactly the vertices whose backward edges are flagged |
| Planner.Extendable | graph/plan.cpp:556-579 | exactly the vertices outside the order that have a neighbour in it |
| Planner.CanExtend | graph/plan.cpp:552-579 | an incomplete order of a connected query can always be extended |
| Planner.BackwardByDegree | graph/plan.cpp:721-743 | the slice holds exactly the backward positions, each once, with estimates that do not fall along it |
| Planner.GenerateGlobalMatchingOrder | graph/plan.cpp:535-745 | for every tie-breaking the order is a permutation that starts with the chosen edge and lists the backward positions, the most selective ones first |
| Planner.FirstIsMostSelective | graph/plan.cpp:735-743 | the list that a search reads its candidates from has the smallest estimate of all its backward neighbours |
| Planner.GenerateCartesianProductInfoGlobal | graph/plan.cpp:899-952 | the mark of a position says whether the suffix from it on is an independent set, and one of leaves only |
| Planner.PlanIsValid | graph/plan.cpp:718-744 | the order gives a valid plan: every position after the first has a backward position |
| Planner.EveryEdgeOnce | graph/plan.cpp:721-734 | the backward slices list every query edge exactly once |
| Planner.MarkedTails | graph/plan.cpp:899-952 | a marked suffix consists of leaves whose only neighbour lies before the suffix |
| Planner.Plan.GenerateIndexingOrders | graph/plan.cpp:21-29 | every query edge gets the breadth-first order that starts with it |
| Planner.Plan.SeedsOfSearch | index/cpu_dfs.cpp:145-164 | the seed test by the two directions of the first edge of the indexing order is the test by the number of the query edge |
| Planner.Plan.GenerateGlobalOrder | graph/plan.cpp:34-39 | the global order and its marks, complete, valid, and sorted by selectivity |
| Planner.Plan.GenerateFlags | graph/plan.cpp:50-53 | the flags of one query edge against the global starting edge, without an error |
| Planner.Plan.GenerateMatchingOrders | graph/plan.cpp:31-54 | one global order and, for every query edge, exact rebuild flags of edges and vertices |
| RobinHood.Exchange | index/storage_hash_map.hpp:852-854 | swapping the entry in hand with a stored one keeps the table plus the entry in hand |
| RobinHood.RollBack | index/storage_hash_map.hpp:859-861 | putting the displaced value back into the slot of the new key undoes the whole displacement |
| RobinHood.ProbePasses | index/storage_hash_map.hpp:543 | a probe for a stored key passes every slot between the desired one and its place |
| RobinHood.PutKeepsProbing | index/storage_hash_map.hpp:850-855 | replacing a slot by an entry that is further from home keeps the probe invariant |
| RobinHood.SwapStep | index/storage_hash_map.hpp:850-855 | a swap keeps the probe invariant, and the entry taken up fits the next slot |
| RobinHood.MoveHole | index/storage_hash_map.hpp:675-679 | shifting the next entry back moves the one hole in the probe invariant on |
| RobinHood.DropEntry | index/storage_hash_map.hpp:673-674 | an emptied slot takes exactly its key out of the contents |
| RobinHood.ShiftEntry | index/storage_hash_map.hpp:675-679 | shifting an entry back keeps the contents |
| RobinHood.MoveEntry | index/storage_hash_map.hpp:648-655 | moving one old slot moves exactly its entry, which the new table does not hold yet |
| RobinHood.AllMoved | index/storage_hash_map.hpp:648-655 | when all old slots have been moved the contents are the same |
| RobinHood.Table.constructor | index/storage_hash_map.hpp:790-795 | the default table is valid and empty |
| RobinHood.Table.Probe | index/storage_hash_map.hpp:578-585 | the probe stops at the key if it is stored, and otherwise at the place where it has to go |
| RobinHood.Table.Find | index/storage_hash_map.hpp:539-549 | succeeds exactly for the stored keys and gives the slot with their value |
| RobinHood.Table.EraseAt | index/storage_hash_map.hpp:670-681 | the backward shift keeps the probe invariant and removes exactly the erased key |
| RobinHood.Table.Erase | index/storage_hash_map.hpp:710-720 | removes the key and tells whether it was there |
| RobinHood.Table.Emplace | index/storage_hash_map.hpp:575-587 | inserts a missing key, leaves a stored one alone, and returns its slot; the table keeps its slots unless a new key needs growth, and then its size is that of one growth or of several; at most half of the slots are taken afterwards; it always comes back for a stored key and for a key that needs no growth, and gives up only after `fuel + 1` nested tables, the first one being this one, each of them unable to take its key |
| RobinHood.SizesDouble | index/storage_hash_map.hpp:869-872 | a table that has grown has at least twice its slots, and at least four |
| RobinHood.Table.EmplaceNewKey | index/storage_hash_map.hpp:823-867 | adds exactly the new key, by an empty slot or by displacement, or by growing; and grows exactly where the key does not fit: there is no table yet, it would lie too far from its slot, the table would be more than half full, or no displacement makes room |
| RobinHood.Table.Place | index/storage_hash_map.hpp:832-837 | the new key goes into an empty slot |
| RobinHood.Table.TakePlace | index/storage_hash_map.hpp:838-842 | the new key takes a richer entry's slot; that entry is in hand and nothing is lost |
| RobinHood.Table.CarryOn | index/storage_hash_map.hpp:842-866 | one slot of the displacement puts the entry in hand down, swaps it, passes, or finds it stuck |
| RobinHood.Table.Displace | index/storage_hash_map.hpp:838-866 | the displacement adds the new key exactly when it finds room, and leaves the contents as they were otherwise |
| RobinHood.Table.GiveUp | index/storage_hash_map.hpp:859-861 | the swap-back restores the contents without the new key |
| RobinHood.Table.GrowAndEmplace | index/storage_hash_map.hpp:827-831 | growing and inserting again adds exactly the new key, to a table of the grown size or one grown further; a failure leaves a chain of `fuel` tables of at least double size, each unable to take one of the keys |
| RobinHood.Table.Rehash | index/storage_hash_map.hpp:624-657 | all entries move to a table of the asked size or one that has grown from it; a failure is a failed insertion into the new table |
| RobinHood.Table.MoveAll | index/storage_hash_map.hpp:645-655 | re-inserting all old entries gives back the old contents, in a table that may have grown |
| RobinHood.LateGrowths | index/storage_hash_map.hpp:869-872 | a table that has to grow again after enough doublings is not too small: it maps too many keys to neighbouring slots |
| GpmaMath.Dispatched | gpma/gpma.cu:304-307 | the computed segment and lane of a key are its cut interval and its offset in that |
| GpmaMath.EvenShare | gpma/gpma.cu:297-307 | neighbouring segments hold their even share, rounded down or up |
| GpmaMath.TrimmedLevels | gpma/gpma.cu:681-685 | the doubling trim carries over any number of levels |
| GpmaMath.DensityInherited | gpma/gpma.cu:667-688 | a node within its bounds that is dealt evenly gives every aligned or unaligned run of `2^j` segments a size within the bounds of level `j` |
| GpmaMath.OneLevel | gpma/gpma.cu:669-679 | the least number that reaches the lower load and the greatest that does not exceed the upper one |
| GpmaMath.TrimmedLevel | gpma/gpma.cu:670-687 | exactly the larger of the ceiling and twice the bound below, and the smaller of the floor and twice the bound below |
| GpmaMath.RecalculateDensity | gpma/gpma.cu:667-688 | every level gets exactly these bounds; they are consistent from level to level and never above the node size |
| GpmaMath.LeafUpper | gpma/gpma.cu:673-679 | no leaf is allowed more keys than it has slots |
| Gpma.ExclusiveSum | gpma/gpma.cu:209-216 | entry `i` is the number of live cells before `i` |
| Gpma.Scatter | gpma/gpma.cu:224-244 | each live cell goes to its rank; the rest stays cleared |
| Gpma.Compact | gpma/gpma.cu:189-245 | the live cells of a node move to its front in order, the rest is cleared, other nodes are untouched |
| Gpma.SortPairs | gpma/gpma.cu:289 | a permutation of the cells in key order |
| Gpma.DealOne | gpma/gpma.cu:304-312 | a dealt cell lands in a free slot of its segment and keeps the earlier ones |
| Gpma.Redispatch | gpma/gpma.cu:257-319 | the sorted cells are dealt evenly, every segment filled from its first slot |
| Gpma.Rebalance | gpma/gpma.cu:321-364 | succeeds exactly within the bounds; then the node holds the live cells plus the updates in key order, and otherwise the same live cells |
| Gpma.DealtLive | gpma/gpma.cu:304-312 | the live cells of the first segments are exactly the first dealt cells, in order |
| Gpma.RunLive | gpma/gpma.cu:304-312 | any run of segments holds exactly the cells between its cuts |
| Gpma.SubnodesInBounds | gpma/gpma.cu:348-363 | after a rebalance every descendant node holds between its lower and its upper bound |
| Gpma.DealtHeads | gpma/gpma.cu:304-312 | with at least one key per segment the segment heads are live and ascend |
| Gpma.NarrowOnce | gpma/gpma.cu:174-178 | one bit of the descent halves the candidate leaves and keeps the answer among them |
| Gpma.LocateLeaf | gpma/gpma.cu:169-178 | returns the last segment whose head is at most the key, or the first segment if there is none |
| Gpma.Fls | gpma/gpma.cu:21-37 | the number of the highest set bit of a 32-bit word, counted from one; 0 for 0 |
| WorkStealing.ChunksPartition | kernels/enumeration_balance.cu:667-668 | the chunk intervals are non-empty, cover the published range and do not overlap |
| WorkStealing.PublishKeeps | kernels/enumeration_balance.cu:73-102 | the three steps of a publication keep the invariant, at every point where others may step in |
| WorkStealing.ClaimKeeps | kernels/enumeration_balance.cu:659-661 | a successful compare-and-swap hands one unclaimed chunk to one warp |
| WorkStealing.CopyKeeps | kernels/enumeration_balance.cu:752-765 | a thief copies the snapshot that its victim has published |
| WorkStealing.SearchKeeps | kernels/enumeration_balance.cu:667-703 | a chunk that is searched has not been searched before |
| WorkStealing.PendKeeps | kernels/enumeration_balance.cu:704-705 | reporting a chunk lowers the pending count, which stays the number of unfinished chunks |
| WorkStealing.MovesKeep | kernels/enumeration_balance.cu:644-729 | the steps that only read or move a warp keep the invariant |
| WorkStealing.SnapshotStable | kernels/enumeration_balance.cu:709-716 | a warp with an unfinished chunk still waits, with the snapshot it has published |
| WorkStealing.NobodyActive | kernels/enumeration_balance.cu:723-729 | when the active count is zero all chunks are done and no warp has one in hand |
| WorkStealing.StepKeeps | kernels/enumeration_balance.cu:636-814 | every step of every warp keeps the protocol invariant |
| WorkStealing.RunInv | kernels/enumeration_balance.cu:636-814 | every state of every interleaving satisfies the invariant |
| WorkStealing.NeverTwice | kernels/enumeration_balance.cu:643-814 | in every interleaving no chunk is searched twice, and only from the partial match its owner has published |
| WorkStealing.LeavesNothing | kernels/enumeration_balance.cu:722-729 | when a warp leaves the stealing loop every published chunk has been searched exactly once |
| WorkStealing.AnnouncedIsSearched | kernels/enumeration_balance.cu:73-102 | and all chunks of a snapshot that a warp has written before have been published and searched, each once, from that snapshot |
| WorkStealing.VictimSnapshotStable | kernels/enumeration_balance.cu:752-764 | while a published chunk is unfinished its owner's snapshot does not change |
| WorkStealing.NothingAfter | kernels/enumeration_balance.cu:722-729 | after a warp has left, nothing is published, claimed or searched any more |
| StealProgress.SomeStepHelps | kernels/enumeration_balance.cu:636-814 | as long as not all warps have left, some warp can take a step that leaves less to do |
| StealProgress.AllCanLeave | kernels/enumeration_balance.cu:636-814 | every run can be continued until all warps have left: no interleaving ends in a deadlock |
| Bucket.PushThreads | utils/nucleus/bucket.cpp:56-62 | putting an element in front keeps a list doubly linked |
| Bucket.UnlinkThreads | utils/nucleus/bucket.cpp:86-92 | taking out an element, at the head or inside, keeps a list doubly linked |
| Bucket.PushKeeps | utils/nucleus/bucket.cpp:54-63 | an insertion keeps all bucket lists well formed and disjoint |
| Bucket.UnlinkKeeps | utils/nucleus/bucket.cpp:84-92 | an unlinking keeps all bucket lists well formed and disjoint |
| Bucket.NaiveBucket.constructor | utils/nucleus/bucket.cpp:31-52 | a new queue is valid and empty |
| Bucket.NaiveBucket.Insert | utils/nucleus/bucket.cpp:54-63 | adds the element with its value |
| Bucket.NaiveBucket.Unlink | utils/nucleus/bucket.cpp:86-92 | takes the element out of its list |
| Bucket.NaiveBucket.DecVal | utils/nucleus/bucket.cpp:84-95 | lowers the value of one element by one and changes nothing else |
| Bucket.NaiveBucket.CurrentValue | utils/nucleus/bucket.cpp:80-82 | the value of a queued element lies between the current minimum and the largest value; that of a popped one is -1 until it is inserted again |
| Bucket.NaiveBucket.PopMin | utils/nucleus/bucket.cpp:65-78 | takes out an element of the smallest value, or reports that there is none |
| KCore.DegRemove | utils/nucleus/kcore.cpp:53-56 | removing a vertex lowers the remaining degree of exactly its neighbours |
| KCore.AdjustOne | utils/nucleus/kcore.cpp:53-56 | lowering a value only above the current level keeps it the larger of level and remaining degree |
| KCore.PopRates | utils/nucleus/kcore.cpp:42-51 | a popped vertex lies in a subgraph of that minimum degree and in none of a larger one |
| KCore.Fill | utils/nucleus/kcore.cpp:13-22 | the queue starts with the degrees; isolated vertices get 0 |
| KCore.Relax | utils/nucleus/kcore.cpp:53-59 | adjusts the values of all neighbours of a popped vertex |
| KCore.PeelNext | utils/nucleus/kcore.cpp:40-62 | one round pops a vertex, rates it and keeps the peeling invariant |
| KCore.AllRated | utils/nucleus/kcore.cpp:40-44 | when the queue is empty no vertex lies in a denser core than its rating |
| KCore.BaseKcore | utils/nucleus/kcore.cpp:4-65 | each vertex gets the largest `k` such that it lies in a subgraph of minimum degree at least `k`; the maximum reported is the largest of these |
| EdgeLists.EncodeRoundTrip | index/cpu_index_mirror.cpp:15-18 | query edge, vertex and neighbour come back from the packed edge, which fits 64 bits if and only if the number of the directed query edge is below 32 |
| EdgeLists.DecodeRoundTrip | index/cpu_index_mirror.cpp:15-18 | every packed word is the packing of its parts |
| EdgeLists.OrderOfParts | index/cpu_index_mirror.cpp:15-18 | sorting packed edges groups them by query edge, then vertex, then neighbour |
| EdgeLists.Sort | index/cpu_index_mirror.cpp:187 | an ascending permutation |
| EdgeLists.Unique | index/cpu_index_mirror.cpp:188 | drops exactly the repetitions |
| EdgeLists.SetUnion | index/cpu_index_mirror.cpp:155 | the strictly ascending union of two lists |
| EdgeLists.SetDifference | index/cpu_index_mirror.cpp:157 | the strictly ascending difference; the second list may repeat |
| Mirror.GroupByIdx | index/cpu_index_mirror.cpp:86-96 | the groups cover the edges without overlap, one maximal run per query edge |
| Mirror.MergeRun | index/cpu_index_mirror.cpp:146-163 | one vertex gets the union, or difference, of its list and its delta; every other list is unchanged |
| Mirror.Compact | index/cpu_index_mirror.cpp:167-179 | compaction changes no list and leaves no dead space |
| Mirror.MergeIdxMain | index/cpu_index_mirror.cpp:132-180 | every touched vertex gets its merged list, the others keep theirs, and the live count stays the sum of the lengths |
| Mirror.BuildGroup | index/cpu_index_mirror.cpp:113-127 | builds exactly the lists of the edges of one query edge when it starts without lists, and otherwise counts on from the lengths that it finds |
| Mirror.RebuildGroup | index/cpu_index_mirror.cpp:251-266 | builds keys, offsets with sentinel, and data so that every list can be read back |
| Mirror.UpdateListOf | index/cpu_index_mirror.h:58-70 | the binary search returns exactly the neighbours of the vertex, or none |
| Mirror.CPUIndexMirror.constructor | index/cpu_index_mirror.cpp:20-31 | a new mirror is valid and empty |
| Mirror.CPUIndexMirror.ListsAreSorted | index/cpu_index_mirror.cpp:164-180 | main lists are strictly ascending, the live count is the sum of the lengths, and live data is at least half of the data |
| Mirror.CPUIndexMirror.UpdateList | index/cpu_index_mirror.h:58-70 | returns the neighbours that the current update batch has for the vertex |
| Mirror.CPUIndexMirror.ResizeForDVCount | index/cpu_index_mirror.cpp:67-83 | old lists stay as far as they are not cut off, new vertices have empty lists, and the mirror stays valid if and only if what is cut off is empty |
| Mirror.CPUIndexMirror.MergeInsert | index/cpu_index_mirror.cpp:182-205 | every main list becomes the union with the delta, for edges in any order and with repetitions |
| Mirror.CPUIndexMirror.MergeRemove | index/cpu_index_mirror.cpp:207-229 | every main list loses exactly the delta, whether or not the edges were in it |
| Mirror.MergeUndone | index/cpu_index_mirror.cpp:182-229 | taking out the edges that have been put in gives back every main list if and only if none of them was in it before |
| Mirror.CPUIndexMirror.InitFromSortedEdges | index/cpu_index_mirror.cpp:98-130 | the main lists are exactly those of the sorted edges if and only if all lists were empty before, since the code clears the data but not the lengths |
| Mirror.CPUIndexMirror.RebuildUpdate | index/cpu_index_mirror.cpp:231-269 | the update lists are those of the new batch, nothing of the old one is left |
| Mirror.CPUIndexMirror.UpdateListCounts | index/cpu_index_mirror.cpp:245-266 | an update list is ascending and holds a neighbour as often as the batch has the edge |

## Left out

- CaligFilter.CaLiG.UpdateIndex: models insertions only; the tasks of deletions are gathered into a copy that is dropped (index/calig.cpp:477).
- CaligFilter.CaLiG.ReadBatch: pairs with a negative first vertex, which stand for deletions, cannot be expressed.
- CaligFilter.CaLiG.CheckTask: a round checks one label group per pair, because `isChecked` is kept per pair; so an on pair may be left with another group that fails (`CaligExample.OnUnsupported`). Which of the groups that have lost candidates is checked is arbitrary.
- CaligFilter.CaLiG.DelAndCheck: worklists and task buffers are sets, and tasks are taken in any order, one at a time; locks and the interleaving of two tasks on one candidate set are not modelled.
- Engine.Pipeline.Run: asks for batches without repeated pairs and loops; `ConstructUpdate` stages a pair as often as a batch gives it, so that its matches are counted as often, and the first pairs are written without a test for loops. The GPU copies of the main and update lists are the same lists as those of the mirror; compressed vertex ids are the ids themselves.
- Engine.Pipeline.Count: how the support masks are built is not part of this model; they are an arbitrary function of plan and lists that admits the vertices of all matches. The density heuristic and the CPU share are arbitrary.
- MatchSearch.MaskIsInvisible: how support masks are built (kernels/indexing.cu) is not part of this model; any mask that admits the vertices of all matches is allowed. Pair masks and cumulative path masks are reduced to one test per position.
- Matching.GPUGraphLoader.MatchingBitAll: what comes out when the first frontier is larger than the ring is left open, since the code then writes behind the end of the ring; and a query has at least three vertices, since for two the code reads a mark behind the last position that nothing has set (graph/graph_gpu.cu:1386). The choice between decoding and search, the CPU share and its moving average are arbitrary parameters.
- Matching.GPUGraphLoader.Discard: an overflowed pass writes some prefix of its rows; which rows two warps write first, and the order of rows of different warps, are not modelled.
- Warp.ExtendRow: one warp is one sequential machine; ballot and shuffle are computed lane by lane, and the early return on overflow is modelled at the pass.
- Planner.GenerateGlobalMatchingOrder: the choice among extendable vertices is arbitrary, so the scores of the two heuristics and their float arithmetic are left out; so are triangle and forward-neighbour metadata.
- RobinHood.Table.Emplace: growth is bounded by a parameter `fuel`, because a hash that sends all keys to one slot makes the table grow for ever; a call that is given up tells the chain of tables that had to grow, and `RobinHood.LateGrowths` why.
- RobinHood.Table.constructor: the prime sizes and the hash are a policy of which only the range is known, and the load factor is the default one half; allocators, iterators, range erase, move, copy and exceptions are left out.
- Gpma.Rebalance: the kernel for nodes of one block; larger nodes, the CSR offsets, deletion marks and the loop that retries a node one level up are left out. Keys and values sit in one array of cells.
- Gpma.SortPairs: an insertion sort in place of the block radix sort.
- GpmaMath.RecalculateDensity: densities are reals and a tree has at least one level above the leaves; the source divides by its height.
- EdgeLists.Sort: an insertion sort in place of the parallel sort.
- KCore.BaseKcore: the hierarchy of subcores, and the truss and 3-4 variants, are left out.
- WorkStealing.StepKeeps: models the chunk protocol on sequentially consistent steps; the work on a chunk is one step, although a thief does its first part before it raises the active count; what a chunk contains, and the total count of `extendBFSAllBitBalance`, which does not resume shallower levels, are left out.
- CpuDfs.PackRoundTrip: machine words are unbounded numbers elsewhere; `prefix | bit` on a clear bit is an addition, and counters do not wrap.
- Per-edge Cartesian kernels (`GetNumTreeBit`, `enumerateCartesianProductTreeBit`), id compression, file loaders, sampler, and CUDA, TBB, NUMA, timing and memory management code.
