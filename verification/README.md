# Wukong in Dafny

Wukong is a distributed in-memory RDF store. Servers keep adjacency lists and index lists in a
hash table with an entry region, engines answer SPARQL graph patterns by exploring the graph and
splitting queries over servers, and messages between threads go through RDMA ring buffers. This
project models those parts and proves what they promise.

Modules, from the bottom up:

- `HashU64`: the invertible 64-bit hash.
- `Words`, `RingSpec`, `RingBuffer`: the ring buffer, as a machine of memory steps with many
  writers and one reader, and as code over a byte array.
- `BuddyTiling`, `FreeLists`, `BuddyMalloc`, `MergeFreeLists`: the buddy allocator. The tiling of
  the heap, the doubly linked free lists in raw memory, and the allocator on top of both.
- `DynStore`: how a list grows while other servers read it through cached pointers, as a machine
  of single stores (flag, element, size, copy, invalidate, switch, deferred free, read).
- `HashTable`, `GStore`: the chained hash table and a server's store on top of it.
- `Aggregate`, `BulkLoad`, `DynamicLoad`: sorting out triples, and loading them in bulk and one by one.
- `Query`, `Table`, `Engine`: graph patterns and their meaning, flat result tables, and the
  engine's steps on them.
- `ForkJoin`, `ParallelStart`, `CoRun`, `TupleSort`, `UnionMerge`: splitting, co-running and merging.
- `Coder`, `ForkProtocol`, `ReplyMap`, `Distributed`: query numbers, the fork-join protocol over
  whole runs of a cluster, and its combination with the engine's ways of splitting.
- `Progress`, `Locality`, `Blind`: every query comes to its end, who reads what on the way, and
  queries that only count.
- `Plans`, `MinStack`, `Planner`, `Statistics`: query plans, the search for them, and the counts
  that let the planner call a query empty.
- `Cluster`: the way from triples to answers, all of it together.
- `Iteration`, `Seqs`: visiting a hash map in an arbitrary order; ends of sequences.

The main results, read together: after loading triples, the answer to a query that the planner
accepts is exactly its solutions, in every run of the cluster, whatever is split where and in
whatever order messages arrive. In every reachable state with a query under way some step is
possible, every step but a new submission uses up part of a finite amount of work, and at the end
every query has been answered and every split one resumed exactly once. Without RDMA nothing is
ever read from another server. A query that the planner calls empty has no solutions; a connected
query whose predicates occur in the data gets a plan, and no other does; the plan is the cheapest
that the search can get to, unless the first one is small; it can be started unless it starts from
a type or predicate used as a vertex. No insert into a running store is lost, none is refused while
the allocator has a block, and no block is lost. The runs are those in which such a plan
is not submitted (the proxy fails an assertion), in which an index plan is copied so that its
thread numbers do not wrap around, or `mt_factor` divides the number of engines, and in which query
counters do not wrap.

Results that hold only under a condition, with the exact condition:

- A validated remote read returns the key's list at the moment of the read if and only if the
  pointer read is not of size 0 or the table's own pointer is (`DynStore.ReadExactIff`). A pointer
  of size 0, cached between the insertion of the key and its first list, passes the size check
  later and reads an empty list; `DynStore.StaleEmptyRead` is such a run.
- Merging the threads' free lists keeps the allocator consistent if and only if no shared list
  that would be overwritten holds a block (`MergeFreeLists.Merge`). After any allocations of the
  loading threads it does (`MergeFreeLists.LoadThenMerge`); one allocation by another thread before
  the merge breaks it (`MergeFreeLists.SharedThenMerge`).
- The copies of an index query cover the index list if and only if their thread numbers do not
  wrap around or `mt_factor` divides the number of engines (`ParallelStart.AllSlicesIff`).
- Unless it calls the query empty, the planner returns a plan if and only if the triples are
  connected by variables and every predicate but that of types has been counted in the data
  (`Planner.GenerateForPatterns`); otherwise it returns no patterns at all. For `?x p ?y` without
  p-triples it estimates 0/0, which is below no other cost, so that the path is never recorded.
- A path that the planner returns can be started if and only if its first subject is no type or
  predicate id, or its first predicate is one of the two reserved ones (`Plans.PlanBinds`,
  `Planner.GenerateForPatterns`); otherwise `start_from_index` fails its assertion in the proxy and
  in the engine. In terms of the query: every path of a connected query can be started if and only
  if no triple, type triples apart, has a type or predicate id as a constant
  (`Plans.EveryPathRunsIff`), and some path can if and only if not all have
  (`Plans.SomePathRunsIff`). For `5 7 ?x` none can (`Planner.IndexConstantFails`).
- A planner stack of twice as many elements as triples is overrun if and only if all triples of
  the query are `?x p ?x` on one and the same variable (`Planner.GenerateForPatterns`).
- The planner's path costs no more than another path of the query unless that one takes the second
  direction of a triple whose first direction alone already costs more
  (`Planner.CheapestUnlessShadowed`), or the first path was small and taken at once.
- Bulk loading succeeds if and only if the entry region is larger than the lists need, or they need
  none, and the keys fill no more overflow buckets than there are (`BulkLoad.LoadServer`). Both
  numbers are computed from the triples, and `BulkLoad.EnoughForAll` bounds them.
- An allocation fails if and only if no list that it may use has a block of its level or above and
  the heap cannot grow (`BuddyMalloc.Allocator.Malloc`).
- After bulk loading, the store lists every neighbour once if and only if between two copies of a
  triple, other than a type triple, the input has only further copies for the same thread
  (`BulkLoad.BulkHolds`), because `aggregate_data` removes neighbouring repetitions from the
  in-edges before it sorts them.
- The count that lets the planner call a query empty is zero if and only if no vertex meets both
  constraints and no server keeps index lists for both (`Cluster.ZeroCountIff`): index lists are
  stored, and counted, under id 0.
- Without RDMA all reads of a run are local if and only if every plan from a constant was sent to
  the server that owns the constant (`Locality.RunLocalIff`), which is where proxies send it.
- Co-running patterns on rows leaves the rows that running them would if and only if they have two
  variables, or more and `binary_search_tuple` returns what it found (`CoRun.DoCorun`). As written
  it returns nothing, so that joins on three or more variables are not defined; with one variable
  the hash join reads a second cell that is not there. The flag that turns co-run on is not part of
  a message (core/query.hpp:936-991), so an engine only ever sees it off.

Assumptions about the surroundings: reading a remote bucket and inserting it into the cache is
one step, and so is looking a cached pointer up and reading its block; all servers share one
clock; stores of one RDMA write reach memory in increasing address order, word by word; vertex
ids are at least 2^17, type and predicate ids are below and different from each other; the
reserved id 0xFFFFFFFF and id 0 are no vertices; a predicate has been counted among the triples,
the subjects and the objects, or nowhere, so that quotients of counts are numbers or 0/0.
`DynStore` takes the allocator as one that hands out free ranges; stream positions in the ring and
query counters do not wrap (`Coder` says what happens when a counter does).

## Model

| member | source | states |
|---|---|---|
| HashU64.HashThenInverse | utils/mymath.hpp:53-98 | the inverse hash undoes the hash for every 64-bit key |
| HashU64.InverseThenHash | utils/mymath.hpp:53-98 | and the other way round |
| HashU64.InverseHashIsInverse | utils/mymath.hpp:64-98 | the inverse hash undoes the seven mixing steps one by one, last first |
| HashU64.PackInjective | core/gstore.hpp:63-94 | vertex, predicate and direction within their bit widths pack without collision |
| HashU64.KeyHashInjective | core/gstore.hpp:86-94 | hence different keys have different hashes before the bucket modulus |
| Words.FloorIsMultiple | core/rdma_adaptor.hpp:77-80 | floor gives a multiple of the alignment |
| Words.FloorIsLargest | core/rdma_adaptor.hpp:77-80 | no larger multiple fits |
| Words.CeilWord | core/rdma_adaptor.hpp:83-88 | ceil to words gives the smallest multiple of 8 that is not smaller |
| Words.DecodeEncode | core/rdma_adaptor.hpp:106-107 | a length stored as a word is read back |
| RingSpec.ReserveInv | core/rdma_adaptor.hpp:217-226 | reserving under the lock keeps the ring invariant |
| RingSpec.StoreWordInv | core/rdma_adaptor.hpp:228-240 | so does storing any next word of any reserved message, writers interleaved |
| RingSpec.TakeHeaderInv | core/rdma_adaptor.hpp:106-107 | so does taking and zeroing the header |
| RingSpec.FooterWord | core/rdma_adaptor.hpp:110-117 | the footer cell holds zero until the message is complete, then the length: the spin loop's assertion |
| RingSpec.HeaderWord | core/rdma_adaptor.hpp:91-98 | the header cell is non-zero exactly when the next message has begun to arrive |
| RingSpec.TakeFooterInv | core/rdma_adaptor.hpp:118 | zeroing the footer keeps the invariant |
| RingSpec.PayloadBytes | core/rdma_adaptor.hpp:120-133 | between header and footer stand exactly the bytes that were sent |
| RingSpec.DrainInv | core/rdma_adaptor.hpp:123-148 | draining the payload and publishing the head keeps the invariant |
| RingSpec.PublishesRarely | core/rdma_adaptor.hpp:134-148 | the reader publishes its head only when it has come more than an eighth of the ring since, and then the newest |
| RingSpec.NextInv | core/rdma_adaptor.hpp:91-270 | every step keeps it: every byte outside the unread messages is zero, padding included |
| RingSpec.RunInv | core/rdma_adaptor.hpp:91-270 | it holds in every reachable state |
| RingSpec.HistoryGrows | core/rdma_adaptor.hpp:101-151 | what has been reserved and delivered stays |
| RingSpec.DeliveredInOrder | core/rdma_adaptor.hpp:101-151 | in every run the reader has got a prefix of the messages in reservation order, byte for byte |
| RingSpec.StoresOnlyOverZero | core/rdma_adaptor.hpp:217-266 | a store never hits a byte that is still to be read |
| RingSpec.FullIffOverruns | core/rdma_adaptor.hpp:158-164 | the test refuses a message exactly if one of its positions shares a cell with a position that the writers do not know to be read |
| RingSpec.CompleteMessageIsFetched | core/rdma_adaptor.hpp:91-151 | a message that is complete at the head can be fetched |
| RingSpec.DrainedQueueAccepts | core/rdma_adaptor.hpp:134-164 | once drained, the queue accepts every message of at most seven eighths of the ring |
| RingBuffer.CopyIn | core/rdma_adaptor.hpp:232-238 | copying in one or two pieces is storing at a stream position |
| RingBuffer.CopyOutAndClear | core/rdma_adaptor.hpp:123-133 | reading in one or two pieces gives the bytes at the stream position and zeroes them with their padding |
| RingBuffer.StoreAllIsOnePut | core/rdma_adaptor.hpp:228-266 | a message stored word by word is the message stored at once |
| RingBuffer.LocalFrame | core/rdma_adaptor.hpp:228-240 | a local send needs not store the padding, because it is zero |
| RingBuffer.Stage | core/rdma_adaptor.hpp:246-255 | the staged message is header, data, old bytes as padding, footer |
| RingBuffer.Ring.constructor | core/rdma_adaptor.hpp:170-197 | an all-zero ring is consistent |
| RingBuffer.Ring.TryReserve | core/rdma_adaptor.hpp:158-226 | a message is refused exactly if it would reuse a cell not known to be read, otherwise reserved |
| RingBuffer.Ring.WriteLocal | core/rdma_adaptor.hpp:228-240 | a local send is the row of store steps of its message |
| RingBuffer.Ring.WriteRemote | core/rdma_adaptor.hpp:246-266 | so is a remote send, with stale staging bytes as padding |
| RingBuffer.Ring.Check | core/rdma_adaptor.hpp:91-98 | says exactly whether a message has begun to arrive |
| RingBuffer.Ring.FetchHeader | core/rdma_adaptor.hpp:106-107 | the header step of the machine |
| RingBuffer.Ring.PollFooter | core/rdma_adaptor.hpp:109-118 | the footer step, or no change while the footer is zero |
| RingBuffer.Ring.FetchPayload | core/rdma_adaptor.hpp:120-150 | the drain step; returns the sent bytes |
| RingBuffer.Ring.DeliverHead | core/rdma_adaptor.hpp:139-147 | the published head reaching the writers |
| BuddyTiling.BuddyFacts | core/buddy_malloc.hpp:234-242 | flipping the level's bit gives the other half of the parent block |
| BuddyTiling.BuddyIsABlock | core/buddy_malloc.hpp:234-242 | in a tiled heap the buddy's place is always the start of a block, of at most the same size |
| BuddyTiling.SplitTiling | core/buddy_malloc.hpp:324-328 | splitting a block keeps the heap tiled |
| BuddyTiling.JoinTiling | core/buddy_malloc.hpp:370-381 | so does joining two free buddies |
| BuddyTiling.ExtendTiling | core/buddy_malloc.hpp:251-303 | so does growing the heap |
| BuddyTiling.FreeCoalesced | core/buddy_malloc.hpp:361-413 | freeing keeps coalescing maximal exactly if the buddy is not free |
| BuddyTiling.FreeIffMaximal | core/buddy_malloc.hpp:361-413 | a block is free exactly if it is a maximal aligned range without client blocks |
| BuddyTiling.LayoutIsDetermined | core/buddy_malloc.hpp:312-413 | the free blocks are determined by the client blocks and the heap's end: no dependence on history |
| BuddyTiling.OnlyReservedLeft | core/buddy_malloc.hpp:468-495 | after freeing everything only the reserved block splits the heap |
| FreeLists.HeadIdxInjective | core/buddy_malloc.hpp:417-462 | list heads have different places |
| FreeLists.PushLinked | core/buddy_malloc.hpp:166-213 | listing a block keeps all lists linked both ways, each block in one list |
| FreeLists.UnlinkLinked | core/buddy_malloc.hpp:215-231 | so does taking one out |
| BuddyMalloc.SizeToLevel | core/buddy_malloc.hpp:141-163 | the smallest level whose block holds the size and a header |
| BuddyMalloc.LevelForIsUnique | core/buddy_malloc.hpp:141-163 | there is one such level |
| BuddyMalloc.SplitStep | core/buddy_malloc.hpp:324-328 | headers, lists and tiling agree after a split |
| BuddyMalloc.JoinStep | core/buddy_malloc.hpp:370-381 | and after a join |
| BuddyMalloc.ClientBlocks | core/buddy_malloc.hpp:245-413 | client blocks are in the heap, above all list heads, and disjoint |
| BuddyMalloc.FailsIff | core/buddy_malloc.hpp:245-303 | a request fails exactly if no list it may use has a block of the level or above and the heap cannot grow; the heap grows exactly if no list has one and it can |
| BuddyMalloc.Allocator.constructor | core/buddy_malloc.hpp:417-466 | initialization reserves the block of the list heads and establishes the invariant, with one empty list for each small level and loading thread and no others |
| BuddyMalloc.Allocator.LargeMalloc | core/buddy_malloc.hpp:245-332 | the first block of the least level that has one, cut down to the level, all other client blocks kept; the heap grows only if there is none, and nothing changes if it cannot |
| BuddyMalloc.Allocator.SmallMalloc | core/buddy_malloc.hpp:265-359 | the same on the small side, borrowing from the large one only if the thread has no block |
| BuddyMalloc.Allocator.FreeBuddy | core/buddy_malloc.hpp:234-242 | finds the buddy exactly if it is free and whole |
| BuddyMalloc.Allocator.CoalesceUp | core/buddy_malloc.hpp:361-413 | joins as far as possible |
| BuddyMalloc.Allocator.LargeFree | core/buddy_malloc.hpp:361-385 | the block is no client block any more, all others are kept |
| BuddyMalloc.Allocator.SmallFree | core/buddy_malloc.hpp:387-413 | the same on the small side, giving whole blocks back |
| BuddyMalloc.Allocator.Malloc | core/buddy_malloc.hpp:468-480 | which block a request gets; too large, out of memory and growth of the heap exactly when; the small lists of other threads are left alone |
| BuddyMalloc.Allocator.Free | core/buddy_malloc.hpp:482-495 | undoes malloc on the set of client blocks; what is freed goes to the shared lists |
| MergeFreeLists.MergeKeepsSound | core/buddy_malloc.hpp:498-522 | the merged lists hold every free block if no shared list was overwritten |
| MergeFreeLists.ShadowedIsLost | core/buddy_malloc.hpp:498-522 | a free block of an overwritten shared list is in no list any more |
| MergeFreeLists.Merge | core/buddy_malloc.hpp:498-522 | the allocator is consistent afterwards if and only if nothing was overwritten |
| MergeFreeLists.LoadThenMerge | core/buddy_malloc.hpp:417-522 | init, any allocations of the loading threads, and merge: consistent, with every block still handed out, and none refused unless too large or the heap is at its end |
| MergeFreeLists.SharedThenMerge | core/buddy_malloc.hpp:417-522 | one allocation outside the loading threads, one inside, and merge: not consistent |
| DynStore.BlkSzStable | core/gstore.hpp:339-358 | all sizes a block ever holds put the size flag at the same place |
| DynStore.NextInv | core/gstore.hpp:180-232 | every step of writers, readers, clock and deferred frees keeps the invariant |
| DynStore.RunInv | core/gstore.hpp:339-405 | it holds in every reachable state |
| DynStore.ValidatedReadIsExact | core/gstore.hpp:361-366 | a read through a non-empty pointer that passes the size check returns the key's list of that moment |
| DynStore.InitInv | core/gstore.hpp:449-495 | the invariant holds for any loaded store to start from |
| DynStore.ListsAppend | core/gstore.hpp:449-495 | a list only ever changes by appending the element of an insert under way for its key |
| DynStore.PromiseKept | core/gstore.hpp:449-495 | no step loses or changes an element: what a key holds or is about to hold grows exactly by the inserts begun for it |
| DynStore.EndedInsert | core/gstore.hpp:454-488 | an insert that ends has appended its element |
| DynStore.ListIsAllInserted | core/gstore.hpp:449-495 | over all runs: between inserts a key's list is its first one followed by the elements of all inserts begun for it, in order |
| DynStore.InsertBegins | core/gstore.hpp:449-488 | an insert can begin whenever none is under way for its key and a block is to be had or not needed |
| DynStore.InsertGoesOn | core/gstore.hpp:454-488 | an insert under way can always take its next step |
| DynStore.InsertComesToEnd | core/gstore.hpp:454-488 | and each of its steps leaves fewer to take |
| DynStore.RunLosesNothing | core/gstore.hpp:368-405 | over all runs: a block that was given up for a larger one waits to be freed |
| DynStore.RunFreesSoon | core/gstore.hpp:368-405 | and can be freed when its lease is over |
| DynStore.OnlyListsLeft | core/gstore.hpp:368-405 | so with no insert under way and nothing waiting, the blocks handed out are exactly those of the non-empty lists |
| DynStore.ReadExactIff | core/gstore.hpp:599-688 | over all runs: exact if and only if the pointer's size is not 0 or the size in the table is 0 |
| DynStore.FreshPointerPasses | core/gstore.hpp:665-684 | a retry with a pointer read anew between inserts passes |
| DynStore.StaleEmptyRead | core/gstore.hpp:449-462 | a run in which a cached empty pointer passes the check although the list is not empty |
| HashTable.WrittenOk | core/gstore.hpp:293-297 | filling the first free slot keeps chains dense, disjoint and free of repetition |
| HashTable.GrownOk | core/gstore.hpp:300-318 | so does linking a new overflow bucket, whose id is larger than all on the chain |
| HashTable.RefinesWrite | core/gstore.hpp:266-325 | a written entry is a binding of the map that the table stands for |
| HashTable.FullChain | core/gstore.hpp:277-318 | a chain is full exactly if the keys of its home, seven to a bucket, fill its buckets |
| HashTable.DemandMore | core/gstore.hpp:300-318 | a new key takes an overflow bucket exactly if its home is full, so that the number taken does not depend on the order |
| HashTable.VertexTable.constructor | core/gstore.hpp:869-883 | an empty table stands for the empty map |
| HashTable.VertexTable.InsertKey | core/gstore.hpp:266-325 | adds exactly the key, with an overflow bucket exactly if its home is full; fails exactly for a duplicate to be reported, or for a new key when its home is full and overflow buckets are used up |
| HashTable.VertexTable.CheckKeyExist | core/gstore.hpp:415-447 | says exactly whether the key is there |
| HashTable.VertexTable.GetVertexLocal | core/gstore.hpp:641-661 | returns the pointer last stored for the key, not-found for every other key |
| HashTable.VertexTable.SetPtr | core/gstore.hpp:918-921 | stores a key's pointer and changes no other binding |
| HashTable.VertexTable.UsedSlots | core/gstore.hpp:1012-1019 | scanning the buckets meets every key exactly once |
| GStore.Server.AllocEdges | core/gstore.hpp:515-527 | hands out ranges one after the other, refuses when the region would be used up |
| GStore.Server.PutList | core/gstore.hpp:914-925 | stores a list under a new key; no two lists overlap and no other list changes; which space it takes, and exactly when there is none |
| GStore.Server.GetEdgesLocal | core/gstore.hpp:692-705 | returns exactly the list stored |
| Aggregate.DedupTriples | core/dgraph.hpp:146-160 | in place, drops the triples that repeat their predecessor |
| Aggregate.DedupSorted | core/dgraph.hpp:146-160 | on sorted input nothing is left twice |
| Aggregate.CopiesKept | core/dgraph.hpp:453-457 | removing equal neighbours leaves an in-edge once for each run of copies |
| Aggregate.AggregateData | core/dgraph.hpp:418-458 | a thread's edges are exactly those of its own vertices, sorted; out-edges once, an in-edge as often as its triple begins a new run in the thread's part of the input, so once if and only if between two copies there is nothing else for the thread |
| Aggregate.RepeatedTripleStays | core/dgraph.hpp:453-457 | three triples for which an in-edge comes out twice |
| BulkLoad.SkipTypes | core/gstore.hpp:889-893 | the skipped prefix is exactly the in-edges of types |
| BulkLoad.InsertArcs | core/gstore.hpp:906-925 | every run becomes one list with exactly its elements, and no key conflicts |
| BulkLoad.LoadNormal | core/gstore.hpp:889-1000 | a server has exactly the lists of its own vertices, also for repeated triples; which elements are repeated; exactly when space runs out |
| BulkLoad.ScanTable | core/gstore.hpp:1012-1066 | the scan collects every type and predicate entry exactly once |
| BulkLoad.InsertIndexMap | core/gstore.hpp:535-549 | every index list is stored under its own key, or exactly when not |
| BulkLoad.InsertIndex | core/gstore.hpp:1002-1095 | each index lists exactly the qualifying vertices of the server, once, or exactly when not |
| BulkLoad.LoadServer | core/gstore.hpp:889-1095 | from an empty store: done, with all of the above, if and only if the entries that the triples need are fewer than there are (or none) and their keys' overflow buckets suffice, both computed from the triples; never a key conflict |
| BulkLoad.EnoughForAll | core/gstore.hpp:515-527 | five entries and four overflow buckets for each triple are always enough |
| BulkLoad.LoadedKeys | core/gstore.hpp:889-1095 | a loaded server has all the keys counted there |
| BulkLoad.LoadedHolds | core/gstore.hpp:1552-1563 | servers that have loaded hold the graph, every lookup returning exactly the neighbours or instances once, if and only if no in-list repeats an element |
| BulkLoad.BulkHolds | core/dgraph.hpp:418-458 | after bulk loading they do if and only if the input has nothing for the same thread between copies of a triple |
| DynamicLoad.DynServer.InsertVertexEdge | core/gstore.hpp:449-495 | appends, says whether the key is new and whether the element was there |
| DynamicLoad.DynServer.InsertTripleOut | core/gstore.hpp:1098-1162 | every list is the one before with what the triple brings appended, unless it is there and repetition is checked; lists and indexes stay exact |
| DynamicLoad.DynServer.InsertTripleIn | core/gstore.hpp:1164-1198 | the same for the object's side |
| DynamicLoad.DynServer.DynamicLoad | core/dgraph.hpp:637-652 | any sequence of triples, with repetitions, onto any loaded server: every list is the one before followed by what arrived for it, in order |
| DynamicLoad.TakeMeans | core/gstore.hpp:449-495 | that is, all of it without checks; with checks, what is new, once |
| DynamicLoad.LoadedIsDyn | core/gstore.hpp:1098-1198 | a loaded server is ready for inserts |
| DynamicLoad.DynIsLoaded | core/gstore.hpp:1098-1198 | with checks for repetition the outcome is a loaded server without repetition |
| DynamicLoad.InsertInto | core/dgraph.hpp:637-652 | inserting any triples into a server loaded with others leaves it loaded with all of them |
| DynamicLoad.InsertAll | core/dgraph.hpp:637-652 | so does filling an empty server by inserts only |
| DynamicLoad.IntegrityHolds | core/gstore.hpp:1206-1307 | the integrity that gstore_check tests holds after any inserts, checked for repetition or not |
| Query.StepSolutions | core/engine.hpp:359-588 | one exploration step turns the solutions of a pattern group into those of one more pattern |
| Query.ExploreSolutions | core/engine.hpp:359-588 | exploring a plan gives exactly its solutions, each once (section 18.3 of SPARQL 1.1 Query Language) |
| Table.FlatInjective | core/query.hpp:349-370 | the flat vector and the number of columns determine the rows |
| Table.FlatAt | core/query.hpp:361-364 | cell (r, c) is at position r * columns + c |
| Table.V2cAdd | core/query.hpp:311-322 | the column map after a new variable |
| Engine.Request.Var2Col | core/query.hpp:297-308 | the variable's column, or none |
| Engine.Request.GetRowNum | core/query.hpp:349-359 | the number of rows, zero without columns |
| Engine.Request.AppendRowTo | core/query.hpp:366-369 | copies exactly one row |
| Engine.Worker.KnownToUnknown | core/engine.hpp:359-425 | the flat table afterwards is the exploration step, despite the reuse of the last vertex's edges |
| Engine.Worker.KnownToKnown | core/engine.hpp:472-526 | keeps exactly the rows whose object is a neighbour |
| Engine.Worker.KnownToConst | core/engine.hpp:530-588 | keeps exactly the rows whose start has the constant as neighbour |
| Engine.Worker.IndexToUnknown | core/engine.hpp:229-261 | starts from this thread's slice of the index list |
| Engine.Worker.ConstToUnknown | core/engine.hpp:306-325 | starts from the neighbours of the constant |
| Engine.Request.StartFromIndex | core/query.hpp:583-605 | an index start, a failed assertion or neither, from the first pattern |
| Engine.Worker.ExecuteOnePattern | core/engine.hpp:931-1074 | fails exactly if the start fails its assertion; otherwise no unsupported case is reached and the rest of the plan still leads to the same table |
| Engine.Worker.GenerateSubQuery | core/engine.hpp:756-791 | each server gets exactly the rows whose start vertex it owns |
| Engine.Worker.NeedForkJoin | core/engine.hpp:794-807 | never on one server, always without RDMA, otherwise from the threshold on |
| ForkJoin.RunIsExplore | core/engine.hpp:1492-1520 | for any fork decisions at any step and any reply orders the joined rows are those of one-node execution |
| ForkJoin.CountIsRows | core/query.hpp:440-461 | a blind run reports exactly that number of rows |
| ForkJoin.SlicesPartition | core/engine.hpp:244-254 | the slices of an index list, one after the other, are the list |
| ParallelStart.AllSlicesIff | core/engine.hpp:1476-1485 | the copies take all slices if and only if thread numbers do not wrap or mt_factor divides the engine count |
| ParallelStart.SlicesClashExample | core/engine.hpp:1479-1480 | two copies on three engines that take the same half |
| ParallelStart.IndexQuerySolutions | core/engine.hpp:1463-1490 | an index query over all servers and threads ends with exactly its solutions |
| ParallelStart.ConstQuerySolutions | core/engine.hpp:306-325 | so does a query from a constant |
| ParallelStart.CountCopiesIsRows | core/engine.hpp:1500-1502 | the copies' blind counts add up to the number of rows |
| CoRun.InExplore | core/engine.hpp:881-886 | a row is found by a sub-query exactly if it starts from a given row and satisfies every pattern |
| CoRun.SemiJoin | core/engine.hpp:892-922 | looking a row's cells up in the sub-result tells whether it satisfies the patterns |
| CoRun.ExploreRenamed | core/engine.hpp:829-856 | the renamed sub-plan finds the same rows |
| CoRun.MakeSubPlan | core/engine.hpp:824-856 | the sub-plan is the renamed patterns, its columns the variables in order of appearance |
| CoRun.UniqueValues | core/engine.hpp:817-822 | the different values of the column |
| CoRun.RunSubQuery | core/engine.hpp:858-886 | the sub-query's table is its exploration |
| CoRun.JoinSorted | core/engine.hpp:892-906 | sort and search keep exactly the matching rows |
| CoRun.JoinHashed | core/engine.hpp:907-922 | so does the hash join of two variables |
| CoRun.DoCorun | core/engine.hpp:809-929 | co-running leaves the same rows in the same order as running the patterns one by one, exactly if there are no rows or the join is defined |
| CoRun.ExecutePatterns | core/engine.hpp:1459-1520 | with or without co-run: runs to the end with the plan's table, or splits into the owners' rows with the rest of the plan still leading to it; what it ran is the exploration of those patterns; it splits after the first pattern whose rows are enough, and only then; one pattern at a time without RDMA; fails exactly if the start does |
| TupleSort.CompareTuple | utils/mymath.hpp:130-141 | compares rows of flat tables lexicographically |
| TupleSort.SwapTuple | utils/mymath.hpp:143-146 | exchanges two rows in place |
| TupleSort.Partition | utils/mymath.hpp:152-160 | smaller rows before the pivot, the others after, same rows |
| TupleSort.QsortTupleRecursive | utils/mymath.hpp:148-163 | sorts a range and moves nothing else |
| TupleSort.QsortTuple | utils/mymath.hpp:189-191 | the sorted table is a permutation of the rows |
| TupleSort.BinarySearchTuple | utils/mymath.hpp:165-187 | finds exactly the rows that are there |
| UnionMerge.InsertBlankCol | core/query.hpp:386-398 | every row gets one blank cell at the place |
| UnionMerge.Merged.MergeUnion | core/query.hpp:401-438 | adds exactly the part's solution mappings; column map, columns and stride stay consistent |
| UnionMerge.MergeAll | core/engine.hpp:83-84 | all parts: the multiset union of their mappings (section 18.5 of SPARQL 1.1 Query Language) |
| UnionMerge.AllMappingsSwap | core/engine.hpp:75-92 | in any order |
| Coder.DecodeOwner | core/coder.hpp:59-65 | an id decodes to the server and thread that gave it out |
| Coder.OwnersDiffer | core/coder.hpp:43-65 | different threads never give out the same id |
| Coder.IdSource.constructor | core/coder.hpp:43-46 | a thread's first id |
| Coder.IdSource.GetAndIncQid | core/coder.hpp:52-57 | ids grow until the counter wraps, and always decode to their giver |
| ForkProtocol.NextInv | core/engine.hpp:1471-1545 | every step of the protocol keeps its invariant |
| ForkProtocol.RunInv | core/engine.hpp:1471-1622 | it holds in every run |
| ForkProtocol.CountIsUnmerged | core/engine.hpp:62-80 | a parent's count is the number of its parts not merged yet |
| ForkProtocol.AnswerFindsParent | core/engine.hpp:75-77 | an answer arrives where its parent's only entry is, or answers a proxy |
| ForkProtocol.NewEntryIsNew | core/engine.hpp:62-66 | a new entry's number is not in use |
| ForkProtocol.SomethingToHandle | core/engine.hpp:1531-1540 | while a task is left, one is not waiting |
| ForkProtocol.ResumedOnce | core/engine.hpp:94-116 | no parent resumes twice in any run; that it resumes is Progress.EveryParentResumesOnce |
| ForkProtocol.AnswersAreRight | core/engine.hpp:1523-1622 | in every run a proxy's query is answered with exactly the rows it stands for |
| ReplyMap.AppendAllRepresents | core/query.hpp:440-461 | merging answers one by one gives all their rows, or their number |
| ReplyMap.Replies.PutParentRequest | core/engine.hpp:62-73 | a new entry |
| ReplyMap.Replies.PutReply | core/engine.hpp:75-92 | one answer fewer missing, its result appended |
| ReplyMap.Replies.GetMergedReply | core/engine.hpp:98-118 | the merged result; the entry is gone |
| ReplyMap.Replies.Collect | core/engine.hpp:62-118 | a query's whole stay in the map, ready exactly after its last answer |
| Distributed.SharesAddUp | core/engine.hpp:756-791 | rows split over servers produce together what the query must |
| Distributed.CopiesAddUp | core/engine.hpp:1463-1490 | so do the copies of an index query |
| Distributed.EngineStepRight | core/engine.hpp:1459-1520 | what engines do in place, finish or split always stands for the same rows |
| Distributed.RequestAdvances | core/engine.hpp:1492-1520 | the engine's loop over patterns is a number of patterns run in place, as the cluster's steps have it |
| Distributed.NewRequestAdvances | core/engine.hpp:1492-1520 | also for a request that has just begun, from an index slice or a constant |
| Distributed.ClusterRunIsRun | core/engine.hpp:1459-1622 | a run of engines is a run of the protocol: every finish and split along it is right, with no assumption on values |
| Distributed.PlanMayBeSubmitted | core/planner.hpp:531-541 | what the planner returns may be submitted exactly unless its start fails; never if every constant is bad, always if none is |
| Distributed.AnswerIsSolution | core/engine.hpp:1459-1622 | in every run of the cluster a plan is answered with exactly its solutions |
| Distributed.QueryIsAnswered | core/engine.hpp:1459-1622 | so is a query for which it is a plan |
| Progress.QueryCanBeHandled | core/engine.hpp:1492-1520 | whatever number of patterns the engine runs before it splits, a query under way can be handled by such a step |
| Progress.SomeStepIsPossible | core/engine.hpp:1459-1622 | in every reachable state with anything under way and counters not used up some step of the cluster is possible, even with a split after every pattern: no deadlock |
| Progress.StepUsesWork | core/engine.hpp:1459-1622 | every step but a submission uses up part of a finite amount of work |
| Progress.RunEnds | core/engine.hpp:1459-1622 | without submissions a run takes no more steps than there is work |
| Progress.EveryQueryIsAnswered | core/engine.hpp:1459-1622 | where no step but a submission is left, every query submitted has been answered with exactly its solutions |
| Progress.EveryParentResumesOnce | core/engine.hpp:94-116 | and every query that was ever split has been resumed exactly once |
| Locality.RestLocalIff | core/gstore.hpp:1552-1557 | a pattern run on rows reads locally exactly if the server owns the vertex each row goes on from |
| Locality.Handle | core/engine.hpp:1459-1520 | what the engine's code does with a request, co-run included, is the cluster's step, after exactly one pattern without RDMA; it fails to start exactly on what is no plan |
| Locality.RunPartsLocal | core/engine.hpp:756-791 | in every run, RDMA or not, the first pattern of every part and copy reads locally |
| Locality.PlanWasSubmitted | core/proxy.hpp:169-176 | a plan under way is where its proxy sent it |
| Locality.RunLocalIff | core/gstore.hpp:599-606 | without RDMA all reads of a run, first ones included, are local if and only if every plan from a constant went to the constant's owner |
| Locality.NothingReadRemotely | core/proxy.hpp:169-176 | so with the proxies' choice of server nothing is read remotely in any run |
| Blind.RunIsCounted | core/query.hpp:440-461 | in every run the counts that blind answers carry are those of the rows |
| Blind.BlindAnswerIsNumber | core/query.hpp:440-461 | in every run a blind plan is answered with the number of its solutions |
| Plans.PlanMeansQuery | core/planner.hpp:142-320 | a plan and its query are satisfied by the same assignments |
| Plans.PlanSolvesQuery | core/planner.hpp:142-320 | a plan's solutions are the query's |
| Plans.PlanBinds | core/planner.hpp:123-325 | a path binds every variable, and is a plan that can be run exactly unless its start fails |
| Plans.EveryPathRunsIff | core/query.hpp:583-605 | every path of a connected query can be run exactly if no triple has a bad constant |
| Plans.SomePathRunsIff | core/query.hpp:583-605 | some path can exactly if the query is connected and some triple has no bad constant |
| Plans.PlanLength | core/planner.hpp:123-325 | every triple once, and at most one pattern more |
| Plans.PlanConnected | core/planner.hpp:531-541 | only connected queries have a plan |
| Plans.ConnectedExtends | core/planner.hpp:255-320 | in a connected query every partial path can be extended |
| MinStack.LastMinimum | core/planner.hpp:91-97 | the last of the running minima is the smallest element |
| MinStack.MinimumMaintenance.Push | core/planner.hpp:74-85 | a push on the stack |
| MinStack.MinimumMaintenance.Pop | core/planner.hpp:86-90 | undoes the last push |
| MinStack.MinimumMaintenance.Top | core/planner.hpp:91-97 | a smallest element |
| Planner.Search.NewAddSelectivity | core/planner.hpp:382-433 | pushes the triple's constraints and records the variables |
| Planner.Search.UnaddSelectivity | core/planner.hpp:435-446 | pops exactly the variables recorded last |
| Planner.UndoPick | core/planner.hpp:382-446 | together they leave all stacks as they were |
| Planner.Search.ComPrune | core/planner.hpp:328-380 | looks up the count kept for the two constraints, whichever way round, and claims emptiness exactly if it is zero |
| Planner.Search.ComTraverse | core/planner.hpp:123-325 | leaves path and stacks as they were; the best path is a plan, costs what is recorded, and no more than any complete path the search can get to; it stops exactly at a first path that is small; a connected query with counted predicates gets one |
| Planner.CheapestUnlessShadowed | core/planner.hpp:276-280 | for costs that are not negative: the plan costs no more than any path for the query, except where the path takes the second direction of a triple whose first direction alone costs more than the plan |
| Planner.OneTripleCheapest | core/planner.hpp:133-136 | for a triple of two variables the plan is the cheaper of the two index starts |
| Planner.FirstIsOne | core/planner.hpp:123-325 | the first complete path is determined by the query |
| Planner.StackFits | core/planner.hpp:168-172 | in which states of the search a stack of twice the number of triples is enough, exactly |
| Planner.GenerateForPatterns | core/planner.hpp:472-541 | a reason for emptiness, or a plan exactly if the query is connected and its predicates are counted; emptiness must be found if any two triples clash; the plan is the first path if that is small, otherwise the cheapest that can be got to; when its path can be run; a stack is overrun exactly if all triples are loops on one variable |
| Planner.IndexConstantFails | core/query.hpp:598-601 | a query whose only path fails to start |
| Statistics.CollectPreds | core/gstore.hpp:1606-1674 | the predicates of each vertex, types included |
| Statistics.CountVertex | core/gstore.hpp:1685-1718 | counts every pair of predicates on a vertex, in order |
| Statistics.GenerateStatistic | core/gstore.hpp:1606-1720 | the counts of one server are those of all ids in its table, each once |
| Statistics.GatherStat | core/data_statistic.hpp:80-126 | the sum over the servers |
| Statistics.CountIsTotal | core/gstore.hpp:1685-1718 | the count looked up is the sum, over servers and ids, of the products of how often an id has each of the two |
| Statistics.CountIsNumber | core/gstore.hpp:1685-1718 | for ids that have each at most once, that is the number of ids that have both |
| Statistics.ZeroIffNone | core/planner.hpp:328-380 | the count looked up is zero exactly if no id of the tables, id 0 of the index lists included, has both |
| Statistics.EmptyIsSound | core/planner.hpp:377-378 | a query called empty has no solution |
| Cluster.EmptyQueryHasNoSolution | core/planner.hpp:521-525 | the same, for statistics made from the loaded tables |
| Cluster.ScanSlots | core/gstore.hpp:1606-1618 | the slots found by scanning a server's buckets are those of its lists |
| Cluster.MakeStatistics | core/gstore.hpp:1606-1720 | from the servers' tables to statistics that call only unsatisfiable queries empty |
| Cluster.ZeroCountIff | core/gstore.hpp:1606-1674 | for loaded tables: zero exactly if no vertex meets both constraints and no server keeps index lists for both |
| Cluster.LoadedQueryIsAnswered | core/engine.hpp:1459-1622 | in every run, a planned query over the loaded triples is answered with exactly its solutions |
| Cluster.LoadedQueryGetsAnswer | core/engine.hpp:1459-1622 | and once no step but a submission is left it has been |
| Cluster.SubmittedCanRun | core/proxy.hpp:237 | a query is only submitted with a path that can be run, so never if all its constants are bad |

## Left out

- RDMA verbs, ZeroMQ, MPI, file and HDFS loading, console, configuration, logging: foreign calls and wrappers; RDMA reads and writes are memory steps here.
- The SPARQL lexer and parser, and string mappings.
- OPTIONAL, FILTER, DISTINCT, ORDER BY, OFFSET and LIMIT; vertex attributes; patterns with an unknown predicate; the query emulator. Fork-join is modelled for groups of triple patterns, UNION only in its merge.
- `index_to_known` and `const_to_known`, which only UNION and OPTIONAL groups use.
- Work stealing of answers: a query may be handled by any engine of the server it was sent to, an answer only by the thread that waits for it.
- Locks: the allocator, the hash table and loading are sequential; the dynamic store and the ring are machines of atomic memory steps.
- `sz_to_blksz` shifts an int: block sizes are mathematical powers of two here.
- The sentinel's backward link after `merge_freelists`: list consistency does not mention it.
- Type patterns other than `?x type T` with a type T: for `?x type ?y` the planner starts from (1, 0, IN, ?x), which the engine takes for an edge of vertex 1, and backwards type edges are not stored.
- Wrap-around of 64-bit stream positions and of statistics counts, and the 32-bit plan mask.
- Rounding and overflow of costs: they are real numbers given by an arbitrary function, or not a number; the selectivities on the stacks are real numbers.
- Usage counters and memory reports of the allocator and the store.
- Planner.Search: a variable's stack is a sequence here; `MinStack` shows separately that the two arrays implement it, and a flag is raised by every push beyond their size.
- Optimality over all paths: false, because a first direction that costs too much hides the second one of the same triple (core/planner.hpp:276-280); `Planner.CheapestUnlessShadowed` says for which paths it holds.
- TupleSort.BinarySearchTuple: returns the recursive result, which the code computes and drops (utils/mymath.hpp:184-187); `CoRun.DoCorun` takes the difference into account.
- DynamicLoad.DynServer.InsertVertexEdge: lists are values; the stores that grow a list in memory are the steps of `DynStore`.
- Engine.Request.GetRowNum: does not model attribute columns.
