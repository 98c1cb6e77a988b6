# LeoMem, verified

LeoMem is a software distributed shared memory. A client calls `lm_malloc`,
`lm_read`, `lm_write` and `lm_fence`; behind these calls sit a write-combining
queue per destination, a byte-bounded LRU shadow cache, per-block profiling and
coherence modes with ownership records, and a control protocol of requests,
acknowledgements and retries. All of it is meant to be invisible: a fast form of
a flat byte memory.

The project models this data plane over the stub transport and proves what it
keeps. It has three layers.

* **Steps.** `Access` gives each call as a function from node state to node
  state. Hash tables may be walked in any order: a schedule carried by the call
  proposes the order, every theorem is for all schedules. `After(cfg, calls)` is
  the state after any run of calls, restarts included, and the run theorems
  quantify over all configurations and all runs.
* **Theorems.** Flat-memory refinement, batching, no thin-air reads, ownership,
  profiling and counter conservation, admission bound, timeouts, allocation; the
  multi-node ack protocol; the printer/parser round trips. Where a promise fails,
  `Exactness`, `WriteCombining`, `Fences` and `AckProtocol` say exactly when,
  and `Necessity` has a run for every condition.
* **Objects.** `AckTable`, `CacheManager`, `DsmAllocator`, `StubTransport`,
  `BlockTable` and `LeoMem` update their fields in place, loop by loop as the
  code does, and every method is proved to carry out its step of the first
  layer. `Session` puts the two together: its `Read`, `Write` and `Fence`
  promise the run theorems for any interleaving of calls on the object.

What the main results say, in the system's own terms:

* **Flat memory.** Take any run whose remote writes are in range, overlap no
  queued entry behind their merge target and leave no cached entry that shares a
  byte with them. All its reads, hits and misses, return the bytes last written
  in program order, whatever the homes, threshold, modes, admission policy,
  capacity and evictions, iff every missed read fetches current bytes: its home
  answers and no pending write would change the range, or a third node answers
  and happens to hold the bytes (`ReadsCurrentIff`). A client gets all this from
  its own calls and the configuration: remote ranges equal or disjoint (or
  nothing ever cached), one home per block index, and nothing queued between
  calls or a fence between writing a range and reading it (`RulesSuffice`).
* **Batching.** If remote writes are in range and overlap no entry behind their
  merge target, a fence succeeds and leaves home memory as if every write had
  been replayed in program order. With `remote_write_batch_threshold <= 2` the
  second condition always holds, however writes overlap; with larger thresholds
  it holds for footprints equal or a byte apart, and equal-or-disjoint is not
  enough. One merge step preserves meaning for all payloads iff the condition
  holds. In every run, whatever the writes, a fence succeeds iff every pending
  queue fits its home region; each destination is emptied with exactly its
  requests before the first one out of range replayed, or, only when the fence
  failed, left untouched (`FenceDelivers`).
* **Thin air.** For all thresholds, modes, overlaps, range errors and failed
  flushes, every byte read is zero or was written to that offset of some home;
  with one home per block index, of that very home.
* **Profiling and ownership.** In every run the whole profile of every block,
  mode included, is a count over the list of its accesses (`AlwaysReflects`); a
  missed read is admitted iff every covered block passes a test on these counts
  (`AdmittedIff`). The owner of every block is read off the calls: the node named
  by the last ownership-moving call, else the home first asked, else none
  (`OwnerIs`).
* **Side effects of a write.** In every run a remote write sends an invalidation
  iff a covered block is in WI mode and an ownership transfer iff one is taken
  over, tracks exactly these (`WriteAnnounces`), and drains its destination iff
  a block is in WI mode or the queue has reached the thresholds of the
  configuration (`FlushedIff`). `ReadAdds`, `WriteAdds`, `OtherWriteAdds` and
  `MallocAdds` give every counter, `ReadStatus` and `WriteStatus` every status.
* **Allocation.** In every run `lm_malloc` succeeds iff the size, in whole blocks,
  fits behind what was granted since the last restart, and returns the first
  free byte (`MallocIs`).
* **Control.** Over the stub no call ever times out. A lone request times out on
  exactly its (R+1)(P+1)-th poll. Over a mailbox that loses, duplicates and
  reorders, a tracked request of a node that has not restarted is handled before
  it stops being pending.

Places where the code keeps less than one might expect, kept as the code has
them, each with a run and the exact condition:

* A read behind the queue is admitted to the cache with the old bytes, and no
  flush or fence removes them: a read after a successful fence can be stale
  (`StaleAfterFence`). An entry is current iff what the admitting read fetched
  was current (`EntryCurrentIff`).
* An owner-biased write is cached before its delivery is known to succeed, so a
  write refused as out of range can be read back (`RejectedWriteIsReadBack`).
  A read of its range succeeds iff the write cached itself (batching is on, the
  payload fits the cache and a block of the range is in Adaptive mode) or a
  cached range contains it; it returns the written bytes in the first case, the
  containing entry's in the second, which needs an out-of-range entry
  (`RefusedWriteReadBackIff`, `CachesItselfIffAdaptive`).
* An out-of-range write can be merged with an in-range one; both return Ok, the
  fence fails and loses both (`MergedWriteIsLost`). A fence that fails at one
  home can leave the writes for another queued (`FailedFenceSkipsHomes`).
  `FenceDelivers` says exactly what is delivered.
* Block records do not know their home: a missed read is answered by a third
  node iff all its blocks are validated and record that node as owner and the
  node has the range (`SharedBlockIndexMisdirects`, `MissAnswered`). The answer is
  admitted under the home's key and outlives the guard
  (`MisdirectedEntryLasts`): while resident an entry holds the owner's bytes of
  its admission if the guard held then, and the home's if not (`EntryBytesIff`).
* Request ids restart at 1 with Init: a restart is ack-safe iff the node posted no
  request in any earlier life, because the mailbox may still deliver every
  request ever posted (`StaleAckAfterRestart`, `RestartSafeIff`).

Large invariants are written `var ok := ...; ok`, so that the solver proves and
uses them as one fact instead of conjunct by conjunct.
`hide` statements only withhold definitions from the solver, to keep proofs
quick.

## Model

| member | source | states |
|---|---|---|
| `WriteCombining.MergeIsUnion` | src/memory/cache/cache_manager.cc:364-394 | a merged write covers exactly the union of both footprints; the newer payload wins where it reaches and no zero fill survives |
| `WriteCombining.MergeTarget` | src/memory/cache/cache_manager.cc:249-258 | the merge goes to the first entry the write touches, and only if one touches |
| `WriteCombining.EnqueueByte` | src/memory/cache/cache_manager.cc:249-262 | byte by byte, what replaying the queue gives after a write was queued |
| `WriteCombining.MergeStepPreserves` | src/memory/cache/cache_manager.cc:249-262 | replay after queueing equals replay, then the write, when no entry behind the merge target overlaps it |
| `WriteCombining.MergeStepExact` | src/memory/cache/cache_manager.cc:249-262 | for a given payload this holds iff later overlapping entries agree with it |
| `WriteCombining.MergeStepTight` | src/memory/cache/cache_manager.cc:249-262 | for all payloads of a footprint it holds iff no later entry overlaps |
| `WriteCombining.SeparatedStays` | src/memory/cache/cache_manager.cc:249-262 | a pairwise separated queue stays separated when the write touches at most one entry |
| `WriteCombining.ShortQueueIsSafe` | src/memory/cache/cache_manager.cc:249-262 | queues of at most one entry always keep their meaning |
| `WriteCombining.MergeReordersWitness` | src/memory/cache/cache_manager.cc:249-258 | entries [0,8) and [16,24), then [4,20): byte 16 is replayed out of order |
| `WriteCombining.AdjacentRewriteWitness` | src/memory/cache/cache_manager.cc:249-258 | with three entries allowed even equal-or-disjoint writes are replayed out of order |
| `WriteCombining.QueueIsPartition` | src/memory/cache/cache_manager.cc:249-262 | each write is in exactly one entry; an entry covers what one of its writes covers, each byte is the latest, it is owner-biased or handed off iff one of them is, and its mode is the least of theirs |
| `LruCache.FitIsLongestPrefix` | src/memory/cache/cache_manager.cc:348-362 | eviction removes exactly the shortest tail that makes room |
| `LruCache.RefreshNeverEvicts` | src/memory/cache/cache_manager.cc:174-181 | re-inserting a resident key keeps the byte count and evicts nothing |
| `LruCache.InsertKeeps` | src/memory/cache/cache_manager.cc:163-191 | insertion keeps unique keys, payload sizes and the capacity, puts the entry in front and adds nothing else |
| `LruCache.DropKeeps` | src/memory/cache/cache_manager.cc:193-217 | invalidation keeps unique keys, payload sizes and the capacity |
| `LruCache.TouchKeeps` | src/memory/cache/cache_manager.cc:343-346 | a hit only reorders |
| `LruCache.TouchIs` | src/memory/cache/cache_manager.cc:343-346 | a hit moves its entry to the front and keeps the order of the others |
| `LruCache.InsertIs` | src/memory/cache/cache_manager.cc:163-191 | an entry that does not fit changes nothing; a resident key is refreshed in front; a new one goes in front of the longest run of recent entries that fits with it |
| `LruCache.Inclusion` | src/memory/cache/cache_manager.cc:163-217 | stack property: over any trace of insertions and invalidations that fit, the smaller cache is a prefix of the larger, payloads included |
| `LruCache.LookupInclusion` | src/memory/cache/cache_manager.cc:132-161 | a lookup, served by the exact key or any containing entry, keeps the prefix iff both caches serve the same key, both miss, or the smaller is empty |
| `CacheManagers.CacheManager.TouchLocked` | src/memory/cache/cache_manager.cc:343-346 | list, map and counter keep agreeing; the abstract cache is touched |
| `CacheManagers.CacheManager.EvictIfNeededLocked` | src/memory/cache/cache_manager.cc:348-362 | keeps the longest prefix that fits, counts each eviction; the missing-victim branch is unreachable |
| `CacheManagers.CacheManager.TryReadCached` | src/memory/cache/cache_manager.cc:132-161 | the exact key or any containing entry is served and touched, in any map order; otherwise a miss |
| `CacheManagers.CacheManager.InsertCached` | src/memory/cache/cache_manager.cc:163-191 | list, map and counter keep agreeing with the abstract insertion; the resize branch is unreachable |
| `CacheManagers.CacheManager.Invalidate` | src/memory/cache/cache_manager.cc:193-201 | drops exactly the one key and reports how many went |
| `CacheManagers.CacheManager.InvalidateRange` | src/memory/cache/cache_manager.cc:203-217 | drops exactly the overlapping entries, in any map order, and reports how many went |
| `CacheManagers.CacheManager.ObserveAccess` | src/memory/cache/cache_manager.cc:51-99 | one access moves the epoch by one and updates the shared record as the profile does, which `ProfileTraces.AlwaysReflects` equates with counts over the accesses |
| `CacheManagers.CacheManager.QueueRemoteWrite` | src/memory/cache/cache_manager.cc:231-263 | the queue becomes the merged queue, and `merged` says whether a touching entry existed |
| `CacheManagers.CacheManager.ShouldFlushDestination` | src/memory/cache/cache_manager.cc:265-270 | due iff at least max(1, threshold) writes wait |
| `CacheManagers.CacheManager.DrainRemoteWrites` | src/memory/cache/cache_manager.cc:272-284 | hands out the whole queue with its total payload bytes and leaves none |
| `CacheManagers.CacheManager.EffectiveBatchThreshold` | src/memory/cache/cache_manager.cc:219-229 | 1 for WI, otherwise the configured threshold of the mode, but at least 1 |
| `Profiling.ObserveBounded` | src/memory/cache/cache_manager.cc:51-99 | one access keeps the per-block bounds |
| `Profiling.PromotionIsIrreversible` | src/memory/cache/cache_manager.cc:313-341 | past a promotion threshold the next decision is never SI, and the block stays past it |
| `Profiling.DeadTests` | src/memory/cache/cache_manager.cc:101-130 | on an accessed block the empty-window tests and the last admission conjunct never decide |
| `Profiling.AdvanceConserves` | src/memory/cache/cache_manager.cc:51-99 | counting one access keeps both conservation laws |
| `ProfileTraces.DecisionIs` | src/memory/cache/cache_manager.cc:313-341 | without override, by cross-multiplication on the counters: WI iff writes or phase changes reach their share of the window, else Adaptive iff sharers or invalidations reach their threshold, else SI |
| `ProfileTraces.ObserveReflects` | src/memory/cache/cache_manager.cc:51-99 | one access keeps every counter equal to its count over the accesses, and mode and switches equal to what they call for |
| `ProfileTraces.AlwaysReflects` | src/memory/cache/cache_manager.cc:51-99 | in every run the whole profile of every block is what its accesses since the last restart call for |
| `ProfileTraces.AlwaysDecided` | src/memory/cache/cache_manager.cc:313-341 | in every run without override the mode of every accessed block follows its counters by that rule |
| `ProfilingRuns.AlwaysConserved` | src/memory/cache/cache_manager.cc:51-99 | in every run accesses sum to the epoch, and those in the current window to ((epoch-1) mod W)+1 |
| `ProfilingRuns.AlwaysBounded` | src/memory/cache/cache_manager.cc:51-130 | in every run phase changes, invalidation cost and sharers are bounded by window total, writes and reads, and without override a block past a promotion threshold is not in SI mode |
| `ProfilingRuns.PromotionLasts` | src/memory/cache/cache_manager.cc:313-341 | without override a block past a promotion threshold stays past it and never returns to SI, whatever calls follow, until a restart |
| `ProfilingRuns.DeadTestsInRuns` | src/memory/cache/cache_manager.cc:101-130 | those tests never decide for any block accessed in any run |
| `ProfilingRuns.AlwaysCounted` | src/api/access_api.cc:394-444 | in every run mode counts sum to the epoch and remote reads are hits + admissions + rejections |
| `Admission.AdmissionBound` | src/memory/cache/cache_manager.cc:122-129 | a block read only remotely is admitted by at most max(0, max_sharers - min_reads + 1) reads |
| `AdmissionRules.TestIs` | src/memory/cache/cache_manager.cc:101-130 | the admission test of an accessed block, by cross-multiplication on its counters, for every policy |
| `AdmissionRules.AdmittedIff` | src/api/access_api.cc:433-439 | in every run a missed read that succeeds is cached, marked and counted as admitted iff every covered block lets it in; otherwise the cache is unchanged |
| `AdmissionRules.NeverAdmits` | src/memory/cache/cache_manager.cc:101-104 | under the never-admit policy no read of any run adds an entry |
| `ControlAcks.AgingCostsOne` | src/runtime/context.cc:132-155 | ageing one entry lowers polls + retries*(P+1) by exactly one |
| `ControlAcks.PollSpec` | src/runtime/context.cc:132-155 | in any order a poll times out iff some entry is exhausted; an OK poll costs each entry exactly one |
| `ControlAcks.PollRetransmits` | src/runtime/context.cc:132-155 | an OK poll retransmits exactly the entries out of polls |
| `ControlAcks.FirstTimeout` | src/runtime/context.cc:106-155 | until a timeout the next poll times out iff some request has survived (R+1)(P+1)-1 polls |
| `ControlAcks.RetransmissionCount` | src/runtime/context.cc:132-155 | retries used and polls used are quotient and remainder of the age by P+1 |
| `ControlAcks.TimeoutPersists` | src/runtime/context.cc:122-155 | an exhausted request keeps timing out until acknowledged or tracked anew |
| `ControlAcks.AckTable.NextControlRequestId` | src/runtime/context.cc:89-92 | ids count up from 1 |
| `ControlAcks.AckTable.TrackPendingControlAck` | src/runtime/context.cc:106-114 | the request gets P polls and R retries; id 0 is ignored |
| `ControlAcks.AckTable.CompleteControlAck` | src/runtime/context.cc:116-120 | the entry is erased; id 0 is ignored |
| `ControlAcks.AckTable.AdvanceControlAckTimeouts` | src/runtime/context.cc:132-155 | the loop, with its early return, is one poll in the order it visited |
| `AckProtocol.CompletedMeansHandled` | src/api/access_api.cc:161-214 | over a lossy, duplicating, reordering mailbox, if a node reuses no id, each request it tracked and no longer waits for was handled, whoever restarts |
| `AckProtocol.BelowIsFresh` | src/runtime/context.cc:89-92 | from a world whose ids are below a node's counter the node reuses none until it restarts |
| `AckProtocol.SafeWithinOneInit` | src/api/sync_api.cc:31-72 | ack safety within one Init, for every node that does not restart, whatever restarts around it |
| `AckProtocol.RestartSafeIff` | src/runtime/context.cc:68-69 | after a restart every continuation up to the next one is ack-safe iff the node posted no request in any earlier life |
| `AckProtocol.StaleAckBreaks` | src/runtime/context.cc:89-120 | with a left-over request of any id, a continuation completes a request nobody handled |
| `AckProtocol.StaleAckAfterRestart` | src/runtime/context.cc:68-69 | one request and one restart are enough for such a run |
| `StubControl.AlwaysSettled` | src/transport/transport_stub.cc:136-163 | between calls the inbox holds at most two messages, all acks, among them one for every pending id |
| `StubControl.NeverTimesOut` | src/api/access_api.cc:148-214 | no call of any run returns kTimedOut, even with P = R = 0 and across restarts |
| `StubControl.FenceDrainsTwice` | src/api/sync_api.cc:86-126 | a fence drains before and after it flushes: when it succeeds, up to 128 waiting acks are gone |
| `StubNet.DrainSplits` | src/transport/transport_stub.cc:150-163 | a drain takes the oldest messages in order, at most 64, and leaves the rest |
| `Handlers.InvalidateHandled` | src/api/access_api.cc:180-196 | an invalidation drops exactly the entries with a byte in the named blocks of the sender, makes every named record invalid at its version and mode (not in a fence), and posts one ack |
| `Handlers.TransferHandled` | src/api/access_api.cc:198-211 | a transfer makes the sender the owner of every named record, marks it owned outside a fence, touches no entry and posts one ack |
| `Handlers.AckHandled` | src/api/access_api.cc:166-170 | an ack completes exactly the request it names and does nothing else |
| `BlockRanges.CoverBounds` | src/api/access_api.cc:19-27 | the rebuilt span starts at the first block and ends with the last, around the bytes |
| `BlockRanges.LeastAlignedCover` | src/api/access_api.cc:136-146 | resolving and rebuilding gives the least block-aligned cover |
| `BlockRanges.CoverResolvesBack` | src/api/access_api.cc:172-181 | the rebuilt cover resolves back to the same range |
| `BlockRanges.RebuiltInvalidatesAtLeast` | src/api/access_api.cc:172-184 | the rebuilt invalidation removes all the byte-exact one would |
| `Allocator.AlignUpIsLeast` | src/common/utils.cc:5-8 | the least multiple of the alignment that is large enough |
| `Allocator.AllocateKeepsTiling` | src/memory/global/dsm_allocator.cc:25-45 | allocations tile [0, next) block-aligned |
| `Allocator.AllocateIff` | src/memory/global/dsm_allocator.cc:25-45 | an allocation is granted iff some number of whole blocks holds it and fits; it takes the fewest and starts where the others end; a refused one changes nothing |
| `Allocator.LookupRefinesSearch` | src/memory/global/dsm_allocator.cc:87-103 | the ordered-map lookup accepts a range iff it lies inside one allocation |
| `Allocator.AllocationResolves` | src/api/alloc_api.cc:16-21 | a fresh allocation always resolves |
| `Allocator.DifferentAllocationsShareNoBlock` | src/memory/global/dsm_allocator.cc:71-85 | ranges in different allocations share no block index |
| `Allocator.DsmAllocator.AllocateBlocks` | src/memory/global/dsm_allocator.cc:25-45 | granted iff some number of whole blocks holds the size and fits behind what is allocated; then the first free byte |
| `Allocator.DsmAllocator.ValidateRange` | src/memory/global/dsm_allocator.cc:87-103 | the upper-bound walk accepts a range iff it lies inside one allocation of this node |
| `Allocator.DsmAllocator.ResolveBlockRange` | src/memory/global/dsm_allocator.cc:71-85 | there is a block range iff the bytes lie inside one allocation, and its blocks cover the bytes |
| `AllocationRuns.MemoryKeepsShape` | src/memory/global/dsm_allocator.cc:25-45 | in every run the heap stays tiled and every region keeps its size, failed calls included |
| `AllocationRuns.AllocationsAlwaysResolve` | src/api/alloc_api.cc:12-32 | in every run lm_malloc returns what the allocator granted; its give-up branch is never taken |
| `AllocationRuns.AlwaysBooked` | src/memory/global/dsm_allocator.cc:25-45 | in every run the heap holds exactly the allocations the calls were granted since the last restart, without gaps |
| `AllocationRuns.MallocIs` | src/api/alloc_api.cc:12-32 | in every run lm_malloc succeeds iff the bytes granted so far plus the size in whole blocks fit the region, and returns this node, region 0, first free byte; otherwise nothing changes |
| `AllocationRuns.AcceptedIff` | src/memory/global/dsm_allocator.cc:87-103 | in every run an access of local memory is accepted iff well-formed and inside one granted allocation |
| `StubNet.StoreSpec` | src/transport/transport_stub.cc:80-97 | a store changes exactly the bytes of its footprint at its home |
| `StubTransports.StubTransport.Read` | src/transport/transport_stub.cc:61-78 | the bytes at home if in range; a first use creates a zero region |
| `StubTransports.StubTransport.Write` | src/transport/transport_stub.cc:80-97 | exactly the store, or kOutOfRange |
| `StubTransports.StubTransport.BatchWrite` | src/transport/transport_stub.cc:99-105 | requests in order, abandoned at the first failure |
| `StubTransports.StubTransport.PostControlMessage` | src/transport/transport_stub.cc:136-148 | a request to another node is acknowledged at once, anything else delivered |
| `StubTransports.StubTransport.DrainControlMessages` | src/transport/transport_stub.cc:150-163 | the first max(1, limit) messages, in order, leave the inbox |
| `Batching.BatchDeliversPrefix` | src/transport/transport_stub.cc:99-105 | a batch, failed or not, replays exactly the requests before the first one out of range; Ok iff there is none |
| `Batching.BatchReplays` | src/api/access_api.cc:360-377 | an in-range batch succeeds and leaves home memory as its replay |
| `QueueRuns.QueueDepthBound` | src/api/access_api.cc:109-116 | between calls of every run every destination holds fewer than max(1, threshold) entries |
| `QueueRuns.ThresholdIs` | src/api/access_api.cc:109-116 | the flush threshold is the least configured threshold of the modes present |
| `QueueRuns.QueueIsBuilt` | src/api/access_api.cc:503-518 | in every run every queue is what queueing some of the run's remote writes, one after the other, builds |
| `QueueRuns.CallStep` | src/api/access_api.cc:503-518 | every call of every run leaves each queue as it is, empties it, or queues the client's write |
| `QueueRuns.ShortQueuesAreSafe` | src/memory/cache/cache_manager.cc:249-262 | with queues of at most one entry no write ever overlaps an entry behind its merge target |
| `QueueRuns.SpacedWritesAreSafe` | src/memory/cache/cache_manager.cc:249-262 | nor with footprints pairwise equal or a byte apart, for every threshold |
| `Batching.RunData` | src/api/access_api.cc:446-528 | over every run with in-range, safely queued writes home memory with the queues replayed equals all writes in program order |
| `Batching.FenceDeliversHistory` | src/api/sync_api.cc:86-126 | with in-range, safely queued writes a fence succeeds, empties every queue and leaves home memory as the in-order replay of every write |
| `Batching.ShortQueuesDeliverHistory` | src/api/sync_api.cc:86-126 | the same for every run of in-range writes with a threshold of at most two, however they overlap |
| `Fences.FlushDelivers` | src/api/access_api.cc:360-377 | one flush empties its destination, succeeds iff the queue fits, replays exactly the requests before the first one out of range and touches no other destination |
| `Fences.FenceDelivers` | src/api/sync_api.cc:86-126 | in every run, failed fences included: Ok iff every queue fits; each destination is emptied with its in-range prefix replayed or, only on failure, untouched; of the queues that do not fit exactly one is emptied |
| `Redirection.MissAnswers` | src/api/access_api.cc:271-321 | a missed read is redirected iff all blocks are validated and name a third node that has the range; it replies with the bytes of whoever answers |
| `Records.RedirectedIff` | src/api/access_api.cc:297-308 | the guard through the records: in range, and all covered blocks validated and naming one owner that is neither this node nor the home; that owner is asked |
| `Owners.OneHomeStaysHome` | src/api/access_api.cc:271-321 | in every run with one home per block index the redirection guard never holds |
| `Owners.NeverRedirected` | src/api/access_api.cc:271-321 | with one home per block index a missed read goes to the home node |
| `FlatMemory.HitIsReference` | src/memory/cache/cache_manager.cc:132-161 | a hit returns the reference bytes |
| `FlatMemory.LoadIsReferenceIff` | src/api/access_api.cc:303-320 | home memory holds the last writes of a range iff replaying its queue would change none of its bytes |
| `FlatMemory.MissIsReferenceIff` | src/api/access_api.cc:271-321 | a missed read succeeds iff in range, and returns the last writes iff its fetch is current |
| `FlatMemory.ReadFlat` | src/api/access_api.cc:394-444 | a read that hits, or misses with a current fetch, succeeds iff permitted, returns the reference bytes and keeps the cache in step with the reference |
| `FlatMemory.RemoteWriteFlat` | src/api/access_api.cc:446-520 | an in-range remote write succeeds and keeps cache, queues and memory in step with the reference |
| `FlatMemory.ReadsReturnLastWrites` | src/api/access_api.cc:394-528 | flat-memory refinement over every refinable run, for every threshold |
| `FlatMemory.WritesSucceed` | src/api/access_api.cc:446-528 | under the same conditions a write succeeds iff permitted |
| `FlatMemory.CleanWriteIff` | src/api/access_api.cc:487-490 | a write leaves no entry sharing a byte with it iff every resident entry that does is its very range, or a block is in WI mode and the region ids agree |
| `FlatMemory.InvalidationTight` | src/memory/cache/cache_manager.cc:193-217 | an invalidation keeps the cache right for all payloads of the write iff what it leaves shares no byte with it |
| `FlatMemory.ExactInvalidationTight` | src/api/access_api.cc:487-489 | dropping only the exact key keeps the cache right for all payloads iff no other entry shares a byte |
| `Discipline.DisjointWritesAreClean` | src/api/access_api.cc:487-490 | with ranges equal or disjoint, or nothing ever cached, every write of every run is clean |
| `Discipline.HomeFetches` | src/api/access_api.cc:271-321 | with one home per block index missed reads fetch current bytes iff nothing is pending for their ranges |
| `Discipline.QueuedSince` | src/api/access_api.cc:503-518 | every queued byte was written by a call with no fence or restart since |
| `Discipline.FencedReadsAreUpToDate` | src/api/sync_api.cc:86-126 | a client that fences between writing a range and reading it never reads behind the queue |
| `Discipline.RulesSuffice` | src/api/access_api.cc:394-528 | rules on calls and configuration alone that make every run refinable, for every threshold |
| `CacheRuns.AlwaysTidy` | src/memory/cache/cache_manager.cc:163-217 | in every run keys are unique, payloads have their key's size and the capacity is kept |
| `CacheRuns.ReadOutcome` | src/api/access_api.cc:394-444 | a hit replies with the serving entry's bytes; a missed read keeps the cache or adds exactly what it returned |
| `CacheRuns.EntriesAfterWrite` | src/api/access_api.cc:487-511 | a remote write leaves what its invalidation leaves, and itself in front iff it is batched, owner-biased and fits |
| `CacheRuns.EntriesWereAccessed` | src/memory/cache/cache_manager.cc:163-191 | in every run only accessed remote ranges are resident, and none without caching or under fixed WI |
| `CacheRuns.PayloadStays` | src/memory/cache/cache_manager.cc:163-217 | an entry that survives a call keeps its payload unless the call writes its very range |
| `Exactness.MissAnswered` | src/api/access_api.cc:271-321 | in every run, whatever the homes, a missed read is answered by a third node iff the guard of the redirection holds, otherwise by its home |
| `Exactness.FetchCurrentIff` | src/api/access_api.cc:394-444 | for every threshold and whatever the homes a missed in-range read succeeds, and returns the last writes iff its fetch is current |
| `Exactness.BehindQueueIff` | src/api/access_api.cc:394-444 | with one home per block index this is so iff the pending queue would change none of its bytes |
| `Exactness.ReadsCurrentIff` | src/api/access_api.cc:394-444 | all reads of a run, hits and misses, return the last writes iff every missed read fetches current bytes, whatever the homes, in every run of in-range, safely queued, clean writes |
| `Exactness.TameReadsCurrentIff` | src/api/access_api.cc:394-444 | for equal or disjoint ranges and one home per block index: iff no missed read finds a pending write that would change its range |
| `Exactness.EntryBytesIff` | src/api/access_api.cc:433-439 | in every run an entry a read admitted holds, while resident, the recorded owner's bytes if the redirection guard held at that read and the home's otherwise |
| `Exactness.EntryCurrentIff` | src/api/access_api.cc:433-439 | a cached entry is current iff what the admitting read fetched was current, whatever the homes |
| `Exactness.ResidentAfterWriteIff` | src/api/access_api.cc:487-511 | after every remote write, delivered, queued or refused, its range is resident iff batching is on, the write is owner-biased and it fits the cache |
| `Exactness.CachesItselfIffAdaptive` | src/api/access_api.cc:336-350 | a write is owner-biased iff some block of its range is in Adaptive mode |
| `Exactness.RefusedWriteReadBackIff` | src/api/access_api.cc:503-518 | a read of the range of an out-of-range write succeeds iff the write cached itself, and returns its bytes, or a range its invalidation left contains it, and returns that entry's part |
| `Necessity.QueueMakesReadsStale` | src/api/access_api.cc:503-518 | with threshold 2 or more under fixed SI a write is not read back |
| `Necessity.StaleAfterFence` | src/api/access_api.cc:433-439 | write, read, successful fence, read: the last read is stale although home memory is current |
| `Necessity.OverlapMakesReadsStale` | src/api/access_api.cc:487-489 | with overlapping ranges and nothing queued a read is served old bytes by a containing entry |
| `Necessity.MergedWriteIsLost` | src/api/sync_api.cc:86-126 | an in-range write merged with an out-of-range one returns Ok and is lost by the failing fence |
| `Necessity.FailedFenceSkipsHomes` | src/api/sync_api.cc:86-126 | a fence that fails at the first home it visits leaves an in-range write for a second home queued |
| `Necessity.FenceReordersWrites` | src/memory/cache/cache_manager.cc:249-262 | with threshold 3 or more four equal-or-disjoint writes and a successful fence leave an old byte at home |
| `Necessity.RejectedWriteIsReadBack` | src/api/access_api.cc:503-518 | an out-of-range owner-biased write fails and is read back |
| `Necessity.SharedBlockIndexMisdirects` | src/api/access_api.cc:297-307 | two homes with one block index, with or without cache: a read is answered by the wrong node |
| `Necessity.MisdirectedEntryLasts` | src/api/access_api.cc:426-439 | the wrong node's byte stays cached and is returned after the redirection guard has ceased to hold and with nothing pending |
| `ThinAir.NoThinAirReads` | src/api/access_api.cc:394-520 | every byte a read returns is 0 or was written there, in all runs with one home per block index |
| `ThinAir.NoThinAirAnywhere` | src/api/access_api.cc:394-520 | in all runs whatsoever every byte a read returns is 0 or was written at that offset of some home |
| `ThinAir.QueuesHoldOnlyWrittenBytes` | src/memory/cache/cache_manager.cc:377-394 | in all runs queued bytes were all written to that home and offset |
| `Ownership.OwnershipInvariant` | src/api/access_api.cc:271-358 | the owner of an accessed block is its home or self, kOwner means self, validated <= version = number of writes, handoffs <= 1 + WI writes |
| `Records.WriteRecord` | src/api/access_api.cc:323-358 | what a remote write leaves in every record: version + 1; WI gives the block to its home, Adaptive takes it and counts an owner epoch, SI leaves a set owner; states shared or owned; no other block changes |
| `Records.ReadRecord` | src/api/access_api.cc:271-321 | what a remote read leaves in every record: misses counted, success validates, a redirected read marks owned at the greatest version, an unset owner becomes the home |
| `Records.InvalidIsShared` | src/api/access_api.cc:310-320 | an invalid record is shared again and given to its home by the next read the home answers |
| `Records.MallocRecord` | src/api/alloc_api.cc:23-28 | a granted allocation makes this node home and owner of its blocks and changes no other record |
| `OwnerHistory.OwnerIs` | src/api/access_api.cc:323-358 | in every run, whatever the homes: the owner is the node named by the last ownership-moving call, else the home first asked, else none; the owner epoch counts the adaptive writes |
| `OwnerHistory.RemoteOwnerIff` | src/api/access_api.cc:323-358 | a block only remote calls of one home touch is owned here iff its last write that was not shared was adaptive, else by its home |
| `OwnerHistory.HandoffsAre` | src/api/access_api.cc:342-350 | the handoffs of a block are exactly its adaptive writes before which ownership was last moved elsewhere or never moved |
| `WriteOutcomes.WriteAnnounces` | src/api/access_api.cc:471-485 | in every run: an InvalidateRange to the home iff a covered block is in WI mode, an OwnerTransfer iff one is Adaptive and was owned elsewhere; consecutive ids, first and last block, greatest version; the table holds exactly these with P polls and R retries, the inbox their acks |
| `WriteOutcomes.OthersSendNothing` | src/api/access_api.cc:446-528 | no other call takes an id or tracks a request |
| `WriteOutcomes.IdsCountRequests` | src/runtime/context.cc:89-92 | in every run the next id is one more than the requests since the last restart |
| `WriteOutcomes.RestartForgetsAll` | src/runtime/context.cc:55-73 | a restart forgets ids, table, queues, cache and records and keeps the inboxes |
| `WriteOutcomes.FlushedIff` | src/api/access_api.cc:498-520 | in every run a batched write joins its queue with the flags of its blocks and drains its destination iff a block is in WI mode, the queue has max(1, threshold) entries, or a block is Adaptive and it has max(1, adaptive threshold); otherwise memory is unchanged |
| `Statuses.ReadStatus` | src/api/access_api.cc:394-444 | every read of every run: InvalidArg iff malformed, Ok iff allocated here, cached, or in its remote region, else OutOfRange |
| `Statuses.WriteStatus` | src/api/access_api.cc:446-528 | every write of every run: InvalidArg iff malformed, Ok iff allocated here, in its remote region, or batched without a failing flush, else OutOfRange |
| `CallStats.ReadAdds` | src/api/access_api.cc:394-444 | what a read adds to every counter: its blocks by mode and switch, and one of local read, hit, admission, rejection, failed miss |
| `CallStats.WriteAdds` | src/api/access_api.cc:446-520 | what a remote write adds to every counter: blocks, invalidated entries, queueing, merge, flush with its flags, success |
| `CallStats.OtherWriteAdds` | src/api/access_api.cc:523-527 | a write of allocated local memory adds its blocks and one local write, a refused one nothing |
| `CallStats.MallocAdds` | src/api/alloc_api.cc:29-29 | an allocation is counted iff granted |
| `CallStats.FlushAdds` | src/api/access_api.cc:360-390 | a delivered batch adds one batch, its writes, bytes and flags; a failed or empty one nothing |
| `QueueCounts.AlwaysBalanced` | src/api/access_api.cc:360-390 | in every run, failed flushes included, queued = merged + flushed + pending + uncounted + lost, where of a failed batch the requests before the first one out of range are uncounted and the rest lost; flushed writes and bytes are exactly the batches delivered; the same for bytes entered |
| `QueueCounts.InRangeLosesNothing` | src/api/access_api.cc:503-519 | runs of in-range writes lose nothing |
| `QueueCounts.EnteredAtMostSent` | src/memory/cache/cache_manager.cc:377-394 | no more bytes enter the queues than clients wrote |
| `WireFormat.ShowRoundTrip` | src/transport/rdma_transport.cc:104-113 | a printed integer reads back through stoi and stoull |
| `WireFormat.ControlMessageRoundTrip` | src/transport/rdma_transport.cc:79-118 | a printed message parses back to itself, and is rejected iff source or target is invalid |
| `WireFormat.ParseControlMessage` | src/transport/rdma_transport.cc:94-118 | the line loop: unknown lines skipped, bad numbers throw, last value wins, invalid nodes rejected |
| `WireFormat.FormatExchangeInfo` | src/transport/rdma_transport.cc:60-77 | the text with 16 colon-separated gid bytes |
| `WireFormat.ParseExchangeInfo` | src/transport/rdma_transport.cc:120-152 | the line loop for exchange records |
| `WireFormat.ExchangeInfoRoundTrip` | src/transport/rdma_transport.cc:60-152 | a printed record parses back, and is rejected iff the node is invalid or qpn is 0 |
| `LeoMemRuntime.BlockTable.GetOrCreate` | src/metadata/block_table.cc:5-14 | the shared record of a block, created fresh on first use and never aliased |
| `LeoMemRuntime.LeoMem.ProcessPendingControlMessages` | src/api/access_api.cc:161-214 | the drain loop, handlers, ageing and retransmission are the control step; with the flag, the fence's variant |
| `LeoMemRuntime.LeoMem.ObserveMetas` | src/api/access_api.cc:74-87 | profiling loop over the records, with mode statistics |
| `LeoMemRuntime.LeoMem.ValidateAndResolveRange` | src/api/access_api.cc:29-42 | rejects or resolves the range |
| `LeoMemRuntime.LeoMem.TryOwnerAwareRead` | src/api/access_api.cc:271-321 | cache, owner or home, with the records updated accordingly |
| `LeoMemRuntime.LeoMem.ApplyWriteMetadata` | src/api/access_api.cc:323-358 | version and ownership loop, with bias and handoff; `Records.WriteRecord` says what it leaves field by field |
| `LeoMemRuntime.LeoMem.FlushDestination` | src/api/access_api.cc:360-390 | drain, deliver and count one destination |
| `LeoMemRuntime.LeoMem.MostAggressiveBatchThreshold` | src/api/access_api.cc:109-116 | 1 with a WI block, else the least of the configured SI threshold and, with an Adaptive block, the adaptive one, each at least 1 |
| `LeoMemRuntime.LeoMem.lm_read` | src/api/access_api.cc:394-444 | the object carries out exactly the read step |
| `LeoMemRuntime.LeoMem.lm_write` | src/api/access_api.cc:446-528 | the object carries out exactly the write step, whose requests, queueing and flush are those of `WriteAnnounces` and `FlushedIff` |
| `LeoMemRuntime.LeoMem.lm_fence` | src/api/sync_api.cc:86-126 | the object carries out exactly the fence step |
| `LeoMemRuntime.LeoMem.lm_malloc` | src/api/alloc_api.cc:12-32 | the object carries out exactly the allocation step, which succeeds as `MallocIs` says |
| `Sessions.Session.Read` | src/api/access_api.cc:394-444 | on the object: never times out; in a refinable session succeeds iff permitted and returns the last written bytes |
| `Sessions.Session.Write` | src/api/access_api.cc:446-528 | on the object: never times out; succeeds iff permitted; extends the history iff Ok; a remote write sends and tracks exactly the requests its blocks call for |
| `Sessions.Session.Fence` | src/api/sync_api.cc:86-126 | on the object: never times out; Ok iff every pending queue fits; with in-range, safely queued writes delivers every write in program order |
| `Sessions.Session.Malloc` | src/api/alloc_api.cc:12-32 | on the object: succeeds iff the size fits behind what the session was granted, and returns the first free byte |

## Left out

- 64-bit wrap-around of offsets, sizes, counters and versions, and 32-bit wrap-around of the sharer count: numbers are unbounded.
- The kNotInitialized guards and null buffers of the API: calls are made between Init and Shutdown with real buffers.
- Rounding of the `double` ratios: they are reals.
- Mutexes and relaxed memory order: each call is atomic and calls are sequential.
- Control messages whose last block precedes their first: the model takes such a range as empty, the code's unsigned count wraps.
- Handlers for requests arriving from other nodes act on the node's own records in `Access` and `LeoMem`, but run theorems start from Init and the stub acknowledges on the sender's side, so they are reached in the multi-node protocol only.
- LeoMemRuntime.LeoMem.FlushDestinations: visits the destinations by recursion over the set, where the code loops over a vector copied from the hash table.
- LeoMemRuntime.LeoMem.UpdateBlocks: looks each record up by block id, where the code keeps the shared handles PrepareMetadata returned; the table never aliases or drops records, so both reach the same record.
- Sessions.Session.Read: covers one Init; restarts are covered by the run theorems, which contain a restart step.
- CacheManagers.CacheManager.EvictIfNeededLocked: the eviction counter is modelled only here, not in the statistics of a run.
- Admission.AdmissionBound: counts admissions of a block since the last restart.
- The verbs part of the RDMA transport, the file mailbox and peer exchange through files: replaced by the abstract lossy mailbox.
- Data coherence among third-party sharers: writers message only the home node.
- The id-only overload of TrackPendingControlAck, `lm_barrier`, `lm_free`, configuration loading, logging, statistics snapshots, hash functions, benchmarks: easy or plumbing.
