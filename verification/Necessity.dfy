/**
  Why the theorems have their conditions (src/api/access_api.cc,
  src/api/sync_api.cc): for each condition a run that breaks the promise without
  it, for every configuration of the kind named.
 */
module Necessity {
  import opened Types
  import opened Arithmetic
  import opened Counters
  import opened Profiling
  import opened WriteCombining
  import opened LruCache
  import opened BlockRanges
  import opened StubNet
  import opened Access
  import opened Frames
  import opened StubControl
  import opened QueueRuns
  import opened Batching
  import opened Redirection
  import opened CacheRuns
  import opened FlatMemory
  import opened Discipline
  import opened AllocationRuns
  import opened Fences
  import opened Exactness

  function FirstByte(home: NodeId): CacheKey {
    CacheKey(GlobalAddr(home, 0, 0), 1)
  }

  // -------------------------------------------------- writes that stay queued

  /** Fixed SI with batching: remote writes wait until `batchThreshold` entries are queued. */
  predicate QueuesSI(cfg: Config)
  {
    Fixed(cfg, SI) && cfg.enableWriteBatching && cfg.blockSize > 0
  }

  lemma FlagsUnderSI(cfg: Config, s: Node, key: CacheKey, range: BlockRange)
    requires Fixed(cfg, SI) && range.count > 0
    ensures var f := FlagsOf(cfg, s, key, range);
            WI !in f.modes && Adaptive !in f.modes && !f.biased && !f.handoff && DominantMode(f.modes) == SI
  {
    hide UpdateAll, ObserveAll;
    WriteModesFit(cfg, s, key, range);
    assert Fixed(cfg, SI);
    var o := Profiled(cfg, s, key, Ids(range), WriteAccess);
    BiasNeedsAdaptive(cfg, Applied(o.blocks, false, false), Ids(range), o.modes, key.addr.home);
  }

  lemma {:induction false} ThresholdUnderSI(cfg: Config, modes: seq<CoherenceMode>)
    requires forall m :: m in modes ==> m == SI
    ensures FlushThreshold(cfg, modes) == AtLeastOne(cfg.batchThreshold)
  {
    if modes != [] {
      var n := |modes| - 1;
      assert forall k :: 0 <= k < |modes| ==> modes[k] in modes;
      ThresholdUnderSI(cfg, modes[..n]);
    }
  }

  /** A write that does not fill its queue is queued: no memory changes and nothing is cached. */
  lemma WriteWaits(cfg: Config, s: Node, addr: GlobalAddr, data: seq<byte>, sched: Schedule)
    requires QueuesSI(cfg) && Settled(cfg, s) && RemoteRange(cfg, CacheKey(addr, |data|))
    requires |Enqueue(Queue(s.queues, addr.home), Plain(addr, data))| < AtLeastOne(cfg.batchThreshold)
    ensures var r := Access.Write(cfg, s, addr, data, sched);
            && r.status == Ok && r.s.mem == s.mem && r.s.entries == Drop(s.entries, Exact(CacheKey(addr, |data|)))
            && r.s.queues == s.queues[addr.home := Enqueue(Queue(s.queues, addr.home), Plain(addr, data))]
  {
    hide WriteMetadata, WriteRequests, InvalidateFor, Enqueue, MergeTarget, Drop, FlushThreshold, Settled;
    var q, key, range := Quiet(cfg, s), CacheKey(addr, |data|), Resolve(cfg.blockSize, addr, |data|);
    WriteReduces(cfg, s, addr, data, sched);
    RemoteWriteStages(cfg, q, addr, data, range);
    AnnouncedFrame(cfg, q, key, range);
    FlagsUnderSI(cfg, q, key, range);
    var modes := FlagsOf(cfg, q, key, range).modes;
    assert forall m :: m in modes ==> m == SI;
    ThresholdUnderSI(cfg, modes);
  }

  /** The calls of a client that only writes. */
  function WriteCalls(writes: seq<PendingWrite>, sched: Schedule): seq<Call>
  {
    seq(|writes|, i requires 0 <= i < |writes| => CallWrite(writes[i].addr, writes[i].payload, sched))
  }

  /** Plain remote writes to one home that never fill its queue. */
  ghost predicate Waiting(cfg: Config, writes: seq<PendingWrite>, home: NodeId)
  {
    && (forall k :: 0 <= k < |writes| ==>
          && writes[k] == Plain(writes[k].addr, writes[k].payload)
          && writes[k].addr.home == home && RemoteRange(cfg, writes[k].Key()))
    && (forall n :: 0 <= n <= |writes| ==> |EnqueueAll(writes[..n])| < AtLeastOne(cfg.batchThreshold))
  }

  /** All of them wait in the queue and home memory is untouched, though every one returned Ok. */
  lemma {:induction false} AllWait(cfg: Config, writes: seq<PendingWrite>, home: NodeId, sched: Schedule)
    requires QueuesSI(cfg) && Waiting(cfg, writes, home)
    ensures var s := After(cfg, WriteCalls(writes, sched));
            && Queue(s.queues, home) == EnqueueAll(writes) && (forall n: NodeId :: n != home ==> Queue(s.queues, n) == [])
            && s.mem == Boot(cfg, map[]).mem && s.entries == []
            && History(cfg, WriteCalls(writes, sched)) == writes
  {
    hide Access.Write, Access.Read, Access.Fence, Access.Malloc, Enqueue;
    var calls := WriteCalls(writes, sched);
    if writes != [] {
      var n := |writes| - 1;
      var before := writes[..n];
      assert calls[..n] == WriteCalls(before, sched);
      assert forall k :: 0 <= k <= n ==> before[..k] == writes[..k];
      AllWait(cfg, before, home, sched);
      AlwaysSettled(cfg, calls[..n]);
      assert writes[..n + 1] == writes;
      var s := After(cfg, calls[..n]);
      WriteWaits(cfg, s, writes[n].addr, writes[n].payload, sched);
      var s1 := After(cfg, calls);
      assert s1 == Access.Write(cfg, s, writes[n].addr, writes[n].payload, sched).s;
      assert forall m: NodeId :: m != home ==> Queue(s1.queues, m) == Queue(s.queues, m);
      assert before + [writes[n]] == writes;
    }
  }

  lemma OneWaits(cfg: Config, w: PendingWrite)
    requires QueuesSI(cfg) && cfg.batchThreshold >= 2 && RemoteRange(cfg, w.Key()) && w == Plain(w.addr, w.payload)
    ensures Waiting(cfg, [w], w.addr.home) && EnqueueAll([w]) == [w]
  {
    assert [w][..0] == [] && [w][..1] == [w];
    EnqueueInto([], w, 0);
  }

  // ------------------------------------------------------- reads behind the queue

  /**
    Reading behind the queue: with a threshold of two or more under fixed SI, a
    client that writes one byte and reads it back gets the old byte.
   */
  lemma QueueMakesReadsStale(cfg: Config, home: NodeId, sched: Schedule)
    requires QueuesSI(cfg) && cfg.batchThreshold >= 2 && cfg.localRegionSize > 0 && RemoteRange(cfg, FirstByte(home))
    ensures var calls := WriteCalls([Plain(FirstByte(home).addr, [1])], sched);
            var s := After(cfg, calls); var r := Read(cfg, s, FirstByte(home), sched);
            && r.status == Ok && r.bytes == [0] && RefBytes(History(cfg, calls), FirstByte(home)) == [1]
            && s.entries == [] && !CaughtUp(cfg, s, FirstByte(home))
  {
    hide After, Access.Read, CaughtUp, ReadCached, History;
    var key, w := FirstByte(home), Plain(FirstByte(home).addr, [1]);
    var calls := WriteCalls([w], sched);
    OneWaits(cfg, w);
    AllWait(cfg, [w], home, sched);
    NoEntriesMiss(key, sched.hits);
    OneKey(cfg, calls, key);
    BehindQueueIff(cfg, calls, key, sched, {key});
    ZeroByte(cfg, home);
    WrittenBytes([], w);
    assert [] + [w] == [w];
  }

  lemma NoEntriesMiss(key: CacheKey, schedule: seq<CacheKey>)
    ensures !ReadCached([], key, schedule).hit
  {
  }

  lemma ZeroByte(cfg: Config, home: NodeId)
    requires home != cfg.nodeId && cfg.localRegionSize > 0
    ensures var mem := Boot(cfg, map[]).mem; Reaches(cfg, mem, FirstByte(home)) && Load(cfg, mem, FirstByte(home)) == [0]
  {
  }

  /** A run that only accesses one in-range remote range keeps every rule but the queue's. */
  lemma OneKey(cfg: Config, calls: seq<Call>, key: CacheKey)
    requires key.End() <= cfg.localRegionSize
    requires forall k :: 0 <= k < |calls| && (calls[k].CallRead? || calls[k].CallWrite?) ==> calls[k].Key() == key
    ensures WritesInRange(cfg, calls) && SafeQueueing(cfg, calls) && AccessKeys(cfg, calls) <= {key} && Tame(cfg, {key})
  {
    hide After, SafeQueueing;
    assert forall k :: k in WriteKeys(cfg, calls) ==> k == key;
    SpacedWritesAreSafe(cfg, calls);
  }

  // --------------------------------------------- a stale entry survives the fence

  /** Fixed SI, a cache and the always-admit policy. */
  predicate AdmitsAll(cfg: Config, size: nat)
  {
    Fixed(cfg, SI) && Storable(cfg, size) && cfg.admissionPolicy == 1 && cfg.blockSize > 0
  }

  /** Then a missed read that succeeds is always admitted. */
  lemma MissIsAdmitted(cfg: Config, s: Node, key: CacheKey, sched: Schedule)
    requires AdmitsAll(cfg, key.size) && Settled(cfg, s) && RemoteRange(cfg, key)
    requires !ReadCached(s.entries, key, sched.hits).hit && Read(cfg, s, key, sched).status == Ok
    ensures var r := Read(cfg, s, key, sched); r.s.entries == Insert(cfg, s.entries, key, r.bytes)
  {
    hide Profiled, ReadCached, UpdateAll, OwnerAwareRead, Insert, Settled, Ids, Resolve;
    ReadReduces(cfg, s, key, sched);
    var q, ids := Quiet(cfg, s), IdsOf(cfg, key);
    ProfiledModesFixed(cfg, q, key, ids, ReadAccess, SI);
    var missed := Missed(cfg, WithProfile(q, Profiled(cfg, q, key, ids, ReadAccess)), ids);
    HitIsStable(s.entries, key, sched.hits, sched.ownerHits);
    OwnerAwareBytes(cfg, missed, key, ids, sched.ownerHits);
  }

  lemma FirstEntry(cfg: Config, key: CacheKey, data: seq<byte>)
    requires Storable(cfg, key.size) && |data| == key.size
    ensures Insert(cfg, [], key, data) == [Entry(key, data)]
  {
  }

  /** A single resident entry serves exactly the ranges it contains. */
  lemma SingleEntryServes(cfg: Config, s: Node, e: Entry, key: CacheKey, sched: Schedule)
    requires Settled(cfg, s) && RemoteRange(cfg, key) && s.entries == [e] && Serves(e.key, key) && |e.payload| == e.key.size
    ensures var r, begin := Read(cfg, s, key, sched), key.addr.offset - e.key.addr.offset;
            r.status == Ok && r.bytes == e.payload[begin..begin + key.size]
  {
    hide Access.Read, Settled;
    assert s.entries[0] in s.entries && e.key in Servers(s.entries, key);
    assert Servers(s.entries, key) == {e.key};
    if key == e.key {
      OneEntryPerKey(s.entries, e);
    } else {
      assert !Has(s.entries, key);
      assert Pick(Servers(s.entries, key), sched.hits) == e.key;
      OneEntryPerKey(s.entries, e);
    }
    HitSucceeds(cfg, s, key, sched);
  }

  /**
    What is read behind the queue stays: write a byte, read it, fence, read it
    again. The fence succeeds and home memory holds the new byte with nothing
    pending, yet the last read is served the old byte from the cache.
   */
  lemma StaleAfterFence(cfg: Config, home: NodeId, sched: Schedule)
    requires QueuesSI(cfg) && AdmitsAll(cfg, 1) && cfg.batchThreshold >= 2 && cfg.localRegionSize > 0
    requires RemoteRange(cfg, FirstByte(home))
    ensures var key := FirstByte(home);
            var calls := WriteCalls([Plain(key.addr, [1])], sched) + [CallRead(key, sched)] + [CallFence(sched)];
            var s := After(cfg, calls); var r := Read(cfg, s, key, sched);
            && MemoryIs(cfg, s.mem, History(cfg, calls)) && CaughtUp(cfg, s, key)
            && r.status == Ok && r.bytes == [0] && RefBytes(History(cfg, calls), key) == [1]
  {
    hide After, Access.Read, Access.Write, Access.Fence, CaughtUp, ReadCached, History, MemoryIs, Insert, RefBytes,
         WriteCalls;
    var key := FirstByte(home);
    var c0, read, fence := WriteCalls([Plain(key.addr, [1])], sched), CallRead(key, sched), CallFence(sched);
    var c1, c2 := c0 + [read], c0 + [read] + [fence];
    QueueMakesReadsStale(cfg, home, sched);
    LastCall(cfg, c0, read);
    LastCall(cfg, c1, fence);
    AlwaysSettled(cfg, c0);
    AlwaysSettled(cfg, c1);
    AlwaysSettled(cfg, c2);
    NoEntriesMiss(key, sched.hits);
    MissIsAdmitted(cfg, After(cfg, c0), key, sched);
    FirstEntry(cfg, key, [0]);
    FenceKeepsCache(cfg, After(cfg, c1), sched);
    SingleEntryServes(cfg, After(cfg, c2), Entry(key, [0]), key, sched);
    WriteThenRead(cfg, key, sched);
    OneKey(cfg, c1, key);
    FenceDeliversHistory(cfg, c1, sched);
    FencedIsCaughtUp(cfg, After(cfg, c2), key);
  }

  lemma WriteThenRead(cfg: Config, key: CacheKey, sched: Schedule)
    requires key.size == 1
    ensures var calls := WriteCalls([Plain(key.addr, [1])], sched) + [CallRead(key, sched)];
            forall k :: 0 <= k < |calls| ==> calls[k].Key() == key
  {
  }

  lemma FencedIsCaughtUp(cfg: Config, s: Node, key: CacheKey)
    requires Queue(s.queues, key.addr.home) == []
    ensures CaughtUp(cfg, s, key)
  {
  }

  // ------------------------------------------------------- overlapping ranges

  function FirstTwo(home: NodeId): CacheKey {
    CacheKey(GlobalAddr(home, 0, 0), 2)
  }

  /** An in-range remote write of a safe run succeeds. */
  lemma InRangeWriteOk(cfg: Config, calls: seq<Call>, addr: GlobalAddr, data: seq<byte>, sched: Schedule)
    requires WritesInRange(cfg, calls) && SafeQueueing(cfg, calls) && RemoteRange(cfg, CacheKey(addr, |data|))
    requires addr.offset + |data| <= cfg.localRegionSize
    requires NoLaterOverlap(Queue(After(cfg, calls).queues, addr.home), Plain(addr, data))
    ensures Access.Write(cfg, After(cfg, calls), addr, data, sched).status == Ok
  {
    hide After, Access.Write, DataOk, NoLaterOverlap, Settled;
    AlwaysSettled(cfg, calls);
    RunData(cfg, calls);
    InRangeWriteSucceeds(cfg, After(cfg, calls), addr, data, sched, History(cfg, calls));
  }

  /**
    Equal-or-disjoint ranges are needed, even with nothing queued between calls:
    read two bytes, write the first, read the first. The last read is served the
    old byte by the entry that contains it.
   */
  lemma OverlapMakesReadsStale(cfg: Config, home: NodeId, sched: Schedule)
    requires AdmitsAll(cfg, 2) && Depth(cfg) == 0 && cfg.localRegionSize >= 2 && RemoteRange(cfg, FirstTwo(home))
    ensures var key := FirstByte(home);
            var calls := [CallRead(FirstTwo(home), sched)] + [CallWrite(key.addr, [1], sched)];
            var r := Read(cfg, After(cfg, calls), key, sched);
            r.status == Ok && r.bytes == [0] && RefBytes(History(cfg, calls), key) == [1]
  {
    hide After, Access.Read, Access.Write, ReadCached, History, Insert, RefBytes, Depth;
    var two, key := FirstTwo(home), FirstByte(home);
    var read, write := CallRead(two, sched), CallWrite(key.addr, [1], sched);
    var c1, c2 := [read], [read] + [write];
    EmptyRun(cfg);
    LastCall(cfg, [], read);
    assert [] + [read] == c1;
    LastCall(cfg, c1, write);
    AlwaysSettled(cfg, []);
    AlwaysSettled(cfg, c1);
    AlwaysSettled(cfg, c2);
    NoEntriesMiss(two, sched.hits);
    OneKey(cfg, [], two);
    BehindQueueIff(cfg, [], two, sched, {two});
    ZeroBytes(cfg, home);
    MissIsAdmitted(cfg, After(cfg, []), two, sched);
    FirstEntry(cfg, two, [0, 0]);
    OneKey(cfg, c1, two);
    ShortQueueSafe(cfg, c1, key.addr);
    InRangeWriteOk(cfg, c1, key.addr, [1], sched);
    ContainingEntryStays(cfg, After(cfg, c1), home, sched);
    SingleEntryServes(cfg, After(cfg, c2), Entry(two, [0, 0]), key, sched);
    WrittenBytes(History(cfg, c1), Plain(key.addr, [1]));
  }

  lemma EmptyRun(cfg: Config)
    ensures After(cfg, []) == Boot(cfg, map[]) && History(cfg, []) == []
  {
  }

  lemma ZeroBytes(cfg: Config, home: NodeId)
    requires home != cfg.nodeId && cfg.localRegionSize >= 2
    ensures var mem := Boot(cfg, map[]).mem; Reaches(cfg, mem, FirstTwo(home)) && Load(cfg, mem, FirstTwo(home)) == [0, 0]
  {
  }

  lemma ShortQueueSafe(cfg: Config, calls: seq<Call>, addr: GlobalAddr)
    requires Depth(cfg) == 0
    ensures NoLaterOverlap(Queue(After(cfg, calls).queues, addr.home), Plain(addr, [1]))
  {
    hide After, Depth;
    QueueDepthBound(cfg, calls, addr.home);
  }

  /** Under SI a write drops only its own range, so an entry that contains it stays. */
  lemma ContainingEntryStays(cfg: Config, s: Node, home: NodeId, sched: Schedule)
    requires Fixed(cfg, SI) && Settled(cfg, s) && RemoteRange(cfg, FirstByte(home))
    requires s.entries == [Entry(FirstTwo(home), [0, 0])]
    ensures Access.Write(cfg, s, FirstByte(home).addr, [1], sched).s.entries == s.entries
  {
    hide Access.Write, FlagsOf, Settled;
    var key := FirstByte(home);
    FlagsUnderSI(cfg, Quiet(cfg, s), key, Resolve(cfg.blockSize, key.addr, 1));
    EntriesAfterWrite(cfg, s, key.addr, [1], sched);
    DropNothing(s.entries, Exact(key));
  }

  // ------------------------------------------------- fences that do not deliver

  /** A fence with one destination is one batch. */
  lemma FenceOne(cfg: Config, s: Node, home: NodeId, sched: Schedule)
    requires Settled(cfg, s) && Queue(s.queues, home) != [] && forall n: NodeId :: n != home ==> Queue(s.queues, n) == []
    ensures var r, w := Fence(cfg, s, sched), BatchWrite(cfg, s.mem, Queue(s.queues, home));
            r.status == w.status && r.s.mem == w.mem && forall n: NodeId :: Queue(r.s.queues, n) == []
  {
    hide Access.Fence, BatchWrite, CountFlags, Settled;
    FenceReduces(cfg, s, sched);
    var todo, q := PendingDestinations(s.queues), Quiet(cfg, s);
    forall n | n in todo
      ensures n == home
    {
      assert Queue(s.queues, n) != [];
    }
    assert todo == {home};
    assert Pick({home}, sched.destinations) == home && {home} - {home} == {};
    var r := Flush(cfg, q, home);
    FlushFrame(cfg, q, home);
    FlushNothing(cfg, r.s, Rest(sched.destinations));
  }

  lemma FlushNothing(cfg: Config, s: Node, schedule: seq<NodeId>)
    ensures FlushAll(cfg, s, {}, schedule) == Controlled(s, Ok)
  {
  }

  /** One byte at the end of the region and one just past it. */
  function LastByte(cfg: Config, home: NodeId): PendingWrite
    requires cfg.localRegionSize > 0
  {
    Plain(GlobalAddr(home, 0, cfg.localRegionSize - 1), [1])
  }

  function Beyond(cfg: Config, home: NodeId): PendingWrite
  {
    Plain(GlobalAddr(home, 0, cfg.localRegionSize), [1])
  }

  lemma BothWait(cfg: Config, home: NodeId)
    requires QueuesSI(cfg) && cfg.batchThreshold >= 2 && cfg.localRegionSize > 0 && RemoteRange(cfg, FirstByte(home))
    ensures var a, b := LastByte(cfg, home), Beyond(cfg, home);
            Waiting(cfg, [a, b], home) && EnqueueAll([a, b]) == [Merge(a, b)]
  {
    var a, b := LastByte(cfg, home), Beyond(cfg, home);
    assert [a, b][..0] == [] && [a, b][..1] == [a] && [a, b][..2] == [a, b];
    OneWaits(cfg, a);
    EnqueueInto([a], b, 0);
    assert [a][0 := Merge(a, b)] == [Merge(a, b)];
  }

  /**
    In-range writes are needed for fences too: under fixed SI with a threshold of
    two or more, write the last byte of the region and then one byte past it.
    Both return Ok and are merged, so the fence fails and loses the first write.
   */
  lemma MergedWriteIsLost(cfg: Config, home: NodeId, sched: Schedule)
    requires QueuesSI(cfg) && cfg.batchThreshold >= 2 && cfg.localRegionSize > 0 && RemoteRange(cfg, FirstByte(home))
    ensures var writes, last := [LastByte(cfg, home), Beyond(cfg, home)], cfg.localRegionSize - 1;
            var calls := WriteCalls(writes, sched); var r := Fence(cfg, After(cfg, calls), sched);
            && History(cfg, calls) == writes && r.status == OutOfRange && MemOk(cfg, r.s.mem)
            && (forall n: NodeId :: Queue(r.s.queues, n) == [])
            && Bank(cfg, r.s.mem, home)[last] == 0 && ByteAfter(History(cfg, calls), home, last, 0) == 1
  {
    hide After, Access.Fence, History, BatchWrite, MemOk, Settled;
    var a, b, last := LastByte(cfg, home), Beyond(cfg, home), cfg.localRegionSize - 1;
    var calls := WriteCalls([a, b], sched);
    BothWait(cfg, home);
    AllWait(cfg, [a, b], home, sched);
    AlwaysSettled(cfg, calls);
    FenceOne(cfg, After(cfg, calls), home, sched);
    var mem, batch := Boot(cfg, map[]).mem, [Merge(a, b)];
    BootShapeOk(cfg, home);
    BatchDeliversPrefix(cfg, mem, batch, home);
    assert FirstBeyond(cfg, batch) == 0 && batch[..0] == [];
    assert [a, b][..1] == [a];
    LastCovers([a], home, last);
  }

  lemma BootShapeOk(cfg: Config, home: NodeId)
    requires home != cfg.nodeId
    ensures var mem := Boot(cfg, map[]).mem; MemOk(cfg, mem) && Bank(cfg, mem, home) == Zeros(cfg.localRegionSize)
  {
    BootData(cfg, map[]);
  }

  lemma FourWait(cfg: Config, a: PendingWrite, b: PendingWrite, c: PendingWrite, d: PendingWrite)
    requires QueuesSI(cfg) && cfg.batchThreshold >= 3 && RemoteRange(cfg, FirstByte(1))
    requires a == OneByte(0, 7) && b == OneByte(2, 7) && c == OneByte(1, 7) && d == OneByte(2, 8)
    ensures Waiting(cfg, [a, b, c, d], 1) && EnqueueAll([a, b, c, d]) == [Merge(Merge(a, c), d), b]
  {
    hide Merge, Enqueue, EnqueueAll;
    var writes := [a, b, c, d];
    OneWaits(cfg, a);
    ThreeWritesLeaveTwo(a, b, c);
    FourWritesLeaveTwo(a, b, c, d);
    NothingQueued();
    forall n | 0 <= n <= 4
      ensures |EnqueueAll(writes[..n])| <= 2
    {
      assert writes[..n] == if n == 0 then [] else if n == 1 then [a] else if n == 2 then [a, b]
                            else if n == 3 then [a, b, c] else writes;
    }
  }

  lemma NothingQueued()
    ensures EnqueueAll([]) == []
  {
  }

  /**
    With a threshold of three or more even equal-or-disjoint in-range writes can
    be delivered out of order: bytes 0, 2, 1 and then 2 again, and a fence that
    succeeds and leaves the old byte 2 at home.
   */
  lemma FenceReordersWrites(cfg: Config, sched: Schedule)
    requires QueuesSI(cfg) && cfg.batchThreshold >= 3 && cfg.localRegionSize >= 3 && RemoteRange(cfg, FirstByte(1))
    ensures var writes := [OneByte(0, 7), OneByte(2, 7), OneByte(1, 7), OneByte(2, 8)];
            var calls := WriteCalls(writes, sched); var r := Fence(cfg, After(cfg, calls), sched);
            && SameOrDisjoint(writes) && History(cfg, calls) == writes && r.status == Ok && MemOk(cfg, r.s.mem)
            && Bank(cfg, r.s.mem, 1)[2] == 7 && ByteAfter(History(cfg, calls), 1, 2, 0) == 8
  {
    hide After, Access.Fence, History, BatchWrite, MemOk, Settled, Merge, SameOrDisjoint;
    var a, b, c, d := OneByte(0, 7), OneByte(2, 7), OneByte(1, 7), OneByte(2, 8);
    var writes := [a, b, c, d];
    var calls := WriteCalls(writes, sched);
    FourWait(cfg, a, b, c, d);
    AllWait(cfg, writes, 1, sched);
    AlwaysSettled(cfg, calls);
    FenceOne(cfg, After(cfg, calls), 1, sched);
    var batch := [Merge(Merge(a, c), d), b];
    BootShapeOk(cfg, 1);
    assert Merge(Merge(a, c), d).End() == 3;
    BatchReplays(cfg, Boot(cfg, map[]).mem, batch, 1);
    LastCovers(batch, 1, 2);
    LastCovers(writes, 1, 2);
    DisjointBytes(a, b, c, d);
  }

  /** Two one-byte writes wait at two homes, the first of them past its region. */
  lemma TwoHomesWait(cfg: Config, a: NodeId, b: NodeId, sched: Schedule)
    requires QueuesSI(cfg) && cfg.batchThreshold >= 2 && a != b
    requires RemoteRange(cfg, FirstByte(a)) && RemoteRange(cfg, FirstByte(b))
    ensures var v, w := Beyond(cfg, a), Plain(FirstByte(b).addr, [1]);
            var calls := [CallWrite(v.addr, v.payload, sched)] + [CallWrite(w.addr, w.payload, sched)];
            && After(cfg, calls).queues == map[a := [v], b := [w]] && After(cfg, calls).mem == Boot(cfg, map[]).mem
            && History(cfg, calls) == [v, w]
  {
    hide After, History, Access.Write, Enqueue, Settled, Drop;
    var v, w := Beyond(cfg, a), Plain(FirstByte(b).addr, [1]);
    var first, second := CallWrite(v.addr, v.payload, sched), CallWrite(w.addr, w.payload, sched);
    EmptyRun(cfg);
    EnqueueInto([], v, 0);
    EnqueueInto([], w, 0);
    AlwaysSettled(cfg, []);
    WriteWaits(cfg, After(cfg, []), v.addr, v.payload, sched);
    LastCall(cfg, [], first);
    assert [] + [first] == [first] && [] + [v] == [v] && [] + [w] == [w] && [v] + [w] == [v, w];
    AlwaysSettled(cfg, [first]);
    WriteWaits(cfg, After(cfg, [first]), w.addr, w.payload, sched);
    LastCall(cfg, [first], second);
  }

  /**
    A fence that fails at one destination can leave another one queued: a write
    past the region of one home and an in-range write to a second both return Ok;
    if the fence visits the first home first, the second write is neither
    delivered nor lost.
   */
  lemma FailedFenceSkipsHomes(cfg: Config, a: NodeId, b: NodeId, sched: Schedule)
    requires QueuesSI(cfg) && cfg.batchThreshold >= 2 && cfg.localRegionSize > 0 && a != b
    requires RemoteRange(cfg, FirstByte(a)) && RemoteRange(cfg, FirstByte(b))
    requires sched.destinations != [] && sched.destinations[0] == a
    ensures var v, w := Beyond(cfg, a), Plain(FirstByte(b).addr, [1]);
            var calls := [CallWrite(v.addr, v.payload, sched)] + [CallWrite(w.addr, w.payload, sched)];
            var r := Fence(cfg, After(cfg, calls), sched);
            && History(cfg, calls) == [v, w] && r.status == OutOfRange && Queue(r.s.queues, a) == []
            && Queue(r.s.queues, b) == [w] && MemOk(cfg, r.s.mem) && Bank(cfg, r.s.mem, b)[0] == 0
  {
    hide After, History, Access.Fence, Settled, MemOk, BatchWrite, Flush;
    var v, w := Beyond(cfg, a), Plain(FirstByte(b).addr, [1]);
    var calls := [CallWrite(v.addr, v.payload, sched)] + [CallWrite(w.addr, w.payload, sched)];
    var s := After(cfg, calls);
    TwoHomesWait(cfg, a, b, sched);
    AlwaysSettled(cfg, calls);
    AlwaysHomed(cfg, calls);
    MemoryKeepsShape(cfg, calls);
    FenceReduces(cfg, s, sched);
    assert PendingDestinations(s.queues) == {a, b};
    assert !Fits(cfg, Queue(s.queues, a));
    FlushDelivers(cfg, Quiet(cfg, s), a);
    FlushFrame(cfg, Quiet(cfg, s), a);
    BootShapeOk(cfg, b);
    assert Untouched(cfg, Quiet(cfg, s), Flush(cfg, Quiet(cfg, s), a).s, b);
  }

  // ------------------------------------- a refused write can still be read back

  /** Under fixed Adaptive a write past the region is refused when it is delivered at once. */
  lemma PastWriteIsRefused(cfg: Config, s: Node, addr: GlobalAddr, data: seq<byte>, sched: Schedule)
    requires Fixed(cfg, Adaptive) && cfg.enableWriteBatching && (cfg.batchThreshold <= 1 || cfg.adaptiveBatchThreshold <= 1)
    requires Settled(cfg, s) && Queue(s.queues, addr.home) == [] && RemoteRange(cfg, CacheKey(addr, |data|))
    requires !Reaches(cfg, s.mem, CacheKey(addr, |data|))
    ensures Access.Write(cfg, s, addr, data, sched).status == OutOfRange
  {
    hide WriteMetadata, WriteRequests, InvalidateFor, FlushThreshold, Insert;
    var q, key, range := Quiet(cfg, s), CacheKey(addr, |data|), Resolve(cfg.blockSize, addr, |data|);
    var modes := FlagsOf(cfg, q, key, range).modes;
    WriteReduces(cfg, s, addr, data, sched);
    RemoteWriteStages(cfg, q, addr, data, range);
    AnnouncedFrame(cfg, q, key, range);
    WriteModesFit(cfg, q, key, range);
    assert Fixed(cfg, Adaptive) && Adaptive in modes;
    FlushThresholdBound(cfg, modes);
  }

  /**
    The in-range condition is needed: under fixed Adaptive with immediate
    delivery and a cache, a write just past the region is refused, yet the next
    read of that range succeeds and returns its bytes.
   */
  lemma RejectedWriteIsReadBack(cfg: Config, home: NodeId, sched: Schedule)
    requires Fixed(cfg, Adaptive) && cfg.enableWriteBatching && cfg.blockSize > 0 && Storable(cfg, 1)
    requires (cfg.batchThreshold <= 1 || cfg.adaptiveBatchThreshold <= 1) && home != cfg.nodeId && home != INVALID_NODE
    ensures var addr := GlobalAddr(home, 0, cfg.localRegionSize);
            var w := Access.Write(cfg, Boot(cfg, map[]), addr, [1], sched);
            var r := Read(cfg, w.s, CacheKey(addr, 1), sched);
            w.status == OutOfRange && r.status == Ok && r.bytes == [1]
  {
    hide Access.Read, Access.Write, CachesItself, LeftBy, Profiled, Settled;
    var addr, boot := GlobalAddr(home, 0, cfg.localRegionSize), Boot(cfg, map[]);
    var key := CacheKey(addr, 1);
    EmptyRun(cfg);
    AlwaysSettled(cfg, []);
    PastWriteIsRefused(cfg, boot, addr, [1], sched);
    ProfiledModesFixed(cfg, Quiet(cfg, boot), key, IdsOf(cfg, key), WriteAccess, Adaptive);
    CachesItselfIffAdaptive(cfg, boot, addr, [1]);
    RefusedWriteReadBackIff(cfg, [], addr, [1], sched, sched);
  }

  // --------------------------------------- block records do not know their home

  /** The ownership fields of one block. */
  predicate Owned(blocks: Blocks, id: BlockId, owner: NodeId, version: nat, validated: nat)
  {
    var m := Lookup(blocks, id);
    m.owner == owner && m.version == version && m.lastValidated == validated
  }

  const FIRST_BLOCK := BlockId(0, 0)

  lemma FirstByteBlocks(cfg: Config, home: NodeId)
    requires cfg.blockSize > 0
    ensures Ids(Resolve(cfg.blockSize, FirstByte(home).addr, 1)) == [FIRST_BLOCK]
  {
    DivModUnique(0, cfg.blockSize, 0, 0);
  }

  lemma UpdateOnly(cfg: Config, blocks: Blocks, id: BlockId, u: Update)
    ensures UpdateAll(cfg, blocks, [id], u) == blocks[id := UpdateOne(cfg, Lookup(blocks, id), u)]
  {
    var ids := [id];
    assert ids[1..] == [] && ids[0] == id;
    assert UpdateAll(cfg, blocks, ids, u) == UpdateAll(cfg, blocks[id := UpdateOne(cfg, Lookup(blocks, id), u)], ids[1..], u);
  }

  lemma ObserveOnly(cfg: Config, o: Observed, id: BlockId, access: AccessType, local: bool)
    ensures ObserveAll(cfg, o, [id], access, local) == ObserveOne(cfg, o, id, access, local)
  {
    hide ObserveOne;
    var ids := [id];
    assert ids[1..] == [] && ids[0] == id;
    assert ObserveAll(cfg, o, ids, access, local) ==
           ObserveAll(cfg, ObserveOne(cfg, o, id, access, local), ids[1..], access, local);
  }

  /** Profiling a remote access sets an unset owner and leaves versions alone. */
  lemma ProfileOwned(cfg: Config, s: Node, home: NodeId, access: AccessType, owner: NodeId, version: nat, validated: nat)
    requires Owned(s.blocks, FIRST_BLOCK, owner, version, validated) && home != cfg.nodeId
    ensures var o := Profiled(cfg, s, FirstByte(home), [FIRST_BLOCK], access);
            Owned(o.blocks, FIRST_BLOCK, if owner == INVALID_NODE then home else owner, version, validated)
  {
    hide Decide, Stats.Mode, UpdateAll, ObserveAll;
    UpdateOnly(cfg, s.blocks, FIRST_BLOCK, Prepare(home, access));
    var prepared := UpdateAll(cfg, s.blocks, [FIRST_BLOCK], Prepare(home, access));
    ObserveOnly(cfg, Observed(prepared, s.epoch, s.stats, []), FIRST_BLOCK, access, false);
  }

  lemma MissOwned(cfg: Config, s: Node, owner: NodeId, version: nat, validated: nat)
    requires Owned(s.blocks, FIRST_BLOCK, owner, version, validated)
    ensures Owned(Missed(cfg, s, [FIRST_BLOCK]).blocks, FIRST_BLOCK, owner, version, validated)
  {
    UpdateOnly(cfg, s.blocks, FIRST_BLOCK, CountMiss);
  }

  /** A read of the recorded owner, or a redirected read of another home, validates the block and keeps its owner. */
  lemma OwnerReadOwned(cfg: Config, s: Node, home: NodeId, owner: NodeId, version: nat, validated: nat, schedule: seq<CacheKey>)
    requires Owned(s.blocks, FIRST_BLOCK, owner, version, validated) && owner != cfg.nodeId && owner != INVALID_NODE
    requires home == owner || validated == version
    requires Reaches(cfg, s.mem, FirstByte(owner))
    ensures var r := OwnerAwareRead(cfg, s, FirstByte(home), [FIRST_BLOCK], schedule);
            r.status == Ok && Owned(r.s.blocks, FIRST_BLOCK, owner, version, version)
  {
    hide UpdateAll, Opened, ReadCached;
    UpdateOnly(cfg, s.blocks, FIRST_BLOCK, MarkValidated);
    UpdateOnly(cfg, UpdateAll(cfg, s.blocks, [FIRST_BLOCK], MarkValidated), FIRST_BLOCK, ShareInvalid(home));
  }

  lemma FinishOwned(cfg: Config, r: OwnerReply, key: CacheKey, modes: seq<CoherenceMode>, owner: NodeId, version: nat)
    requires Owned(r.s.blocks, FIRST_BLOCK, owner, version, version)
    ensures Owned(FinishRead(cfg, r, key, [FIRST_BLOCK], modes).s.blocks, FIRST_BLOCK, owner, version, version)
  {
    hide UpdateAll, Insert, Admits;
    var ids := [FIRST_BLOCK];
    assert ids[1..] == [];
    assert MaxVersion(r.s.blocks, ids) == version;
    UpdateOnly(cfg, r.s.blocks, FIRST_BLOCK, TakeOwner(version));
    UpdateOnly(cfg, r.s.blocks, FIRST_BLOCK, MarkAdmitted);
    UpdateOnly(cfg, UpdateAll(cfg, r.s.blocks, ids, TakeOwner(version)), FIRST_BLOCK, MarkAdmitted);
  }

  /** The same for the whole read, admitted or not. */
  lemma ReadOwned(cfg: Config, s: Node, home: NodeId, owner: NodeId, version: nat, validated: nat, sched: Schedule)
    requires Settled(cfg, s) && RemoteRange(cfg, FirstByte(home)) && !ReadCached(s.entries, FirstByte(home), sched.hits).hit
    requires Owned(s.blocks, FIRST_BLOCK, owner, version, validated) && owner != cfg.nodeId && owner != INVALID_NODE
    requires (home == owner || validated == version) && Reaches(cfg, s.mem, FirstByte(owner))
    ensures Owned(Read(cfg, s, FirstByte(home), sched).s.blocks, FIRST_BLOCK, owner, version, version)
  {
    hide Profiled, OwnerAwareRead, Missed, Reaches, ReadCached, Ids, Resolve, FinishRead, Settled, Owned;
    var q, key, ids := Quiet(cfg, s), FirstByte(home), [FIRST_BLOCK];
    ReadReduces(cfg, s, key, sched);
    FirstByteBlocks(cfg, home);
    ProfileOwned(cfg, q, home, ReadAccess, owner, version, validated);
    var o := Profiled(cfg, q, key, ids, ReadAccess);
    var s1 := WithProfile(q, o);
    MissOwned(cfg, s1, owner, version, validated);
    MissedFrame(cfg, s1);
    OwnerReadOwned(cfg, Missed(cfg, s1, ids), home, owner, version, validated, sched.ownerHits);
    FinishOwned(cfg, OwnerAwareRead(cfg, Missed(cfg, s1, ids), key, ids, sched.ownerHits), key, o.modes, owner, version);
  }

  lemma MissedFrame(cfg: Config, s: Node)
    ensures var m := Missed(cfg, s, [FIRST_BLOCK]); m.mem == s.mem && m.entries == s.entries
  {
  }

  /** Nothing is queued, and every block stays shared. */
  predicate SharedDirect(cfg: Config) {
    Fixed(cfg, SI) && !cfg.enableWriteBatching && cfg.blockSize > 0 && cfg.localRegionSize > 0
  }

  /** A write moves the version, sets an unset owner and validates nothing. */
  lemma WriteOwned(cfg: Config, s: Node, home: NodeId, b: byte, owner: NodeId, version: nat, validated: nat, sched: Schedule)
    requires SharedDirect(cfg) && Settled(cfg, s) && RemoteRange(cfg, FirstByte(home))
    requires Owned(s.blocks, FIRST_BLOCK, owner, version, validated) && Reaches(cfg, s.mem, FirstByte(home))
    ensures var r := Access.Write(cfg, s, FirstByte(home).addr, [b], sched);
            && r.status == Ok && r.s.entries == Drop(s.entries, Exact(FirstByte(home)))
            && Owned(r.s.blocks, FIRST_BLOCK, if owner == INVALID_NODE then home else owner, version + 1, validated)
            && r.s.mem == Store(cfg, s.mem, FirstByte(home).addr, [b])
  {
    hide Profiled, WriteRequests, Store, Reaches, Ids, Resolve, Drop, Settled;
    var q, key, addr := Quiet(cfg, s), FirstByte(home), FirstByte(home).addr;
    var range := Resolve(cfg.blockSize, addr, 1);
    WriteReduces(cfg, s, addr, [b], sched);
    FirstByteBlocks(cfg, home);
    RemoteWriteStages(cfg, q, addr, [b], range);
    AnnouncedFrame(cfg, q, key, range);
    ProfiledModesFixed(cfg, q, key, [FIRST_BLOCK], WriteAccess, SI);
    ProfileOwned(cfg, q, home, WriteAccess, owner, version, validated);
    var o := Profiled(cfg, q, key, [FIRST_BLOCK], WriteAccess);
    WriteOnly(cfg, Applied(o.blocks, false, false), FIRST_BLOCK, o.modes, home);
    assert o.modes[0] in FlagsOf(cfg, q, key, range).modes;
  }

  lemma WriteOnly(cfg: Config, a: Applied, id: BlockId, modes: seq<CoherenceMode>, home: NodeId)
    requires |modes| == 1
    ensures ApplyWrites(cfg, a, [id], modes, home) == ApplyWrite(cfg, a, id, modes[0], home)
  {
    hide ApplyWrite;
    var ids := [id];
    assert ids[1..] == [] && ids[0] == id && modes[1..] == [];
    assert ApplyWrites(cfg, a, ids, modes, home) ==
           ApplyWrites(cfg, ApplyWrite(cfg, a, id, modes[0], home), ids[1..], modes[1..], home);
  }

  /** The guard for a first byte: the block is validated and records another remote owner that has the byte. */
  lemma GuardIff(cfg: Config, s: Node, home: NodeId, owner: NodeId, version: nat, validated: nat)
    requires RemoteRange(cfg, FirstByte(home)) && Owned(s.blocks, FIRST_BLOCK, owner, version, validated)
    requires owner !in {cfg.nodeId, home, INVALID_NODE} && Reaches(cfg, s.mem, FirstByte(owner))
    ensures DominantOwner(s.blocks, IdsOf(cfg, FirstByte(home)), home) == owner && At(FirstByte(home), owner) == FirstByte(owner)
    ensures GoesToThird(cfg, s, FirstByte(home)) <==> validated >= version
  {
    hide Reaches, Ids, Resolve;
    FirstByteBlocks(cfg, home);
  }

  /** Write a byte at home a and read it. */
  function WroteAndRead(a: NodeId, sched: Schedule): seq<Call>
  {
    [CallWrite(FirstByte(a).addr, [1], sched)] + [CallRead(FirstByte(a), sched)]
  }

  lemma AfterWroteAndRead(cfg: Config, a: NodeId, sched: Schedule)
    requires SharedDirect(cfg) && RemoteRange(cfg, FirstByte(a))
    ensures var s := After(cfg, WroteAndRead(a, sched));
            && Owned(s.blocks, FIRST_BLOCK, a, 1, 1) && Reaches(cfg, s.mem, FirstByte(a))
            && Load(cfg, s.mem, FirstByte(a)) == [1] && History(cfg, WroteAndRead(a, sched)) == [Plain(FirstByte(a).addr, [1])]
  {
    hide Access.Read, Access.Write, Settled, Reaches, Load, After, History, Boot, Owned, ReadCached, Store, MemOk;
    var key, boot := FirstByte(a), Boot(cfg, map[]);
    var write, read := CallWrite(key.addr, [1], sched), CallRead(key, sched);
    EmptyRun(cfg);
    LastCall(cfg, [], write);
    assert [] + [write] == [write] && [] + [Plain(key.addr, [1])] == [Plain(key.addr, [1])];
    LastCall(cfg, [write], read);
    AlwaysSettled(cfg, []);
    AlwaysSettled(cfg, [write]);
    BootReaches(cfg, a);
    WriteOwned(cfg, boot, a, 1, INVALID_NODE, 0, 0, sched);
    var s1 := After(cfg, [write]);
    assert s1.entries == [];
    NoEntriesMiss(key, sched.hits);
    StoredFirstByte(cfg, boot.mem, a, 1);
    ReadOwned(cfg, s1, a, a, 1, 0, sched);
    MemoryKeepsShape(cfg, [write]);
    ReadData(cfg, s1, key, sched);
    SameFirstByte(cfg, s1, After(cfg, WroteAndRead(a, sched)), a);
  }

  lemma SameFirstByte(cfg: Config, s: Node, after: Node, home: NodeId)
    requires SameData(cfg, s, after) && home != cfg.nodeId && Reaches(cfg, s.mem, FirstByte(home))
    ensures Reaches(cfg, after.mem, FirstByte(home)) && Load(cfg, after.mem, FirstByte(home)) == Load(cfg, s.mem, FirstByte(home))
  {
    assert Bank(cfg, after.mem, home) == Bank(cfg, s.mem, home);
  }

  /** Nothing of home b is cached when only home a was accessed. */
  lemma OtherHomeMisses(cfg: Config, a: NodeId, b: NodeId, sched: Schedule)
    requires a != b
    ensures !ReadCached(After(cfg, WroteAndRead(a, sched)).entries, FirstByte(b), sched.hits).hit
  {
    hide After;
    var calls := WroteAndRead(a, sched);
    EntriesWereAccessed(cfg, calls);
    assert forall k :: k in AccessKeys(cfg, calls) ==> k.addr.home == a;
    var entries := After(cfg, calls).entries;
    assert forall i :: 0 <= i < |entries| ==> entries[i] in entries;
  }

  /**
    The one-home condition is needed, with or without a cache and with nothing
    queued: write and read a byte at one home, and a read of the same offset at
    any other home, where nothing was written, returns that byte.
   */
  lemma SharedBlockIndexMisdirects(cfg: Config, a: NodeId, b: NodeId, sched: Schedule)
    requires SharedDirect(cfg) && a != b && cfg.nodeId !in {a, b} && INVALID_NODE !in {a, b}
    ensures var calls := WroteAndRead(a, sched);
            var r := Exec(cfg, After(cfg, calls), CallRead(FirstByte(b), sched));
            && GoesToThird(cfg, After(cfg, calls), FirstByte(b))
            && r.status == Ok && r.bytes == [1] && RefBytes(History(cfg, calls), FirstByte(b)) == [0]
  {
    hide Access.Read, Settled, Reaches, Load, After, History, Owned, ReadCached, GoesToThird, WroteAndRead, RefBytes,
         MissState, OwnerAwareRead;
    var calls := WroteAndRead(a, sched);
    AfterWroteAndRead(cfg, a, sched);
    OtherHomeMisses(cfg, a, b, sched);
    GuardIff(cfg, After(cfg, calls), b, a, 1, 1);
    MissAnswered(cfg, calls, FirstByte(b), sched);
    assert [Plain(FirstByte(a).addr, [1])] == [] + [Plain(FirstByte(a).addr, [1])];
    UnaffectedBytes([], Plain(FirstByte(a).addr, [1]), FirstByte(b));
    NeverWritten(FirstByte(b));
  }

  lemma NeverWritten(key: CacheKey)
    requires key.size == 1
    ensures RefBytes([], key) == [0]
  {
  }

  /**
    What a redirected read admits stays: with a cache and the always-admit
    policy, write and read a byte at home a, read the same offset of home b, then
    write a again. Now the block is no longer validated, so the guard no longer
    holds for b and nothing is pending, yet reading b still returns the byte
    first written at a.
   */
  lemma MisdirectedEntryLasts(cfg: Config, a: NodeId, b: NodeId, sched: Schedule)
    requires SharedDirect(cfg) && AdmitsAll(cfg, 1) && a != b && cfg.nodeId !in {a, b} && INVALID_NODE !in {a, b}
    ensures var calls := WroteAndRead(a, sched) + [CallRead(FirstByte(b), sched)] + [CallWrite(FirstByte(a).addr, [3], sched)];
            var s := After(cfg, calls); var r := Read(cfg, s, FirstByte(b), sched);
            && !GoesToThird(cfg, s, FirstByte(b)) && CaughtUp(cfg, s, FirstByte(b))
            && r.status == Ok && r.bytes == [1] && RefBytes(History(cfg, calls), FirstByte(b)) == [0]
  {
    hide Access.Read, Access.Write, Settled, Reaches, Load, After, History, Owned, ReadCached, GoesToThird,
         WroteAndRead, RefBytes, CaughtUp, Insert, Drop, Store, Depth;
    var key, read, write := FirstByte(b), CallRead(FirstByte(b), sched), CallWrite(FirstByte(a).addr, [3], sched);
    var c3, c4 := WroteAndRead(a, sched) + [read], WroteAndRead(a, sched) + [read] + [write];
    MisdirectedEntryAdmitted(cfg, a, b, sched);
    LastCall(cfg, c3, write);
    AlwaysSettled(cfg, c3);
    AlwaysSettled(cfg, c4);
    AlwaysTidy(cfg, c3);
    var s3, s4 := After(cfg, c3), After(cfg, c4);
    WriteOwned(cfg, s3, a, 3, a, 1, 1, sched);
    StoredFirstByte(cfg, s3.mem, a, 3);
    GuardIff(cfg, s4, b, a, 2, 1);
    KeptEntryServes(cfg, s3.entries, s4, key, FirstByte(a), sched);
    UnaffectedBytes(History(cfg, c3), Plain(FirstByte(a).addr, [3]), key);
    NothingQueuedWhenDirect(cfg, c4, key);
  }

  lemma MisdirectedEntryAdmitted(cfg: Config, a: NodeId, b: NodeId, sched: Schedule)
    requires SharedDirect(cfg) && AdmitsAll(cfg, 1) && a != b && cfg.nodeId !in {a, b} && INVALID_NODE !in {a, b}
    ensures var calls := WroteAndRead(a, sched) + [CallRead(FirstByte(b), sched)]; var s := After(cfg, calls);
            && Entry(FirstByte(b), [1]) in s.entries && Owned(s.blocks, FIRST_BLOCK, a, 1, 1)
            && Reaches(cfg, s.mem, FirstByte(a)) && RefBytes(History(cfg, calls), FirstByte(b)) == [0]
  {
    hide Access.Read, Settled, Reaches, Load, After, History, Owned, ReadCached, GoesToThird, WroteAndRead, RefBytes,
         Insert, MemOk;
    var key, read, c2 := FirstByte(b), CallRead(FirstByte(b), sched), WroteAndRead(a, sched);
    var s2, s3 := After(cfg, c2), After(cfg, c2 + [read]);
    SharedBlockIndexMisdirects(cfg, a, b, sched);
    AfterWroteAndRead(cfg, a, sched);
    OtherHomeMisses(cfg, a, b, sched);
    LastCall(cfg, c2, read);
    AlwaysSettled(cfg, c2);
    AlwaysTidy(cfg, c2);
    MemoryKeepsShape(cfg, c2);
    MissIsAdmitted(cfg, s2, key, sched);
    InsertKeeps(cfg, s2.entries, key, [1]);
    assert s3.entries[0] == Entry(key, [1]);
    ReadOwned(cfg, s2, b, a, 1, 1, sched);
    ReadData(cfg, s2, key, sched);
    SameFirstByte(cfg, s2, s3, a);
  }

  /** An entry that another range's exact invalidation leaves keeps serving its byte. */
  lemma KeptEntryServes(cfg: Config, before: seq<Entry>, s: Node, key: CacheKey, other: CacheKey, sched: Schedule)
    requires Settled(cfg, s) && RemoteRange(cfg, key) && key != other && key.size == 1
    requires Tidy(cfg, before) && Entry(key, [1]) in before && s.entries == Drop(before, Exact(other))
    ensures Read(cfg, s, key, sched).status == Ok && Read(cfg, s, key, sched).bytes == [1]
  {
    hide Access.Read, Settled, Drop;
    DropKeeps(cfg, before, Exact(other));
    assert Entry(key, [1]) in s.entries;
    OneEntryPerKey(s.entries, Entry(key, [1]));
    HitSucceeds(cfg, s, key, sched);
  }

  lemma NothingQueuedWhenDirect(cfg: Config, calls: seq<Call>, key: CacheKey)
    requires !cfg.enableWriteBatching
    ensures CaughtUp(cfg, After(cfg, calls), key)
  {
    hide After, Bank;
    QueueDepthBound(cfg, calls, key.addr.home);
  }

  lemma BootReaches(cfg: Config, home: NodeId)
    requires home != cfg.nodeId && cfg.localRegionSize > 0
    ensures var s := Boot(cfg, map[]);
            Reaches(cfg, s.mem, FirstByte(home)) && s.entries == [] && Owned(s.blocks, FIRST_BLOCK, INVALID_NODE, 0, 0)
  {
  }

  /** The stored byte is there. */
  lemma StoredFirstByte(cfg: Config, mem: Memory, home: NodeId, b: byte)
    requires home != cfg.nodeId && Reaches(cfg, mem, FirstByte(home))
    ensures var after := Store(cfg, mem, FirstByte(home).addr, [b]);
            Reaches(cfg, after, FirstByte(home)) && Load(cfg, after, FirstByte(home)) == [b]
  {
  }
}
