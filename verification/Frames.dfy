/** Which parts of the node state each stage of a call can change. */
module Frames {
  import opened Types
  import opened LruCache
  import opened BlockRanges
  import opened Allocator
  import opened StubNet
  import opened Access

  lemma HomeReadFrame(cfg: Config, s: Node, key: CacheKey, ids: seq<BlockId>, share: bool)
    ensures var r := HomeRead(cfg, s, key, ids, share);
            && r.s == s.(mem := Opened(cfg, s.mem, key.addr.home), blocks := r.s.blocks)
            && r.status in {Ok, OutOfRange} && !r.redirected
  {
  }

  /** The four ways an owner-aware read can go. */
  lemma OwnerAwareReadCases(cfg: Config, s: Node, key: CacheKey, ids: seq<BlockId>, schedule: seq<CacheKey>)
    ensures var r, owner := OwnerAwareRead(cfg, s, key, ids, schedule), DominantOwner(s.blocks, ids, key.addr.home);
            var c, via := ReadCached(s.entries, key, schedule), s.(mem := Opened(cfg, s.mem, owner));
            || (c.hit && r == OwnerReply(s.(entries := c.entries), Ok, c.bytes, true))
            || r == HomeRead(cfg, s, key, ids, false)
            || r == HomeRead(cfg, s, key, ids, true)
            || r == HomeRead(cfg, via, key, ids, true)
            || (r.redirected && r.status == Ok && r.s == via.(blocks := UpdateAll(cfg, s.blocks, ids, MarkValidated)))
  {
  }

  lemma OwnerAwareReadFrame(cfg: Config, s: Node, key: CacheKey, ids: seq<BlockId>, schedule: seq<CacheKey>)
    ensures var r := OwnerAwareRead(cfg, s, key, ids, schedule);
            && r.s == s.(mem := r.s.mem, blocks := r.s.blocks, entries := r.s.entries)
            && r.status in {Ok, OutOfRange}
  {
    OwnerAwareReadCases(cfg, s, key, ids, schedule);
    HomeReadFrame(cfg, s, key, ids, false);
    HomeReadFrame(cfg, s, key, ids, true);
    HomeReadFrame(cfg, s.(mem := Opened(cfg, s.mem, DominantOwner(s.blocks, ids, key.addr.home))), key, ids, true);
  }

  /** A remote read sends no control message and queues no write. */
  lemma RemoteReadFrame(cfg: Config, s: Node, key: CacheKey, ids: seq<BlockId>, sched: Schedule)
    ensures var r := RemoteRead(cfg, s, key, ids, sched);
            && r.s == s.(mem := r.s.mem, blocks := r.s.blocks, epoch := r.s.epoch, entries := r.s.entries, stats := r.s.stats)
            && r.status in {Ok, OutOfRange}
  {
    var missed := Missed(cfg, WithProfile(s, Profiled(cfg, s, key, ids, ReadAccess)), ids);
    OwnerAwareReadFrame(cfg, missed, key, ids, sched.ownerHits);
  }

  lemma {:induction false} BatchStatus(cfg: Config, mem: Memory, writes: seq<WriteCombining.PendingWrite>)
    ensures BatchWrite(cfg, mem, writes).status in {Ok, OutOfRange}
    decreases |writes|
  {
    if writes != [] {
      BatchStatus(cfg, StubNet.Write(cfg, mem, writes[0].addr, writes[0].payload).mem, writes[1..]);
    }
  }

  lemma FlushFrame(cfg: Config, s: Node, node: NodeId)
    ensures var r := Flush(cfg, s, node);
            && r.s == s.(queues := s.queues - {node}, mem := r.s.mem, stats := r.s.stats)
            && r.status in {Ok, OutOfRange}
            && forall n: NodeId :: Queue(r.s.queues, n) == if n == node then [] else Queue(s.queues, n)
  {
    BatchStatus(cfg, s.mem, Queue(s.queues, node));
  }

  lemma QueueWriteFrame(cfg: Config, s: Node, addr: GlobalAddr, data: seq<byte>, f: WriteFlags)
    ensures var r := QueueWrite(cfg, s, addr, data, f);
            && r.s == s.(queues := r.s.queues, mem := r.s.mem, stats := r.s.stats, entries := r.s.entries)
            && r.s.entries == Enqueued(cfg, s, addr, data, f).entries
            && r.status in {Ok, OutOfRange}
  {
    FlushFrame(cfg, Enqueued(cfg, s, addr, data, f), addr.home);
  }

  lemma WriteRequestsFrame(cfg: Config, s: Node, key: CacheKey, range: BlockRange, f: WriteFlags)
    ensures var r := WriteRequests(cfg, s, key, range, f);
            r == s.(nextId := r.nextId, pending := r.pending, inboxes := r.inboxes)
  {
  }

  lemma DirectWriteFrame(cfg: Config, s: Node, addr: GlobalAddr, data: seq<byte>)
    ensures var r := DirectWrite(cfg, s, addr, data);
            r.s == s.(mem := r.s.mem, stats := r.s.stats) && r.status in {Ok, OutOfRange}
  {
  }

  /** The state in which a remote write is delivered: metadata applied, requests sent, cache invalidated. */
  function Announced(cfg: Config, s: Node, key: CacheKey, range: BlockRange): Node
  {
    var (s1, f) := WriteMetadata(cfg, s, key, Ids(range));
    InvalidateFor(WriteRequests(cfg, s1, key, range, f), key, f)
  }

  function FlagsOf(cfg: Config, s: Node, key: CacheKey, range: BlockRange): WriteFlags
  {
    WriteMetadata(cfg, s, key, Ids(range)).1
  }

  lemma AnnouncedFrame(cfg: Config, s: Node, key: CacheKey, range: BlockRange)
    ensures var (m, f) := WriteMetadata(cfg, s, key, Ids(range)); var r := Announced(cfg, s, key, range);
            && r == s.(blocks := m.blocks, epoch := m.epoch, nextId := r.nextId, pending := r.pending, inboxes := r.inboxes,
                    entries := r.entries, stats := r.stats)
            && r.entries == Drop(s.entries, if WI in f.modes then Overlapping(key) else Exact(key))
            && r.stats == m.stats.Invalidated(WI in f.modes, |s.entries| - |r.entries|)
            && SameRequests(r, WriteRequests(cfg, m, key, range, f))
  {
    var (m, f) := WriteMetadata(cfg, s, key, Ids(range));
    WriteRequestsFrame(cfg, m, key, range, f);
  }

  predicate SameRequests(a: Node, b: Node)
  {
    a.nextId == b.nextId && a.pending == b.pending && a.inboxes == b.inboxes
  }

  /** A remote write is its announcement followed by its delivery. */
  lemma RemoteWriteStages(cfg: Config, s: Node, addr: GlobalAddr, data: seq<byte>, range: BlockRange)
    ensures var key := CacheKey(addr, |data|);
            var s1, f := Announced(cfg, s, key, range), FlagsOf(cfg, s, key, range);
            RemoteWrite(cfg, s, addr, data, range) ==
            if cfg.enableWriteBatching then QueueWrite(cfg, s1, addr, data, f) else DirectWrite(cfg, s1, addr, data)
  {
  }

  /** Delivery changes neither metadata nor control state. */
  lemma RemoteWriteFrame(cfg: Config, s: Node, addr: GlobalAddr, data: seq<byte>, range: BlockRange)
    ensures var key := CacheKey(addr, |data|);
            var s1, r := Announced(cfg, s, key, range), RemoteWrite(cfg, s, addr, data, range);
            && r.s == s1.(queues := r.s.queues, mem := r.s.mem, stats := r.s.stats, entries := r.s.entries)
            && r.status in {Ok, OutOfRange}
  {
    var key := CacheKey(addr, |data|);
    var s1, f := Announced(cfg, s, key, range), FlagsOf(cfg, s, key, range);
    RemoteWriteStages(cfg, s, addr, data, range);
    QueueWriteFrame(cfg, s1, addr, data, f);
    DirectWriteFrame(cfg, s1, addr, data);
  }

  /** An allocation changes the heap bookkeeping and adopts the new blocks, but no byte of memory. */
  lemma MallocFrame(cfg: Config, s: Node, size: nat)
    ensures var (heap, addr) := Allocate(cfg, s.mem.heap, size); var r := Malloc(cfg, s, size).0;
            && r == s.(mem := s.mem.(heap := heap), blocks := r.blocks, stats := r.stats)
            && heap.region == s.mem.heap.region
            && (|| (r.blocks == s.blocks && r.stats == s.stats)
                || (&& size > 0 && cfg.blockSize > 0
                    && r.blocks == UpdateAll(cfg, s.blocks, Ids(Resolve(cfg.blockSize, addr, size)), Adopt)
                    && r.stats == s.stats.(allocs := s.stats.allocs + 1)))
  {
  }

  /** The bytes of every bank are those before the allocation. */
  lemma MallocBanks(cfg: Config, s: Node, size: nat)
    requires MemOk(cfg, s.mem)
    ensures var r := Malloc(cfg, s, size).0;
            MemOk(cfg, r.mem) && r.queues == s.queues && forall n :: Bank(cfg, r.mem, n) == Bank(cfg, s.mem, n)
  {
    MallocFrame(cfg, s, size);
    AllocateKeepsTiling(cfg, s.mem.heap, size);
  }
}
