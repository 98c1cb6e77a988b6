/**
  The status of every access of every run, kind of refusal by kind of refusal
  (src/api/access_api.cc, ValidateAndResolveRange, lm_read, lm_write).
 */
module Statuses {
  import opened Types
  import opened WriteCombining
  import opened LruCache
  import opened BlockRanges
  import opened Allocator
  import opened StubNet
  import opened Access
  import opened Frames
  import opened StubControl
  import opened Redirection
  import opened CacheRuns
  import opened AllocationRuns
  import opened Fences
  import opened Exactness
  import opened WriteOutcomes

  /** The address names no node, the size is zero or there are no blocks. */
  predicate Malformed(cfg: Config, key: CacheKey)
  {
    !key.addr.IsValid() || key.size == 0 || cfg.blockSize == 0
  }

  /** The range lies inside one granted allocation. */
  predicate Allocated(grants: seq<Allocation>, key: CacheKey)
  {
    exists i :: 0 <= i < |grants| && grants[i].offset <= key.addr.offset && key.End() <= grants[i].End()
  }

  /**
    A read in any run: InvalidArg iff malformed; otherwise a local read is Ok
    iff its range was allocated and a remote one iff it is cached or in its home
    region; everything else is OutOfRange.
   */
  lemma ReadStatus(cfg: Config, calls: seq<Call>, key: CacheKey, sched: Schedule)
    ensures var s := After(cfg, calls);
            Read(cfg, s, key, sched).status ==
            if Malformed(cfg, key) then InvalidArg
            else if key.addr.home == cfg.nodeId then if Allocated(Grants(cfg, calls), key) then Ok else OutOfRange
            else if Has(s.entries, key) || Servers(s.entries, key) != {} || key.End() <= cfg.localRegionSize then Ok
            else OutOfRange
  {
    hide After, Access.Read, ReadCached, Settled, MemOk, Allocated, Has, Servers;
    var s := After(cfg, calls);
    AlwaysSettled(cfg, calls);
    if RemoteRange(cfg, key) {
      MemoryKeepsShape(cfg, calls);
      HitIff(s.entries, key, sched.hits);
      if ReadCached(s.entries, key, sched.hits).hit {
        HitSucceeds(cfg, s, key, sched);
      } else {
        MissStatus(cfg, s, key, sched);
      }
    } else {
      OtherReadStatus(cfg, s, key, sched);
      AcceptedIff(cfg, calls, key.addr, key.size);
      AllocatedMeans(Grants(cfg, calls), key);
    }
  }

  lemma AllocatedMeans(grants: seq<Allocation>, key: CacheKey)
    ensures Allocated(grants, key) <==>
            exists i :: 0 <= i < |grants| && grants[i].offset <= key.addr.offset && key.addr.offset + key.size <= grants[i].End()
  {
  }

  lemma MissStatus(cfg: Config, s: Node, key: CacheKey, sched: Schedule)
    requires Settled(cfg, s) && MemOk(cfg, s.mem) && RemoteRange(cfg, key) && !ReadCached(s.entries, key, sched.hits).hit
    ensures Read(cfg, s, key, sched).status == if key.End() <= cfg.localRegionSize then Ok else OutOfRange
  {
    hide RemoteRead, ReadCached, Settled, MemOk, Profiled, GoesToThird, MissState, OwnerAwareRead, Reaches, Load;
    MissAnswers(cfg, s, key, sched);
    AnswersInRange(cfg, s, key);
    ReadReduces(cfg, s, key, sched);
    RemoteReadFrame(cfg, Quiet(cfg, s), key, IdsOf(cfg, key), sched);
  }

  lemma OtherReadStatus(cfg: Config, s: Node, key: CacheKey, sched: Schedule)
    requires Settled(cfg, s) && !RemoteRange(cfg, key)
    ensures Read(cfg, s, key, sched).status ==
            if Malformed(cfg, key) then InvalidArg
            else if Accepts(cfg, s.mem.heap, key.addr, key.size) then Ok else OutOfRange
  {
    hide RemoteRead, Settled, Accepts, Profiled;
    ReadReduces(cfg, s, key, sched);
  }

  lemma OtherWriteStatus(cfg: Config, s: Node, addr: GlobalAddr, data: seq<byte>, sched: Schedule)
    requires Settled(cfg, s) && !RemoteRange(cfg, CacheKey(addr, |data|))
    ensures Access.Write(cfg, s, addr, data, sched).status ==
            if Malformed(cfg, CacheKey(addr, |data|)) then InvalidArg
            else if Accepts(cfg, s.mem.heap, addr, |data|) then Ok else OutOfRange
  {
    hide RemoteWrite, Settled, Accepts, Profiled, Store;
    WriteReduces(cfg, s, addr, data, sched);
  }

  lemma DirectStatus(cfg: Config, s: Node, addr: GlobalAddr, data: seq<byte>, sched: Schedule)
    requires Settled(cfg, s) && MemOk(cfg, s.mem) && RemoteRange(cfg, CacheKey(addr, |data|)) && !cfg.enableWriteBatching
    ensures Access.Write(cfg, s, addr, data, sched).status == if addr.offset + |data| <= cfg.localRegionSize then Ok else OutOfRange
  {
    hide RemoteWrite, Settled, MemOk, Announced, Store, Resolve;
    var q, key, range := Quiet(cfg, s), CacheKey(addr, |data|), Resolve(cfg.blockSize, addr, |data|);
    WriteReduces(cfg, s, addr, data, sched);
    RemoteWriteStages(cfg, q, addr, data, range);
    AnnouncedData(cfg, q, key, range);
    BankSize(cfg, s.mem, addr.home);
  }

  /** A batched remote write succeeds unless it flushes a queue with a request out of range. */
  ghost predicate BatchedOk(cfg: Config, s: Node, after: Node, key: CacheKey, data: seq<byte>)
    requires cfg.blockSize > 0 && key.size > 0
  {
    exists w :: && QueuedAs(cfg, s.blocks, after.blocks, key, data, w)
                && var queue := Queue(Waiting(s, w).queues, key.addr.home);
                   Due(cfg, after.blocks, key, queue) ==> Fits(cfg, queue)
  }

  /**
    A write in any run: InvalidArg iff malformed; otherwise a local write is Ok
    iff its range was allocated, a direct remote one iff it is in its home region,
    and a batched one iff the flush it causes, if any, has nothing out of range;
    everything else is OutOfRange.
   */
  lemma WriteStatus(cfg: Config, calls: seq<Call>, addr: GlobalAddr, data: seq<byte>, sched: Schedule)
    ensures var s, key := After(cfg, calls), CacheKey(addr, |data|); var r := Access.Write(cfg, s, addr, data, sched);
            r.status ==
            if Malformed(cfg, key) then InvalidArg
            else if addr.home == cfg.nodeId then if Allocated(Grants(cfg, calls), key) then Ok else OutOfRange
            else if !cfg.enableWriteBatching then if key.End() <= cfg.localRegionSize then Ok else OutOfRange
            else if BatchedOk(cfg, s, r.s, key, data) then Ok else OutOfRange
  {
    hide After, Access.Write, Settled, MemOk, Allocated, QueuedAs, Due, Fits, Emptied, Untouched, Waiting;
    var s, key := After(cfg, calls), CacheKey(addr, |data|);
    AlwaysSettled(cfg, calls);
    if !RemoteRange(cfg, key) {
      OtherWriteStatus(cfg, s, addr, data, sched);
      AcceptedIff(cfg, calls, addr, |data|);
      AllocatedMeans(Grants(cfg, calls), key);
    } else if !cfg.enableWriteBatching {
      MemoryKeepsShape(cfg, calls);
      DirectStatus(cfg, s, addr, data, sched);
    } else {
      var w := FlushedIff(cfg, calls, addr, data, sched);
      OneForm(cfg, s, Access.Write(cfg, s, addr, data, sched).s, key, data, w);
    }
  }

  /** There is one way to queue a write. */
  lemma OneForm(cfg: Config, s: Node, after: Node, key: CacheKey, data: seq<byte>, w: PendingWrite)
    requires cfg.blockSize > 0 && key.size > 0 && QueuedAs(cfg, s.blocks, after.blocks, key, data, w)
    ensures forall v :: QueuedAs(cfg, s.blocks, after.blocks, key, data, v) ==> v == w
  {
    hide InMode, TakenOver;
  }
}
