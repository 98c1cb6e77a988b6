/**
  A client's session with the library object: any interleaving of the lm_*
  calls (src/api/access_api.cc, src/api/sync_api.cc, src/api/alloc_api.cc).
  The object's state is always that of the run of its calls, so what the run
  theorems promise is what the methods deliver.
 */
module Sessions {
  import opened Types
  import opened Access
  import opened LeoMemRuntime
  import opened StubControl
  import opened QueueRuns
  import opened Batching
  import opened FlatMemory
  import opened Fences
  import opened AllocationRuns
  import opened Redirection
  import opened WriteOutcomes

  class Session {
    const lib: LeoMem
    ghost var calls: seq<Call>

    /** The object is in the state its calls lead to. */
    ghost predicate Valid()
      reads this, lib, lib.table, lib.Repr()
    {
      lib.Valid() && lib.View() == After(lib.cfg, calls)
    }

    constructor (cfg: Config)
      ensures Valid() && lib.cfg == cfg && calls == [] && fresh(lib.Repr())
    {
      var l := new LeoMem(cfg, map[]);
      lib := l;
      calls := [];
    }

    /** Succeeds iff the size fits behind what this session was granted, and returns the first free byte. */
    method Malloc(size: nat) returns (addr: GlobalAddr)
      requires Valid()
      modifies this, lib.Repr()
      ensures Valid() && fresh(lib.Repr() - old(lib.Repr())) && calls == old(calls) + [CallMalloc(size)]
      ensures var grants := Grants(lib.cfg, old(calls));
              addr == if Granted(lib.cfg, grants, size) then GlobalAddr(lib.cfg.nodeId, 0, Top(grants)) else INVALID_ADDR
    {
      hide After, Access.Malloc, LeoMem.View, LeoMem.Valid, Grants, Granted, Top;
      MallocIs(lib.cfg, calls, size);
      addr := lib.lm_malloc(size);
      LastCall(lib.cfg, calls, CallMalloc(size));
      calls := calls + [CallMalloc(size)];
    }

    /** Never times out; in a refinable session succeeds iff permitted and returns the last written bytes. */
    method Read(addr: GlobalAddr, size: nat) returns (status: Status, bytes: seq<byte>, ghost sched: Schedule)
      requires Valid()
      modifies this, lib.Repr()
      ensures Valid() && fresh(lib.Repr() - old(lib.Repr()))
      ensures calls == old(calls) + [CallRead(CacheKey(addr, size), sched)] && status != TimedOut
      ensures Refinable(lib.cfg, calls) ==>
                && (status == Ok <==> Permitted(lib.cfg, old(lib.View()).mem.heap, CacheKey(addr, size)))
                && (status == Ok ==> bytes == RefBytes(History(lib.cfg, old(calls)), CacheKey(addr, size)))
    {
      hide After, Access.Read, LeoMem.View, LeoMem.Valid, Refinable, History, Permitted;
      ghost var before, cfg, key := calls, lib.cfg, CacheKey(addr, size);
      status, bytes, sched := lib.lm_read(addr, size);
      LastCall(cfg, before, CallRead(key, sched));
      NeverTimesOut(cfg, before, CallRead(key, sched));
      calls := before + [CallRead(key, sched)];
      if Refinable(cfg, calls) {
        ReadsReturnLastWrites(cfg, before, key, sched);
      }
    }

    /**
      Never times out; in a refinable session succeeds iff permitted. A remote
      write announces itself to its home exactly as its blocks call for.
     */
    method Write(addr: GlobalAddr, data: seq<byte>) returns (status: Status, ghost sched: Schedule)
      requires Valid()
      modifies this, lib.Repr()
      ensures Valid() && fresh(lib.Repr() - old(lib.Repr()))
      ensures calls == old(calls) + [CallWrite(addr, data, sched)] && status != TimedOut
      ensures History(lib.cfg, calls) ==
              History(lib.cfg, old(calls)) + (if status == Ok then [Plain(addr, data)] else [])
      ensures Refinable(lib.cfg, calls) ==>
                (status == Ok <==> Permitted(lib.cfg, old(lib.View()).mem.heap, CacheKey(addr, |data|)))
      ensures RemoteRange(lib.cfg, CacheKey(addr, |data|)) ==>
                exists sent :: Announces(lib.cfg, old(lib.View()), lib.View(), CacheKey(addr, |data|), sent)
    {
      hide After, Access.Write, LeoMem.View, LeoMem.Valid, Refinable, Permitted, Announces;
      ghost var before, cfg := calls, lib.cfg;
      status, sched := lib.lm_write(addr, data);
      ghost var call := CallWrite(addr, data, sched);
      LastCall(cfg, before, call);
      NeverTimesOut(cfg, before, call);
      calls := before + [call];
      assert calls[..|calls| - 1] == before && calls[|calls| - 1] == call;
      if Refinable(cfg, calls) {
        WritesSucceed(cfg, before, addr, data, sched);
      }
      if RemoteRange(cfg, CacheKey(addr, |data|)) {
        ghost var sent := WriteAnnounces(cfg, before, addr, data, sched);
      }
    }

    /**
      Succeeds iff every pending queue fits its home region. When writes are in
      range and safely queued it does, and home memory holds every write in
      program order.
     */
    method Fence() returns (status: Status, ghost sched: Schedule)
      requires Valid()
      modifies this, lib.Repr()
      ensures Valid() && fresh(lib.Repr() - old(lib.Repr()))
      ensures calls == old(calls) + [CallFence(sched)] && status != TimedOut
      ensures status == Ok <==> forall n: NodeId :: Fits(lib.cfg, Queue(old(lib.View()).queues, n))
      ensures WritesInRange(lib.cfg, old(calls)) && SafeQueueing(lib.cfg, old(calls)) ==>
                status == Ok && MemoryIs(lib.cfg, lib.View().mem, History(lib.cfg, old(calls)))
    {
      hide After, Access.Fence, LeoMem.View, LeoMem.Valid, WritesInRange, SafeQueueing, MemoryIs, History, Fits,
           Emptied, Untouched, StoppedAt;
      ghost var before, cfg := calls, lib.cfg;
      status, sched := lib.lm_fence();
      LastCall(cfg, before, CallFence(sched));
      NeverTimesOut(cfg, before, CallFence(sched));
      FenceDelivers(cfg, before, sched);
      calls := before + [CallFence(sched)];
      if WritesInRange(cfg, before) && SafeQueueing(cfg, before) {
        FenceDeliversHistory(cfg, before, sched);
      }
    }
  }
}
