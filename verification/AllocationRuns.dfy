/**
  Allocation over whole runs: memory keeps its shape under every call, failed
  ones included, so an allocation is never taken back (src/api/alloc_api.cc).
 */
module AllocationRuns {
  import opened Types
  import opened Arithmetic
  import opened WriteCombining
  import opened BlockRanges
  import opened Allocator
  import opened StubNet
  import opened Access
  import opened Frames
  import opened StubControl
  import opened Batching

  lemma WriteShape(cfg: Config, mem: Memory, addr: GlobalAddr, data: seq<byte>)
    requires MemOk(cfg, mem)
    ensures MemOk(cfg, StubNet.Write(cfg, mem, addr, data).mem)
  {
    hide MemOk, Store, Opened;
    if Reaches(cfg, mem, CacheKey(addr, |data|)) {
      StoreSpec(cfg, mem, addr, data);
    } else {
      OpenedSame(cfg, mem, addr.home);
    }
  }

  lemma {:induction false} BatchShape(cfg: Config, mem: Memory, batch: seq<PendingWrite>)
    requires MemOk(cfg, mem)
    ensures MemOk(cfg, BatchWrite(cfg, mem, batch).mem)
    decreases |batch|
  {
    hide MemOk, StubNet.Write;
    if batch != [] {
      WriteShape(cfg, mem, batch[0].addr, batch[0].payload);
      BatchShape(cfg, StubNet.Write(cfg, mem, batch[0].addr, batch[0].payload).mem, batch[1..]);
    }
  }

  lemma {:induction false} FlushAllShape(cfg: Config, s: Node, todo: set<NodeId>, schedule: seq<NodeId>)
    requires MemOk(cfg, s.mem)
    ensures MemOk(cfg, FlushAll(cfg, s, todo, schedule).s.mem)
    decreases |todo|
  {
    hide MemOk, BatchWrite;
    if todo != {} {
      var node := Pick(todo, schedule);
      BatchShape(cfg, s.mem, Queue(s.queues, node));
      var r := Flush(cfg, s, node);
      if r.status == Ok {
        FlushAllShape(cfg, r.s, todo - {node}, Rest(schedule));
      }
    }
  }

  lemma RemoteWriteShape(cfg: Config, s: Node, addr: GlobalAddr, data: seq<byte>, range: BlockRange)
    requires MemOk(cfg, s.mem)
    ensures MemOk(cfg, RemoteWrite(cfg, s, addr, data, range).s.mem)
  {
    hide MemOk, BatchWrite, StubNet.Write, Enqueue, MergeTarget, WriteMetadata, WriteRequests, InvalidateFor;
    var key := CacheKey(addr, |data|);
    var s1, f := Announced(cfg, s, key, range), FlagsOf(cfg, s, key, range);
    RemoteWriteStages(cfg, s, addr, data, range);
    AnnouncedFrame(cfg, s, key, range);
    WriteShape(cfg, s.mem, addr, data);
    BatchShape(cfg, s.mem, Queue(Enqueued(cfg, s1, addr, data, f).queues, addr.home));
  }

  lemma WriteCallShape(cfg: Config, s: Node, addr: GlobalAddr, data: seq<byte>, sched: Schedule)
    requires Settled(cfg, s) && MemOk(cfg, s.mem)
    ensures MemOk(cfg, Access.Write(cfg, s, addr, data, sched).s.mem)
  {
    hide MemOk, Profiled, StubNet.Write, RemoteWrite;
    WriteReduces(cfg, s, addr, data, sched);
    WriteShape(cfg, s.mem, addr, data);
    if data != [] && cfg.blockSize > 0 {
      RemoteWriteShape(cfg, Quiet(cfg, s), addr, data, Resolve(cfg.blockSize, addr, |data|));
    }
  }

  /** In every run allocations tile a prefix of the heap and every region keeps its size. */
  lemma {:induction false} MemoryKeepsShape(cfg: Config, calls: seq<Call>)
    ensures MemOk(cfg, After(cfg, calls).mem)
  {
    if calls == [] {
      BootData(cfg, map[]);
    } else {
      var before, call := calls[..|calls| - 1], calls[|calls| - 1];
      MemoryKeepsShape(cfg, before);
      AlwaysSettled(cfg, before);
      CallKeepsShape(cfg, After(cfg, before), call);
    }
  }

  lemma CallKeepsShape(cfg: Config, s: Node, call: Call)
    requires Settled(cfg, s) && MemOk(cfg, s.mem)
    ensures MemOk(cfg, Exec(cfg, s, call).s.mem)
  {
    hide MemOk, Access.Read, Access.Write, Access.Fence, Access.Malloc;
    match call
    case CallMalloc(size) => MallocBanks(cfg, s, size);
    case CallRead(key, sched) => ReadShape(cfg, s, key, sched);
    case CallWrite(addr, data, sched) => WriteCallShape(cfg, s, addr, data, sched);
    case CallFence(sched) =>
      FenceReduces(cfg, s, sched);
      FlushAllShape(cfg, Quiet(cfg, s), PendingDestinations(s.queues), sched.destinations);
    case CallRestart => BootShape(cfg, s.inboxes);
  }

  lemma ReadShape(cfg: Config, s: Node, key: CacheKey, sched: Schedule)
    requires Settled(cfg, s) && MemOk(cfg, s.mem)
    ensures MemOk(cfg, Read(cfg, s, key, sched).s.mem)
  {
    hide MemOk, Access.Read;
    ReadData(cfg, s, key, sched);
  }

  lemma BootShape(cfg: Config, inboxes: Inboxes)
    ensures MemOk(cfg, Boot(cfg, inboxes).mem)
  {
    BootData(cfg, inboxes);
  }

  /**
    In every run lm_malloc returns exactly what the allocator granted: the branch
    that gives up because the fresh range does not resolve is never taken.
   */
  lemma AllocationsAlwaysResolve(cfg: Config, calls: seq<Call>, size: nat)
    ensures var s := After(cfg, calls); Malloc(cfg, s, size).1 == Allocate(cfg, s.mem.heap, size).1
  {
    MemoryKeepsShape(cfg, calls);
    var heap := After(cfg, calls).mem.heap;
    if Allocate(cfg, heap, size).1.IsValid() {
      AllocationResolves(cfg, heap, size);
    }
  }

  // -------------------------------------------------------- when memory is granted

  /** The fewest whole blocks that hold `size` bytes, in bytes. */
  function Rounded(cfg: Config, size: nat): nat
    requires cfg.blockSize > 0
  {
    if size % cfg.blockSize == 0 then size else size - size % cfg.blockSize + cfg.blockSize
  }

  lemma RoundedIs(cfg: Config, size: nat)
    requires cfg.blockSize > 0
    ensures AlignUp(size, cfg.blockSize) == Rounded(cfg, size)
  {
    var b := cfg.blockSize;
    var q, r := size / b, size % b;
    assert size == q * b + r;
    if r == 0 {
      DivModUnique(size + b - 1, b, q, b - 1);
    } else {
      assert (q + 1) * b == q * b + b;
      DivModUnique(size + b - 1, b, q + 1, r - 1);
    }
  }

  /** The allocations granted since the last restart, as the calls and the configuration tell it. */
  function Grants(cfg: Config, calls: seq<Call>): seq<Allocation>
  {
    if calls == [] then []
    else
      var before, call := Grants(cfg, calls[..|calls| - 1]), calls[|calls| - 1];
      match call
      case CallRestart => []
      case CallMalloc(size) =>
        if Granted(cfg, before, size) then before + [Allocation(Top(before), Rounded(cfg, size))] else before
      case _ => before
  }

  /** The bytes granted so far. */
  function Top(grants: seq<Allocation>): nat
  {
    if grants == [] then 0 else Top(grants[..|grants| - 1]) + grants[|grants| - 1].size
  }

  /** The allocation fits behind those already granted. */
  predicate Granted(cfg: Config, grants: seq<Allocation>, size: nat)
  {
    size > 0 && cfg.blockSize > 0 && Top(grants) + Rounded(cfg, size) <= cfg.localRegionSize
  }

  /** The bookkeeping of the heap is the granted allocations. */
  predicate Books(cfg: Config, heap: Heap, grants: seq<Allocation>)
  {
    heap.allocations == grants && heap.next == Top(grants) && |heap.region| == cfg.localRegionSize
  }

  lemma AllocateBooks(cfg: Config, heap: Heap, grants: seq<Allocation>, size: nat)
    requires Books(cfg, heap, grants)
    ensures var (after, addr) := Allocate(cfg, heap, size);
            var more := if Granted(cfg, grants, size) then grants + [Allocation(Top(grants), Rounded(cfg, size))] else grants;
            && Books(cfg, after, more)
            && addr == (if Granted(cfg, grants, size) then GlobalAddr(cfg.nodeId, 0, Top(grants)) else INVALID_ADDR)
            && (!Granted(cfg, grants, size) ==> after == heap)
  {
    hide AlignUp, Rounded;
    if cfg.blockSize > 0 {
      RoundedIs(cfg, size);
      var last := Allocation(Top(grants), Rounded(cfg, size));
      assert (grants + [last])[..|grants|] == grants;
    }
  }

  /** Only allocations and restarts change the bookkeeping of the heap. */
  predicate SameBooks(a: Heap, b: Heap)
  {
    b.next == a.next && b.allocations == a.allocations && |b.region| == |a.region|
  }

  lemma StoreKeepsBooks(cfg: Config, mem: Memory, addr: GlobalAddr, data: seq<byte>)
    requires MemOk(cfg, mem)
    ensures SameBooks(mem.heap, StubNet.Write(cfg, mem, addr, data).mem.heap)
  {
    hide Accepts;
    if Reaches(cfg, mem, CacheKey(addr, |data|)) {
      ReachesInBank(cfg, mem, CacheKey(addr, |data|));
      BankSize(cfg, mem, addr.home);
    }
  }

  lemma {:induction false} BatchKeepsBooks(cfg: Config, mem: Memory, batch: seq<PendingWrite>)
    requires MemOk(cfg, mem)
    ensures SameBooks(mem.heap, BatchWrite(cfg, mem, batch).mem.heap)
    decreases |batch|
  {
    hide MemOk, StubNet.Write;
    if batch != [] {
      var mem1 := StubNet.Write(cfg, mem, batch[0].addr, batch[0].payload).mem;
      WriteShape(cfg, mem, batch[0].addr, batch[0].payload);
      StoreKeepsBooks(cfg, mem, batch[0].addr, batch[0].payload);
      BatchKeepsBooks(cfg, mem1, batch[1..]);
    }
  }

  lemma {:induction false} FlushAllKeepsBooks(cfg: Config, s: Node, todo: set<NodeId>, schedule: seq<NodeId>)
    requires MemOk(cfg, s.mem)
    ensures SameBooks(s.mem.heap, FlushAll(cfg, s, todo, schedule).s.mem.heap)
    decreases |todo|
  {
    hide MemOk, BatchWrite;
    if todo != {} {
      var node := Pick(todo, schedule);
      BatchShape(cfg, s.mem, Queue(s.queues, node));
      BatchKeepsBooks(cfg, s.mem, Queue(s.queues, node));
      var r := Flush(cfg, s, node);
      if r.status == Ok {
        FlushAllKeepsBooks(cfg, r.s, todo - {node}, Rest(schedule));
      }
    }
  }

  lemma WriteKeepsBooks(cfg: Config, s: Node, addr: GlobalAddr, data: seq<byte>, sched: Schedule)
    requires Settled(cfg, s) && MemOk(cfg, s.mem)
    ensures SameBooks(s.mem.heap, Access.Write(cfg, s, addr, data, sched).s.mem.heap)
  {
    hide MemOk, Profiled, StubNet.Write, RemoteWrite, Accepts;
    WriteReduces(cfg, s, addr, data, sched);
    StoreKeepsBooks(cfg, s.mem, addr, data);
    if data != [] && cfg.blockSize > 0 {
      RemoteWriteKeepsBooks(cfg, Quiet(cfg, s), addr, data, Resolve(cfg.blockSize, addr, |data|));
    }
  }

  lemma RemoteWriteKeepsBooks(cfg: Config, s: Node, addr: GlobalAddr, data: seq<byte>, range: BlockRange)
    requires MemOk(cfg, s.mem)
    ensures SameBooks(s.mem.heap, RemoteWrite(cfg, s, addr, data, range).s.mem.heap)
  {
    hide MemOk, BatchWrite, StubNet.Write, Enqueue, MergeTarget, WriteMetadata, WriteRequests, InvalidateFor;
    var key := CacheKey(addr, |data|);
    var s1, f := Announced(cfg, s, key, range), FlagsOf(cfg, s, key, range);
    RemoteWriteStages(cfg, s, addr, data, range);
    AnnouncedFrame(cfg, s, key, range);
    StoreKeepsBooks(cfg, s.mem, addr, data);
    BatchKeepsBooks(cfg, s.mem, Queue(Enqueued(cfg, s1, addr, data, f).queues, addr.home));
  }

  lemma CallBooks(cfg: Config, s: Node, call: Call, grants: seq<Allocation>)
    requires Settled(cfg, s) && MemOk(cfg, s.mem) && Books(cfg, s.mem.heap, grants) && !call.CallRestart?
    ensures Books(cfg, Exec(cfg, s, call).s.mem.heap,
                  if call.CallMalloc? && Granted(cfg, grants, call.size)
                  then grants + [Allocation(Top(grants), Rounded(cfg, call.size))] else grants)
  {
    hide MemOk, Access.Read, Access.Write, Access.Fence, FlushAll, Granted, Rounded, Top;
    match call
    case CallMalloc(size) => AllocateBooks(cfg, s.mem.heap, grants, size);
    case CallRead(key, sched) => ReadKeepsHeap(cfg, s, key, sched);
    case CallWrite(addr, data, sched) => WriteKeepsBooks(cfg, s, addr, data, sched);
    case CallFence(sched) =>
      FenceReduces(cfg, s, sched);
      FlushAllKeepsBooks(cfg, Quiet(cfg, s), PendingDestinations(s.queues), sched.destinations);
  }

  lemma ReadKeepsHeap(cfg: Config, s: Node, key: CacheKey, sched: Schedule)
    requires Settled(cfg, s) && MemOk(cfg, s.mem)
    ensures Read(cfg, s, key, sched).s.mem.heap == s.mem.heap
  {
    hide MemOk, Access.Read, Bank;
    ReadData(cfg, s, key, sched);
  }

  /** In every run the heap holds exactly the granted allocations, in order and without gaps. */
  lemma {:induction false} AlwaysBooked(cfg: Config, calls: seq<Call>)
    ensures Books(cfg, After(cfg, calls).mem.heap, Grants(cfg, calls))
  {
    hide Exec, MemOk, Granted, Rounded;
    if calls != [] {
      var before, call := calls[..|calls| - 1], calls[|calls| - 1];
      AlwaysBooked(cfg, before);
      AlwaysSettled(cfg, before);
      MemoryKeepsShape(cfg, before);
      if call.CallRestart? {
        RestartEmptiesHeap(cfg, After(cfg, before));
      } else {
        CallBooks(cfg, After(cfg, before), call, Grants(cfg, before));
      }
    }
  }

  lemma RestartEmptiesHeap(cfg: Config, s: Node)
    ensures Books(cfg, Exec(cfg, s, CallRestart).s.mem.heap, [])
  {
  }

  /**
    Exactly when lm_malloc succeeds, in every run: iff the size and the block size
    are positive and the bytes already granted plus the fewest whole blocks that
    hold the size fit in the local region. It then returns the first free byte
    of this node's region 0; otherwise the invalid address, and nothing changes.
   */
  lemma MallocIs(cfg: Config, calls: seq<Call>, size: nat)
    ensures var s, grants := After(cfg, calls), Grants(cfg, calls); var (after, addr) := Malloc(cfg, s, size);
            && addr == (if Granted(cfg, grants, size) then GlobalAddr(cfg.nodeId, 0, Top(grants)) else INVALID_ADDR)
            && (!Granted(cfg, grants, size) ==> after == s)
  {
    hide After, Granted, Rounded, Accepts, UpdateAll;
    AlwaysBooked(cfg, calls);
    AllocateBooks(cfg, After(cfg, calls).mem.heap, Grants(cfg, calls), size);
    AllocationsAlwaysResolve(cfg, calls, size);
  }

  /** In every run an access of this node's memory is accepted iff it is well-formed and lies inside one granted allocation. */
  lemma AcceptedIff(cfg: Config, calls: seq<Call>, addr: GlobalAddr, size: nat)
    ensures var grants := Grants(cfg, calls);
            Accepts(cfg, After(cfg, calls).mem.heap, addr, size) <==>
            && addr.IsValid() && addr.home == cfg.nodeId && size > 0 && cfg.blockSize > 0
            && exists i :: 0 <= i < |grants| && grants[i].offset <= addr.offset && addr.offset + size <= grants[i].End()
  {
    hide After, Accepts;
    MemoryKeepsShape(cfg, calls);
    AlwaysBooked(cfg, calls);
    LookupRefinesSearch(cfg, After(cfg, calls).mem.heap, addr, size);
  }
}
