/**
  Write batching over whole runs: what the queues hold, replayed over home
  memory, is always what replaying every write in program order would leave.
 */
module Batching {
  import opened Types
  import opened WriteCombining
  import opened BlockRanges
  import opened Allocator
  import opened StubNet
  import opened Access
  import opened Frames
  import opened StubControl
  import opened QueueRuns

  /** The writes that returned Ok since the last restart, in program order. */
  ghost function History(cfg: Config, calls: seq<Call>): seq<PendingWrite>
  {
    if calls == [] then []
    else
      var before, call := calls[..|calls| - 1], calls[|calls| - 1];
      if call.CallRestart? then []
      else if call.CallWrite? && Exec(cfg, After(cfg, before), call).status == Ok
      then History(cfg, before) + [Plain(call.addr, call.data)]
      else History(cfg, before)
  }

  /** A run extended by one call. */
  lemma LastCall(cfg: Config, calls: seq<Call>, call: Call)
    ensures After(cfg, calls + [call]) == Exec(cfg, After(cfg, calls), call).s
    ensures !call.CallWrite? && !call.CallRestart? ==> History(cfg, calls + [call]) == History(cfg, calls)
    ensures call.CallWrite? && Exec(cfg, After(cfg, calls), call).status == Ok ==>
              History(cfg, calls + [call]) == History(cfg, calls) + [Plain(call.addr, call.data)]
  {
    hide Exec;
    var all := calls + [call];
    assert all[..|all| - 1] == calls && all[|all| - 1] == call;
  }

  // ----------------------------------------------------------------- replay

  lemma {:induction false} ByteAfterConcat(a: seq<PendingWrite>, b: seq<PendingWrite>, node: NodeId, i: int, base: byte)
    ensures ByteAfter(a + b, node, i, base) == ByteAfter(b, node, i, ByteAfter(a, node, i, base))
  {
    if b == [] {
      assert a + b == a;
    } else {
      var n := |b| - 1;
      assert (a + b)[..|a| + n] == a + b[..n];
      ByteAfterConcat(a, b[..n], node, i, base);
    }
  }

  /** Every entry is a non-empty in-range write to `node`. */
  predicate InRange(cfg: Config, queue: seq<PendingWrite>, node: NodeId)
  {
    forall k :: 0 <= k < |queue| ==>
      queue[k].addr.home == node && queue[k].payload != [] && queue[k].End() <= cfg.localRegionSize
  }

  /** The first request that does not fit its home region, or the length. */
  function FirstBeyond(cfg: Config, writes: seq<PendingWrite>): (k: nat)
    ensures k <= |writes| && (k < |writes| ==> writes[k].End() > cfg.localRegionSize)
    ensures forall j :: 0 <= j < k ==> writes[j].End() <= cfg.localRegionSize
  {
    if writes == [] || writes[0].End() > cfg.localRegionSize then 0
    else
      var k := FirstBeyond(cfg, writes[1..]);
      assert forall j :: 0 < j < 1 + k ==> writes[j] == writes[1..][j - 1];
      1 + k
  }

  lemma WriteDelivers(cfg: Config, mem: Memory, w: PendingWrite, node: NodeId)
    requires MemOk(cfg, mem) && node != cfg.nodeId && w.addr.home == node
    ensures var r := StubNet.Write(cfg, mem, w.addr, w.payload);
            && r.status == (if w.End() <= cfg.localRegionSize then Ok else OutOfRange)
            && MemOk(cfg, r.mem) && r.mem.heap == mem.heap
            && (forall n :: |Bank(cfg, mem, n)| == |Bank(cfg, r.mem, n)| == cfg.localRegionSize)
            && (forall n :: n != node ==> Bank(cfg, r.mem, n) == Bank(cfg, mem, n))
            && (forall i :: 0 <= i < cfg.localRegionSize ==>
                  Bank(cfg, r.mem, node)[i] == if r.status == Ok && w.Covers(node, i) then w.At(i) else Bank(cfg, mem, node)[i])
  {
    BankSize(cfg, mem, node);
    if w.End() <= cfg.localRegionSize {
      StoreSpec(cfg, mem, w.addr, w.payload);
    } else {
      OpenedSame(cfg, mem, node);
    }
  }

  /**
    What a batch delivers, failed or not: exactly the requests before the first
    one out of range are replayed into the home bank, and no other bank changes.
   */
  lemma {:induction false} BatchDeliversPrefix(cfg: Config, mem: Memory, writes: seq<PendingWrite>, node: NodeId)
    requires MemOk(cfg, mem) && node != cfg.nodeId && forall k :: 0 <= k < |writes| ==> writes[k].addr.home == node
    ensures var w, k := BatchWrite(cfg, mem, writes), FirstBeyond(cfg, writes);
            && w.status == (if k == |writes| then Ok else OutOfRange) && MemOk(cfg, w.mem) && w.mem.heap == mem.heap
            && (forall n :: n != node ==> Bank(cfg, w.mem, n) == Bank(cfg, mem, n))
            && (forall i :: 0 <= i < cfg.localRegionSize ==>
                  Bank(cfg, w.mem, node)[i] == ByteAfter(writes[..k], node, i, Bank(cfg, mem, node)[i]))
    decreases |writes|
  {
    hide StubNet.Write, MemOk, Bank, ByteAfter;
    NothingReplayed(node);
    BankSize(cfg, mem, node);
    assert writes[..0] == [];
    if writes != [] {
      var first, rest, k := writes[0], writes[1..], FirstBeyond(cfg, writes);
      WriteDelivers(cfg, mem, first, node);
      if k > 0 {
        var mem1 := StubNet.Write(cfg, mem, first.addr, first.payload).mem;
        BatchDeliversPrefix(cfg, mem1, rest, node);
        forall i | 0 <= i < cfg.localRegionSize
          ensures ByteAfter(writes[..k], node, i, Bank(cfg, mem, node)[i]) ==
                  ByteAfter(rest[..k - 1], node, i, Bank(cfg, mem1, node)[i])
        {
          assert writes[..k] == [first] + rest[..k - 1];
          ReplayFirst(first, rest[..k - 1], node, i, Bank(cfg, mem, node)[i]);
        }
      }
    }
  }

  lemma NothingReplayed(node: NodeId)
    ensures forall i, base :: ByteAfter([], node, i, base) == base
  {
  }

  lemma ReplayFirst(first: PendingWrite, rest: seq<PendingWrite>, node: NodeId, i: int, base: byte)
    ensures ByteAfter([first] + rest, node, i, base) ==
            ByteAfter(rest, node, i, if first.Covers(node, i) then first.At(i) else base)
  {
    ByteAfterConcat([first], rest, node, i, base);
    assert [first][..0] == [];
  }

  /** An in-range batch succeeds and leaves in the home bank exactly the replayed bytes. */
  lemma BatchReplays(cfg: Config, mem: Memory, writes: seq<PendingWrite>, node: NodeId)
    requires MemOk(cfg, mem) && InRange(cfg, writes, node) && node != cfg.nodeId
    ensures var w := BatchWrite(cfg, mem, writes);
            && w.status == Ok && MemOk(cfg, w.mem) && w.mem.heap == mem.heap
            && (forall n :: n != node ==> Bank(cfg, w.mem, n) == Bank(cfg, mem, n))
            && (forall i :: 0 <= i < cfg.localRegionSize ==>
                  Bank(cfg, w.mem, node)[i] == ByteAfter(writes, node, i, Bank(cfg, mem, node)[i]))
  {
    hide BatchWrite, ByteAfter, MemOk;
    BatchDeliversPrefix(cfg, mem, writes, node);
    assert writes[..|writes|] == writes;
  }

  /** Replaying the queues over home memory gives the reference bytes. */
  ghost predicate Faithful(cfg: Config, mem: Memory, queues: Queues, hist: seq<PendingWrite>)
  {
    var ok :=
      && MemOk(cfg, mem)
      && forall n: NodeId, i: int :: 0 <= i < cfg.localRegionSize ==>
           ByteAfter(Queue(queues, n), n, i, Bank(cfg, mem, n)[i]) == ByteAfter(hist, n, i, 0);
    ok
  }

  /** Home memory itself holds the reference bytes. */
  ghost predicate MemoryIs(cfg: Config, mem: Memory, hist: seq<PendingWrite>)
  {
    && MemOk(cfg, mem)
    && forall n: NodeId, i: int :: 0 <= i < cfg.localRegionSize ==>
         Bank(cfg, mem, n)[i] == ByteAfter(hist, n, i, 0)
  }

  lemma EmptyQueuesMean(cfg: Config, mem: Memory, queues: Queues, hist: seq<PendingWrite>)
    requires Faithful(cfg, mem, queues, hist) && forall n: NodeId :: Queue(queues, n) == []
    ensures MemoryIs(cfg, mem, hist)
  {
    forall n: NodeId, i: int | 0 <= i < cfg.localRegionSize
      ensures Bank(cfg, mem, n)[i] == ByteAfter(hist, n, i, 0)
    {
      assert Queue(queues, n) == [];
      assert ByteAfter(Queue(queues, n), n, i, Bank(cfg, mem, n)[i]) == ByteAfter(hist, n, i, 0);
    }
  }

  ghost predicate QueuesInRange(cfg: Config, queues: Queues)
  {
    var ok :=
      forall n: NodeId :: InRange(cfg, Queue(queues, n), n) && (n == cfg.nodeId ==> Queue(queues, n) == []);
    ok
  }

  lemma FlushFaithful(cfg: Config, s: Node, node: NodeId, hist: seq<PendingWrite>)
    requires Faithful(cfg, s.mem, s.queues, hist) && QueuesInRange(cfg, s.queues)
    ensures var r := Flush(cfg, s, node);
            && r.status == Ok && Faithful(cfg, r.s.mem, r.s.queues, hist) && QueuesInRange(cfg, r.s.queues)
            && Queue(r.s.queues, node) == []
            && (forall n: NodeId :: n != node ==> Queue(r.s.queues, n) == Queue(s.queues, n))
            && r.s.mem.heap == s.mem.heap
  {
    var queue := Queue(s.queues, node);
    if queue != [] {
      BatchReplays(cfg, s.mem, queue, node);
    }
    FlushFrame(cfg, s, node);
  }

  /** Queueing keeps the replayed bytes equal to the reference, extended by the new write. */
  lemma EnqueueFaithful(cfg: Config, mem: Memory, queues: Queues, w: PendingWrite, hist: seq<PendingWrite>)
    requires Faithful(cfg, mem, queues, hist)
    requires PreservesMeaning(Queue(queues, w.addr.home), w)
    ensures Faithful(cfg, mem, queues[w.addr.home := Enqueue(Queue(queues, w.addr.home), w)],
                     hist + [Plain(w.addr, w.payload)])
  {
    hide Enqueue, MemOk, ByteAfter, PreservesMeaning;
    var home := w.addr.home;
    var queue, p := Queue(queues, home), Plain(w.addr, w.payload);
    var after := queues[home := Enqueue(queue, w)];
    forall n: NodeId, i: int | 0 <= i < cfg.localRegionSize
      ensures |Bank(cfg, mem, n)| == cfg.localRegionSize
      ensures ByteAfter(Queue(after, n), n, i, Bank(cfg, mem, n)[i]) == ByteAfter(hist + [p], n, i, 0)
    {
      BankSize(cfg, mem, n);
      assert ByteAfter(Queue(queues, n), n, i, Bank(cfg, mem, n)[i]) == ByteAfter(hist, n, i, 0);
      EnqueuedByte(queue, w, hist, n, i, Bank(cfg, mem, n)[i]);
    }
  }

  /** One byte of it: the extended queue and the extended history still agree. */
  lemma EnqueuedByte(queue: seq<PendingWrite>, w: PendingWrite, hist: seq<PendingWrite>, n: NodeId, i: int, base: byte)
    requires PreservesMeaning(queue, w)
    ensures n != w.addr.home ==> ByteAfter(hist + [Plain(w.addr, w.payload)], n, i, 0) == ByteAfter(hist, n, i, 0)
    ensures n == w.addr.home && ByteAfter(queue, n, i, base) == ByteAfter(hist, n, i, 0) ==>
              ByteAfter(Enqueue(queue, w), n, i, base) == ByteAfter(hist + [Plain(w.addr, w.payload)], n, i, 0)
  {
    hide Enqueue;
    var p := Plain(w.addr, w.payload);
    assert (hist + [p])[..|hist|] == hist;
    assert (queue + [w])[..|queue|] == queue;
    assert ByteAfter(Enqueue(queue, w), n, i, base) == ByteAfter(queue + [w], n, i, base);
  }

  lemma EnqueueInRange(cfg: Config, queue: seq<PendingWrite>, w: PendingWrite)
    requires InRange(cfg, queue, w.addr.home)
    requires w.payload != [] && w.End() <= cfg.localRegionSize
    ensures InRange(cfg, Enqueue(queue, w), w.addr.home)
  {
  }

  /** A direct store of a range no queue holds. */
  lemma StoreFaithful(cfg: Config, mem: Memory, queues: Queues, addr: GlobalAddr, data: seq<byte>, hist: seq<PendingWrite>)
    requires Faithful(cfg, mem, queues, hist) && Queue(queues, addr.home) == []
    requires Reaches(cfg, mem, CacheKey(addr, |data|))
    ensures Faithful(cfg, Store(cfg, mem, addr, data), queues, hist + [Plain(addr, data)])
  {
    hide Store, Reaches, MemOk;
    StoreSpec(cfg, mem, addr, data);
    var mem', p := Store(cfg, mem, addr, data), Plain(addr, data);
    forall n: NodeId
      ensures |Bank(cfg, mem, n)| == |Bank(cfg, mem', n)| == cfg.localRegionSize
    {
      BankSize(cfg, mem, n);
      BankSize(cfg, mem', n);
    }
    forall n: NodeId, i: int | 0 <= i < cfg.localRegionSize
      ensures ByteAfter(Queue(queues, n), n, i, Bank(cfg, mem', n)[i]) == ByteAfter(hist + [p], n, i, 0)
    {
      assert (hist + [p])[..|hist|] == hist;
      assert ByteAfter(Queue(queues, n), n, i, Bank(cfg, mem, n)[i]) == ByteAfter(hist, n, i, 0);
    }
  }

  // ------------------------------------------------------------- whole runs

  ghost predicate DataOk(cfg: Config, s: Node, hist: seq<PendingWrite>)
  {
    var ok :=
      Faithful(cfg, s.mem, s.queues, hist) && QueuesInRange(cfg, s.queues) && Shallow(cfg, s.queues);
    ok
  }

  /** Two states with the same queues and the same bytes in every bank. */
  ghost predicate SameData(cfg: Config, a: Node, b: Node)
  {
    var ok :=
      && b.queues == a.queues && MemOk(cfg, b.mem) && b.mem.heap == a.mem.heap
      && forall n :: Bank(cfg, b.mem, n) == Bank(cfg, a.mem, n);
    ok
  }

  lemma SameDataKeeps(cfg: Config, a: Node, b: Node, hist: seq<PendingWrite>)
    requires DataOk(cfg, a, hist) && SameData(cfg, a, b)
    ensures DataOk(cfg, b, hist)
  {
  }

  lemma EnqueuedData(cfg: Config, s: Node, addr: GlobalAddr, data: seq<byte>, f: WriteFlags, hist: seq<PendingWrite>)
    requires DataOk(cfg, s, hist) && NoLaterOverlap(Queue(s.queues, addr.home), Plain(addr, data))
    requires addr.home != cfg.nodeId && data != [] && addr.offset + |data| <= cfg.localRegionSize
    ensures var s1 := Enqueued(cfg, s, addr, data, f);
            && Faithful(cfg, s1.mem, s1.queues, hist + [Plain(addr, data)]) && QueuesInRange(cfg, s1.queues)
  {
    var queue := Queue(s.queues, addr.home);
    var w := PendingWrite(addr, data, DominantMode(f.modes), f.biased, f.handoff);
    SameFootprint(queue, Plain(addr, data), w);
    MergeStepPreserves(queue, w);
    EnqueueFaithful(cfg, s.mem, s.queues, w, hist);
    EnqueueInRange(cfg, queue, w);
    var s1 := Enqueued(cfg, s, addr, data, f);
    forall n: NodeId
      ensures InRange(cfg, Queue(s1.queues, n), n) && (n == cfg.nodeId ==> Queue(s1.queues, n) == [])
    {
      assert InRange(cfg, Queue(s.queues, n), n);
    }
  }

  lemma QueueWriteData(cfg: Config, s: Node, addr: GlobalAddr, data: seq<byte>, f: WriteFlags, hist: seq<PendingWrite>)
    requires DataOk(cfg, s, hist) && NoLaterOverlap(Queue(s.queues, addr.home), Plain(addr, data))
    requires cfg.enableWriteBatching && ModesFit(cfg, f.modes)
    requires addr.home != cfg.nodeId && data != [] && addr.offset + |data| <= cfg.localRegionSize
    ensures var r := QueueWrite(cfg, s, addr, data, f); r.status == Ok && DataOk(cfg, r.s, hist + [Plain(addr, data)])
  {
    hide Faithful, QueuesInRange, Enqueued, Flush, ModesFit, Depth, NoLaterOverlap;
    EnqueuedData(cfg, s, addr, data, f, hist);
    FlushFaithful(cfg, Enqueued(cfg, s, addr, data, f), addr.home, hist + [Plain(addr, data)]);
    QueueWriteDepth(cfg, s, addr, data, f);
  }

  lemma DirectWriteData(cfg: Config, s: Node, addr: GlobalAddr, data: seq<byte>,
                        hist: seq<PendingWrite>)
    requires DataOk(cfg, s, hist) && Queue(s.queues, addr.home) == []
    ensures var r := DirectWrite(cfg, s, addr, data);
            DataOk(cfg, r.s, if r.status == Ok then hist + [Plain(addr, data)] else hist)
    ensures DirectWrite(cfg, s, addr, data).status == Ok <==> Reaches(cfg, s.mem, CacheKey(addr, |data|))
  {
    if Reaches(cfg, s.mem, CacheKey(addr, |data|)) {
      StoreFaithful(cfg, s.mem, s.queues, addr, data, hist);
    } else {
      OpenedSame(cfg, s.mem, addr.home);
    }
  }

  lemma RemoteWriteData(cfg: Config, s: Node, addr: GlobalAddr, data: seq<byte>, range: BlockRange,
                        hist: seq<PendingWrite>)
    requires DataOk(cfg, s, hist) && NoLaterOverlap(Queue(s.queues, addr.home), Plain(addr, data)) && range.count > 0
    requires addr.home != cfg.nodeId && data != [] && addr.offset + |data| <= cfg.localRegionSize
    ensures var r := RemoteWrite(cfg, s, addr, data, range);
            r.status == Ok && DataOk(cfg, r.s, hist + [Plain(addr, data)])
  {
    var key := CacheKey(addr, |data|);
    var s1, f := Announced(cfg, s, key, range), FlagsOf(cfg, s, key, range);
    AnnouncedFrame(cfg, s, key, range);
    RemoteWriteStages(cfg, s, addr, data, range);
    WriteModesFit(cfg, s, key, range);
    if cfg.enableWriteBatching {
      QueueWriteData(cfg, s1, addr, data, f, hist);
    } else {
      BankSize(cfg, s1.mem, addr.home);
      DirectWriteData(cfg, s1, addr, data, hist);
    }
  }

  lemma OwnerAwareReadData(cfg: Config, s: Node, key: CacheKey, ids: seq<BlockId>, schedule: seq<CacheKey>)
    requires MemOk(cfg, s.mem)
    ensures SameData(cfg, s, OwnerAwareRead(cfg, s, key, ids, schedule).s)
  {
    var home := key.addr.home;
    var owner := DominantOwner(s.blocks, ids, home);
    var next := OwnerAwareRead(cfg, s, key, ids, schedule).s;
    var via := s.(mem := Opened(cfg, s.mem, owner));
    OwnerAwareReadCases(cfg, s, key, ids, schedule);
    HomeReadFrame(cfg, s, key, ids, false);
    HomeReadFrame(cfg, s, key, ids, true);
    HomeReadFrame(cfg, via, key, ids, true);
    OpenedSame(cfg, s.mem, home);
    OpenedSame(cfg, s.mem, owner);
    OpenedSame(cfg, via.mem, home);
  }

  lemma ReadData(cfg: Config, s: Node, key: CacheKey, sched: Schedule)
    requires Settled(cfg, s) && MemOk(cfg, s.mem)
    ensures SameData(cfg, s, Read(cfg, s, key, sched).s)
  {
    ReadReduces(cfg, s, key, sched);
    if key.addr.IsValid() && key.size != 0 {
      var q := Quiet(cfg, s);
      var v := Validate(cfg, q.mem.heap, key);
      if v.Resolved? && key.addr.home != cfg.nodeId {
        RemoteReadData(cfg, q, key, Ids(v.range), sched);
      }
    }
  }

  lemma RemoteReadData(cfg: Config, s: Node, key: CacheKey, ids: seq<BlockId>, sched: Schedule)
    requires MemOk(cfg, s.mem)
    ensures SameData(cfg, s, RemoteRead(cfg, s, key, ids, sched).s)
  {
    var missed := Missed(cfg, WithProfile(s, Profiled(cfg, s, key, ids, ReadAccess)), ids);
    OwnerAwareReadData(cfg, missed, key, ids, sched.ownerHits);
    RemoteReadFrame(cfg, s, key, ids, sched);
  }

  /** A fence empties every queue it is given without changing the reference bytes. */
  lemma {:induction false} FlushAllData(cfg: Config, s: Node, todo: set<NodeId>, schedule: seq<NodeId>,
                        hist: seq<PendingWrite>)
    requires DataOk(cfg, s, hist)
    ensures var r := FlushAll(cfg, s, todo, schedule);
            && r.status == Ok && DataOk(cfg, r.s, hist)
            && forall n: NodeId :: Queue(r.s.queues, n) == if n in todo then [] else Queue(s.queues, n)
    decreases |todo|
  {
    if todo != {} {
      var node := Pick(todo, schedule);
      FlushFaithful(cfg, s, node, hist);
      FlushAllData(cfg, Flush(cfg, s, node).s, todo - {node}, Rest(schedule), hist);
    }
  }

  lemma FenceData(cfg: Config, s: Node, sched: Schedule, hist: seq<PendingWrite>)
    requires Settled(cfg, s) && DataOk(cfg, s, hist)
    ensures var r := Fence(cfg, s, sched);
            && r.status == Ok && DataOk(cfg, r.s, hist)
            && forall n: NodeId :: Queue(r.s.queues, n) == []
  {
    FenceReduces(cfg, s, sched);
    var todo := PendingDestinations(s.queues);
    FlushAllData(cfg, Quiet(cfg, s), todo, sched.destinations, hist);
    forall n: NodeId
      ensures Queue(Fence(cfg, s, sched).s.queues, n) == []
    {
      if n !in todo {
        assert Queue(s.queues, n) == [];
      }
    }
  }

  /** Remote writes stay inside the home region. */
  predicate WritesInRange(cfg: Config, calls: seq<Call>)
  {
    forall k :: 0 <= k < |calls| && RemoteWriteCall(cfg, calls[k]) ==> calls[k].Key().End() <= cfg.localRegionSize
  }

  lemma CallData(cfg: Config, s: Node, call: Call, hist: seq<PendingWrite>)
    requires Settled(cfg, s) && DataOk(cfg, s, hist)
    requires RemoteWriteCall(cfg, call) ==>
               && call.Key().End() <= cfg.localRegionSize
               && NoLaterOverlap(Queue(s.queues, call.addr.home), Plain(call.addr, call.data))
    requires !call.CallRestart?
    ensures var r := Exec(cfg, s, call);
            DataOk(cfg, r.s,
                   if call.CallWrite? && r.status == Ok then hist + [Plain(call.addr, call.data)] else hist)
  {
    match call
    case CallMalloc(size) => MallocData(cfg, s, size, hist);
    case CallRead(key, sched) => ReadData(cfg, s, key, sched);
    case CallWrite(addr, data, sched) => WriteData(cfg, s, addr, data, sched, hist);
    case CallFence(sched) => FenceData(cfg, s, sched, hist);
  }

  lemma MallocData(cfg: Config, s: Node, size: nat, hist: seq<PendingWrite>)
    requires DataOk(cfg, s, hist)
    ensures DataOk(cfg, Malloc(cfg, s, size).0, hist)
  {
    MallocBanks(cfg, s, size);
  }

  lemma LocalWriteData(cfg: Config, s: Node, addr: GlobalAddr, data: seq<byte>, ids: seq<BlockId>,
                        hist: seq<PendingWrite>)
    requires DataOk(cfg, s, hist) && addr.home == cfg.nodeId
    ensures var r := LocalWrite(cfg, s, addr, data, ids);
            DataOk(cfg, r.s, if r.status == Ok then hist + [Plain(addr, data)] else hist)
  {
    var s1 := WithProfile(s, Profiled(cfg, s, CacheKey(addr, |data|), ids, WriteAccess));
    assert Queue(s1.queues, addr.home) == [];
    DirectWriteData(cfg, s1, addr, data, hist);
  }

  lemma WriteData(cfg: Config, s: Node, addr: GlobalAddr, data: seq<byte>, sched: Schedule,
                        hist: seq<PendingWrite>)
    requires Settled(cfg, s) && DataOk(cfg, s, hist)
    requires addr.home != cfg.nodeId ==>
               addr.offset + |data| <= cfg.localRegionSize && NoLaterOverlap(Queue(s.queues, addr.home), Plain(addr, data))
    ensures var r := Access.Write(cfg, s, addr, data, sched);
            DataOk(cfg, r.s, if r.status == Ok then hist + [Plain(addr, data)] else hist)
  {
    hide RemoteWrite, Accepts;
    WriteReduces(cfg, s, addr, data, sched);
    if addr.IsValid() && data != [] {
      var q := Quiet(cfg, s);
      var v := Validate(cfg, q.mem.heap, CacheKey(addr, |data|));
      if v.Resolved? {
        if addr.home == cfg.nodeId {
          LocalWriteData(cfg, q, addr, data, Ids(v.range), hist);
        } else {
          RemoteWriteData(cfg, q, addr, data, v.range, hist);
        }
      }
    }
  }

  lemma BootData(cfg: Config, inboxes: Inboxes)
    ensures DataOk(cfg, Boot(cfg, inboxes), [])
  {
    if cfg.blockSize > 0 {
      Arithmetic.DivModUnique(0, cfg.blockSize, 0, 0);
    }
  }

  /** Over every run with in-range, safely queued writes: home memory with the queues replayed holds the history. */
  lemma {:induction false} RunData(cfg: Config, calls: seq<Call>)
    requires WritesInRange(cfg, calls) && SafeQueueing(cfg, calls)
    ensures DataOk(cfg, After(cfg, calls), History(cfg, calls))
  {
    hide Access.Read, Access.Write, Access.Fence, Access.Malloc, DataOk, NoLaterOverlap;
    if calls == [] {
      BootData(cfg, map[]);
    } else {
      var n := |calls| - 1;
      var before, call := calls[..n], calls[n];
      SafePrefix(cfg, calls, n);
      assert forall k :: 0 <= k < |before| ==> before[k] == calls[k];
      RunData(cfg, before);
      AlwaysSettled(cfg, before);
      if call.CallRestart? {
        BootData(cfg, After(cfg, before).inboxes);
      } else {
        CallData(cfg, After(cfg, before), call, History(cfg, before));
      }
    }
  }

  /**
    Batching preserves meaning over whole runs. If remote writes are in range
    and none overlaps an entry behind its merge target when it is queued, a
    fence succeeds and afterwards home memory holds exactly the in-order replay
    of every write. Queues of at most one entry (thresholds up to two) and
    equal-or-apart footprints are always such (ShortQueuesAreSafe,
    SpacedWritesAreSafe).
   */
  lemma FenceDeliversHistory(cfg: Config, calls: seq<Call>, sched: Schedule)
    requires WritesInRange(cfg, calls) && SafeQueueing(cfg, calls)
    ensures var r := Exec(cfg, After(cfg, calls), CallFence(sched));
            && r.status == Ok
            && (forall n: NodeId :: Queue(r.s.queues, n) == [])
            && MemoryIs(cfg, r.s.mem, History(cfg, calls))
  {
    hide After, Access.Fence, Faithful, MemoryIs;
    RunData(cfg, calls);
    AlwaysSettled(cfg, calls);
    FenceData(cfg, After(cfg, calls), sched, History(cfg, calls));
    var r := Fence(cfg, After(cfg, calls), sched);
    EmptyQueuesMean(cfg, r.s.mem, r.s.queues, History(cfg, calls));
  }

  /** With a threshold of at most two a fence delivers the history however the writes overlap. */
  lemma ShortQueuesDeliverHistory(cfg: Config, calls: seq<Call>, sched: Schedule)
    requires WritesInRange(cfg, calls) && cfg.batchThreshold <= 2
    ensures var r := Exec(cfg, After(cfg, calls), CallFence(sched));
            r.status == Ok && MemoryIs(cfg, r.s.mem, History(cfg, calls))
  {
    hide After, Exec, MemoryIs, SafeQueueing;
    ShortQueuesAreSafe(cfg, calls);
    FenceDeliversHistory(cfg, calls, sched);
  }
}
