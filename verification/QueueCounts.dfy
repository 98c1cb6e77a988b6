/**
  Conservation of batched writes over every run, failed flushes included: every
  queued write is merged into another, delivered, still pending, or part of a
  failed batch, where it reached its home uncounted or was lost; and so is every
  byte that entered a queue.
 */
module QueueCounts {
  import opened Types
  import opened Counters
  import opened MapSums
  import opened WriteCombining
  import opened LruCache
  import opened BlockRanges
  import opened Allocator
  import opened StubNet
  import opened Access
  import opened Frames
  import opened StubControl
  import opened QueueRuns
  import opened Batching
  import opened AllocationRuns

  ghost function PendingWrites(queues: Queues): nat
  {
    Sum(queues, (q: seq<PendingWrite>) => |q|)
  }

  ghost function PendingBytes(queues: Queues): nat
  {
    Sum(queues, (q: seq<PendingWrite>) => PayloadBytes(q))
  }

  lemma SetQueue(queues: Queues, node: NodeId, q: seq<PendingWrite>)
    ensures PendingWrites(queues[node := q]) == PendingWrites(queues) + |q| - |Queue(queues, node)|
    ensures PendingBytes(queues[node := q]) == PendingBytes(queues) + PayloadBytes(q) - PayloadBytes(Queue(queues, node))
  {
    SumUpdate(queues, (q: seq<PendingWrite>) => |q|, node, q);
    SumUpdate(queues, (q: seq<PendingWrite>) => PayloadBytes(q), node, q);
  }

  lemma ClearQueue(queues: Queues, node: NodeId)
    ensures PendingWrites(queues - {node}) == PendingWrites(queues) - |Queue(queues, node)|
    ensures PendingBytes(queues - {node}) == PendingBytes(queues) - PayloadBytes(Queue(queues, node))
  {
    if node in queues {
      SumRemove(queues, (q: seq<PendingWrite>) => |q|, node);
      SumRemove(queues, (q: seq<PendingWrite>) => PayloadBytes(q), node);
    } else {
      assert queues - {node} == queues;
    }
  }

  lemma {:induction false} PayloadReplace(queue: seq<PendingWrite>, t: nat, w: PendingWrite)
    requires t < |queue|
    ensures PayloadBytes(queue[t := w]) == PayloadBytes(queue) + |w.payload| - |queue[t].payload|
  {
    var n := |queue| - 1;
    if t == n {
      assert queue[t := w][..n] == queue[..n];
    } else {
      PayloadReplace(queue[..n], t, w);
      assert queue[t := w][..n] == queue[..n][t := w];
    }
  }

  /** Queueing adds one entry unless the write is merged, and never more bytes than the write has. */
  lemma EnqueueCounts(queue: seq<PendingWrite>, w: PendingWrite)
    ensures |Enqueue(queue, w)| == |queue| + if MergeTarget(queue, w) < |queue| then 0 else 1
    ensures PayloadBytes(queue) <= PayloadBytes(Enqueue(queue, w)) <= PayloadBytes(queue) + |w.payload|
  {
    var t := MergeTarget(queue, w);
    if t < |queue| {
      PayloadReplace(queue, t, Merge(queue[t], w));
    } else {
      assert (queue + [w])[..|queue|] == queue;
    }
  }

  // ------------------------------------------------------------- the ledger

  /**
    Bytes that entered the queues, and what became of the batches: delivered; or,
    when the transport failed, the requests before the first one out of range
    reached their home without being counted (BatchDeliversPrefix) and the rest
    was lost.
   */
  datatype Ledger = Ledger(entered: nat, delivered: nat, deliveredBytes: nat, uncounted: nat, uncountedBytes: nat,
                           lost: nat, lostBytes: nat)

  const NO_TRAFFIC := Ledger(0, 0, 0, 0, 0, 0, 0)

  lemma {:induction false} PayloadSplit(queue: seq<PendingWrite>, k: nat)
    requires k <= |queue|
    ensures PayloadBytes(queue) == PayloadBytes(queue[..k]) + PayloadBytes(queue[k..])
  {
    var n := |queue| - 1;
    if k == |queue| {
      assert queue[..k] == queue && queue[k..] == [];
    } else {
      PayloadSplit(queue[..n], k);
      assert queue[..n][..k] == queue[..k] && queue[..n][k..] == queue[k..][..n - k];
    }
  }

  ghost function FlushLedger(cfg: Config, s: Node, node: NodeId, l: Ledger): Ledger
  {
    var batch := Queue(s.queues, node);
    if BatchWrite(cfg, s.mem, batch).status == Ok
    then l.(delivered := l.delivered + |batch|, deliveredBytes := l.deliveredBytes + PayloadBytes(batch))
    else
      var k := FirstBeyond(cfg, batch);
      l.(uncounted := l.uncounted + k, uncountedBytes := l.uncountedBytes + PayloadBytes(batch[..k]),
      lost := l.lost + |batch| - k, lostBytes := l.lostBytes + PayloadBytes(batch[k..]))
  }

  ghost function FlushAllLedger(cfg: Config, s: Node, todo: set<NodeId>, schedule: seq<NodeId>, l: Ledger): Ledger
    decreases |todo|
  {
    if todo == {} then l
    else
      var node := Pick(todo, schedule);
      var next := FlushLedger(cfg, s, node, l);
      var r := Flush(cfg, s, node);
      if r.status != Ok then next else FlushAllLedger(cfg, r.s, todo - {node}, Rest(schedule), next)
  }

  /** A queued write brings in the bytes its merge target did not have, then its destination may be flushed. */
  ghost function QueueLedger(cfg: Config, s: Node, addr: GlobalAddr, data: seq<byte>, f: WriteFlags, l: Ledger): Ledger
  {
    var s1 := Enqueued(cfg, s, addr, data, f);
    EnqueuedGrows(cfg, s, addr, data, f);
    var grown := PayloadBytes(Queue(s1.queues, addr.home)) - PayloadBytes(Queue(s.queues, addr.home));
    var next := l.(entered := l.entered + grown);
    if FlushDue(cfg, s1, addr.home, f.modes) then FlushLedger(cfg, s1, addr.home, next) else next
  }

  lemma EnqueuedGrows(cfg: Config, s: Node, addr: GlobalAddr, data: seq<byte>, f: WriteFlags)
    ensures var before, after := Queue(s.queues, addr.home), Queue(Enqueued(cfg, s, addr, data, f).queues, addr.home);
            PayloadBytes(before) <= PayloadBytes(after) <= PayloadBytes(before) + |data|
  {
    hide Enqueue, Insert, PayloadBytes;
    EnqueueCounts(Queue(s.queues, addr.home), PendingWrite(addr, data, DominantMode(f.modes), f.biased, f.handoff));
  }

  ghost function WriteLedger(cfg: Config, s: Node, addr: GlobalAddr, data: seq<byte>, l: Ledger): Ledger
  {
    if addr.home == cfg.nodeId || !addr.IsValid() || data == [] || cfg.blockSize == 0 || !cfg.enableWriteBatching then l
    else
      var key, range := CacheKey(addr, |data|), Resolve(cfg.blockSize, addr, |data|);
      QueueLedger(cfg, Announced(cfg, Quiet(cfg, s), key, range), addr, data, FlagsOf(cfg, Quiet(cfg, s), key, range), l)
  }

  /** The traffic of a run since its last restart. */
  ghost function RunLedger(cfg: Config, calls: seq<Call>): Ledger
  {
    if calls == [] then NO_TRAFFIC
    else
      var before, call := calls[..|calls| - 1], calls[|calls| - 1];
      var s, l := After(cfg, before), RunLedger(cfg, before);
      match call
      case CallRestart => NO_TRAFFIC
      case CallWrite(addr, data, _) => WriteLedger(cfg, s, addr, data, l)
      case CallFence(sched) =>
        FlushAllLedger(cfg, Quiet(cfg, s), PendingDestinations(s.queues), sched.destinations, l)
      case _ => l
  }

  // ------------------------------------------------------ counters and queues

  /** Counters, queues and ledger agree. */
  ghost predicate Balanced(s: Node, l: Ledger)
  {
    var ok :=
      && s.stats.queued == s.stats.merged + s.stats.flushedWrites + PendingWrites(s.queues) + l.uncounted + l.lost
      && s.stats.flushedWrites == l.delivered && s.stats.flushedBytes == l.deliveredBytes
      && l.entered == l.deliveredBytes + l.uncountedBytes + l.lostBytes + PendingBytes(s.queues);
    ok
  }

  predicate SameQueueCounts(a: Stats, b: Stats)
  {
    var ok :=
      a.queued == b.queued && a.merged == b.merged && a.flushedWrites == b.flushedWrites && a.flushedBytes == b.flushedBytes;
    ok
  }

  /** States that agree on what Balanced looks at. */
  predicate SameBalance(a: Node, b: Node)
  {
    b.queues == a.queues && SameQueueCounts(a.stats, b.stats)
  }

  lemma SameBalanceKeeps(a: Node, b: Node, l: Ledger)
    requires Balanced(a, l) && SameBalance(a, b)
    ensures Balanced(b, l)
  {
  }

  lemma {:induction false} FlagsKeepQueueCounts(stats: Stats, writes: seq<PendingWrite>)
    ensures SameQueueCounts(CountFlags(stats, writes), stats)
    decreases |writes|
  {
    if writes != [] {
      var w := writes[0];
      var s1 := if w.ownerBiased then stats.(ownerBiasedWrites := stats.ownerBiasedWrites + 1) else stats;
      var s2 := if w.ownerHandoff then s1.(ownerHandoffs := s1.ownerHandoffs + 1) else s1;
      FlagsKeepQueueCounts(s2, writes[1..]);
    }
  }

  lemma FlushBalanced(cfg: Config, s: Node, node: NodeId, l: Ledger)
    requires Balanced(s, l)
    ensures Balanced(Flush(cfg, s, node).s, FlushLedger(cfg, s, node, l))
  {
    hide BatchWrite, CountFlags, PendingWrites, PendingBytes, PayloadBytes, FirstBeyond;
    ClearQueue(s.queues, node);
    PayloadSplit(Queue(s.queues, node), FirstBeyond(cfg, Queue(s.queues, node)));
    FlagsKeepQueueCounts(s.stats, Queue(s.queues, node));
  }

  lemma {:induction false} FlushAllBalanced(cfg: Config, s: Node, todo: set<NodeId>, schedule: seq<NodeId>, l: Ledger)
    requires Balanced(s, l)
    ensures Balanced(FlushAll(cfg, s, todo, schedule).s, FlushAllLedger(cfg, s, todo, schedule, l))
    decreases |todo|
  {
    hide Flush, FlushLedger, Balanced;
    if todo != {} {
      var node := Pick(todo, schedule);
      FlushBalanced(cfg, s, node, l);
      var r := Flush(cfg, s, node);
      if r.status == Ok {
        FlushAllBalanced(cfg, r.s, todo - {node}, Rest(schedule), FlushLedger(cfg, s, node, l));
      }
    }
  }

  lemma EnqueuedBalanced(cfg: Config, s: Node, addr: GlobalAddr, data: seq<byte>, f: WriteFlags, l: Ledger)
    requires Balanced(s, l)
    ensures var s1 := Enqueued(cfg, s, addr, data, f);
            var grown := PayloadBytes(Queue(s1.queues, addr.home)) - PayloadBytes(Queue(s.queues, addr.home));
            grown >= 0 && Balanced(s1, l.(entered := l.entered + grown))
  {
    hide Enqueue, MergeTarget, Insert, PendingWrites, PendingBytes, PayloadBytes;
    var queue := Queue(s.queues, addr.home);
    var w := PendingWrite(addr, data, DominantMode(f.modes), f.biased, f.handoff);
    EnqueueCounts(queue, w);
    SetQueue(s.queues, addr.home, Enqueue(queue, w));
  }

  lemma QueueWriteBalanced(cfg: Config, s: Node, addr: GlobalAddr, data: seq<byte>, f: WriteFlags, l: Ledger)
    requires Balanced(s, l)
    ensures Balanced(QueueWrite(cfg, s, addr, data, f).s, QueueLedger(cfg, s, addr, data, f, l))
  {
    hide Enqueued, Flush, FlushLedger, PayloadBytes, PendingWrites, PendingBytes;
    var s1 := Enqueued(cfg, s, addr, data, f);
    EnqueuedBalanced(cfg, s, addr, data, f, l);
    var next := l.(entered := l.entered + (PayloadBytes(Queue(s1.queues, addr.home)) - PayloadBytes(Queue(s.queues, addr.home))));
    if FlushDue(cfg, s1, addr.home, f.modes) {
      FlushBalanced(cfg, s1, addr.home, next);
      CountedWriteKeeps(Flush(cfg, s1, addr.home).s, FlushLedger(cfg, s1, addr.home, next));
    } else {
      CountedWriteKeeps(s1, next);
    }
  }

  lemma CountedWriteKeeps(s: Node, l: Ledger)
    requires Balanced(s, l)
    ensures Balanced(s.(stats := s.stats.Write(false)), l)
  {
  }

  lemma {:induction false} ObserveKeepsQueueCounts(cfg: Config, o: Observed, ids: seq<BlockId>, access: AccessType, local: bool)
    ensures SameQueueCounts(o.stats, ObserveAll(cfg, o, ids, access, local).stats)
    decreases |ids|
  {
    if ids != [] {
      ObserveKeepsQueueCounts(cfg, ObserveOne(cfg, o, ids[0], access, local), ids[1..], access, local);
    }
  }

  lemma ProfiledKeepsQueueCounts(cfg: Config, s: Node, key: CacheKey, ids: seq<BlockId>, access: AccessType)
    ensures SameQueueCounts(s.stats, Profiled(cfg, s, key, ids, access).stats)
  {
    var prepared := UpdateAll(cfg, s.blocks, ids, Prepare(key.addr.home, access));
    ObserveKeepsQueueCounts(cfg, Observed(prepared, s.epoch, s.stats, []), ids, access, key.addr.home == cfg.nodeId);
  }

  lemma AnnouncedBalance(cfg: Config, s: Node, key: CacheKey, range: BlockRange)
    ensures SameBalance(s, Announced(cfg, s, key, range))
  {
    hide Profiled, ApplyWrites, WriteRequests, InvalidateFor;
    ProfiledKeepsQueueCounts(cfg, s, key, Ids(range), WriteAccess);
    AnnouncedFrame(cfg, s, key, range);
  }

  lemma RemoteWriteBalanced(cfg: Config, s: Node, addr: GlobalAddr, data: seq<byte>, range: BlockRange, l: Ledger)
    requires Balanced(s, l)
    ensures Balanced(RemoteWrite(cfg, s, addr, data, range).s,
                     if cfg.enableWriteBatching
                     then QueueLedger(cfg, Announced(cfg, s, CacheKey(addr, |data|), range), addr, data,
                                      FlagsOf(cfg, s, CacheKey(addr, |data|), range), l)
                     else l)
  {
    hide Balanced, QueueWrite, QueueLedger, Announced, FlagsOf, SameQueueCounts;
    var key := CacheKey(addr, |data|);
    var s1 := Announced(cfg, s, key, range);
    RemoteWriteStages(cfg, s, addr, data, range);
    AnnouncedBalance(cfg, s, key, range);
    SameBalanceKeeps(s, s1, l);
    if cfg.enableWriteBatching {
      QueueWriteBalanced(cfg, s1, addr, data, FlagsOf(cfg, s, key, range), l);
    } else {
      DirectWriteBalance(cfg, s1, addr, data);
      SameBalanceKeeps(s1, DirectWrite(cfg, s1, addr, data).s, l);
    }
  }

  lemma DirectWriteBalance(cfg: Config, s: Node, addr: GlobalAddr, data: seq<byte>)
    ensures SameBalance(s, DirectWrite(cfg, s, addr, data).s)
  {
  }

  lemma RemoteReadBalance(cfg: Config, s: Node, key: CacheKey, ids: seq<BlockId>, sched: Schedule)
    ensures SameBalance(s, RemoteRead(cfg, s, key, ids, sched).s)
  {
    hide Profiled, OwnerAwareRead, Admits, UpdateAll, Insert;
    ProfiledKeepsQueueCounts(cfg, s, key, ids, ReadAccess);
    var missed := Missed(cfg, WithProfile(s, Profiled(cfg, s, key, ids, ReadAccess)), ids);
    OwnerAwareReadFrame(cfg, missed, key, ids, sched.ownerHits);
  }

  lemma ReadBalance(cfg: Config, s: Node, key: CacheKey, sched: Schedule)
    requires Settled(cfg, s)
    ensures SameBalance(s, Read(cfg, s, key, sched).s)
  {
    hide RemoteRead, Accepts, Profiled;
    ReadReduces(cfg, s, key, sched);
    var q := Quiet(cfg, s);
    if key.addr.IsValid() && key.size != 0 && Validate(cfg, q.mem.heap, key).Resolved? {
      var ids := Ids(Resolve(cfg.blockSize, key.addr, key.size));
      ProfiledKeepsQueueCounts(cfg, q, key, ids, ReadAccess);
      RemoteReadBalance(cfg, q, key, ids, sched);
    }
  }

  lemma WriteBalanced(cfg: Config, s: Node, addr: GlobalAddr, data: seq<byte>, sched: Schedule, l: Ledger)
    requires Settled(cfg, s) && Balanced(s, l)
    ensures Balanced(Access.Write(cfg, s, addr, data, sched).s, WriteLedger(cfg, s, addr, data, l))
  {
    hide RemoteWrite, Accepts, Profiled, QueueLedger, Announced, FlagsOf;
    WriteReduces(cfg, s, addr, data, sched);
    var q, key := Quiet(cfg, s), CacheKey(addr, |data|);
    SameBalanceKeeps(s, q, l);
    if addr.IsValid() && data != [] && Validate(cfg, q.mem.heap, key).Resolved? {
      var range := Resolve(cfg.blockSize, addr, |data|);
      if addr.home == cfg.nodeId {
        ProfiledKeepsQueueCounts(cfg, q, key, Ids(range), WriteAccess);
        SameBalanceKeeps(q, LocalWrite(cfg, q, addr, data, Ids(range)).s, l);
      } else {
        RemoteWriteBalanced(cfg, q, addr, data, range, l);
      }
    }
  }

  lemma CallBalanced(cfg: Config, calls: seq<Call>, call: Call)
    requires Settled(cfg, After(cfg, calls)) && Balanced(After(cfg, calls), RunLedger(cfg, calls)) && !call.CallRestart?
    ensures Balanced(Exec(cfg, After(cfg, calls), call).s, RunLedger(cfg, calls + [call]))
  {
    hide Access.Read, Access.Write, Access.Fence, Access.Malloc, Balanced, WriteLedger, After, Settled;
    var s, l, all := After(cfg, calls), RunLedger(cfg, calls), calls + [call];
    assert all[..|all| - 1] == calls && all[|all| - 1] == call;
    match call
    case CallMalloc(size) =>
      MallocFrame(cfg, s, size);
      SameBalanceKeeps(s, Malloc(cfg, s, size).0, l);
    case CallRead(key, sched) =>
      ReadBalance(cfg, s, key, sched);
      SameBalanceKeeps(s, Read(cfg, s, key, sched).s, l);
    case CallWrite(addr, data, sched) => WriteBalanced(cfg, s, addr, data, sched, l);
    case CallFence(sched) =>
      FenceReduces(cfg, s, sched);
      SameBalanceKeeps(s, Quiet(cfg, s), l);
      FlushAllBalanced(cfg, Quiet(cfg, s), PendingDestinations(s.queues), sched.destinations, l);
  }

  /**
    In every run and configuration, failed flushes included: queued writes =
    merged + flushed + pending + those of failed batches, uncounted or lost; the
    flushed counters are exactly the batches delivered; and the bytes that entered
    the queues are the bytes delivered, uncounted, lost or pending.
   */
  lemma {:induction false} AlwaysBalanced(cfg: Config, calls: seq<Call>)
    ensures Balanced(After(cfg, calls), RunLedger(cfg, calls))
  {
    hide Access.Read, Access.Write, Access.Fence, Access.Malloc, Balanced, WriteLedger, FlushAllLedger;
    if calls == [] {
      BootBalanced(cfg, map[]);
    } else {
      var before, call := calls[..|calls| - 1], calls[|calls| - 1];
      assert before + [call] == calls;
      AlwaysBalanced(cfg, before);
      AlwaysSettled(cfg, before);
      if call.CallRestart? {
        BootBalanced(cfg, After(cfg, before).inboxes);
      } else {
        CallBalanced(cfg, before, call);
      }
    }
  }

  lemma BootBalanced(cfg: Config, inboxes: Inboxes)
    ensures Balanced(Boot(cfg, inboxes), NO_TRAFFIC)
  {
  }

  // ------------------------------------------------------- bounds on the ledger

  /** Bytes of remote writes in a run since its last restart. */
  function SentBytes(cfg: Config, calls: seq<Call>): nat
  {
    if calls == [] then 0
    else
      var before, call := calls[..|calls| - 1], calls[|calls| - 1];
      if call.CallRestart? then 0
      else if RemoteWriteCall(cfg, call) then SentBytes(cfg, before) + |call.data|
      else SentBytes(cfg, before)
  }

  lemma {:induction false} FlushAllEnters(cfg: Config, s: Node, todo: set<NodeId>, schedule: seq<NodeId>, l: Ledger)
    ensures FlushAllLedger(cfg, s, todo, schedule, l).entered == l.entered
    decreases |todo|
  {
    if todo != {} {
      var node := Pick(todo, schedule);
      FlushAllEnters(cfg, Flush(cfg, s, node).s, todo - {node}, Rest(schedule), FlushLedger(cfg, s, node, l));
    }
  }

  lemma QueueLedgerEnters(cfg: Config, s: Node, addr: GlobalAddr, data: seq<byte>, f: WriteFlags, l: Ledger)
    ensures QueueLedger(cfg, s, addr, data, f, l).entered <= l.entered + |data|
  {
    hide Enqueued, PayloadBytes;
    EnqueuedGrows(cfg, s, addr, data, f);
  }

  /** Merging only saves: no more bytes enter the queues than clients wrote. */
  lemma {:induction false} EnteredAtMostSent(cfg: Config, calls: seq<Call>)
    ensures RunLedger(cfg, calls).entered <= SentBytes(cfg, calls)
  {
    hide Exec, QueueLedger, Announced, FlagsOf, FlushAllLedger;
    if calls != [] {
      var before, call := calls[..|calls| - 1], calls[|calls| - 1];
      EnteredAtMostSent(cfg, before);
      var s, l := After(cfg, before), RunLedger(cfg, before);
      if call.CallFence? {
        FlushAllEnters(cfg, Quiet(cfg, s), PendingDestinations(s.queues), call.sched.destinations, l);
      } else if RemoteWriteCall(cfg, call) && call.data != [] && cfg.blockSize > 0 {
        var key, range := call.Key(), Resolve(cfg.blockSize, call.addr, |call.data|);
        QueueLedgerEnters(cfg, Announced(cfg, Quiet(cfg, s), key, range), call.addr, call.data,
                          FlagsOf(cfg, Quiet(cfg, s), key, range), l);
      }
    }
  }

  /** Queues of an in-range run hold only in-range writes, and none for this node. */
  lemma {:induction false} QueuesStayInRange(cfg: Config, calls: seq<Call>, n: NodeId)
    requires WritesInRange(cfg, calls)
    ensures InRange(cfg, Queue(After(cfg, calls).queues, n), n)
    ensures n == cfg.nodeId ==> Queue(After(cfg, calls).queues, n) == []
  {
    hide Exec, Enqueue;
    if calls != [] {
      var before, call := calls[..|calls| - 1], calls[|calls| - 1];
      assert forall k :: 0 <= k < |before| ==> before[k] == calls[k];
      QueuesStayInRange(cfg, before, n);
      AlwaysSettled(cfg, before);
      var s := After(cfg, before);
      var w := CallStep(cfg, s, call, n);
      if RemoteWriteCall(cfg, call) && call.data != [] && n == call.addr.home {
        EnqueueInRange(cfg, Queue(s.queues, n), w);
      }
    }
  }

  predicate Lossless(l: Ledger)
  {
    l.lost == 0 && l.lostBytes == 0 && l.uncounted == 0 && l.uncountedBytes == 0
  }

  lemma FlushLossless(cfg: Config, s: Node, node: NodeId, l: Ledger)
    requires MemOk(cfg, s.mem) && InRange(cfg, Queue(s.queues, node), node) && Lossless(l)
    requires node == cfg.nodeId ==> Queue(s.queues, node) == []
    ensures Flush(cfg, s, node).status == Ok && Lossless(FlushLedger(cfg, s, node, l))
    ensures MemOk(cfg, Flush(cfg, s, node).s.mem)
  {
    hide MemOk, CountFlags;
    if Queue(s.queues, node) != [] {
      BatchReplays(cfg, s.mem, Queue(s.queues, node), node);
    }
  }

  lemma {:induction false} FlushAllLossless(cfg: Config, s: Node, todo: set<NodeId>, schedule: seq<NodeId>, l: Ledger)
    requires MemOk(cfg, s.mem) && QueuesInRange(cfg, s.queues) && Lossless(l)
    ensures Lossless(FlushAllLedger(cfg, s, todo, schedule, l))
    decreases |todo|
  {
    hide MemOk, Flush, FlushLedger, Lossless;
    if todo != {} {
      var node := Pick(todo, schedule);
      assert InRange(cfg, Queue(s.queues, node), node);
      FlushLossless(cfg, s, node, l);
      FlushFrame(cfg, s, node);
      FlushAllLossless(cfg, Flush(cfg, s, node).s, todo - {node}, Rest(schedule), FlushLedger(cfg, s, node, l));
    }
  }

  lemma WriteLossless(cfg: Config, s: Node, addr: GlobalAddr, data: seq<byte>, l: Ledger)
    requires MemOk(cfg, s.mem) && QueuesInRange(cfg, s.queues) && Lossless(l)
    requires addr.home != cfg.nodeId ==> addr.offset + |data| <= cfg.localRegionSize
    ensures Lossless(WriteLedger(cfg, s, addr, data, l))
  {
    hide MemOk, QueueLedger, Announced, FlagsOf, Lossless;
    if addr.home != cfg.nodeId && data != [] && cfg.blockSize > 0 {
      var q, key, range := Quiet(cfg, s), CacheKey(addr, |data|), Resolve(cfg.blockSize, addr, |data|);
      AnnouncedFrame(cfg, q, key, range);
      assert InRange(cfg, Queue(s.queues, addr.home), addr.home);
      QueueLossless(cfg, Announced(cfg, q, key, range), addr, data, FlagsOf(cfg, q, key, range), l);
    }
  }

  lemma QueueLossless(cfg: Config, s: Node, addr: GlobalAddr, data: seq<byte>, f: WriteFlags, l: Ledger)
    requires MemOk(cfg, s.mem) && InRange(cfg, Queue(s.queues, addr.home), addr.home) && Lossless(l)
    requires addr.home != cfg.nodeId && data != [] && addr.offset + |data| <= cfg.localRegionSize
    ensures Lossless(QueueLedger(cfg, s, addr, data, f, l))
  {
    hide MemOk, FlushLedger, PayloadBytes, Enqueue, MergeTarget, Insert;
    EnqueueInRange(cfg, Queue(s.queues, addr.home), PendingWrite(addr, data, DominantMode(f.modes), f.biased, f.handoff));
    var s1 := Enqueued(cfg, s, addr, data, f);
    EnqueuedGrows(cfg, s, addr, data, f);
    var grown := PayloadBytes(Queue(s1.queues, addr.home)) - PayloadBytes(Queue(s.queues, addr.home));
    FlushLossless(cfg, s1, addr.home, l.(entered := l.entered + grown));
  }

  /** In-range runs lose nothing, for all thresholds and overlaps: queued = merged + flushed + pending. */
  lemma {:induction false} InRangeLosesNothing(cfg: Config, calls: seq<Call>)
    requires WritesInRange(cfg, calls)
    ensures Lossless(RunLedger(cfg, calls))
  {
    hide Exec, WriteLedger, FlushAllLedger, MemOk;
    if calls != [] {
      var before, call := calls[..|calls| - 1], calls[|calls| - 1];
      assert forall k :: 0 <= k < |before| ==> before[k] == calls[k];
      InRangeLosesNothing(cfg, before);
      var s, l := After(cfg, before), RunLedger(cfg, before);
      MemoryKeepsShape(cfg, before);
      forall n: NodeId
        ensures InRange(cfg, Queue(s.queues, n), n) && (n == cfg.nodeId ==> Queue(s.queues, n) == [])
      {
        QueuesStayInRange(cfg, before, n);
      }
      match call
      case CallWrite(addr, data, _) => WriteLossless(cfg, s, addr, data, l);
      case CallFence(sched) =>
        FlushAllLossless(cfg, Quiet(cfg, s), PendingDestinations(s.queues), sched.destinations, l);
      case _ =>
    }
  }
}
