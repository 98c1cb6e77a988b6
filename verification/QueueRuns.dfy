/**
  The pending write queues over whole runs, whatever the client does: how a call
  can change a queue, how deep queues get, and where their entries come from
  (src/api/access_api.cc, src/api/sync_api.cc).
 */
module QueueRuns {
  import opened Types
  import opened WriteCombining
  import opened BlockRanges
  import opened Access
  import opened Frames
  import opened StubControl

  /** A client write, stripped of its coherence annotations. */
  function Plain(addr: GlobalAddr, data: seq<byte>): PendingWrite
  {
    PendingWrite(addr, data, SI, false, false)
  }

  predicate RemoteWriteCall(cfg: Config, call: Call)
  {
    call.CallWrite? && call.addr.home != cfg.nodeId
  }

  predicate RemoteAccess(cfg: Config, call: Call)
  {
    (call.CallRead? || call.CallWrite?) && call.Key().addr.home != cfg.nodeId
  }

  /** The footprints of the remote accesses of a run. */
  ghost function AccessKeys(cfg: Config, calls: seq<Call>): set<CacheKey>
  {
    set k | 0 <= k < |calls| && RemoteAccess(cfg, calls[k]) :: calls[k].Key()
  }

  // ------------------------------------------------------------- fixed modes

  /** The override fixes this mode for every block. */
  predicate Fixed(cfg: Config, mode: CoherenceMode)
  {
    cfg.modeOverride == mode.Code()
  }

  predicate FixedWI(cfg: Config)
  {
    Fixed(cfg, WI)
  }

  lemma {:induction false} ObservedModesFixed(cfg: Config, o: Observed, ids: seq<BlockId>, access: AccessType, local: bool,
                                              mode: CoherenceMode)
    requires Fixed(cfg, mode) && forall m :: m in o.modes ==> m == mode
    ensures forall m :: m in ObserveAll(cfg, o, ids, access, local).modes ==> m == mode
    decreases |ids|
  {
    if ids != [] {
      ObservedModesFixed(cfg, ObserveOne(cfg, o, ids[0], access, local), ids[1..], access, local, mode);
    }
  }

  /** Under a fixed mode every block of an access is in that mode. */
  lemma ProfiledModesFixed(cfg: Config, s: Node, key: CacheKey, ids: seq<BlockId>, access: AccessType, mode: CoherenceMode)
    requires Fixed(cfg, mode)
    ensures var modes := Profiled(cfg, s, key, ids, access).modes;
            |modes| == |ids| && (forall m :: m in modes ==> m == mode) && (ids != [] ==> mode in modes)
  {
    hide UpdateAll, ObserveAll;
    var prepared := UpdateAll(cfg, s.blocks, ids, Prepare(key.addr.home, access));
    ObservedModesFixed(cfg, Observed(prepared, s.epoch, s.stats, []), ids, access, key.addr.home == cfg.nodeId, mode);
    var modes := Profiled(cfg, s, key, ids, access).modes;
    assert ids != [] ==> modes[0] in modes;
  }

  /** The modes of an access are what the override, if any, fixes. */
  ghost predicate ModesFit(cfg: Config, modes: seq<CoherenceMode>)
  {
    forall mode :: Fixed(cfg, mode) ==> mode in modes && forall m :: m in modes ==> m == mode
  }

  lemma WriteModesFit(cfg: Config, s: Node, key: CacheKey, range: BlockRange)
    requires range.count > 0
    ensures ModesFit(cfg, FlagsOf(cfg, s, key, range).modes)
  {
    hide Profiled;
    forall mode | Fixed(cfg, mode)
      ensures var modes := FlagsOf(cfg, s, key, range).modes; mode in modes && forall m :: m in modes ==> m == mode
    {
      ProfiledModesFixed(cfg, s, key, Ids(range), WriteAccess, mode);
    }
  }

  // ------------------------------------------------------------- queue depth

  lemma {:induction false} FlushThresholdBound(cfg: Config, modes: seq<CoherenceMode>)
    ensures FlushThreshold(cfg, modes) <= BatchThreshold(cfg, SI)
    ensures forall m :: m in modes ==> FlushThreshold(cfg, modes) <= BatchThreshold(cfg, m)
  {
    if modes != [] {
      var n := |modes| - 1;
      assert modes == modes[..n] + [modes[n]];
      FlushThresholdBound(cfg, modes[..n]);
    }
  }

  /** The flush threshold is the least batch threshold of the modes present. */
  lemma {:induction false} ThresholdIs(cfg: Config, modes: seq<CoherenceMode>)
    ensures FlushThreshold(cfg, modes) ==
            if WI in modes then 1
            else if Adaptive in modes then Min(Max(1, cfg.batchThreshold), Max(1, cfg.adaptiveBatchThreshold))
            else Max(1, cfg.batchThreshold)
  {
    if modes != [] {
      var k := |modes| - 1;
      assert modes == modes[..k] + [modes[k]];
      ThresholdIs(cfg, modes[..k]);
    }
  }

  /** The most entries a destination queue holds between calls. */
  function Depth(cfg: Config): nat
  {
    if !cfg.enableWriteBatching || FixedWI(cfg) then 0
    else if Fixed(cfg, Adaptive) then Min(Max(1, cfg.batchThreshold), Max(1, cfg.adaptiveBatchThreshold)) - 1
    else Max(1, cfg.batchThreshold) - 1
  }

  ghost predicate Shallow(cfg: Config, queues: Queues)
  {
    forall n: NodeId :: |Queue(queues, n)| <= Depth(cfg)
  }

  lemma QueueWriteDepth(cfg: Config, s: Node, addr: GlobalAddr, data: seq<byte>, f: WriteFlags)
    requires Shallow(cfg, s.queues) && cfg.enableWriteBatching && ModesFit(cfg, f.modes)
    ensures Shallow(cfg, QueueWrite(cfg, s, addr, data, f).s.queues)
  {
    hide Enqueue, FlushThreshold;
    var s1 := Enqueued(cfg, s, addr, data, f);
    FlushThresholdBound(cfg, f.modes);
    assert forall n: NodeId :: n != addr.home ==> Queue(s1.queues, n) == Queue(s.queues, n);
    FlushFrame(cfg, s1, addr.home);
    assert FixedWI(cfg) ==> WI in f.modes;
    assert Fixed(cfg, Adaptive) ==> Adaptive in f.modes;
  }

  lemma RemoteWriteDepth(cfg: Config, s: Node, addr: GlobalAddr, data: seq<byte>, range: BlockRange)
    requires Shallow(cfg, s.queues) && range.count > 0
    ensures Shallow(cfg, RemoteWrite(cfg, s, addr, data, range).s.queues)
  {
    hide ModesFit, Depth, QueueWrite, DirectWrite;
    var key := CacheKey(addr, |data|);
    AnnouncedFrame(cfg, s, key, range);
    RemoteWriteStages(cfg, s, addr, data, range);
    WriteModesFit(cfg, s, key, range);
    if cfg.enableWriteBatching {
      QueueWriteDepth(cfg, Announced(cfg, s, key, range), addr, data, FlagsOf(cfg, s, key, range));
    } else {
      DirectWriteFrame(cfg, Announced(cfg, s, key, range), addr, data);
    }
  }

  lemma {:induction false} FlushAllDepth(cfg: Config, s: Node, todo: set<NodeId>, schedule: seq<NodeId>)
    requires Shallow(cfg, s.queues)
    ensures Shallow(cfg, FlushAll(cfg, s, todo, schedule).s.queues)
    decreases |todo|
  {
    if todo != {} {
      var node := Pick(todo, schedule);
      FlushFrame(cfg, s, node);
      var r := Flush(cfg, s, node);
      if r.status == Ok {
        FlushAllDepth(cfg, r.s, todo - {node}, Rest(schedule));
      }
    }
  }

  lemma CallDepth(cfg: Config, s: Node, call: Call)
    requires Settled(cfg, s) && Shallow(cfg, s.queues)
    ensures Shallow(cfg, Exec(cfg, s, call).s.queues)
  {
    hide Access.Read, Access.Write, Access.Fence, Depth;
    match call
    case CallMalloc(size) =>
    case CallRead(key, sched) => ReadQueues(cfg, s, key, sched);
    case CallWrite(addr, data, sched) => WriteDepth(cfg, s, addr, data, sched);
    case CallFence(sched) =>
      FenceReduces(cfg, s, sched);
      FlushAllDepth(cfg, Quiet(cfg, s), PendingDestinations(s.queues), sched.destinations);
    case CallRestart =>
  }

  lemma WriteDepth(cfg: Config, s: Node, addr: GlobalAddr, data: seq<byte>, sched: Schedule)
    requires Settled(cfg, s) && Shallow(cfg, s.queues)
    ensures Shallow(cfg, Access.Write(cfg, s, addr, data, sched).s.queues)
  {
    hide RemoteWrite, Depth;
    WriteReduces(cfg, s, addr, data, sched);
    var q := Quiet(cfg, s);
    var v := Validate(cfg, q.mem.heap, CacheKey(addr, |data|));
    if v.Resolved? && addr.home != cfg.nodeId {
      RemoteWriteDepth(cfg, q, addr, data, v.range);
    }
  }

  lemma ReadQueues(cfg: Config, s: Node, key: CacheKey, sched: Schedule)
    requires Settled(cfg, s)
    ensures Read(cfg, s, key, sched).s.queues == s.queues
  {
    hide RemoteRead;
    ReadReduces(cfg, s, key, sched);
    if key.addr.IsValid() && key.size != 0 {
      var q := Quiet(cfg, s);
      var v := Validate(cfg, q.mem.heap, key);
      if v.Resolved? && key.addr.home != cfg.nodeId {
        RemoteReadFrame(cfg, q, key, Ids(v.range), sched);
      }
    }
  }

  /** Between calls of any run each destination holds fewer than max(1, threshold) entries. */
  lemma {:induction false} QueueDepthBound(cfg: Config, calls: seq<Call>, node: NodeId)
    ensures Shallow(cfg, After(cfg, calls).queues)
    ensures |Queue(After(cfg, calls).queues, node)| < AtLeastOne(cfg.batchThreshold)
  {
    if calls != [] {
      var before := calls[..|calls| - 1];
      QueueDepthBound(cfg, before, node);
      AlwaysSettled(cfg, before);
      CallDepth(cfg, After(cfg, before), calls[|calls| - 1]);
    }
  }

  // ------------------------------------------------- how a call changes a queue

  /** `after` is `before`, or empty, or `before` with `w` queued at its home. */
  predicate QueueStep(before: Queues, after: Queues, n: NodeId, w: Option<PendingWrite>)
  {
    || Queue(after, n) == Queue(before, n)
    || Queue(after, n) == []
    || (w.Some? && n == w.value.addr.home && Queue(after, n) == Enqueue(Queue(before, n), w.value))
  }

  lemma QueueWriteStep(cfg: Config, s: Node, addr: GlobalAddr, data: seq<byte>, f: WriteFlags, n: NodeId)
    ensures var w := PendingWrite(addr, data, DominantMode(f.modes), f.biased, f.handoff);
            QueueStep(s.queues, QueueWrite(cfg, s, addr, data, f).s.queues, n, Some(w))
  {
    hide Enqueue;
    FlushFrame(cfg, Enqueued(cfg, s, addr, data, f), addr.home);
  }

  /** The queued form of a client write: its footprint and payload with some annotations. */
  predicate QueuedForm(w: PendingWrite, addr: GlobalAddr, data: seq<byte>)
  {
    w.addr == addr && w.payload == data
  }

  lemma RemoteWriteStep(cfg: Config, s: Node, addr: GlobalAddr, data: seq<byte>, range: BlockRange, n: NodeId)
    returns (w: PendingWrite)
    ensures QueuedForm(w, addr, data)
    ensures QueueStep(s.queues, RemoteWrite(cfg, s, addr, data, range).s.queues, n, Some(w))
  {
    hide Enqueue, QueueWrite, DirectWrite;
    var key := CacheKey(addr, |data|);
    var f := FlagsOf(cfg, s, key, range);
    w := PendingWrite(addr, data, DominantMode(f.modes), f.biased, f.handoff);
    AnnouncedFrame(cfg, s, key, range);
    RemoteWriteStages(cfg, s, addr, data, range);
    QueueWriteStep(cfg, Announced(cfg, s, key, range), addr, data, f, n);
    DirectWriteFrame(cfg, Announced(cfg, s, key, range), addr, data);
  }

  lemma {:induction false} FlushAllStep(cfg: Config, s: Node, todo: set<NodeId>, schedule: seq<NodeId>, n: NodeId)
    ensures QueueStep(s.queues, FlushAll(cfg, s, todo, schedule).s.queues, n, None)
    decreases |todo|
  {
    hide Flush;
    if todo != {} {
      var node := Pick(todo, schedule);
      FlushFrame(cfg, s, node);
      var r := Flush(cfg, s, node);
      if r.status == Ok {
        FlushAllStep(cfg, r.s, todo - {node}, Rest(schedule), n);
      }
    }
  }

  lemma WriteStep(cfg: Config, s: Node, addr: GlobalAddr, data: seq<byte>, sched: Schedule, n: NodeId)
    returns (w: PendingWrite)
    requires Settled(cfg, s)
    ensures QueuedForm(w, addr, data)
    ensures QueueStep(s.queues, Access.Write(cfg, s, addr, data, sched).s.queues, n,
                      if addr.home != cfg.nodeId && addr.IsValid() && data != [] then Some(w) else None)
  {
    hide RemoteWrite, Enqueue;
    w := Plain(addr, data);
    WriteReduces(cfg, s, addr, data, sched);
    var q := Quiet(cfg, s);
    var v := Validate(cfg, q.mem.heap, CacheKey(addr, |data|));
    if v.Resolved? && addr.home != cfg.nodeId {
      w := RemoteWriteStep(cfg, q, addr, data, v.range, n);
    }
  }

  /**
    Every call of every run leaves each queue as it is, empties it, or queues the
    client's write; reads and allocations leave every queue as it is.
   */
  lemma CallStep(cfg: Config, s: Node, call: Call, n: NodeId) returns (w: PendingWrite)
    requires Settled(cfg, s)
    ensures call.CallWrite? ==> QueuedForm(w, call.addr, call.data)
    ensures QueueStep(s.queues, Exec(cfg, s, call).s.queues, n,
                      if RemoteWriteCall(cfg, call) && call.addr.IsValid() && call.data != [] then Some(w) else None)
  {
    hide Access.Read, Access.Write, Access.Fence, Enqueue;
    w := Plain(INVALID_ADDR, []);
    match call
    case CallMalloc(size) =>
    case CallRead(key, sched) => ReadQueues(cfg, s, key, sched);
    case CallWrite(addr, data, sched) => w := WriteStep(cfg, s, addr, data, sched, n);
    case CallFence(sched) =>
      FenceReduces(cfg, s, sched);
      FlushAllStep(cfg, Quiet(cfg, s), PendingDestinations(s.queues), sched.destinations, n);
    case CallRestart =>
  }

  /** Call k of the run is the remote write queued as w. */
  predicate WrittenBy(cfg: Config, calls: seq<Call>, k: int, w: PendingWrite)
  {
    0 <= k < |calls| && RemoteWriteCall(cfg, calls[k]) && QueuedForm(w, calls[k].addr, calls[k].data)
  }

  ghost predicate Written(cfg: Config, calls: seq<Call>, w: PendingWrite)
  {
    exists k :: WrittenBy(cfg, calls, k, w)
  }

  lemma WrittenLonger(cfg: Config, calls: seq<Call>, w: PendingWrite)
    requires calls != [] && Written(cfg, calls[..|calls| - 1], w)
    ensures Written(cfg, calls, w)
  {
    var k :| WrittenBy(cfg, calls[..|calls| - 1], k, w);
    assert WrittenBy(cfg, calls, k, w);
  }

  /** In every run every queue is what queueing some of the run's remote writes, one after the other, builds. */
  lemma {:induction false} QueueIsBuilt(cfg: Config, calls: seq<Call>, n: NodeId) returns (writes: seq<PendingWrite>)
    ensures Queue(After(cfg, calls).queues, n) == EnqueueAll(writes)
    ensures forall i :: 0 <= i < |writes| ==> writes[i].addr.home == n && Written(cfg, calls, writes[i])
  {
    hide Exec, Enqueue, Written;
    writes := [];
    if calls != [] {
      var m := |calls| - 1;
      var before, call := calls[..m], calls[m];
      var s := After(cfg, before);
      var was := QueueIsBuilt(cfg, before, n);
      AlwaysSettled(cfg, before);
      var w := CallStep(cfg, s, call, n);
      var queue := Queue(After(cfg, calls).queues, n);
      forall i | 0 <= i < |was|
        ensures Written(cfg, calls, was[i])
      {
        WrittenLonger(cfg, calls, was[i]);
      }
      if queue == Queue(s.queues, n) {
        writes := was;
      } else if queue != [] {
        writes := was + [w];
        EnqueueLast(was, w);
        LastIsWritten(cfg, calls, w);
      }
    }
  }

  lemma LastIsWritten(cfg: Config, calls: seq<Call>, w: PendingWrite)
    requires calls != [] && RemoteWriteCall(cfg, calls[|calls| - 1]) && QueuedForm(w, calls[|calls| - 1].addr, calls[|calls| - 1].data)
    ensures Written(cfg, calls, w)
  {
    assert WrittenBy(cfg, calls, |calls| - 1, w);
  }

  // ------------------------------------------------------ safe queueing in runs

  /** No write of the run overlaps an entry behind its merge target in the queue it joins. */
  ghost predicate SafeQueueing(cfg: Config, calls: seq<Call>)
  {
    forall k :: 0 <= k < |calls| && RemoteWriteCall(cfg, calls[k]) ==>
                  NoLaterOverlap(Queue(After(cfg, calls[..k]).queues, calls[k].addr.home), Plain(calls[k].addr, calls[k].data))
  }

  /** Queues that never hold more than one entry are always safe, however writes overlap. */
  lemma ShortQueuesAreSafe(cfg: Config, calls: seq<Call>)
    requires Depth(cfg) <= 1
    ensures SafeQueueing(cfg, calls)
  {
    hide Depth, MergeTarget, After;
    forall k | 0 <= k < |calls| && RemoteWriteCall(cfg, calls[k])
      ensures NoLaterOverlap(Queue(After(cfg, calls[..k]).queues, calls[k].addr.home), Plain(calls[k].addr, calls[k].data))
    {
      QueueDepthBound(cfg, calls[..k], calls[k].addr.home);
    }
  }

  predicate Spaced(keys: set<CacheKey>)
  {
    forall a, b :: a in keys && b in keys ==> a == b || Apart(a, b)
  }

  /** The footprints of the remote writes of a run. */
  ghost function WriteKeys(cfg: Config, calls: seq<Call>): set<CacheKey>
  {
    set k | 0 <= k < |calls| && RemoteWriteCall(cfg, calls[k]) :: calls[k].Key()
  }

  /** Every queued footprint is one of `keys`, each at most once. */
  predicate Unmerged(queue: seq<PendingWrite>, keys: set<CacheKey>)
  {
    && (forall k :: 0 <= k < |queue| ==> queue[k].Key() in keys)
    && (forall j, k :: 0 <= j < k < |queue| ==> queue[j].Key() != queue[k].Key())
  }

  /** With equal-or-apart footprints a write merges only with its own footprint. */
  lemma SpacedEnqueue(queue: seq<PendingWrite>, w: PendingWrite, keys: set<CacheKey>)
    requires Spaced(keys) && Unmerged(queue, keys) && w.Key() in keys
    ensures NoLaterOverlap(queue, w) && Unmerged(Enqueue(queue, w), keys)
  {
    var t := MergeTarget(queue, w);
    forall k | 0 <= k < |queue|
      ensures queue[k].Key() == w.Key() || Apart(queue[k].Key(), w.Key())
    {
    }
    if t < |queue| {
      assert queue[t].Key() == w.Key();
      assert Merge(queue[t], w).Key() == w.Key();
      forall k | t < k < |queue|
        ensures !Overlaps(queue[k], w)
      {
        assert queue[k].Key() != queue[t].Key();
      }
    } else {
      forall k | 0 <= k < |queue|
        ensures queue[k].Key() != w.Key()
      {
        assert !CanMerge(queue[k], w);
      }
    }
  }

  lemma {:induction false} QueuesStayUnmerged(cfg: Config, calls: seq<Call>, keys: set<CacheKey>, n: NodeId)
    requires Spaced(keys) && WriteKeys(cfg, calls) <= keys
    ensures Unmerged(Queue(After(cfg, calls).queues, n), keys)
  {
    hide Exec, Unmerged, Spaced, Enqueue;
    if calls == [] {
      NothingIsUnmerged(keys);
    } else {
      var before, call := calls[..|calls| - 1], calls[|calls| - 1];
      assert forall k :: 0 <= k < |before| ==> before[k] == calls[k];
      assert WriteKeys(cfg, before) <= WriteKeys(cfg, calls);
      assert RemoteWriteCall(cfg, call) ==> call.Key() in WriteKeys(cfg, calls);
      QueuesStayUnmerged(cfg, before, keys, n);
      AlwaysSettled(cfg, before);
      var s := After(cfg, before);
      var w := CallStep(cfg, s, call, n);
      if RemoteWriteCall(cfg, call) {
        SpacedEnqueue(Queue(s.queues, n), w, keys);
      }
      NothingIsUnmerged(keys);
    }
  }

  lemma NothingIsUnmerged(keys: set<CacheKey>)
    ensures Unmerged([], keys)
  {
  }

  /** Footprints that are pairwise equal or a byte apart are always safe, whatever the threshold. */
  lemma SpacedWritesAreSafe(cfg: Config, calls: seq<Call>)
    requires Spaced(WriteKeys(cfg, calls))
    ensures SafeQueueing(cfg, calls)
  {
    hide After, Unmerged, Spaced, Enqueue;
    var keys := WriteKeys(cfg, calls);
    forall k | 0 <= k < |calls| && RemoteWriteCall(cfg, calls[k])
      ensures NoLaterOverlap(Queue(After(cfg, calls[..k]).queues, calls[k].addr.home), Plain(calls[k].addr, calls[k].data))
    {
      var before := calls[..k];
      assert forall j :: 0 <= j < k ==> before[j] == calls[j];
      assert WriteKeys(cfg, before) <= keys && calls[k].Key() in keys;
      QueuesStayUnmerged(cfg, before, keys, calls[k].addr.home);
      SpacedEnqueue(Queue(After(cfg, before).queues, calls[k].addr.home), Plain(calls[k].addr, calls[k].data), keys);
    }
  }

  lemma SafePrefix(cfg: Config, calls: seq<Call>, n: nat)
    requires SafeQueueing(cfg, calls) && n <= |calls|
    ensures SafeQueueing(cfg, calls[..n])
  {
    hide After, NoLaterOverlap;
    forall k | 0 <= k < n && RemoteWriteCall(cfg, calls[..n][k])
      ensures NoLaterOverlap(Queue(After(cfg, calls[..n][..k]).queues, calls[k].addr.home), Plain(calls[k].addr, calls[k].data))
    {
      assert calls[..n][..k] == calls[..k] && RemoteWriteCall(cfg, calls[k]);
    }
  }
}
