/**
  No byte comes out of thin air: whatever the thresholds, modes, overlaps and
  failed flushes, a byte returned by a read is zero or was put at that offset by
  some earlier write; and at that very home, with one home per block index.
 */
module ThinAir {
  import opened Types
  import opened WriteCombining
  import opened LruCache
  import opened BlockRanges
  import opened Allocator
  import opened StubNet
  import opened Access
  import opened Frames
  import opened StubControl
  import opened QueueRuns
  import opened Batching
  import opened Redirection
  import opened CacheRuns
  import opened Owners

  /** Every write attempted since the last restart, whatever it returned. */
  function Attempts(calls: seq<Call>): seq<PendingWrite>
  {
    if calls == [] then []
    else
      var before, call := Attempts(calls[..|calls| - 1]), calls[|calls| - 1];
      match call
      case CallRestart => []
      case CallWrite(addr, data, _) => before + [Plain(addr, data)]
      case _ => before
  }

  /** Some write put `b` at (node, i). */
  ghost predicate Put(writes: seq<PendingWrite>, node: NodeId, i: int, b: byte)
  {
    exists k :: 0 <= k < |writes| && writes[k].Covers(node, i) && writes[k].At(i) == b
  }

  ghost predicate Traced(writes: seq<PendingWrite>, node: NodeId, i: int, b: byte)
  {
    b == 0 || Put(writes, node, i, b)
  }

  /** Some write put `b` at offset `i` of some home. */
  ghost predicate PutAnywhere(writes: seq<PendingWrite>, i: int, b: byte)
  {
    exists n: NodeId :: Put(writes, n, i, b)
  }

  /** Traced; when not `exact` the home may be another one. */
  ghost predicate TracedAs(writes: seq<PendingWrite>, node: NodeId, i: int, b: byte, exact: bool)
  {
    b == 0 || Put(writes, node, i, b) || (!exact && PutAnywhere(writes, i, b))
  }

  lemma TracedAsGrows(writes: seq<PendingWrite>, w: PendingWrite, node: NodeId, i: int, b: byte, exact: bool)
    requires TracedAs(writes, node, i, b, exact)
    ensures TracedAs(writes + [w], node, i, b, exact)
  {
    if b != 0 {
      var n: NodeId :| Put(writes, n, i, b) && (exact ==> n == node);
      PutGrows(writes, w, n, i, b);
    }
  }

  lemma PutGrows(writes: seq<PendingWrite>, w: PendingWrite, node: NodeId, i: int, b: byte)
    requires Put(writes, node, i, b)
    ensures Put(writes + [w], node, i, b)
  {
    var k :| 0 <= k < |writes| && writes[k].Covers(node, i) && writes[k].At(i) == b;
    assert (writes + [w])[k] == writes[k];
  }

  lemma PutLast(writes: seq<PendingWrite>, w: PendingWrite, node: NodeId, i: int)
    requires w.Covers(node, i)
    ensures Put(writes + [w], node, i, w.At(i))
  {
    assert (writes + [w])[|writes|] == w;
  }

  // ------------------------------------------------------- the three holders

  /** A pending write carries only bytes that were written: no fill byte of a merge survives. */
  ghost predicate Genuine(w: PendingWrite, node: NodeId, writes: seq<PendingWrite>)
  {
    w.addr.home == node && forall i :: w.Covers(node, i) ==> Put(writes, node, i, w.At(i))
  }

  ghost predicate GenuineQueue(queue: seq<PendingWrite>, node: NodeId, writes: seq<PendingWrite>)
  {
    forall k :: 0 <= k < |queue| ==> Genuine(queue[k], node, writes)
  }

  ghost predicate TracedMemory(cfg: Config, mem: Memory, writes: seq<PendingWrite>)
  {
    var ok :=
      && MemOk(cfg, mem)
      && forall n: NodeId, i :: 0 <= i < cfg.localRegionSize ==> Traced(writes, n, i, Bank(cfg, mem, n)[i]);
    ok
  }

  ghost predicate TracedBytes(bytes: seq<byte>, key: CacheKey, writes: seq<PendingWrite>, exact: bool)
  {
    forall j :: 0 <= j < |bytes| ==> TracedAs(writes, key.addr.home, key.addr.offset + j, bytes[j], exact)
  }

  ghost predicate TracedEntries(cfg: Config, entries: seq<Entry>, writes: seq<PendingWrite>, exact: bool)
  {
    var ok :=
      Tidy(cfg, entries) && forall e :: e in entries ==> TracedBytes(e.payload, e.key, writes, exact);
    ok
  }

  ghost predicate TracedOk(cfg: Config, s: Node, writes: seq<PendingWrite>, exact: bool)
  {
    var ok :=
      && TracedMemory(cfg, s.mem, writes) && TracedEntries(cfg, s.entries, writes, exact)
      && (forall n: NodeId :: GenuineQueue(Queue(s.queues, n), n, writes));
    ok
  }

  lemma MergeGenuine(current: PendingWrite, incoming: PendingWrite, node: NodeId, writes: seq<PendingWrite>)
    requires CanMerge(current, incoming) && Genuine(current, node, writes) && Genuine(incoming, node, writes)
    ensures Genuine(Merge(current, incoming), node, writes)
  {
    var m := Merge(current, incoming);
    forall i | m.Covers(node, i)
      ensures Put(writes, node, i, m.At(i))
    {
      MergeIsUnion(current, incoming, node, i);
    }
  }

  lemma EnqueueGenuine(queue: seq<PendingWrite>, w: PendingWrite, node: NodeId, writes: seq<PendingWrite>)
    requires GenuineQueue(queue, node, writes) && Genuine(w, node, writes)
    ensures GenuineQueue(Enqueue(queue, w), node, writes)
  {
    var t := MergeTarget(queue, w);
    if t < |queue| {
      MergeGenuine(queue[t], w, node, writes);
    }
  }

  lemma GenuineGrows(queue: seq<PendingWrite>, node: NodeId, writes: seq<PendingWrite>, w: PendingWrite)
    requires GenuineQueue(queue, node, writes)
    ensures GenuineQueue(queue, node, writes + [w])
  {
    forall k, i | 0 <= k < |queue| && queue[k].Covers(node, i)
      ensures Put(writes + [w], node, i, queue[k].At(i))
    {
      assert Genuine(queue[k], node, writes);
      PutGrows(writes, w, node, i, queue[k].At(i));
    }
  }

  lemma MemoryGrows(cfg: Config, mem: Memory, writes: seq<PendingWrite>, w: PendingWrite)
    requires TracedMemory(cfg, mem, writes)
    ensures TracedMemory(cfg, mem, writes + [w])
  {
    hide Put;
    forall n: NodeId, i | 0 <= i < cfg.localRegionSize
      ensures Traced(writes + [w], n, i, Bank(cfg, mem, n)[i])
    {
      var b := Bank(cfg, mem, n)[i];
      assert Traced(writes, n, i, b);
      if b != 0 {
        PutGrows(writes, w, n, i, b);
      }
    }
  }

  lemma EntriesGrow(cfg: Config, entries: seq<Entry>, writes: seq<PendingWrite>, w: PendingWrite, exact: bool)
    requires TracedEntries(cfg, entries, writes, exact)
    ensures TracedEntries(cfg, entries, writes + [w], exact)
  {
    hide TracedAs;
    forall e, j | e in entries && 0 <= j < |e.payload|
      ensures TracedAs(writes + [w], e.key.addr.home, e.key.addr.offset + j, e.payload[j], exact)
    {
      assert TracedBytes(e.payload, e.key, writes, exact);
      TracedAsGrows(writes, w, e.key.addr.home, e.key.addr.offset + j, e.payload[j], exact);
    }
  }

  /** A new attempt keeps everything already traced. */
  lemma TracedGrows(cfg: Config, s: Node, writes: seq<PendingWrite>, w: PendingWrite, exact: bool)
    requires TracedOk(cfg, s, writes, exact)
    ensures TracedOk(cfg, s, writes + [w], exact)
  {
    hide TracedMemory, TracedEntries, GenuineQueue;
    MemoryGrows(cfg, s.mem, writes, w);
    EntriesGrow(cfg, s.entries, writes, w, exact);
    forall n: NodeId
      ensures GenuineQueue(Queue(s.queues, n), n, writes + [w])
    {
      GenuineGrows(Queue(s.queues, n), n, writes, w);
    }
  }

  lemma StoreTraced(cfg: Config, mem: Memory, addr: GlobalAddr, data: seq<byte>, writes: seq<PendingWrite>)
    requires TracedMemory(cfg, mem, writes) && Genuine(Plain(addr, data), addr.home, writes)
    ensures TracedMemory(cfg, StubNet.Write(cfg, mem, addr, data).mem, writes)
  {
    hide Store, Opened, Accepts, Put;
    if Reaches(cfg, mem, CacheKey(addr, |data|)) {
      StoreSpec(cfg, mem, addr, data);
      var mem' := Store(cfg, mem, addr, data);
      forall n: NodeId, i | 0 <= i < cfg.localRegionSize
        ensures Traced(writes, n, i, Bank(cfg, mem', n)[i])
      {
        assert Traced(writes, n, i, Bank(cfg, mem, n)[i]);
        if Plain(addr, data).Covers(n, i) {
          assert Bank(cfg, mem', n)[i] == Plain(addr, data).At(i);
        }
      }
    } else {
      OpenedSame(cfg, mem, addr.home);
    }
  }

  /** Even a batch that fails half way writes only bytes it carries. */
  lemma {:induction false} BatchTraced(cfg: Config, mem: Memory, batch: seq<PendingWrite>, node: NodeId,
                                       writes: seq<PendingWrite>)
    requires TracedMemory(cfg, mem, writes) && GenuineQueue(batch, node, writes)
    ensures TracedMemory(cfg, BatchWrite(cfg, mem, batch).mem, writes)
    decreases |batch|
  {
    if batch != [] {
      var first := batch[0];
      assert Genuine(first, node, writes);
      assert forall i :: Plain(first.addr, first.payload).Covers(node, i) ==>
          first.Covers(node, i) && Plain(first.addr, first.payload).At(i) == first.At(i);
      StoreTraced(cfg, mem, first.addr, first.payload, writes);
      BatchTraced(cfg, StubNet.Write(cfg, mem, first.addr, first.payload).mem, batch[1..], node, writes);
    }
  }

  lemma FlushTraced(cfg: Config, s: Node, node: NodeId, writes: seq<PendingWrite>, exact: bool)
    requires TracedOk(cfg, s, writes, exact)
    ensures TracedOk(cfg, Flush(cfg, s, node).s, writes, exact)
  {
    hide TracedMemory, TracedEntries, BatchWrite;
    BatchTraced(cfg, s.mem, Queue(s.queues, node), node, writes);
    FlushFrame(cfg, s, node);
  }

  lemma {:induction false} FlushAllTraced(cfg: Config, s: Node, todo: set<NodeId>, schedule: seq<NodeId>,
                                          writes: seq<PendingWrite>, exact: bool)
    requires TracedOk(cfg, s, writes, exact)
    ensures TracedOk(cfg, FlushAll(cfg, s, todo, schedule).s, writes, exact)
    decreases |todo|
  {
    hide TracedOk, Flush;
    if todo != {} {
      var node := Pick(todo, schedule);
      FlushTraced(cfg, s, node, writes, exact);
      var r := Flush(cfg, s, node);
      if r.status == Ok {
        FlushAllTraced(cfg, r.s, todo - {node}, Rest(schedule), writes, exact);
      }
    }
  }

  // ------------------------------------------------------------------ reads

  /** A load is traced to the node it came from, and so is its copy under another home when that need not be exact. */
  lemma LoadTraced(cfg: Config, mem: Memory, from: CacheKey, key: CacheKey, writes: seq<PendingWrite>, exact: bool)
    requires TracedMemory(cfg, mem, writes) && Reaches(cfg, mem, from)
    requires from.addr.offset == key.addr.offset && from.size == key.size && (exact ==> from == key)
    ensures TracedBytes(Load(cfg, mem, from), key, writes, exact)
  {
    ReachesInBank(cfg, mem, from);
    BankSize(cfg, mem, from.addr.home);
    forall j | 0 <= j < key.size
      ensures TracedAs(writes, key.addr.home, key.addr.offset + j, Load(cfg, mem, from)[j], exact)
    {
      assert Traced(writes, from.addr.home, from.addr.offset + j, Bank(cfg, mem, from.addr.home)[from.addr.offset + j]);
    }
  }

  lemma ServedTraced(entries: seq<Entry>, k: CacheKey, key: CacheKey, writes: seq<PendingWrite>, exact: bool)
    requires Has(entries, k) && Serves(k, key) && forall e :: e in entries ==> TracedBytes(e.payload, e.key, writes, exact)
    ensures TracedBytes(Part(PayloadOf(entries, k), k, key), key, writes, exact)
  {
    hide TracedAs;
    var p := PayloadOf(entries, k);
    assert Entry(k, p) in entries && TracedBytes(p, k, writes, exact);
    var part := Part(p, k, key);
    var begin := key.addr.offset - k.addr.offset;
    forall j | 0 <= j < |part|
      ensures TracedAs(writes, key.addr.home, key.addr.offset + j, part[j], exact)
    {
      assert part[j] == p[begin + j];
      assert TracedAs(writes, k.addr.home, k.addr.offset + (begin + j), p[begin + j], exact);
    }
  }

  lemma HitTraced(cfg: Config, entries: seq<Entry>, key: CacheKey, schedule: seq<CacheKey>, writes: seq<PendingWrite>,
                  exact: bool)
    requires TracedEntries(cfg, entries, writes, exact)
    ensures var c := ReadCached(entries, key, schedule);
            TracedEntries(cfg, c.entries, writes, exact) && (c.hit ==> TracedBytes(c.bytes, key, writes, exact))
  {
    hide TracedBytes;
    var c := ReadCached(entries, key, schedule);
    if c.hit {
      var k := if Has(entries, key) then key else Pick(Servers(entries, key), schedule);
      if k != key {
        ServerIsResident(entries, key, k);
      }
      TouchKeeps(entries, k);
      ServedTraced(entries, k, key, writes, exact);
    }
  }

  lemma InsertTraced(cfg: Config, entries: seq<Entry>, key: CacheKey, data: seq<byte>, writes: seq<PendingWrite>, exact: bool)
    requires TracedEntries(cfg, entries, writes, exact) && |data| == key.size && TracedBytes(data, key, writes, exact)
    ensures TracedEntries(cfg, Insert(cfg, entries, key, data), writes, exact)
  {
    hide TracedBytes, Insert;
    InsertKeeps(cfg, entries, key, data);
  }

  lemma RemoteReadTraced(cfg: Config, s: Node, key: CacheKey, sched: Schedule, writes: seq<PendingWrite>, exact: bool)
    requires Settled(cfg, s) && TracedOk(cfg, s, writes, exact) && RemoteRange(cfg, key)
    requires exact ==> !GoesToThird(cfg, s, key)
    ensures var r := Read(cfg, s, key, sched);
            TracedEntries(cfg, r.s.entries, writes, exact) && (r.status == Ok ==> TracedBytes(r.bytes, key, writes, exact))
  {
    hide Access.Read, ReadCached, TracedBytes, TracedEntries, Settled, GoesToThird, MissState, OwnerAwareRead, Insert,
         Reaches, Load, DominantOwner;
    ReadOutcome(cfg, s, key, sched);
    HitTraced(cfg, s.entries, key, sched.hits, writes, exact);
    if !ReadCached(s.entries, key, sched.hits).hit {
      MissAnswers(cfg, s, key, sched);
      var r, from := Read(cfg, s, key, sched), AnsweredFrom(cfg, s, key);
      if r.status == Ok {
        LoadTraced(cfg, s.mem, from, key, writes, exact);
        if |r.bytes| == key.size {
          InsertTraced(cfg, s.entries, key, r.bytes, writes, exact);
        }
      }
    }
  }

  lemma OtherReadTraced(cfg: Config, s: Node, key: CacheKey, sched: Schedule, writes: seq<PendingWrite>, exact: bool)
    requires Settled(cfg, s) && TracedMemory(cfg, s.mem, writes) && !RemoteRange(cfg, key)
    ensures var r := Read(cfg, s, key, sched);
            r.s.entries == s.entries && (r.status == Ok ==> TracedBytes(r.bytes, key, writes, exact))
  {
    hide RemoteRead, Profiled, Settled, TracedBytes, TracedMemory, Accepts;
    ReadReduces(cfg, s, key, sched);
    if key.addr.home == cfg.nodeId && Reaches(cfg, s.mem, key) {
      LoadTraced(cfg, s.mem, key, key, writes, exact);
    }
  }

  lemma ReadTraced(cfg: Config, s: Node, key: CacheKey, sched: Schedule, writes: seq<PendingWrite>, exact: bool)
    requires Settled(cfg, s) && TracedOk(cfg, s, writes, exact)
    requires exact && RemoteRange(cfg, key) ==> !GoesToThird(cfg, s, key)
    ensures var r := Read(cfg, s, key, sched);
            TracedOk(cfg, r.s, writes, exact) && (r.status == Ok ==> TracedBytes(r.bytes, key, writes, exact))
  {
    hide Access.Read, TracedBytes, TracedEntries, Settled, GoesToThird, GenuineQueue, Traced;
    if RemoteRange(cfg, key) {
      RemoteReadTraced(cfg, s, key, sched, writes, exact);
    } else {
      OtherReadTraced(cfg, s, key, sched, writes, exact);
    }
    ReadData(cfg, s, key, sched);
  }

  // ----------------------------------------------------------------- writes

  lemma OwnDataTraced(addr: GlobalAddr, data: seq<byte>, writes: seq<PendingWrite>, exact: bool)
    ensures Genuine(Plain(addr, data), addr.home, writes + [Plain(addr, data)])
    ensures TracedBytes(data, CacheKey(addr, |data|), writes + [Plain(addr, data)], exact)
  {
    var w := Plain(addr, data);
    forall i | w.Covers(addr.home, i)
      ensures Put(writes + [w], addr.home, i, w.At(i))
    {
      PutLast(writes, w, addr.home, i);
    }
    forall j | 0 <= j < |data|
      ensures Put(writes + [w], addr.home, addr.offset + j, data[j])
    {
      assert w.Covers(addr.home, addr.offset + j) && w.At(addr.offset + j) == data[j];
      PutLast(writes, w, addr.home, addr.offset + j);
    }
  }

  lemma EnqueuedTraced(cfg: Config, s: Node, addr: GlobalAddr, data: seq<byte>, f: WriteFlags, writes: seq<PendingWrite>,
                       exact: bool)
    requires TracedOk(cfg, s, writes, exact)
    requires Genuine(Plain(addr, data), addr.home, writes) && TracedBytes(data, CacheKey(addr, |data|), writes, exact)
    ensures TracedOk(cfg, Enqueued(cfg, s, addr, data, f), writes, exact)
  {
    hide TracedMemory, TracedEntries, TracedBytes, Insert, Put;
    var w := PendingWrite(addr, data, DominantMode(f.modes), f.biased, f.handoff);
    assert Genuine(w, addr.home, writes) by {
      assert forall i :: w.Covers(addr.home, i) ==> Plain(addr, data).Covers(addr.home, i) && Plain(addr, data).At(i) == w.At(i);
    }
    EnqueueGenuine(Queue(s.queues, addr.home), w, addr.home, writes);
    var s1 := Enqueued(cfg, s, addr, data, f);
    forall n: NodeId
      ensures GenuineQueue(Queue(s1.queues, n), n, writes)
    {
      assert GenuineQueue(Queue(s.queues, n), n, writes);
    }
    InsertTraced(cfg, s.entries, CacheKey(addr, |data|), data, writes, exact);
  }

  lemma DeliveryTraced(cfg: Config, s: Node, addr: GlobalAddr, data: seq<byte>, f: WriteFlags, writes: seq<PendingWrite>,
                       exact: bool)
    requires TracedOk(cfg, s, writes, exact)
    requires Genuine(Plain(addr, data), addr.home, writes) && TracedBytes(data, CacheKey(addr, |data|), writes, exact)
    ensures TracedOk(cfg, QueueWrite(cfg, s, addr, data, f).s, writes, exact)
    ensures TracedOk(cfg, DirectWrite(cfg, s, addr, data).s, writes, exact)
  {
    hide TracedMemory, TracedEntries, TracedBytes, GenuineQueue, Genuine, Enqueued, Flush, StubNet.Write;
    EnqueuedTraced(cfg, s, addr, data, f, writes, exact);
    FlushTraced(cfg, Enqueued(cfg, s, addr, data, f), addr.home, writes, exact);
    StoreTraced(cfg, s.mem, addr, data, writes);
  }

  lemma RemoteWriteTraced(cfg: Config, s: Node, addr: GlobalAddr, data: seq<byte>, range: BlockRange,
                          writes: seq<PendingWrite>, exact: bool)
    requires TracedOk(cfg, s, writes, exact)
    ensures TracedOk(cfg, RemoteWrite(cfg, s, addr, data, range).s, writes + [Plain(addr, data)], exact)
  {
    hide TracedMemory, TracedBytes, GenuineQueue, Genuine, QueueWrite, DirectWrite, WriteMetadata, WriteRequests;
    var key, all := CacheKey(addr, |data|), writes + [Plain(addr, data)];
    var s1, f := Announced(cfg, s, key, range), FlagsOf(cfg, s, key, range);
    TracedGrows(cfg, s, writes, Plain(addr, data), exact);
    OwnDataTraced(addr, data, writes, exact);
    AnnouncedFrame(cfg, s, key, range);
    DropKeeps(cfg, s.entries, if WI in f.modes then Overlapping(key) else Exact(key));
    RemoteWriteStages(cfg, s, addr, data, range);
    DeliveryTraced(cfg, s1, addr, data, f, all, exact);
  }

  lemma WriteTraced(cfg: Config, s: Node, addr: GlobalAddr, data: seq<byte>, sched: Schedule, writes: seq<PendingWrite>,
                    exact: bool)
    requires Settled(cfg, s) && TracedOk(cfg, s, writes, exact)
    ensures TracedOk(cfg, Access.Write(cfg, s, addr, data, sched).s, writes + [Plain(addr, data)], exact)
  {
    hide RemoteWrite, Profiled, Accepts, Settled, TracedMemory, TracedEntries, GenuineQueue, Genuine, StubNet.Write;
    var w, q, key := Plain(addr, data), Quiet(cfg, s), CacheKey(addr, |data|);
    WriteReduces(cfg, s, addr, data, sched);
    TracedGrows(cfg, s, writes, w, exact);
    OwnDataTraced(addr, data, writes, exact);
    StoreTraced(cfg, s.mem, addr, data, writes + [w]);
    if addr.home != cfg.nodeId && Validate(cfg, q.mem.heap, key).Resolved? {
      RemoteWriteTraced(cfg, q, addr, data, Resolve(cfg.blockSize, addr, |data|), writes, exact);
    }
  }

  lemma FenceTraced(cfg: Config, s: Node, sched: Schedule, writes: seq<PendingWrite>, exact: bool)
    requires Settled(cfg, s) && TracedOk(cfg, s, writes, exact)
    ensures TracedOk(cfg, Fence(cfg, s, sched).s, writes, exact)
  {
    hide TracedMemory, TracedEntries, GenuineQueue;
    FenceReduces(cfg, s, sched);
    FlushAllTraced(cfg, Quiet(cfg, s), PendingDestinations(s.queues), sched.destinations, writes, exact);
  }

  lemma MallocTraced(cfg: Config, s: Node, size: nat, writes: seq<PendingWrite>, exact: bool)
    requires TracedOk(cfg, s, writes, exact)
    ensures TracedOk(cfg, Malloc(cfg, s, size).0, writes, exact)
  {
    hide TracedEntries, GenuineQueue, Put;
    MallocFrame(cfg, s, size);
    MallocBanks(cfg, s, size);
  }

  lemma BootTraced(cfg: Config, inboxes: Inboxes, exact: bool)
    ensures TracedOk(cfg, Boot(cfg, inboxes), [], exact)
  {
    BootData(cfg, inboxes);
  }

  // -------------------------------------------------------------- every run

  lemma {:induction false} RunTraced(cfg: Config, calls: seq<Call>, exact: bool)
    requires exact ==> OneHome(cfg, AccessKeys(cfg, calls))
    ensures TracedOk(cfg, After(cfg, calls), Attempts(calls), exact)
  {
    hide TracedOk, Access.Read, Access.Write, Access.Fence, Access.Malloc, GoesToThird, Settled;
    if calls == [] {
      BootTraced(cfg, map[], exact);
    } else {
      var before, call := calls[..|calls| - 1], calls[|calls| - 1];
      assert forall k :: 0 <= k < |before| ==> before[k] == calls[k];
      assert AccessKeys(cfg, before) <= AccessKeys(cfg, calls);
      assert RemoteAccess(cfg, call) ==> call.Key() in AccessKeys(cfg, calls);
      RunTraced(cfg, before, exact);
      AlwaysSettled(cfg, before);
      var s, writes := After(cfg, before), Attempts(before);
      match call
      case CallMalloc(size) => MallocTraced(cfg, s, size, writes, exact);
      case CallRead(key, sched) =>
        if exact && RemoteRange(cfg, key) {
          OneHomeStaysHome(cfg, before, key, AccessKeys(cfg, calls));
        }
        ReadTraced(cfg, s, key, sched, writes, exact);
      case CallWrite(addr, data, sched) => WriteTraced(cfg, s, addr, data, sched, writes, exact);
      case CallFence(sched) => FenceTraced(cfg, s, sched, writes, exact);
      case CallRestart => BootTraced(cfg, s.inboxes, exact);
    }
  }

  /**
    No thin-air reads: in every run in which remote footprints that share a
    block share their home, for all thresholds, modes, overlaps, range errors
    and flush failures, each byte a read returns is zero or a byte some earlier
    write put at that same home and offset.
   */
  lemma NoThinAirReads(cfg: Config, calls: seq<Call>, key: CacheKey, sched: Schedule, j: nat)
    requires OneHome(cfg, AccessKeys(cfg, calls + [CallRead(key, sched)]))
    ensures var r := Exec(cfg, After(cfg, calls), CallRead(key, sched));
            r.status == Ok && j < |r.bytes| ==>
              Traced(Attempts(calls), key.addr.home, key.addr.offset + j, r.bytes[j])
  {
    hide After, Access.Read, TracedOk, Put, GoesToThird, Settled;
    var all := calls + [CallRead(key, sched)];
    var keys := AccessKeys(cfg, all);
    assert forall k :: 0 <= k < |calls| ==> all[k] == calls[k];
    assert AccessKeys(cfg, calls) <= keys;
    assert RemoteAccess(cfg, CallRead(key, sched)) ==> all[|calls|].Key() in keys;
    RunTraced(cfg, calls, true);
    AlwaysSettled(cfg, calls);
    if RemoteRange(cfg, key) {
      OneHomeStaysHome(cfg, calls, key, keys);
    }
    ReadTraced(cfg, After(cfg, calls), key, sched, Attempts(calls), true);
  }

  /** In every run whatsoever, each byte a read returns is zero or was put at that offset of some home. */
  lemma NoThinAirAnywhere(cfg: Config, calls: seq<Call>, key: CacheKey, sched: Schedule, j: nat)
    ensures var r := Exec(cfg, After(cfg, calls), CallRead(key, sched));
            r.status == Ok && j < |r.bytes| ==>
              r.bytes[j] == 0 || PutAnywhere(Attempts(calls), key.addr.offset + j, r.bytes[j])
  {
    hide After, Access.Read, TracedOk, Put, GoesToThird, Settled;
    RunTraced(cfg, calls, false);
    AlwaysSettled(cfg, calls);
    ReadTraced(cfg, After(cfg, calls), key, sched, Attempts(calls), false);
  }

  /** In every run every byte waiting in a queue was written to that home and offset: merging leaves no filler byte. */
  lemma QueuesHoldOnlyWrittenBytes(cfg: Config, calls: seq<Call>, node: NodeId)
    ensures GenuineQueue(Queue(After(cfg, calls).queues, node), node, Attempts(calls))
  {
    hide After, GenuineQueue, TracedMemory, TracedEntries;
    RunTraced(cfg, calls, false);
  }
}
