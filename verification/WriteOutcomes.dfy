/**
  What a remote write does besides its bytes, exactly, in every run
  (src/api/access_api.cc, lm_write): the control requests it sends and tracks,
  how it is queued, and whether its destination is flushed. Everything is said
  through the calls, the configuration and the block records.
 */
module WriteOutcomes {
  import opened Types
  import opened WriteCombining
  import opened LruCache
  import opened Profiling
  import opened ControlAcks
  import opened BlockRanges
  import opened Allocator
  import opened StubNet
  import opened Access
  import opened Frames
  import opened StubControl
  import opened QueueRuns
  import opened Batching
  import opened Redirection
  import opened CacheRuns
  import opened Ownership
  import opened AllocationRuns
  import opened Fences
  import opened Records
  import opened AdmissionRules

  // ------------------------------------------------------- the blocks of a write

  /** Some block of the range is in this mode. */
  ghost predicate InMode(cfg: Config, blocks: Blocks, key: CacheKey, mode: CoherenceMode)
    requires cfg.blockSize > 0 && key.size > 0
  {
    exists id :: Covered(cfg, key, id) && Lookup(blocks, id).mode == mode
  }

  /** Some block of the range is adaptive afterwards and was not owned by this node before. */
  ghost predicate TakenOver(cfg: Config, before: Blocks, after: Blocks, key: CacheKey)
    requires cfg.blockSize > 0 && key.size > 0
  {
    exists id :: && Covered(cfg, key, id) && Lookup(after, id).mode == Adaptive
                 && (Lookup(before, id).owner == INVALID_NODE || Lookup(before, id).owner != cfg.nodeId)
  }

  lemma {:induction false} HandoffIff(cfg: Config, a: Applied, ids: seq<BlockId>, modes: seq<CoherenceMode>, home: NodeId)
    requires |ids| == |modes| && Distinct(ids)
    ensures ApplyWrites(cfg, a, ids, modes, home).handoff <==>
            a.handoff || exists i :: 0 <= i < |ids| && modes[i] == Adaptive && Lookup(a.blocks, ids[i]).owner != cfg.nodeId
    decreases |ids|
  {
    if ids != [] {
      var next, rest, later := ApplyWrite(cfg, a, ids[0], modes[0], home), ids[1..], modes[1..];
      HandoffIff(cfg, next, rest, later, home);
      assert forall i :: 0 <= i < |rest| ==>
          rest[i] == ids[i + 1] && later[i] == modes[i + 1] && Lookup(next.blocks, rest[i]) == Lookup(a.blocks, ids[i + 1]);
    }
  }

  /** The flags a write carries, read off the records it finds and leaves. */
  ghost predicate FlagsFit(cfg: Config, before: Blocks, after: Blocks, key: CacheKey, f: WriteFlags)
    requires cfg.blockSize > 0 && key.size > 0
  {
    && (forall mode :: mode in f.modes <==> InMode(cfg, after, key, mode))
    && (f.biased <==> InMode(cfg, after, key, Adaptive))
    && (f.handoff <==> TakenOver(cfg, before, after, key))
  }

  lemma FlagsAre(cfg: Config, s: Node, addr: GlobalAddr, data: seq<byte>, sched: Schedule)
    requires Settled(cfg, s) && RemoteRange(cfg, CacheKey(addr, |data|))
    ensures var key := CacheKey(addr, |data|);
            FlagsFit(cfg, s.blocks, Access.Write(cfg, s, addr, data, sched).s.blocks, key,
                     FlagsOf(cfg, Quiet(cfg, s), key, Resolve(cfg.blockSize, addr, |data|)))
  {
    hide Access.Write, Profiled, ApplyWrites, Covered, Settled, Ids, Resolve, Decide;
    var q, key := Quiet(cfg, s), CacheKey(addr, |data|);
    var ids := IdsOf(cfg, key);
    var o, after := Profiled(cfg, q, key, ids, WriteAccess), Access.Write(cfg, s, addr, data, sched).s.blocks;
    forall id | Covered(cfg, key, id)
      ensures Lookup(o.blocks, id).mode == Lookup(after, id).mode
      ensures Lookup(o.blocks, id).owner != cfg.nodeId <==>
              Lookup(s.blocks, id).owner == INVALID_NODE || Lookup(s.blocks, id).owner != cfg.nodeId
    {
      ProfiledAt(cfg, q, key, WriteAccess, id);
      WriteRecord(cfg, s, addr, data, sched, id);
    }
    forall mode: CoherenceMode
      ensures mode in o.modes <==> InMode(cfg, after, key, mode)
    {
      ModesAre(cfg, q, key, WriteAccess, mode);
    }
    ModesAre(cfg, q, key, WriteAccess, WI);
    BiasNeedsAdaptive(cfg, Applied(o.blocks, false, false), ids, o.modes, addr.home);
    TakenOverIff(cfg, q, key, after);
  }

  lemma TakenOverIff(cfg: Config, s: Node, key: CacheKey, after: Blocks)
    requires RemoteRange(cfg, key)
    requires var o := Profiled(cfg, s, key, IdsOf(cfg, key), WriteAccess);
             forall id :: Covered(cfg, key, id) ==>
                            && Lookup(o.blocks, id).mode == Lookup(after, id).mode
                            && (Lookup(o.blocks, id).owner != cfg.nodeId <==>
                                Lookup(s.blocks, id).owner == INVALID_NODE || Lookup(s.blocks, id).owner != cfg.nodeId)
    ensures var o := Profiled(cfg, s, key, IdsOf(cfg, key), WriteAccess);
            ApplyWrites(cfg, Applied(o.blocks, false, false), IdsOf(cfg, key), o.modes, key.addr.home).handoff <==>
            TakenOver(cfg, s.blocks, after, key)
  {
    hide UpdateAll, ObserveAll, ApplyWrites, Covered;
    var range := Resolve(cfg.blockSize, key.addr, key.size);
    var ids, o := Ids(range), Profiled(cfg, s, key, Ids(range), WriteAccess);
    IdsDistinct(range);
    HandoffIff(cfg, Applied(o.blocks, false, false), ids, o.modes, key.addr.home);
    forall i | 0 <= i < |ids|
      ensures o.modes[i] == Lookup(o.blocks, ids[i]).mode && Covered(cfg, key, ids[i])
    {
      var prepared := UpdateAll(cfg, s.blocks, ids, Prepare(key.addr.home, WriteAccess));
      ReportedModes(cfg, Observed(prepared, s.epoch, s.stats, []), ids, WriteAccess, false, i);
      CoveredIds(cfg, key, ids[i]);
    }
    if TakenOver(cfg, s.blocks, after, key) {
      var id :| && Covered(cfg, key, id) && Lookup(after, id).mode == Adaptive
                && (Lookup(s.blocks, id).owner == INVALID_NODE || Lookup(s.blocks, id).owner != cfg.nodeId);
      CoveredIds(cfg, key, id);
      var i :| 0 <= i < |ids| && ids[i] == id;
      assert o.modes[i] == Adaptive && Lookup(o.blocks, ids[i]).owner != cfg.nodeId;
    }
  }

  // ------------------------------------------------------------ control requests

  /** The request says what happened to which blocks, up to which version. */
  ghost predicate IsRequest(cfg: Config, m: ControlMessage, opcode: Opcode, mode: CoherenceMode, key: CacheKey, id: nat, blocks: Blocks)
    requires cfg.blockSize > 0 && key.size > 0
  {
    && m.opcode == opcode && m.mode == mode && m.id == id
    && m.source == cfg.nodeId && m.target == key.addr.home
    && m.first == BlockId(key.addr.region, key.addr.offset / cfg.blockSize)
    && m.last == BlockId(key.addr.region, (key.addr.offset + key.size - 1) / cfg.blockSize)
    && GreatestVersion(cfg, blocks, key, m.version)
  }

  /** The ack the stub posts for a request, in the sender's own inbox. */
  predicate AckOf(m: ControlMessage, ack: ControlMessage)
  {
    ack == m.(opcode := if m.opcode == InvalidateRange then InvalidateAck else OwnerTransferAck,
           source := m.target, target := m.source)
  }

  /** What the requests of a write leave: consecutive ids, each tracked with full polls and retries, each acknowledged. */
  ghost predicate Sent(cfg: Config, before: Node, after: Node, sent: seq<ControlMessage>)
  {
    && after.nextId == before.nextId + |sent|
    && (forall id :: id in after.pending <==> before.nextId <= id < after.nextId)
    && (forall i :: 0 <= i < |sent| ==>
          after.pending[before.nextId + i] == PendingAck(sent[i], cfg.ackTimeoutPolls, cfg.ackMaxRetries))
    && |Inbox(after.inboxes, cfg.nodeId)| == |sent|
    && (forall i :: 0 <= i < |sent| ==> AckOf(sent[i], Inbox(after.inboxes, cfg.nodeId)[i]))
    && (forall n: NodeId :: n != cfg.nodeId ==> Inbox(after.inboxes, n) == Inbox(before.inboxes, n))
  }

  /** The requests: an invalidation iff some block is write-invalidate, then a transfer iff some block is taken over. */
  ghost predicate Announces(cfg: Config, before: Node, after: Node, key: CacheKey, sent: seq<ControlMessage>)
    requires cfg.blockSize > 0 && key.size > 0
  {
    var wi, taken := InMode(cfg, after.blocks, key, WI), TakenOver(cfg, before.blocks, after.blocks, key);
    && |sent| == (if wi then 1 else 0) + (if taken then 1 else 0)
    && (wi ==> IsRequest(cfg, sent[0], InvalidateRange, WI, key, before.nextId, after.blocks))
    && (taken ==> IsRequest(cfg, sent[|sent| - 1], OwnerTransfer, Adaptive, key, before.nextId + |sent| - 1, after.blocks))
    && Sent(cfg, before, after, sent)
  }

  /** One posted request. */
  lemma RequestSent(cfg: Config, s: Node, m: ControlMessage)
    requires m.target != cfg.nodeId && m.source == cfg.nodeId && !m.opcode.IsAck() && m.id == s.nextId > 0
    ensures var r := Request(cfg, s, m);
            && r == s.(nextId := s.nextId + 1, inboxes := r.inboxes,
                    pending := s.pending[s.nextId := PendingAck(m, cfg.ackTimeoutPolls, cfg.ackMaxRetries)])
            && (exists ack :: AckOf(m, ack) && Inbox(r.inboxes, cfg.nodeId) == Inbox(s.inboxes, cfg.nodeId) + [ack])
            && (forall n: NodeId :: n != cfg.nodeId ==> Inbox(r.inboxes, n) == Inbox(s.inboxes, n))
  {
    assert AckOf(m, m.Ack(m.target));
  }

  lemma RequestsSent(cfg: Config, s: Node, key: CacheKey, range: BlockRange, f: WriteFlags) returns (sent: seq<ControlMessage>)
    requires key.addr.home != cfg.nodeId && s.nextId > 0 && s.pending == map[] && Inbox(s.inboxes, cfg.nodeId) == []
    ensures |sent| == (if WI in f.modes then 1 else 0) + (if f.handoff then 1 else 0)
    ensures var v := MaxVersion(s.blocks, Ids(range));
            && (WI in f.modes ==> sent[0] == ControlMessage(InvalidateRange, cfg.nodeId, key.addr.home, s.nextId,
                                                            range.first, range.last, v, WI))
            && (f.handoff ==> sent[|sent| - 1] == ControlMessage(OwnerTransfer, cfg.nodeId, key.addr.home, s.nextId + |sent| - 1,
                                                                 range.first, range.last, v, Adaptive))
    ensures Sent(cfg, s, WriteRequests(cfg, s, key, range, f), sent)
  {
    hide Request, MaxVersion, Ids, AckOf;
    var v := MaxVersion(s.blocks, Ids(range));
    sent := [];
    var s1 := s;
    if WI in f.modes {
      var m := Message(cfg, s, key.addr, range, WI, InvalidateRange, v);
      RequestSent(cfg, s, m);
      s1, sent := Request(cfg, s, m), [m];
    }
    if f.handoff {
      var m := Message(cfg, s1, key.addr, range, Adaptive, OwnerTransfer, v);
      RequestSent(cfg, s1, m);
      sent := sent + [m];
    }
  }

  /**
    Exactly what a remote write announces. In every run, delivered, queued or
    refused: an InvalidateRange to the home iff some covered block is in WI mode,
    then an OwnerTransfer iff some covered block is Adaptive and was owned
    elsewhere, with consecutive ids, the covered blocks and their greatest
    version; the table then holds exactly these requests and the inbox exactly
    their acks.
   */
  lemma WriteAnnounces(cfg: Config, calls: seq<Call>, addr: GlobalAddr, data: seq<byte>, sched: Schedule)
    returns (sent: seq<ControlMessage>)
    requires RemoteRange(cfg, CacheKey(addr, |data|))
    ensures var s := After(cfg, calls);
            Announces(cfg, s, Access.Write(cfg, s, addr, data, sched).s, CacheKey(addr, |data|), sent)
  {
    hide After, Access.Write, WriteMetadata, WriteRequests, Settled, Ids, InMode, TakenOver, GreatestVersion, Sent,
         MaxVersion;
    var s, key, range := After(cfg, calls), CacheKey(addr, |data|), Resolve(cfg.blockSize, addr, |data|);
    var q, after := Quiet(cfg, s), Access.Write(cfg, s, addr, data, sched).s;
    AlwaysSettled(cfg, calls);
    IdsStartAtOne(cfg, calls);
    FlagsAre(cfg, s, addr, data, sched);
    DeliveredAfter(cfg, s, addr, data, sched);
    var (m, f) := WriteMetadata(cfg, q, key, Ids(range));
    MetadataControl(cfg, q, key, range);
    sent := RequestsSent(cfg, m, key, range, f);
    MaxVersionIsGreatest(cfg, after.blocks, key);
    SentFrame(cfg, s, m, WriteRequests(cfg, m, key, range, f), after, sent);
  }

  /** The metadata stage sends nothing. */
  lemma MetadataControl(cfg: Config, s: Node, key: CacheKey, range: BlockRange)
    ensures var m := WriteMetadata(cfg, s, key, Ids(range)).0;
            m.nextId == s.nextId && m.pending == s.pending && m.inboxes == s.inboxes
  {
    hide Profiled, ApplyWrites, Ids;
  }

  /** The delivery of a write changes neither what it announced nor the records. */
  lemma DeliveredAfter(cfg: Config, s: Node, addr: GlobalAddr, data: seq<byte>, sched: Schedule)
    requires Settled(cfg, s) && RemoteRange(cfg, CacheKey(addr, |data|))
    ensures var key, range := CacheKey(addr, |data|), Resolve(cfg.blockSize, addr, |data|);
            var (m, f) := WriteMetadata(cfg, Quiet(cfg, s), key, Ids(range));
            var after := Access.Write(cfg, s, addr, data, sched).s;
            SameRequests(after, WriteRequests(cfg, m, key, range, f)) && after.blocks == m.blocks && f == FlagsOf(cfg, Quiet(cfg, s), key, range)
  {
    hide RemoteWrite, WriteMetadata, WriteRequests, Settled, Ids, Announced;
    var q, key, range := Quiet(cfg, s), CacheKey(addr, |data|), Resolve(cfg.blockSize, addr, |data|);
    WriteReduces(cfg, s, addr, data, sched);
    RemoteWriteFrame(cfg, q, addr, data, range);
    AnnouncedFrame(cfg, q, key, range);
  }

  lemma SentFrame(cfg: Config, s: Node, m: Node, posted: Node, after: Node, sent: seq<ControlMessage>)
    requires Sent(cfg, m, posted, sent) && SameRequests(after, posted)
    requires m.nextId == s.nextId && m.inboxes == Quiet(cfg, s).inboxes
    ensures Sent(cfg, s, after, sent)
  {
    hide AckOf;
  }

  // ---------------------------------------------------- which calls send anything

  /** A call that is not an accepted remote write sends nothing and tracks nothing new. */
  lemma OthersSendNothing(cfg: Config, s: Node, call: Call)
    requires Settled(cfg, s) && !call.CallRestart? && !(RemoteWriteCall(cfg, call) && RemoteRange(cfg, call.Key()))
    ensures var after := Exec(cfg, s, call).s; after.nextId == s.nextId && after.pending.Keys <= s.pending.Keys
  {
    hide Access.Read, Access.Write, Access.Fence, Access.Malloc, Settled, FlushAll;
    match call
    case CallMalloc(size) => MallocFrame(cfg, s, size);
    case CallRead(key, sched) => ReadSendsNothing(cfg, s, key, sched);
    case CallWrite(addr, data, sched) => OtherWriteSendsNothing(cfg, s, addr, data, sched);
    case CallFence(sched) =>
      FenceReduces(cfg, s, sched);
      FlushAllIds(cfg, Quiet(cfg, s), PendingDestinations(s.queues), sched.destinations);
  }

  lemma ReadSendsNothing(cfg: Config, s: Node, key: CacheKey, sched: Schedule)
    requires Settled(cfg, s)
    ensures var after := Read(cfg, s, key, sched).s; after.nextId == s.nextId && after.pending.Keys <= s.pending.Keys
  {
    hide RemoteRead, Profiled, Settled, Accepts, Load, Ids;
    ReadReduces(cfg, s, key, sched);
    if key.size > 0 && cfg.blockSize > 0 {
      RemoteReadFrame(cfg, Quiet(cfg, s), key, IdsOf(cfg, key), sched);
    }
  }

  lemma OtherWriteSendsNothing(cfg: Config, s: Node, addr: GlobalAddr, data: seq<byte>, sched: Schedule)
    requires Settled(cfg, s) && !RemoteRange(cfg, CacheKey(addr, |data|))
    ensures var after := Access.Write(cfg, s, addr, data, sched).s; after.nextId == s.nextId && after.pending.Keys <= s.pending.Keys
  {
    hide RemoteWrite, Profiled, Settled, Accepts, StubNet.Write, Ids;
    WriteReduces(cfg, s, addr, data, sched);
  }

  lemma {:induction false} FlushAllIds(cfg: Config, s: Node, todo: set<NodeId>, schedule: seq<NodeId>)
    ensures var r := FlushAll(cfg, s, todo, schedule).s; r.nextId == s.nextId && r.pending == s.pending
    decreases |todo|
  {
    hide Flush;
    if todo != {} {
      var node := Pick(todo, schedule);
      FlushFrame(cfg, s, node);
      var r := Flush(cfg, s, node);
      if r.status == Ok {
        FlushAllIds(cfg, r.s, todo - {node}, Rest(schedule));
      }
    }
  }

  lemma {:induction false} IdsStartAtOne(cfg: Config, calls: seq<Call>)
    ensures After(cfg, calls).nextId >= 1
  {
    hide Exec, Settled;
    if calls != [] {
      var before, call := calls[..|calls| - 1], calls[|calls| - 1];
      var s := After(cfg, before);
      IdsStartAtOne(cfg, before);
      AlwaysSettled(cfg, before);
      if call.CallRestart? {
        RestartForgetsAll(cfg, s);
      } else if RemoteWriteCall(cfg, call) && RemoteRange(cfg, call.Key()) {
        IdsGrow(cfg, s, call);
      } else {
        OthersSendNothing(cfg, s, call);
      }
    }
  }

  /** A restart forgets everything but the inboxes: ids start at one again, nothing is pending, queued, cached or recorded. */
  lemma RestartForgetsAll(cfg: Config, s: Node)
    ensures var r := Exec(cfg, s, CallRestart).s;
            && r.nextId == 1 && r.pending == map[] && r.queues == map[] && r.entries == [] && r.blocks == map[] && r.epoch == 0
            && forall n: NodeId :: Inbox(r.inboxes, n) == Inbox(s.inboxes, n)
  {
  }

  lemma IdsGrow(cfg: Config, s: Node, call: Call)
    requires Settled(cfg, s) && call.CallWrite? && RemoteRange(cfg, call.Key())
    ensures Exec(cfg, s, call).s.nextId >= s.nextId
  {
    hide Access.Write, WriteMetadata, Settled, Ids, Resolve, MaxVersion;
    DeliveredAfter(cfg, s, call.addr, call.data, call.sched);
    MetadataControl(cfg, Quiet(cfg, s), call.Key(), Resolve(cfg.blockSize, call.addr, |call.data|));
  }

  /** The requests of a run since its last restart. */
  ghost function Posted(cfg: Config, calls: seq<Call>): nat
  {
    if calls == [] then 0
    else
      var before, call := calls[..|calls| - 1], calls[|calls| - 1];
      if call.CallRestart? then 0
      else if RemoteWriteCall(cfg, call) && RemoteRange(cfg, call.Key()) then
        var was, now, key := After(cfg, before).blocks, After(cfg, calls).blocks, call.Key();
        Posted(cfg, before) + (if InMode(cfg, now, key, WI) then 1 else 0) + (if TakenOver(cfg, was, now, key) then 1 else 0)
      else Posted(cfg, before)
  }

  /** In every run the next request id is one more than the requests since the last restart. */
  lemma {:induction false} IdsCountRequests(cfg: Config, calls: seq<Call>)
    ensures After(cfg, calls).nextId == 1 + Posted(cfg, calls)
  {
    hide Exec, Settled, InMode, TakenOver;
    if calls != [] {
      var before, call := calls[..|calls| - 1], calls[|calls| - 1];
      var s := After(cfg, before);
      IdsCountRequests(cfg, before);
      AlwaysSettled(cfg, before);
      if call.CallRestart? {
        RestartForgetsAll(cfg, s);
      } else if RemoteWriteCall(cfg, call) && RemoteRange(cfg, call.Key()) {
        PostsOf(cfg, before, call);
      } else {
        OthersSendNothing(cfg, s, call);
      }
    }
  }

  lemma PostsOf(cfg: Config, calls: seq<Call>, call: Call)
    requires call.CallWrite? && RemoteRange(cfg, call.Key())
    ensures var s := After(cfg, calls); var after := Exec(cfg, s, call).s;
            after.nextId == s.nextId + (if InMode(cfg, after.blocks, call.Key(), WI) then 1 else 0) +
                            (if TakenOver(cfg, s.blocks, after.blocks, call.Key()) then 1 else 0)
  {
    hide After, Access.Write, InMode, TakenOver, IsRequest;
    var sent := WriteAnnounces(cfg, calls, call.addr, call.data, call.sched);
  }

  // ------------------------------------------------------------ the flush decision

  /** The write as it is queued: its bytes with the flags its blocks call for. */
  ghost predicate QueuedAs(cfg: Config, before: Blocks, after: Blocks, key: CacheKey, data: seq<byte>, w: PendingWrite)
    requires cfg.blockSize > 0 && key.size > 0
  {
    && w.addr == key.addr && w.payload == data
    && w.mode == (if InMode(cfg, after, key, WI) then WI else if InMode(cfg, after, key, Adaptive) then Adaptive else SI)
    && (w.ownerBiased <==> InMode(cfg, after, key, Adaptive))
    && (w.ownerHandoff <==> TakenOver(cfg, before, after, key))
  }

  /** The destination is due: a block is write-invalidate, or the queue is as long as the batch thresholds allow. */
  ghost predicate Due(cfg: Config, after: Blocks, key: CacheKey, queue: seq<PendingWrite>)
    requires cfg.blockSize > 0 && key.size > 0
  {
    || InMode(cfg, after, key, WI)
    || |queue| >= Max(1, cfg.batchThreshold)
    || (InMode(cfg, after, key, Adaptive) && |queue| >= Max(1, cfg.adaptiveBatchThreshold))
  }

  lemma DueIff(cfg: Config, before: Blocks, after: Blocks, key: CacheKey, f: WriteFlags, s: Node)
    requires cfg.blockSize > 0 && key.size > 0 && FlagsFit(cfg, before, after, key, f)
    ensures FlushDue(cfg, s, key.addr.home, f.modes) <==> Due(cfg, after, key, Queue(s.queues, key.addr.home))
  {
    hide InMode, TakenOver, FlushThreshold;
    ThresholdIs(cfg, f.modes);
  }

  /** The queue step of a batched write, before it is decided whether to flush. */
  ghost function Waiting(s: Node, w: PendingWrite): Node
  {
    s.(queues := s.queues[w.addr.home := Enqueue(Queue(s.queues, w.addr.home), w)])
  }

  /**
    Exactly when a batched remote write flushes its destination. In every run: the
    write joins its home's queue with the flags its blocks call for; the
    destination is drained, with exactly the requests before the first one out of
    range replayed, iff some covered block is in WI mode, or the queue has
    reached max(1, remote_write_batch_threshold), or some covered block is
    Adaptive and it has reached max(1, adaptive_mode_batch_threshold). Otherwise
    the queue keeps the write, memory is unchanged and the write returns Ok. No
    other destination is touched.
   */
  lemma FlushedIff(cfg: Config, calls: seq<Call>, addr: GlobalAddr, data: seq<byte>, sched: Schedule) returns (w: PendingWrite)
    requires RemoteRange(cfg, CacheKey(addr, |data|)) && cfg.enableWriteBatching
    ensures var key, s := CacheKey(addr, |data|), After(cfg, calls);
            var r := Access.Write(cfg, s, addr, data, sched);
            && QueuedAs(cfg, s.blocks, r.s.blocks, key, data, w)
            && var waiting := Waiting(s, w);
               var queue := Queue(waiting.queues, addr.home);
               && (forall n: NodeId :: n != addr.home ==> Untouched(cfg, s, r.s, n))
               && if Due(cfg, r.s.blocks, key, queue)
                  then Emptied(cfg, waiting, r.s, addr.home) && r.status == (if Fits(cfg, queue) then Ok else OutOfRange)
                  else Queue(r.s.queues, addr.home) == queue && r.s.mem == s.mem && r.status == Ok
  {
    hide After, Access.Write, Settled, Homed, MemOk, InMode, TakenOver, Due, Emptied, Untouched, Fits, WriteMetadata,
         Ids, Enqueue, Flush, Insert;
    var s, key, range := After(cfg, calls), CacheKey(addr, |data|), Resolve(cfg.blockSize, addr, |data|);
    var q, r := Quiet(cfg, s), Access.Write(cfg, s, addr, data, sched);
    var f := FlagsOf(cfg, q, key, range);
    AlwaysSettled(cfg, calls);
    AlwaysHomed(cfg, calls);
    MemoryKeepsShape(cfg, calls);
    FlagsAre(cfg, s, addr, data, sched);
    w := PendingWrite(addr, data, DominantMode(f.modes), f.biased, f.handoff);
    var s1 := Announced(cfg, q, key, range);
    AnnouncedData(cfg, q, key, range);
    WriteIsQueued(cfg, s, addr, data, sched);
    var e := Enqueued(cfg, s1, addr, data, f);
    JoinsQueue(cfg, s, s1, addr, data, f, w);
    DueIff(cfg, s.blocks, r.s.blocks, key, f, e);
    WaitingHomed(cfg, s, w);
    if FlushDue(cfg, e, addr.home, f.modes) {
      FlushDelivers(cfg, e, addr.home);
      FlushedState(cfg, s, Waiting(s, w), e, Flush(cfg, e, addr.home).s, r.s, addr.home);
    } else {
      KeptState(cfg, s, w, r.s);
    }
  }

  lemma AnnouncedData(cfg: Config, s: Node, key: CacheKey, range: BlockRange)
    ensures var a := Announced(cfg, s, key, range); a.queues == s.queues && a.mem == s.mem
  {
    hide WriteMetadata, WriteRequests, InvalidateFor;
    AnnouncedFrame(cfg, s, key, range);
  }

  lemma WriteIsQueued(cfg: Config, s: Node, addr: GlobalAddr, data: seq<byte>, sched: Schedule)
    requires Settled(cfg, s) && RemoteRange(cfg, CacheKey(addr, |data|)) && cfg.enableWriteBatching
    ensures var key, range := CacheKey(addr, |data|), Resolve(cfg.blockSize, addr, |data|);
            var f := FlagsOf(cfg, Quiet(cfg, s), key, range);
            var e := Enqueued(cfg, Announced(cfg, Quiet(cfg, s), key, range), addr, data, f);
            var d := if FlushDue(cfg, e, addr.home, f.modes) then Flush(cfg, e, addr.home) else Controlled(e, Ok);
            var r := Access.Write(cfg, s, addr, data, sched);
            r.status == d.status && r.s.queues == d.s.queues && r.s.mem == d.s.mem
  {
    hide Announced, FlagsOf, Enqueued, Flush, FlushDue, Settled, Resolve, RemoteWrite;
    WriteReduces(cfg, s, addr, data, sched);
    RemoteWriteStages(cfg, Quiet(cfg, s), addr, data, Resolve(cfg.blockSize, addr, |data|));
  }

  lemma JoinsQueue(cfg: Config, s: Node, s1: Node, addr: GlobalAddr, data: seq<byte>, f: WriteFlags, w: PendingWrite)
    requires s1.queues == s.queues && s1.mem == s.mem
    requires w == PendingWrite(addr, data, DominantMode(f.modes), f.biased, f.handoff)
    ensures var e := Enqueued(cfg, s1, addr, data, f); e.queues == Waiting(s, w).queues && e.mem == s.mem
  {
    hide Enqueue, Insert;
  }

  lemma WaitingHomed(cfg: Config, s: Node, w: PendingWrite)
    requires Homed(cfg, s.queues) && w.addr.home != cfg.nodeId
    ensures Homed(cfg, Waiting(s, w).queues)
  {
    hide Enqueue;
    assert HomedQueue(cfg, Queue(s.queues, w.addr.home), w.addr.home);
    EnqueueHomed(cfg, Queue(s.queues, w.addr.home), w);
    var after := Waiting(s, w).queues;
    forall n: NodeId
      ensures HomedQueue(cfg, Queue(after, n), n)
    {
      assert HomedQueue(cfg, Queue(s.queues, n), n);
    }
  }

  lemma FlushedState(cfg: Config, s: Node, waiting: Node, e: Node, flushed: Node, after: Node, home: NodeId)
    requires e.queues == waiting.queues && e.mem == waiting.mem == s.mem
    requires forall n: NodeId :: n != home ==> Queue(waiting.queues, n) == Queue(s.queues, n)
    requires after.queues == flushed.queues && after.mem == flushed.mem
    requires Emptied(cfg, e, flushed, home) && forall n: NodeId :: n != home ==> Untouched(cfg, e, flushed, n)
    ensures Emptied(cfg, waiting, after, home) && forall n: NodeId :: n != home ==> Untouched(cfg, s, after, n)
  {
    hide ByteAfter, FirstBeyond, Bank;
    forall n: NodeId | n != home
      ensures Untouched(cfg, s, after, n)
    {
      assert Untouched(cfg, e, flushed, n);
    }
  }

  lemma KeptState(cfg: Config, s: Node, w: PendingWrite, after: Node)
    requires after.queues == Waiting(s, w).queues && after.mem == s.mem
    ensures forall n: NodeId :: n != w.addr.home ==> Untouched(cfg, s, after, n)
  {
    hide Enqueue;
  }
}
