/**
  The client calls as steps of one node's state (src/api/access_api.cc,
  src/api/sync_api.cc, src/api/alloc_api.cc) over the stub transport. Where the
  code walks a hash table, a schedule carried by the call fixes the order.
 */
module Access {
  import opened Types
  import opened Counters
  import opened WriteCombining
  import opened LruCache
  import opened Profiling
  import opened ControlAcks
  import opened BlockRanges
  import opened Allocator
  import opened StubNet

  type Queues = map<NodeId, seq<PendingWrite>>

  datatype Node = Node(
    blocks: Blocks, epoch: nat,
    entries: seq<Entry>, queues: Queues,
    nextId: nat, pending: Pending, inboxes: Inboxes,
    mem: Memory, stats: Stats)

  /** The state after Init. Inboxes are process-wide and survive a restart. */
  function Boot(cfg: Config, inboxes: Inboxes): Node {
    Node(map[], 0, [], map[], 1, map[], inboxes[cfg.nodeId := Inbox(inboxes, cfg.nodeId)],
         Memory(map[], EmptyHeap(cfg)), NO_STATS)
  }

  function Queue(queues: Queues, node: NodeId): seq<PendingWrite> {
    if node in queues then queues[node] else []
  }

  // ------------------------------------------------- updates of block metadata

  /** The per-block effect of each loop over an access's blocks. */
  datatype Update =
    | Prepare(home: NodeId, access: AccessType)
    | Adopt
    | CountMiss
    | MarkValidated
    | ShareInvalid(home: NodeId)
    | TakeOwner(version: nat)
    | MarkAdmitted
    | RemoteInvalidate(msg: ControlMessage)
    | RemoteTransfer(msg: ControlMessage, setState: bool)

  function UpdateOne(cfg: Config, m: Meta, u: Update): Meta
  {
    match u
    case Prepare(home, access) =>
      if home == cfg.nodeId then
        m.(state := Home, owner := cfg.nodeId,
        version := if access.WriteAccess? then m.version + 1 else m.version)
      else
        m.(owner := if m.owner == INVALID_NODE then home else m.owner,
        state := if m.state == Home then Shared else m.state)
    case Adopt => m.(state := Home, owner := cfg.nodeId)
    case CountMiss => m.(remoteMisses := m.remoteMisses + 1)
    case MarkValidated => m.(lastValidated := m.version)
    case ShareInvalid(home) => if m.state == Invalid then m.(state := Shared, owner := home) else m
    case TakeOwner(version) => m.(state := Owner, version := version)
    case MarkAdmitted => m.(admitted := true)
    case RemoteInvalidate(msg) => m.(version := msg.version, state := Invalid, mode := msg.mode)
    case RemoteTransfer(msg, setState) =>
      m.(owner := msg.source, version := msg.version, mode := msg.mode, state := if setState then Owner else m.state)
  }

  function UpdateAll(cfg: Config, blocks: Blocks, ids: seq<BlockId>, u: Update): Blocks
    decreases |ids|
  {
    if ids == [] then blocks
    else UpdateAll(cfg, blocks[ids[0] := UpdateOne(cfg, Lookup(blocks, ids[0]), u)], ids[1..], u)
  }

  datatype Observed = Observed(blocks: Blocks, epoch: nat, stats: Stats, modes: seq<CoherenceMode>)

  function ObserveOne(cfg: Config, o: Observed, id: BlockId, access: AccessType, local: bool): Observed
  {
    var before := Lookup(o.blocks, id);
    var after := Observe(cfg, before, o.epoch + 1, access, local);
    Observed(o.blocks[id := after], o.epoch + 1, o.stats.Mode(after.mode, before.mode != after.mode),
             o.modes + [after.mode])
  }

  function ObserveAll(cfg: Config, o: Observed, ids: seq<BlockId>, access: AccessType, local: bool): (r: Observed)
    ensures |r.modes| == |o.modes| + |ids|
    decreases |ids|
  {
    if ids == [] then o
    else ObserveAll(cfg, ObserveOne(cfg, o, ids[0], access, local), ids[1..], access, local)
  }

  datatype Applied = Applied(blocks: Blocks, biased: bool, handoff: bool)

  function WriteOne(cfg: Config, m: Meta, mode: CoherenceMode, home: NodeId): Meta
  {
    var w := m.(version := m.version + 1);
    match mode
    case WI => w.(owner := home, state := Shared)
    case Adaptive => w.(owner := cfg.nodeId, ownerEpoch := m.ownerEpoch + 1, state := Owner)
    case SI => w.(state := Shared)
  }

  function ApplyWrite(cfg: Config, a: Applied, id: BlockId, mode: CoherenceMode, home: NodeId): Applied
  {
    var m := Lookup(a.blocks, id);
    Applied(a.blocks[id := WriteOne(cfg, m, mode, home)], a.biased || mode.Adaptive?,
            a.handoff || (mode.Adaptive? && m.owner != cfg.nodeId))
  }

  function ApplyWrites(cfg: Config, a: Applied, ids: seq<BlockId>, modes: seq<CoherenceMode>, home: NodeId): Applied
    requires |ids| == |modes|
    decreases |ids|
  {
    if ids == [] then a
    else ApplyWrites(cfg, ApplyWrite(cfg, a, ids[0], modes[0], home), ids[1..], modes[1..], home)
  }

  function MaxVersion(blocks: Blocks, ids: seq<BlockId>): nat
  {
    if ids == [] then 0 else Max(Lookup(blocks, ids[0]).version, MaxVersion(blocks, ids[1..]))
  }

  predicate AllValidated(blocks: Blocks, ids: seq<BlockId>)
  {
    forall id :: id in ids ==> Lookup(blocks, id).lastValidated >= Lookup(blocks, id).version
  }

  function DominantOwner(blocks: Blocks, ids: seq<BlockId>, fallback: NodeId): NodeId
  {
    if ids == [] then fallback
    else
      var owner := Lookup(blocks, ids[0]).owner;
      if owner == INVALID_NODE then fallback
      else if exists id :: id in ids && Lookup(blocks, id).owner != owner then fallback
      else owner
  }

  // --------------------------------------------------------- control messages

  function Handle(cfg: Config, s: Node, m: ControlMessage, inFence: bool): Node
  {
    if m.opcode.IsAck() then s.(pending := if m.id == 0 then s.pending else s.pending - {m.id})
    else
      var range := Rebuilt(m.first, m.last);
      var ids := Ids(range);
      var acked := s.(inboxes := Post(cfg.nodeId, s.inboxes, m.Ack(cfg.nodeId)));
      if m.opcode.InvalidateRange? then
        acked.(entries := Drop(s.entries, Overlapping(Cover(cfg.blockSize, range, m.source))),
        blocks := if inFence then s.blocks else UpdateAll(cfg, s.blocks, ids, RemoteInvalidate(m)))
      else
        acked.(blocks := UpdateAll(cfg, s.blocks, ids, RemoteTransfer(m, !inFence)))
  }

  function HandleAll(cfg: Config, s: Node, ms: seq<ControlMessage>, inFence: bool): Node
    decreases |ms|
  {
    if ms == [] then s else HandleAll(cfg, Handle(cfg, s, ms[0], inFence), ms[1..], inFence)
  }

  datatype Controlled = Controlled(s: Node, status: Status)

  /** Drain the inbox, handle what arrived, then age and retransmit the unacknowledged requests. */
  ghost function ControlPhase(cfg: Config, s: Node, inFence: bool, schedule: seq<nat>): Controlled
  {
    var drained := s.(inboxes := Undrained(s.inboxes, cfg.nodeId));
    var s1 := HandleAll(cfg, drained, Drained(s.inboxes, cfg.nodeId), inFence);
    var p := Poll(cfg, s1.pending, s1.pending.Keys, schedule);
    var s2 := s1.(pending := p.pending);
    if p.status != Ok then Controlled(s2, p.status)
    else Controlled(s2.(inboxes := PostAll(cfg.nodeId, s2.inboxes, p.retries)), Ok)
  }

  function Message(cfg: Config, s: Node, addr: GlobalAddr, range: BlockRange, mode: CoherenceMode,
                   opcode: Opcode, version: nat): ControlMessage
  {
    ControlMessage(opcode, cfg.nodeId, addr.home, s.nextId, range.first, range.last, version, mode)
  }

  /** A request takes the next id, is posted and is tracked until acknowledged. */
  function Request(cfg: Config, s: Node, m: ControlMessage): Node
  {
    s.(nextId := s.nextId + 1, inboxes := Post(cfg.nodeId, s.inboxes, m),
    pending := if m.id == 0 then s.pending else s.pending[m.id := Tracked(cfg, m)])
  }

  // -------------------------------------------------------------------- reads

  /** The nondeterministic choices of one call. */
  datatype Schedule = Schedule(polls: seq<nat>, hits: seq<CacheKey>, ownerHits: seq<CacheKey>,
                               destinations: seq<NodeId>, finalPolls: seq<nat>)

  datatype Reply = Reply(s: Node, status: Status, bytes: seq<byte>)

  datatype OwnerReply = OwnerReply(s: Node, status: Status, bytes: seq<byte>, redirected: bool)

  function HomeRead(cfg: Config, s: Node, key: CacheKey, ids: seq<BlockId>, share: bool): OwnerReply
  {
    if !Reaches(cfg, s.mem, key) then OwnerReply(s.(mem := Opened(cfg, s.mem, key.addr.home)), OutOfRange, [], false)
    else
      var validated := UpdateAll(cfg, s.blocks, ids, MarkValidated);
      OwnerReply(s.(mem := Opened(cfg, s.mem, key.addr.home),
                 blocks := if share then UpdateAll(cfg, validated, ids, ShareInvalid(key.addr.home)) else validated),
                 Ok, Load(cfg, s.mem, key), false)
  }

  ghost function OwnerAwareRead(cfg: Config, s: Node, key: CacheKey, ids: seq<BlockId>,
                                schedule: seq<CacheKey>): OwnerReply
  {
    var home := key.addr.home;
    var owner := DominantOwner(s.blocks, ids, home);
    var validated := AllValidated(s.blocks, ids);
    if owner == cfg.nodeId then
      var c := ReadCached(s.entries, key, schedule);
      if validated && c.hit then OwnerReply(s.(entries := c.entries), Ok, c.bytes, true)
      else HomeRead(cfg, s, key, ids, false)
    else if validated && owner != INVALID_NODE && owner != home then
      var there := CacheKey(key.addr.(home := owner), key.size);
      var s1 := s.(mem := Opened(cfg, s.mem, owner));
      if Reaches(cfg, s.mem, there)
      then OwnerReply(s1.(blocks := UpdateAll(cfg, s.blocks, ids, MarkValidated)), Ok, Load(cfg, s.mem, there), true)
      else HomeRead(cfg, s1, key, ids, true)
    else HomeRead(cfg, s, key, ids, true)
  }

  /** Range validation: the error status, or the blocks of the access. */
  datatype Validation = Rejected(status: Status) | Resolved(range: BlockRange)

  function Validate(cfg: Config, heap: Heap, key: CacheKey): Validation
  {
    if key.size == 0 || cfg.blockSize == 0 then Rejected(InvalidArg)
    else if key.addr.home == cfg.nodeId && !Accepts(cfg, heap, key.addr, key.size) then Rejected(OutOfRange)
    else Resolved(Resolve(cfg.blockSize, key.addr, key.size))
  }

  /** Prepare and profile every block of the access. */
  function Profiled(cfg: Config, s: Node, key: CacheKey, ids: seq<BlockId>, access: AccessType): Observed
  {
    var prepared := UpdateAll(cfg, s.blocks, ids, Prepare(key.addr.home, access));
    ObserveAll(cfg, Observed(prepared, s.epoch, s.stats, []), ids, access, key.addr.home == cfg.nodeId)
  }

  predicate Admits(cfg: Config, blocks: Blocks, ids: seq<BlockId>)
  {
    ids != [] && forall id :: id in ids ==> ShouldCache(cfg, Lookup(blocks, id))
  }

  /** After a successful remote transfer: owner bookkeeping, admission and statistics. */
  function FinishRead(cfg: Config, r: OwnerReply, key: CacheKey, ids: seq<BlockId>, modes: seq<CoherenceMode>): Reply
  {
    var s := r.s;
    var owned := if r.redirected then UpdateAll(cfg, s.blocks, ids, TakeOwner(MaxVersion(s.blocks, ids))) else s.blocks;
    var admitted := WI !in modes && Admits(cfg, owned, ids);
    Reply(s.(blocks := if admitted then UpdateAll(cfg, owned, ids, MarkAdmitted) else owned,
          entries := if admitted then Insert(cfg, s.entries, key, r.bytes) else s.entries,
          stats := s.stats.Admission(admitted).Read(false)), Ok, r.bytes)
  }

  function WithProfile(s: Node, o: Observed): Node
  {
    s.(blocks := o.blocks, epoch := o.epoch, stats := o.stats)
  }

  function Missed(cfg: Config, s: Node, ids: seq<BlockId>): Node
  {
    s.(blocks := UpdateAll(cfg, s.blocks, ids, CountMiss), stats := s.stats.(misses := s.stats.misses + 1))
  }

  ghost function RemoteRead(cfg: Config, s: Node, key: CacheKey, ids: seq<BlockId>, sched: Schedule): Reply
  {
    var o := Profiled(cfg, s, key, ids, ReadAccess);
    var s1 := WithProfile(s, o);
    var c := ReadCached(s.entries, key, sched.hits);
    if c.hit then
      Reply(s1.(entries := c.entries, stats := s1.stats.(hits := s1.stats.hits + 1).Read(false)), Ok, c.bytes)
    else
      var r := OwnerAwareRead(cfg, Missed(cfg, s1, ids), key, ids, sched.ownerHits);
      if r.status != Ok then Reply(r.s, r.status, []) else FinishRead(cfg, r, key, ids, o.modes)
  }

  function LocalRead(cfg: Config, s: Node, key: CacheKey, ids: seq<BlockId>): Reply
  {
    var s1 := WithProfile(s, Profiled(cfg, s, key, ids, ReadAccess));
    if Reaches(cfg, s.mem, key) then Reply(s1.(stats := s1.stats.Read(true)), Ok, Load(cfg, s.mem, key))
    else Reply(s1, OutOfRange, [])
  }

  /** A read once control messages are dealt with: validate the range, then serve it locally or remotely. */
  ghost function ServeRead(cfg: Config, s: Node, key: CacheKey, sched: Schedule): Reply
  {
    match Validate(cfg, s.mem.heap, key)
    case Rejected(status) => Reply(s, status, [])
    case Resolved(range) =>
      if key.addr.home == cfg.nodeId then LocalRead(cfg, s, key, Ids(range))
      else RemoteRead(cfg, s, key, Ids(range), sched)
  }

  ghost function Read(cfg: Config, s: Node, key: CacheKey, sched: Schedule): Reply
  {
    if !key.addr.IsValid() || key.size == 0 then Reply(s, InvalidArg, [])
    else
      var ctl := ControlPhase(cfg, s, false, sched.polls);
      if ctl.status != Ok then Reply(ctl.s, ctl.status, []) else ServeRead(cfg, ctl.s, key, sched)
  }

  // ------------------------------------------------------------------- writes

  function BatchThreshold(cfg: Config, mode: CoherenceMode): nat
  {
    match mode
    case WI => 1
    case Adaptive => AtLeastOne(cfg.adaptiveBatchThreshold)
    case SI => AtLeastOne(cfg.batchThreshold)
  }

  function FlushThreshold(cfg: Config, modes: seq<CoherenceMode>): nat
  {
    if modes == [] then BatchThreshold(cfg, SI)
    else Min(FlushThreshold(cfg, modes[..|modes| - 1]), BatchThreshold(cfg, modes[|modes| - 1]))
  }

  function DominantMode(modes: seq<CoherenceMode>): CoherenceMode
  {
    if WI in modes then WI else if Adaptive in modes then Adaptive else SI
  }

  function PayloadBytes(writes: seq<PendingWrite>): nat
  {
    if writes == [] then 0 else PayloadBytes(writes[..|writes| - 1]) + |writes[|writes| - 1].payload|
  }

  function CountFlags(stats: Stats, writes: seq<PendingWrite>): Stats
    decreases |writes|
  {
    if writes == [] then stats
    else
      var w := writes[0];
      var s1 := if w.ownerBiased then stats.(ownerBiasedWrites := stats.ownerBiasedWrites + 1) else stats;
      var s2 := if w.ownerHandoff then s1.(ownerHandoffs := s1.ownerHandoffs + 1) else s1;
      CountFlags(s2, writes[1..])
  }

  /** Drain one destination and write the batch; a failed batch is lost. */
  function Flush(cfg: Config, s: Node, node: NodeId): Controlled
  {
    var batch := Queue(s.queues, node);
    var w := BatchWrite(cfg, s.mem, batch);
    var s1 := s.(queues := s.queues - {node}, mem := w.mem);
    if w.status != Ok then Controlled(s1, w.status)
    else if batch == [] then Controlled(s1, Ok)
    else Controlled(s1.(stats := CountFlags(s.stats, batch).Flushed(|batch|, PayloadBytes(batch))), Ok)
  }

  datatype WriteFlags = WriteFlags(modes: seq<CoherenceMode>, biased: bool, handoff: bool)

  /** Metadata of a remote write: profile, then version and ownership. */
  function WriteMetadata(cfg: Config, s: Node, key: CacheKey, ids: seq<BlockId>): (Node, WriteFlags)
  {
    var o := Profiled(cfg, s, key, ids, WriteAccess);
    var a := ApplyWrites(cfg, Applied(o.blocks, false, false), ids, o.modes, key.addr.home);
    (WithProfile(s, o).(blocks := a.blocks), WriteFlags(o.modes, a.biased, a.handoff))
  }

  /** The control requests a remote write sends to the home node. */
  function WriteRequests(cfg: Config, s: Node, key: CacheKey, range: BlockRange, f: WriteFlags): Node
  {
    var version := MaxVersion(s.blocks, Ids(range));
    var s1 := if WI in f.modes
              then Request(cfg, s, Message(cfg, s, key.addr, range, WI, InvalidateRange, version)) else s;
    if f.handoff then Request(cfg, s1, Message(cfg, s1, key.addr, range, Adaptive, OwnerTransfer, version)) else s1
  }

  function InvalidateFor(s: Node, key: CacheKey, f: WriteFlags): Node
  {
    var left := Drop(s.entries, if WI in f.modes then Overlapping(key) else Exact(key));
    s.(entries := left, stats := s.stats.Invalidated(WI in f.modes, |s.entries| - |left|))
  }

  /** The write joins its destination's queue; an owner-biased write also refreshes the cache. */
  function Enqueued(cfg: Config, s: Node, addr: GlobalAddr, data: seq<byte>, f: WriteFlags): Node
  {
    var queue := Queue(s.queues, addr.home);
    var w := PendingWrite(addr, data, DominantMode(f.modes), f.biased, f.handoff);
    s.(queues := s.queues[addr.home := Enqueue(queue, w)],
    stats := s.stats.Queued(MergeTarget(queue, w) < |queue|),
    entries := if f.biased then Insert(cfg, s.entries, CacheKey(addr, |data|), data) else s.entries)
  }

  predicate FlushDue(cfg: Config, s: Node, node: NodeId, modes: seq<CoherenceMode>)
  {
    WI in modes || |Queue(s.queues, node)| >= FlushThreshold(cfg, modes)
  }

  /** Queue the write and flush when the destination is due. */
  function QueueWrite(cfg: Config, s: Node, addr: GlobalAddr, data: seq<byte>, f: WriteFlags): Reply
  {
    var s1 := Enqueued(cfg, s, addr, data, f);
    var r := if FlushDue(cfg, s1, addr.home, f.modes) then Flush(cfg, s1, addr.home) else Controlled(s1, Ok);
    if r.status != Ok then Reply(r.s, r.status, [])
    else Reply(r.s.(stats := r.s.stats.Write(false)), Ok, [])
  }

  function DirectWrite(cfg: Config, s: Node, addr: GlobalAddr, data: seq<byte>): Reply
  {
    var w := StubNet.Write(cfg, s.mem, addr, data);
    Reply(s.(mem := w.mem,
          stats := if w.status == Ok then s.stats.Write(addr.home == cfg.nodeId) else s.stats), w.status, [])
  }

  function RemoteWrite(cfg: Config, s: Node, addr: GlobalAddr, data: seq<byte>, range: BlockRange): Reply
  {
    var key := CacheKey(addr, |data|);
    var (s1, f) := WriteMetadata(cfg, s, key, Ids(range));
    var s2 := InvalidateFor(WriteRequests(cfg, s1, key, range, f), key, f);
    if cfg.enableWriteBatching then QueueWrite(cfg, s2, addr, data, f) else DirectWrite(cfg, s2, addr, data)
  }

  function LocalWrite(cfg: Config, s: Node, addr: GlobalAddr, data: seq<byte>, ids: seq<BlockId>): Reply
  {
    DirectWrite(cfg, WithProfile(s, Profiled(cfg, s, CacheKey(addr, |data|), ids, WriteAccess)), addr, data)
  }

  function ServeWrite(cfg: Config, s: Node, addr: GlobalAddr, data: seq<byte>): Reply
  {
    match Validate(cfg, s.mem.heap, CacheKey(addr, |data|))
    case Rejected(status) => Reply(s, status, [])
    case Resolved(range) =>
      if addr.home == cfg.nodeId then LocalWrite(cfg, s, addr, data, Ids(range))
      else RemoteWrite(cfg, s, addr, data, range)
  }

  ghost function Write(cfg: Config, s: Node, addr: GlobalAddr, data: seq<byte>, sched: Schedule): Reply
  {
    if !addr.IsValid() || data == [] then Reply(s, InvalidArg, [])
    else
      var ctl := ControlPhase(cfg, s, false, sched.polls);
      if ctl.status != Ok then Reply(ctl.s, ctl.status, []) else ServeWrite(cfg, ctl.s, addr, data)
  }

  // ------------------------------------------------------------ fence, malloc

  ghost function PendingDestinations(queues: Queues): set<NodeId>
  {
    set n | n in queues && queues[n] != []
  }

  ghost function FlushAll(cfg: Config, s: Node, todo: set<NodeId>, schedule: seq<NodeId>): Controlled
    decreases |todo|
  {
    if todo == {} then Controlled(s, Ok)
    else
      var node := Pick(todo, schedule);
      var r := Flush(cfg, s, node);
      if r.status != Ok then r else FlushAll(cfg, r.s, todo - {node}, Rest(schedule))
  }

  ghost function Fence(cfg: Config, s: Node, sched: Schedule): Controlled
  {
    var ctl := ControlPhase(cfg, s, true, sched.polls);
    if ctl.status != Ok then ctl
    else
      var flushed := FlushAll(cfg, ctl.s, PendingDestinations(ctl.s.queues), sched.destinations);
      if flushed.status != Ok then flushed else ControlPhase(cfg, flushed.s, true, sched.finalPolls)
  }

  function Malloc(cfg: Config, s: Node, size: nat): (Node, GlobalAddr)
  {
    var (heap, addr) := Allocate(cfg, s.mem.heap, size);
    var s1 := s.(mem := s.mem.(heap := heap));
    if !addr.IsValid() then (s1, addr)
    else if !Accepts(cfg, heap, addr, size) then (s1, INVALID_ADDR)
    else (s1.(blocks := UpdateAll(cfg, s.blocks, Ids(Resolve(cfg.blockSize, addr, size)), Adopt),
          stats := s.stats.(allocs := s.stats.allocs + 1)), addr)
  }

  // -------------------------------------------------------------- whole runs

  datatype Call =
    | CallMalloc(size: nat)
    | CallRead(key: CacheKey, sched: Schedule)
    | CallWrite(addr: GlobalAddr, data: seq<byte>, sched: Schedule)
    | CallFence(sched: Schedule)
    | CallRestart
  {
    /** The footprint of a read or write. */
    function Key(): CacheKey
      requires CallRead? || CallWrite?
    {
      if CallRead? then key else CacheKey(addr, |data|)
    }
  }

  ghost function Exec(cfg: Config, s: Node, call: Call): Reply
  {
    match call
    case CallMalloc(size) => Reply(Malloc(cfg, s, size).0, Ok, [])
    case CallRead(key, sched) => Read(cfg, s, key, sched)
    case CallWrite(addr, data, sched) => Write(cfg, s, addr, data, sched)
    case CallFence(sched) => var r := Fence(cfg, s, sched); Reply(r.s, r.status, [])
    case CallRestart => Reply(Boot(cfg, s.inboxes), Ok, [])
  }

  /** The state after a run of calls from a first Init. */
  ghost function After(cfg: Config, calls: seq<Call>): Node
  {
    if calls == [] then Boot(cfg, map[])
    else Exec(cfg, After(cfg, calls[..|calls| - 1]), calls[|calls| - 1]).s
  }
}
