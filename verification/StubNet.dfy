/**
  The stub transport (src/transport/transport_stub.cc) as values: one byte
  region per remote home, created zero-filled on first use, the local heap,
  and one control inbox per node. A request posted to another node is
  acknowledged at once.
 */
module StubNet {
  import opened Types
  import opened WriteCombining
  import opened ControlAcks
  import opened Allocator

  type Inboxes = map<NodeId, seq<ControlMessage>>

  datatype Memory = Memory(regions: map<NodeId, seq<byte>>, heap: Heap)

  /** The bytes homed at a remote node. */
  function Region(cfg: Config, regions: map<NodeId, seq<byte>>, node: NodeId): seq<byte>
  {
    if node in regions && regions[node] != [] then regions[node] else Zeros(cfg.localRegionSize)
  }

  /** All bytes homed at a node, local or remote. */
  function Bank(cfg: Config, mem: Memory, node: NodeId): seq<byte>
  {
    if node == cfg.nodeId then mem.heap.region else Region(cfg, mem.regions, node)
  }

  /** The transport will carry out an access of this footprint. */
  predicate Reaches(cfg: Config, mem: Memory, key: CacheKey)
  {
    if key.addr.home == cfg.nodeId then Accepts(cfg, mem.heap, key.addr, key.size)
    else key.End() <= |Region(cfg, mem.regions, key.addr.home)|
  }

  /** First use of a remote region creates it. */
  function Opened(cfg: Config, mem: Memory, node: NodeId): Memory
  {
    if node == cfg.nodeId then mem
    else mem.(regions := mem.regions[node := Region(cfg, mem.regions, node)])
  }

  function Load(cfg: Config, mem: Memory, key: CacheKey): seq<byte>
    requires Reaches(cfg, mem, key)
  {
    Bank(cfg, mem, key.addr.home)[key.addr.offset..key.End()]
  }

  function Store(cfg: Config, mem: Memory, addr: GlobalAddr, data: seq<byte>): Memory
    requires Reaches(cfg, mem, CacheKey(addr, |data|))
  {
    var bank := WriteAt(Bank(cfg, mem, addr.home), addr.offset, data);
    if addr.home == cfg.nodeId then mem.(heap := mem.heap.(region := bank))
    else mem.(regions := mem.regions[addr.home := bank])
  }

  datatype Written = Written(mem: Memory, status: Status)

  function Write(cfg: Config, mem: Memory, addr: GlobalAddr, data: seq<byte>): Written
  {
    if Reaches(cfg, mem, CacheKey(addr, |data|)) then Written(Store(cfg, mem, addr, data), Ok)
    else Written(Opened(cfg, mem, addr.home), OutOfRange)
  }

  /** Requests are carried out in order; the first failure abandons the rest. */
  function BatchWrite(cfg: Config, mem: Memory, writes: seq<PendingWrite>): Written
    decreases |writes|
  {
    if writes == [] then Written(mem, Ok)
    else
      var w := Write(cfg, mem, writes[0].addr, writes[0].payload);
      if w.status != Ok then w else BatchWrite(cfg, w.mem, writes[1..])
  }

  // ------------------------------------------------------------ inboxes

  function Inbox(inboxes: Inboxes, node: NodeId): seq<ControlMessage>
  {
    if node in inboxes then inboxes[node] else []
  }

  function Deliver(inboxes: Inboxes, node: NodeId, m: ControlMessage): Inboxes
  {
    inboxes[node := Inbox(inboxes, node) + [m]]
  }

  function Post(self: NodeId, inboxes: Inboxes, m: ControlMessage): Inboxes
  {
    if m.target != self && !m.opcode.IsAck() then Deliver(inboxes, m.source, m.Ack(m.target))
    else Deliver(inboxes, m.target, m)
  }

  function PostAll(self: NodeId, inboxes: Inboxes, ms: seq<ControlMessage>): Inboxes
    decreases |ms|
  {
    if ms == [] then inboxes else PostAll(self, Post(self, inboxes, ms[0]), ms[1..])
  }

  const DRAIN_LIMIT := 64

  function Drained(inboxes: Inboxes, node: NodeId): seq<ControlMessage>
  {
    Inbox(inboxes, node)[..Min(DRAIN_LIMIT, |Inbox(inboxes, node)|)]
  }

  function Undrained(inboxes: Inboxes, node: NodeId): Inboxes
  {
    inboxes[node := Inbox(inboxes, node)[Min(DRAIN_LIMIT, |Inbox(inboxes, node)|)..]]
  }

  /** A drain takes the oldest messages, in order, and stops after 64 of them. */
  lemma DrainSplits(inboxes: Inboxes, node: NodeId)
    ensures var taken, left := Drained(inboxes, node), Undrained(inboxes, node);
            && taken + Inbox(left, node) == Inbox(inboxes, node)
            && |taken| <= 64 && (|taken| == 64 || Inbox(left, node) == [])
            && forall n: NodeId :: n != node ==> Inbox(left, n) == Inbox(inboxes, n)
  {
    hide Min;
    MinIs(DRAIN_LIMIT, |Inbox(inboxes, node)|);
    var k := Min(DRAIN_LIMIT, |Inbox(inboxes, node)|);
    assert Inbox(inboxes, node)[..k] + Inbox(inboxes, node)[k..] == Inbox(inboxes, node);
  }

  lemma MinIs(a: nat, b: nat)
    ensures Min(a, b) <= a && Min(a, b) <= b && (Min(a, b) == a || Min(a, b) == b)
  {
  }

  // ------------------------------------------------------- memory lemmas

  /** Every bank has the configured size. */
  ghost predicate MemOk(cfg: Config, mem: Memory)
  {
    var ok :=
      && HeapOk(cfg, mem.heap)
      && forall n :: n in mem.regions ==> mem.regions[n] == [] || |mem.regions[n]| == cfg.localRegionSize;
    ok
  }

  lemma BankSize(cfg: Config, mem: Memory, node: NodeId)
    requires MemOk(cfg, mem)
    ensures |Bank(cfg, mem, node)| == cfg.localRegionSize
  {
  }

  /** An accepted access lies within its bank. */
  lemma ReachesInBank(cfg: Config, mem: Memory, key: CacheKey)
    requires MemOk(cfg, mem) && Reaches(cfg, mem, key)
    ensures key.End() <= cfg.localRegionSize
  {
  }

  lemma OpenedSame(cfg: Config, mem: Memory, node: NodeId)
    requires MemOk(cfg, mem)
    ensures MemOk(cfg, Opened(cfg, mem, node))
    ensures forall n :: Bank(cfg, Opened(cfg, mem, node), n) == Bank(cfg, mem, n)
    ensures Opened(cfg, mem, node).heap == mem.heap
  {
  }

  /** A store changes exactly the bytes of its footprint at its home. */
  lemma StoreSpec(cfg: Config, mem: Memory, addr: GlobalAddr, data: seq<byte>)
    requires MemOk(cfg, mem) && Reaches(cfg, mem, CacheKey(addr, |data|))
    ensures MemOk(cfg, Store(cfg, mem, addr, data))
    ensures forall n :: Bank(cfg, Store(cfg, mem, addr, data), n) ==
                        if n == addr.home then WriteAt(Bank(cfg, mem, n), addr.offset, data) else Bank(cfg, mem, n)
    ensures forall key :: Reaches(cfg, Store(cfg, mem, addr, data), key) <==> Reaches(cfg, mem, key)
  {
    if cfg.localRegionSize == 0 && addr.home != cfg.nodeId {
      assert Bank(cfg, mem, addr.home) == [];
    }
  }
}
