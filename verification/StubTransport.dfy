/**
  The stub transport object (src/transport/transport_stub.cc): remote regions
  and control inboxes updated in place. Each method is proved against the
  value-level operation of StubNet.
 */
module StubTransports {
  import opened Types
  import opened WriteCombining
  import opened ControlAcks
  import opened Allocator
  import opened StubNet

  class StubTransport {
    const cfg: Config
    const allocator: DsmAllocator
    var regions: map<NodeId, seq<byte>>
    var inboxes: Inboxes

    ghost predicate Valid()
    {
      allocator.cfg == cfg
    }

    ghost function Mem(): Memory
      reads this, allocator
    {
      Memory(regions, allocator.View())
    }

    constructor (cfg: Config, allocator: DsmAllocator, inboxes: Inboxes)
      requires allocator.cfg == cfg
      ensures Valid() && this.cfg == cfg && this.allocator == allocator
      ensures regions == map[] && this.inboxes == inboxes[cfg.nodeId := Inbox(inboxes, cfg.nodeId)]
    {
      this.cfg, this.allocator := cfg, allocator;
      regions := map[];
      this.inboxes := inboxes[cfg.nodeId := Inbox(inboxes, cfg.nodeId)];
    }

    /** First use of a remote region fills it with zeros. */
    method Touch(node: NodeId)
      requires Valid() && node != cfg.nodeId
      modifies this`regions
      ensures Mem() == Opened(cfg, old(Mem()), node)
      ensures node in regions && regions[node] == Region(cfg, old(regions), node)
    {
      if node !in regions || regions[node] == [] {
        regions := regions[node := Zeros(cfg.localRegionSize)];
      }
      assert regions == old(regions)[node := Region(cfg, old(regions), node)];
    }

    method Read(addr: GlobalAddr, size: nat) returns (status: Status, bytes: seq<byte>)
      requires Valid()
      modifies this`regions
      ensures Mem() == Opened(cfg, old(Mem()), addr.home)
      ensures status == if Reaches(cfg, old(Mem()), CacheKey(addr, size)) then Ok else OutOfRange
      ensures bytes == if status == Ok then Load(cfg, old(Mem()), CacheKey(addr, size)) else []
    {
      if addr.home == cfg.nodeId {
        var accepted := allocator.ValidateRange(addr, size);
        if !accepted {
          return OutOfRange, [];
        }
        return Ok, allocator.region[addr.offset..addr.offset + size];
      }
      Touch(addr.home);
      if addr.offset + size > |regions[addr.home]| {
        return OutOfRange, [];
      }
      return Ok, regions[addr.home][addr.offset..addr.offset + size];
    }

    method Write(addr: GlobalAddr, data: seq<byte>) returns (status: Status)
      requires Valid()
      modifies this`regions, allocator`region
      ensures Written(Mem(), status) == StubNet.Write(cfg, old(Mem()), addr, data)
    {
      if addr.home == cfg.nodeId {
        var accepted := allocator.ValidateRange(addr, |data|);
        if !accepted {
          return OutOfRange;
        }
        allocator.region := WriteAt(allocator.region, addr.offset, data);
        return Ok;
      }
      Touch(addr.home);
      var region := regions[addr.home];
      if addr.offset + |data| > |region| {
        return OutOfRange;
      }
      regions := regions[addr.home := WriteAt(region, addr.offset, data)];
      return Ok;
    }

    method BatchWrite(writes: seq<PendingWrite>) returns (status: Status)
      requires Valid()
      modifies this`regions, allocator`region
      ensures Written(Mem(), status) == StubNet.BatchWrite(cfg, old(Mem()), writes)
    {
      for i := 0 to |writes|
        invariant StubNet.BatchWrite(cfg, Mem(), writes[i..]) == StubNet.BatchWrite(cfg, old(Mem()), writes)
      {
        status := Write(writes[i].addr, writes[i].payload);
        assert writes[i..][1..] == writes[i + 1..];
        if status != Ok {
          return;
        }
      }
      status := Ok;
    }

    method PostControlMessage(m: ControlMessage)
      modifies this`inboxes
      ensures inboxes == Post(cfg.nodeId, old(inboxes), m)
    {
      if m.target != cfg.nodeId && !m.opcode.IsAck() {
        var ack := m.Ack(m.target);
        inboxes := inboxes[ack.target := Inbox(inboxes, ack.target) + [ack]];
        return;
      }
      inboxes := inboxes[m.target := Inbox(inboxes, m.target) + [m]];
    }

    method DrainControlMessages(maxMessages: nat) returns (messages: seq<ControlMessage>)
      modifies this`inboxes
      ensures var inbox := Inbox(old(inboxes), cfg.nodeId); var n := Min(AtLeastOne(maxMessages), |inbox|);
              messages == inbox[..n] && inboxes == old(inboxes)[cfg.nodeId := inbox[n..]]
    {
      ghost var start := Inbox(inboxes, cfg.nodeId);
      messages := [];
      inboxes := inboxes[cfg.nodeId := Inbox(inboxes, cfg.nodeId)];
      while inboxes[cfg.nodeId] != [] && |messages| < AtLeastOne(maxMessages)
        invariant |messages| <= Min(AtLeastOne(maxMessages), |start|) && messages == start[..|messages|]
        invariant inboxes == old(inboxes)[cfg.nodeId := start[|messages|..]]
        decreases |inboxes[cfg.nodeId]|
      {
        var inbox := inboxes[cfg.nodeId];
        messages := messages + [inbox[0]];
        inboxes := inboxes[cfg.nodeId := inbox[1..]];
      }
    }
  }
}
