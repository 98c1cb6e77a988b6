/**
  Who owns a block, exactly, over every run (src/api/access_api.cc,
  PrepareMetadata, ApplyWriteMetadata; src/api/alloc_api.cc): the owner is read
  off the calls, and so are the handoffs and the owner epoch.
 */
module OwnerHistory {
  import opened Types
  import opened Profiling
  import BlockRanges
  import opened Allocator
  import opened StubNet
  import opened Access
  import opened StubControl
  import opened QueueRuns
  import opened Redirection
  import opened Ownership
  import opened AllocationRuns
  import opened Records

  // ---------------------------------------------------- calls that touch a block

  /** The call is an accepted access of another node's memory that covers the block. */
  predicate RemoteTouch(cfg: Config, call: Call, id: BlockId)
  {
    RemoteAccess(cfg, call) && RemoteRange(cfg, call.Key()) && Covered(cfg, call.Key(), id)
  }

  /** The call allocates the block here, or is an accepted access of this node's memory that covers it. */
  predicate LocalTouch(cfg: Config, s: Node, call: Call, id: BlockId)
  {
    match call
    case CallMalloc(size) =>
      var addr := Malloc(cfg, s, size).1;
      addr.IsValid() && size > 0 && cfg.blockSize > 0 && Covered(cfg, CacheKey(addr, size), id)
    case CallRead(key, _) => key.addr.home == cfg.nodeId && Accepted(cfg, s.mem.heap, key) && Covered(cfg, key, id)
    case CallWrite(addr, data, _) =>
      addr.home == cfg.nodeId && Accepted(cfg, s.mem.heap, CacheKey(addr, |data|)) && Covered(cfg, CacheKey(addr, |data|), id)
    case _ => false
  }

  /** The mode in which the last call of the run left the block. */
  ghost function ModeAt(cfg: Config, calls: seq<Call>, id: BlockId): CoherenceMode
  {
    Lookup(After(cfg, calls).blocks, id).mode
  }

  /** The last call of the run is a remote write that covers the block, in this mode. */
  ghost predicate WroteIn(cfg: Config, calls: seq<Call>, id: BlockId, mode: CoherenceMode)
  {
    && calls != [] && calls[|calls| - 1].CallWrite? && RemoteTouch(cfg, calls[|calls| - 1], id)
    && ModeAt(cfg, calls, id) == mode
  }

  // --------------------------------------------------------- the reference

  /**
    The node named by the last call since the restart that moves ownership: this
    node after a local access, an allocation or an adaptive remote write, the home
    after a write-invalidate remote write.
   */
  ghost function LastMove(cfg: Config, calls: seq<Call>, id: BlockId): Option<NodeId>
  {
    if calls == [] then None
    else
      var before, call := calls[..|calls| - 1], calls[|calls| - 1];
      if call.CallRestart? then None
      else if LocalTouch(cfg, After(cfg, before), call, id) || WroteIn(cfg, calls, id, Adaptive) then Some(cfg.nodeId)
      else if WroteIn(cfg, calls, id, WI) then Some(call.addr.home)
      else LastMove(cfg, before, id)
  }

  /** The home of the first remote access since the restart that covers the block. */
  ghost function FirstHome(cfg: Config, calls: seq<Call>, id: BlockId): Option<NodeId>
  {
    if calls == [] then None
    else
      var before, call := calls[..|calls| - 1], calls[|calls| - 1];
      if call.CallRestart? then None
      else if FirstHome(cfg, before, id).None? && RemoteTouch(cfg, call, id) then Some(call.Key().addr.home)
      else FirstHome(cfg, before, id)
  }

  /** Ownership as the calls tell it. */
  ghost function OwnerBy(cfg: Config, calls: seq<Call>, id: BlockId): NodeId
  {
    var moved, first := LastMove(cfg, calls, id), FirstHome(cfg, calls, id);
    if moved.Some? then moved.value else if first.Some? then first.value else INVALID_NODE
  }

  /** The adaptive remote writes of the block since the restart. */
  ghost function AdaptiveWrites(cfg: Config, calls: seq<Call>, id: BlockId): nat
  {
    if calls == [] || calls[|calls| - 1].CallRestart? then 0
    else AdaptiveWrites(cfg, calls[..|calls| - 1], id) + if WroteIn(cfg, calls, id, Adaptive) then 1 else 0
  }

  /** Those before which ownership was last moved to another node, or never moved: the handoffs. */
  ghost function Handoffs(cfg: Config, calls: seq<Call>, id: BlockId): nat
  {
    if calls == [] || calls[|calls| - 1].CallRestart? then 0
    else
      var before := calls[..|calls| - 1];
      Handoffs(cfg, before, id) +
      if WroteIn(cfg, calls, id, Adaptive) && LastMove(cfg, before, id) != Some(cfg.nodeId) then 1 else 0
  }

  // -------------------------------------------------------------- one call

  /** The ownership fields after a call that is no restart. */
  ghost predicate Moves(cfg: Config, s: Node, call: Call, after: Node, id: BlockId)
  {
    var m, n := Lookup(s.blocks, id), Lookup(after.blocks, id);
    var write := call.CallWrite? && RemoteTouch(cfg, call, id);
    var ok :=
      && n.state != Invalid
      && n.ownerEpoch == m.ownerEpoch + (if write && n.mode == Adaptive then 1 else 0)
      && n.owner ==
         if LocalTouch(cfg, s, call, id) || (write && n.mode == Adaptive) then cfg.nodeId
         else if write && n.mode == WI then call.addr.home
         else if RemoteTouch(cfg, call, id) && m.owner == INVALID_NODE then call.Key().addr.home
         else m.owner;
    ok
  }

  lemma CallMoves(cfg: Config, s: Node, call: Call, id: BlockId)
    requires Settled(cfg, s) && MemOk(cfg, s.mem) && Lookup(s.blocks, id).state != Invalid && !call.CallRestart?
    ensures Moves(cfg, s, call, Exec(cfg, s, call).s, id)
  {
    hide Access.Read, Access.Write, Access.Fence, Access.Malloc, Covered, Settled, MemOk, Noted, EndOf,
         GreatestVersion, Accepts;
    match call
    case CallMalloc(size) => MallocRecord(cfg, s, size, id);
    case CallRead(key, sched) => ReadMoves(cfg, s, key, sched, id);
    case CallWrite(addr, data, sched) => WriteMoves(cfg, s, addr, data, sched, id);
    case CallFence(sched) => OtherCallsKeepRecords(cfg, s, call);
  }

  lemma ReadMoves(cfg: Config, s: Node, key: CacheKey, sched: Schedule, id: BlockId)
    requires Settled(cfg, s) && MemOk(cfg, s.mem) && Lookup(s.blocks, id).state != Invalid
    ensures Moves(cfg, s, CallRead(key, sched), Read(cfg, s, key, sched).s, id)
  {
    hide Access.Read, Covered, Settled, MemOk, Noted, EndOf, GreatestVersion, Accepts;
    if !Accepted(cfg, s.mem.heap, key) {
      OtherCallsKeepRecords(cfg, s, CallRead(key, sched));
    } else if key.addr.home == cfg.nodeId {
      LocalReadRecord(cfg, s, key, sched, id);
    } else {
      ReadRecord(cfg, s, key, sched, id);
    }
  }

  lemma WriteMoves(cfg: Config, s: Node, addr: GlobalAddr, data: seq<byte>, sched: Schedule, id: BlockId)
    requires Settled(cfg, s) && Lookup(s.blocks, id).state != Invalid
    ensures Moves(cfg, s, CallWrite(addr, data, sched), Access.Write(cfg, s, addr, data, sched).s, id)
  {
    hide Access.Write, Covered, Settled, Noted, Accepts;
    var key := CacheKey(addr, |data|);
    if !Accepted(cfg, s.mem.heap, key) {
      OtherCallsKeepRecords(cfg, s, CallWrite(addr, data, sched));
    } else if addr.home == cfg.nodeId {
      LocalWriteRecord(cfg, s, addr, data, sched, id);
    } else {
      WriteRecord(cfg, s, addr, data, sched, id);
    }
  }

  // -------------------------------------------------------------- every run

  /**
    The owner of every block in every run, whatever the homes: the node the last
    ownership-moving call named; if no call moved it, the home first asked for the
    block; if nobody asked, none. The owner epoch counts the adaptive writes, and
    no block is ever in the invalid state.
   */
  lemma {:induction false} OwnerIs(cfg: Config, calls: seq<Call>, id: BlockId)
    requires ValidNode(cfg)
    ensures var m := Lookup(After(cfg, calls).blocks, id);
            && m.owner == OwnerBy(cfg, calls, id) && m.ownerEpoch == AdaptiveWrites(cfg, calls, id) && m.state != Invalid
    ensures LastMove(cfg, calls, id) != Some(INVALID_NODE) && FirstHome(cfg, calls, id) !in {Some(INVALID_NODE), Some(cfg.nodeId)}
  {
    hide Exec, Covered, MemOk, Settled, LocalTouch;
    if calls != [] {
      var before, call := calls[..|calls| - 1], calls[|calls| - 1];
      OwnerIs(cfg, before, id);
      AlwaysSettled(cfg, before);
      MemoryKeepsShape(cfg, before);
      if call.CallRestart? {
        RestartForgets(cfg, After(cfg, before), id);
      } else {
        CallMoves(cfg, After(cfg, before), call, id);
      }
    }
  }

  lemma RestartForgets(cfg: Config, s: Node, id: BlockId)
    ensures Lookup(Exec(cfg, s, CallRestart).s.blocks, id) == FRESH
  {
  }

  /**
    For a block that only remote calls touch, all of one home: this node owns it
    iff its last remote write that was not shared was adaptive; otherwise its home
    does, once it was accessed.
   */
  lemma RemoteOwnerIff(cfg: Config, calls: seq<Call>, id: BlockId, home: NodeId)
    requires ValidNode(cfg) && home != cfg.nodeId
    requires forall k :: 0 <= k < |calls| ==> !LocalTouch(cfg, After(cfg, calls[..k]), calls[k], id)
    requires forall k :: 0 <= k < |calls| && RemoteTouch(cfg, calls[k], id) ==> calls[k].Key().addr.home == home
    ensures var owner := Lookup(After(cfg, calls).blocks, id).owner;
            && (owner == cfg.nodeId <==> LastMove(cfg, calls, id) == Some(cfg.nodeId))
            && (FirstHome(cfg, calls, id).Some? && owner != cfg.nodeId ==> owner == home)
  {
    hide After, RemoteTouch, LocalTouch;
    OwnerIs(cfg, calls, id);
    OnlyHome(cfg, calls, id, home);
  }

  lemma {:induction false} OnlyHome(cfg: Config, calls: seq<Call>, id: BlockId, home: NodeId)
    requires forall k :: 0 <= k < |calls| && RemoteTouch(cfg, calls[k], id) ==> calls[k].Key().addr.home == home
    ensures LastMove(cfg, calls, id) in {None, Some(cfg.nodeId), Some(home)}
    ensures FirstHome(cfg, calls, id) in {None, Some(home)}
  {
    hide After, LocalTouch, RemoteTouch;
    if calls != [] {
      var before := calls[..|calls| - 1];
      assert forall k :: 0 <= k < |before| ==> before[k] == calls[k];
      OnlyHome(cfg, before, id, home);
    }
  }

  /** The handoffs of a block are exactly its adaptive writes that found it owned elsewhere. */
  lemma {:induction false} HandoffsAre(cfg: Config, calls: seq<Call>, id: BlockId)
    requires ValidNode(cfg)
    ensures TallyOf(cfg, calls, id).handoffs == Handoffs(cfg, calls, id)
  {
    hide Exec, Covered, Settled, LocalTouch;
    if calls != [] {
      var before, call := calls[..|calls| - 1], calls[|calls| - 1];
      HandoffsAre(cfg, before, id);
      OwnerIs(cfg, before, id);
      AlwaysSettled(cfg, before);
      if call.CallWrite? {
        BumpIs(cfg, before, call, id);
      }
    }
  }

  lemma BumpIs(cfg: Config, calls: seq<Call>, call: Call, id: BlockId)
    requires ValidNode(cfg) && call.CallWrite? && Settled(cfg, After(cfg, calls))
    ensures var s := After(cfg, calls); var t := TallyOf(cfg, calls, id);
            var after := Lookup(Exec(cfg, s, call).s.blocks, id);
            TallyWrite(cfg, s, call, id, t).handoffs ==
            t.handoffs + if RemoteTouch(cfg, call, id) && after.mode == Adaptive && Lookup(s.blocks, id).owner != cfg.nodeId then 1 else 0
  {
    hide After, Access.Write, Settled, Covered, Profiled, BlockRanges.Ids, BlockRanges.Resolve, Decide, Accepts;
    var s, key := After(cfg, calls), call.Key();
    if RemoteRange(cfg, key) {
      CoveredIds(cfg, key, id);
      ProfiledAt(cfg, Quiet(cfg, s), key, WriteAccess, id);
      WriteRecord(cfg, s, call.addr, call.data, call.sched, id);
    }
  }
}
