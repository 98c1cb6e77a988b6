/**
  Versions, validation and ownership of every block over whole runs
  (src/api/access_api.cc, PrepareMetadata, ApplyWriteMetadata,
  TryOwnerAwareRead).
 */
module Ownership {
  import opened Types
  import opened LruCache
  import opened Profiling
  import opened BlockRanges
  import opened Allocator
  import opened Access
  import opened Frames
  import opened StubControl
  import opened Owners
  import opened QueueRuns
  import opened CacheRuns

  /** What happened to one block since the last restart. */
  datatype Tally = Tally(writes: nat, wiWrites: nat, handoffs: nat)

  const NO_TALLY := Tally(0, 0, 0)

  /**
    The version counts the writes, validation never runs ahead of it, an accessed
    block has an owner, an owned block is owned by this node, and ownership is taken at most once more than
    it was given back by a write-invalidate write.
   */
  predicate BlockOk(cfg: Config, m: Meta, t: Tally)
  {
    var ok :=
      && m.version == t.writes
      && m.lastValidated <= m.version
      && (m.state == Owner ==> m.owner == cfg.nodeId)
      && m.state != Invalid
      && (m.lastEpoch != 0 ==> m.owner != INVALID_NODE)
      && t.handoffs <= t.wiWrites + (if m.owner == cfg.nodeId then 1 else 0);
    ok
  }

  /** Updates that neither count as a write nor move ownership away from this node. */
  predicate Neutral(cfg: Config, u: Update)
  {
    match u
    case Prepare(home, access) => home != cfg.nodeId || access.ReadAccess?
    case TakeOwner(_) => false
    case ShareInvalid(_) => false
    case RemoteInvalidate(_) => false
    case RemoteTransfer(_, _) => false
    case _ => true
  }

  predicate ValidNode(cfg: Config) {
    cfg.nodeId != INVALID_NODE
  }

  lemma {:induction false} UpdateNeutral(cfg: Config, blocks: Blocks, ids: seq<BlockId>, u: Update, id: BlockId, t: Tally)
    requires ValidNode(cfg) && Neutral(cfg, u) && BlockOk(cfg, Lookup(blocks, id), t)
    ensures BlockOk(cfg, Lookup(UpdateAll(cfg, blocks, ids, u), id), t)
    decreases |ids|
  {
    if ids != [] {
      UpdateNeutral(cfg, blocks[ids[0] := UpdateOne(cfg, Lookup(blocks, ids[0]), u)], ids[1..], u, id, t);
    }
  }

  lemma {:induction false} ObserveNeutral(cfg: Config, o: Observed, ids: seq<BlockId>, access: AccessType, local: bool,
                                          id: BlockId, t: Tally)
    requires BlockOk(cfg, Lookup(o.blocks, id), t) && (id in ids ==> Lookup(o.blocks, id).owner != INVALID_NODE)
    ensures BlockOk(cfg, Lookup(ObserveAll(cfg, o, ids, access, local).blocks, id), t)
    decreases |ids|
  {
    if ids != [] {
      ObserveNeutral(cfg, ObserveOne(cfg, o, ids[0], access, local), ids[1..], access, local, id, t);
    }
  }

  /** A prepared block has an owner. */
  lemma {:induction false} PreparedHasOwner(cfg: Config, blocks: Blocks, ids: seq<BlockId>, home: NodeId, access: AccessType,
                                            id: BlockId)
    requires ValidNode(cfg) && home != INVALID_NODE
    requires id in ids || Lookup(blocks, id).owner != INVALID_NODE
    ensures Lookup(UpdateAll(cfg, blocks, ids, Prepare(home, access)), id).owner != INVALID_NODE
    decreases |ids|
  {
    if ids != [] {
      var next := blocks[ids[0] := UpdateOne(cfg, Lookup(blocks, ids[0]), Prepare(home, access))];
      PreparedHasOwner(cfg, next, ids[1..], home, access, id);
    }
  }

  predicate Distinct(ids: seq<BlockId>)
  {
    forall i, j :: 0 <= i < j < |ids| ==> ids[i] != ids[j]
  }

  lemma IdsDistinct(range: BlockRange)
    ensures Distinct(Ids(range))
  {
  }

  lemma {:induction false} UpdateElsewhere(cfg: Config, blocks: Blocks, ids: seq<BlockId>, u: Update, id: BlockId)
    requires id !in ids
    ensures Lookup(UpdateAll(cfg, blocks, ids, u), id) == Lookup(blocks, id)
    decreases |ids|
  {
    if ids != [] {
      UpdateElsewhere(cfg, blocks[ids[0] := UpdateOne(cfg, Lookup(blocks, ids[0]), u)], ids[1..], u, id);
    }
  }

  /** A loop over distinct blocks applies its update exactly once to each. */
  lemma {:induction false} UpdateHere(cfg: Config, blocks: Blocks, ids: seq<BlockId>, u: Update, id: BlockId)
    requires Distinct(ids) && id in ids
    ensures Lookup(UpdateAll(cfg, blocks, ids, u), id) == UpdateOne(cfg, Lookup(blocks, id), u)
    decreases |ids|
  {
    var next := blocks[ids[0] := UpdateOne(cfg, Lookup(blocks, ids[0]), u)];
    if id == ids[0] {
      UpdateElsewhere(cfg, next, ids[1..], u, id);
    } else {
      UpdateHere(cfg, next, ids[1..], u, id);
    }
  }

  lemma {:induction false} ObserveElsewhere(cfg: Config, o: Observed, ids: seq<BlockId>, access: AccessType, local: bool, id: BlockId)
    requires id !in ids
    ensures Lookup(ObserveAll(cfg, o, ids, access, local).blocks, id) == Lookup(o.blocks, id)
    decreases |ids|
  {
    if ids != [] {
      ObserveElsewhere(cfg, ObserveOne(cfg, o, ids[0], access, local), ids[1..], access, local, id);
    }
  }

  lemma {:induction false} ModesGrow(cfg: Config, o: Observed, ids: seq<BlockId>, access: AccessType, local: bool)
    ensures o.modes <= ObserveAll(cfg, o, ids, access, local).modes
    decreases |ids|
  {
    if ids != [] {
      ModesGrow(cfg, ObserveOne(cfg, o, ids[0], access, local), ids[1..], access, local);
    }
  }

  /** The mode reported for a block is the mode recorded in it. */
  lemma {:induction false} ReportedModes(cfg: Config, o: Observed, ids: seq<BlockId>, access: AccessType, local: bool, i: nat)
    requires Distinct(ids) && i < |ids|
    ensures var r := ObserveAll(cfg, o, ids, access, local);
            r.modes[|o.modes| + i] == Lookup(r.blocks, ids[i]).mode
    decreases |ids|
  {
    var next := ObserveOne(cfg, o, ids[0], access, local);
    if i == 0 {
      ObserveElsewhere(cfg, next, ids[1..], access, local, ids[0]);
      ModesGrow(cfg, next, ids[1..], access, local);
    } else {
      ReportedModes(cfg, next, ids[1..], access, local, i - 1);
    }
  }

  /** The tally after a remote write to a block in state `m`. */
  function Bump(cfg: Config, m: Meta, t: Tally): Tally
  {
    Tally(t.writes + 1,
          if m.mode == WI then t.wiWrites + 1 else t.wiWrites,
          if m.mode == Adaptive && m.owner != cfg.nodeId then t.handoffs + 1 else t.handoffs)
  }

  lemma {:induction false} WriteElsewhere(cfg: Config, a: Applied, ids: seq<BlockId>, modes: seq<CoherenceMode>, home: NodeId, id: BlockId)
    requires |ids| == |modes| && id !in ids
    ensures Lookup(ApplyWrites(cfg, a, ids, modes, home).blocks, id) == Lookup(a.blocks, id)
    decreases |ids|
  {
    if ids != [] {
      WriteElsewhere(cfg, ApplyWrite(cfg, a, ids[0], modes[0], home), ids[1..], modes[1..], home, id);
    }
  }

  lemma {:induction false} WriteHere(cfg: Config, a: Applied, ids: seq<BlockId>, modes: seq<CoherenceMode>, home: NodeId, i: nat)
    requires |ids| == |modes| && Distinct(ids) && i < |ids|
    ensures Lookup(ApplyWrites(cfg, a, ids, modes, home).blocks, ids[i]) ==
            WriteOne(cfg, Lookup(a.blocks, ids[i]), modes[i], home)
    decreases |ids|
  {
    var next := ApplyWrite(cfg, a, ids[0], modes[0], home);
    if i == 0 {
      WriteElsewhere(cfg, next, ids[1..], modes[1..], home, ids[0]);
    } else {
      WriteHere(cfg, next, ids[1..], modes[1..], home, i - 1);
    }
  }

  // ------------------------------------------------------------- one access

  /** The block as profiled by an access, before a remote write is applied to it. */
  function Seen(cfg: Config, s: Node, key: CacheKey, ids: seq<BlockId>, access: AccessType, id: BlockId): Meta
  {
    Lookup(Profiled(cfg, s, key, ids, access).blocks, id)
  }

  lemma ProfiledNeutral(cfg: Config, s: Node, key: CacheKey, ids: seq<BlockId>, access: AccessType, id: BlockId, t: Tally)
    requires ValidNode(cfg) && BlockOk(cfg, Lookup(s.blocks, id), t) && key.addr.IsValid()
    requires key.addr.home != cfg.nodeId || access.ReadAccess?
    ensures BlockOk(cfg, Seen(cfg, s, key, ids, access, id), t)
  {
    var u := Prepare(key.addr.home, access);
    UpdateNeutral(cfg, s.blocks, ids, u, id, t);
    if id in ids {
      PreparedHasOwner(cfg, s.blocks, ids, key.addr.home, access, id);
    }
    ObserveNeutral(cfg, Observed(UpdateAll(cfg, s.blocks, ids, u), s.epoch, s.stats, []), ids, access,
                   key.addr.home == cfg.nodeId, id, t);
  }

  lemma WriteOneTally(cfg: Config, m: Meta, home: NodeId, t: Tally)
    requires BlockOk(cfg, m, t) && home != cfg.nodeId && home != INVALID_NODE && ValidNode(cfg)
    ensures BlockOk(cfg, WriteOne(cfg, m, m.mode, home), Bump(cfg, m, t))
  {
  }

  /** Which record the metadata stage of a remote write leaves in a block. */
  lemma WriteMetadataAt(cfg: Config, s: Node, key: CacheKey, range: BlockRange, id: BlockId)
    requires key.addr.home != cfg.nodeId
    ensures var m := Seen(cfg, s, key, Ids(range), WriteAccess, id);
            Lookup(WriteMetadata(cfg, s, key, Ids(range)).0.blocks, id) ==
            if id in Ids(range) then WriteOne(cfg, m, m.mode, key.addr.home) else m
  {
    var ids := Ids(range);
    var o := Profiled(cfg, s, key, ids, WriteAccess);
    var a := Applied(o.blocks, false, false);
    IdsDistinct(range);
    if id in ids {
      var i :| 0 <= i < |ids| && ids[i] == id;
      WriteHere(cfg, a, ids, o.modes, key.addr.home, i);
      var prepared := UpdateAll(cfg, s.blocks, ids, Prepare(key.addr.home, WriteAccess));
      ReportedModes(cfg, Observed(prepared, s.epoch, s.stats, []), ids, WriteAccess, false, i);
    } else {
      WriteElsewhere(cfg, a, ids, o.modes, key.addr.home, id);
    }
  }

  /** A remote write counts once for each block it covers and follows that block's mode. */
  lemma RemoteWriteTally(cfg: Config, s: Node, addr: GlobalAddr, data: seq<byte>, range: BlockRange, id: BlockId, t: Tally)
    requires ValidNode(cfg) && BlockOk(cfg, Lookup(s.blocks, id), t) && addr.home != cfg.nodeId && addr.IsValid()
    ensures var key := CacheKey(addr, |data|);
            BlockOk(cfg, Lookup(RemoteWrite(cfg, s, addr, data, range).s.blocks, id),
                    if id in Ids(range) then Bump(cfg, Seen(cfg, s, key, Ids(range), WriteAccess, id), t) else t)
  {
    var key := CacheKey(addr, |data|);
    ProfiledNeutral(cfg, s, key, Ids(range), WriteAccess, id, t);
    WriteMetadataAt(cfg, s, key, range, id);
    WriteOneTally(cfg, Seen(cfg, s, key, Ids(range), WriteAccess, id), addr.home, t);
    WriteMetadataIsFinal(cfg, s, addr, data, range);
  }

  /** A local write counts once for each block it covers. */
  lemma LocalWriteTally(cfg: Config, s: Node, addr: GlobalAddr, data: seq<byte>, range: BlockRange, id: BlockId, t: Tally)
    requires ValidNode(cfg) && BlockOk(cfg, Lookup(s.blocks, id), t) && addr.home == cfg.nodeId
    ensures BlockOk(cfg, Lookup(LocalWrite(cfg, s, addr, data, Ids(range)).s.blocks, id),
                    if id in Ids(range) then t.(writes := t.writes + 1) else t)
  {
    var ids, u := Ids(range), Prepare(addr.home, WriteAccess);
    var t' := if id in ids then t.(writes := t.writes + 1) else t;
    IdsDistinct(range);
    if id in ids {
      UpdateHere(cfg, s.blocks, ids, u, id);
    } else {
      UpdateElsewhere(cfg, s.blocks, ids, u, id);
    }
    var prepared := UpdateAll(cfg, s.blocks, ids, u);
    ObserveNeutral(cfg, Observed(prepared, s.epoch, s.stats, []), ids, WriteAccess, true, id, t');
  }

  /** No block is in the invalid state, so the share step of a home read changes nothing. */
  lemma {:induction false} ShareIsIdle(cfg: Config, blocks: Blocks, ids: seq<BlockId>, home: NodeId, id: BlockId)
    requires Lookup(blocks, id).state != Invalid
    ensures Lookup(UpdateAll(cfg, blocks, ids, ShareInvalid(home)), id) == Lookup(blocks, id)
    decreases |ids|
  {
    if ids != [] {
      ShareIsIdle(cfg, blocks[ids[0] := UpdateOne(cfg, Lookup(blocks, ids[0]), ShareInvalid(home))], ids[1..], home, id);
    }
  }

  lemma HomeReadTally(cfg: Config, s: Node, key: CacheKey, ids: seq<BlockId>, share: bool, id: BlockId, t: Tally)
    requires ValidNode(cfg) && BlockOk(cfg, Lookup(s.blocks, id), t)
    ensures BlockOk(cfg, Lookup(HomeRead(cfg, s, key, ids, share).s.blocks, id), t)
  {
    UpdateNeutral(cfg, s.blocks, ids, MarkValidated, id, t);
    ShareIsIdle(cfg, UpdateAll(cfg, s.blocks, ids, MarkValidated), ids, key.addr.home, id);
  }

  lemma MissTally(cfg: Config, s: Node, key: CacheKey, hits: seq<CacheKey>, schedule: seq<CacheKey>, modes: seq<CoherenceMode>,
                  keys: set<CacheKey>, id: BlockId, t: Tally)
    requires ValidNode(cfg) && BlockOk(cfg, Lookup(s.blocks, id), t) && OwnersOk(cfg, s.blocks, keys)
    requires key in keys && cfg.blockSize > 0 && key.size > 0 && !ReadCached(s.entries, key, hits).hit
    ensures var ids := Ids(Resolve(cfg.blockSize, key.addr, key.size)); var r := OwnerAwareRead(cfg, s, key, ids, schedule);
            && BlockOk(cfg, Lookup(r.s.blocks, id), t)
            && BlockOk(cfg, Lookup(FinishRead(cfg, r, key, ids, modes).s.blocks, id), t)
  {
    var ids := Ids(Resolve(cfg.blockSize, key.addr, key.size));
    NeverRedirected(cfg, s, key, hits, schedule, keys);
    var share := DominantOwner(s.blocks, ids, key.addr.home) != cfg.nodeId;
    HomeReadTally(cfg, s, key, ids, share, id, t);
    var r := HomeRead(cfg, s, key, ids, share);
    HomeReadFrame(cfg, s, key, ids, share);
    UpdateNeutral(cfg, r.s.blocks, ids, MarkAdmitted, id, t);
  }

  lemma RemoteReadTally(cfg: Config, s: Node, key: CacheKey, sched: Schedule, keys: set<CacheKey>, id: BlockId, t: Tally)
    requires ValidNode(cfg) && BlockOk(cfg, Lookup(s.blocks, id), t)
    requires OwnersOk(cfg, s.blocks, keys) && OneHome(cfg, keys) && key in keys
    requires key.addr.home != cfg.nodeId && key.addr.IsValid() && cfg.blockSize > 0 && key.size > 0
    ensures BlockOk(cfg, Lookup(RemoteRead(cfg, s, key, Ids(Resolve(cfg.blockSize, key.addr, key.size)), sched).s.blocks, id), t)
  {
    var ids := Ids(Resolve(cfg.blockSize, key.addr, key.size));
    ProfiledNeutral(cfg, s, key, ids, ReadAccess, id, t);
    if !ReadCached(s.entries, key, sched.hits).hit {
      AccessHomedAt(cfg, keys, key);
      ProfiledOwners(cfg, s, key, ids, ReadAccess, keys);
      var o := Profiled(cfg, s, key, ids, ReadAccess);
      UpdateNeutral(cfg, o.blocks, ids, CountMiss, id, t);
      UpdateOwners(cfg, o.blocks, ids, CountMiss, keys, key.addr.home);
      MissTally(cfg, Missed(cfg, WithProfile(s, o), ids), key, sched.hits, sched.ownerHits, o.modes, keys, id, t);
    }
  }

  // ------------------------------------------------------------- whole runs

  /** The range a call gets past validation with, if it is a well-formed write. */
  function WriteRange(cfg: Config, s: Node, call: Call): Option<BlockRange>
  {
    if !call.CallWrite? || !call.addr.IsValid() || call.data == [] then None
    else
      match Validate(cfg, s.mem.heap, call.Key())
      case Rejected(_) => None
      case Resolved(range) => Some(range)
  }

  /** The writes, write-invalidate writes and ownership handoffs of one block over a run. */
  ghost function TallyOf(cfg: Config, calls: seq<Call>, id: BlockId): Tally
  {
    if calls == [] then NO_TALLY
    else
      var before, call := calls[..|calls| - 1], calls[|calls| - 1];
      var t, s := TallyOf(cfg, before, id), After(cfg, before);
      if call.CallRestart? then NO_TALLY else if call.CallWrite? then TallyWrite(cfg, s, call, id, t) else t
  }

  lemma ReadCallTally(cfg: Config, s: Node, key: CacheKey, sched: Schedule, keys: set<CacheKey>, id: BlockId, t: Tally)
    requires ValidNode(cfg) && OneHome(cfg, keys) && (key.addr.home != cfg.nodeId ==> key in keys)
    requires Settled(cfg, s) && OwnersOk(cfg, s.blocks, keys) && BlockOk(cfg, Lookup(s.blocks, id), t)
    ensures BlockOk(cfg, Lookup(Read(cfg, s, key, sched).s.blocks, id), t)
  {
    ReadReduces(cfg, s, key, sched);
    var q := Quiet(cfg, s);
    if key.addr.IsValid() && key.size != 0 && Validate(cfg, q.mem.heap, key).Resolved? {
      if key.addr.home == cfg.nodeId {
        ProfiledNeutral(cfg, q, key, Ids(Resolve(cfg.blockSize, key.addr, key.size)), ReadAccess, id, t);
      } else {
        RemoteReadTally(cfg, q, key, sched, keys, id, t);
      }
    }
  }

  /** The tally of a block after one more write call. */
  function TallyWrite(cfg: Config, s: Node, call: Call, id: BlockId, t: Tally): Tally
    requires call.CallWrite?
  {
    match WriteRange(cfg, s, call)
    case None => t
    case Some(range) =>
      if id !in Ids(range) then t
      else if call.addr.home == cfg.nodeId then t.(writes := t.writes + 1)
      else Bump(cfg, Seen(cfg, Quiet(cfg, s), call.Key(), Ids(range), WriteAccess, id), t)
  }

  lemma WriteCallTally(cfg: Config, s: Node, call: Call, id: BlockId, t: Tally)
    requires ValidNode(cfg) && call.CallWrite? && Settled(cfg, s) && BlockOk(cfg, Lookup(s.blocks, id), t)
    ensures BlockOk(cfg, Lookup(Exec(cfg, s, call).s.blocks, id), TallyWrite(cfg, s, call, id, t))
  {
    hide RemoteWrite, LocalWrite, Settled, Accepts, BlockOk;
    WriteReduces(cfg, s, call.addr, call.data, call.sched);
    var q, range := Quiet(cfg, s), WriteRange(cfg, s, call);
    if range.Some? {
      if call.addr.home == cfg.nodeId {
        LocalWriteTally(cfg, q, call.addr, call.data, range.value, id, t);
      } else {
        RemoteWriteTally(cfg, q, call.addr, call.data, range.value, id, t);
      }
    }
  }

  lemma CallTally(cfg: Config, s: Node, call: Call, keys: set<CacheKey>, id: BlockId, t: Tally)
    requires ValidNode(cfg) && OneHome(cfg, keys) && (RemoteAccess(cfg, call) ==> call.Key() in keys)
    requires Settled(cfg, s) && OwnersOk(cfg, s.blocks, keys) && BlockOk(cfg, Lookup(s.blocks, id), t)
    ensures BlockOk(cfg, Lookup(Exec(cfg, s, call).s.blocks, id),
                    if call.CallRestart? then NO_TALLY
                    else if call.CallWrite? then TallyWrite(cfg, s, call, id, t) else t)
  {
    match call
    case CallMalloc(size) => MallocTally(cfg, s, size, id, t);
    case CallRead(key, sched) => ReadCallTally(cfg, s, key, sched, keys, id, t);
    case CallWrite(addr, data, sched) => WriteCallTally(cfg, s, call, id, t);
    case CallFence(sched) => FenceKeepsCache(cfg, s, sched);
    case CallRestart =>
  }

  lemma MallocTally(cfg: Config, s: Node, size: nat, id: BlockId, t: Tally)
    requires ValidNode(cfg) && BlockOk(cfg, Lookup(s.blocks, id), t)
    ensures BlockOk(cfg, Lookup(Malloc(cfg, s, size).0.blocks, id), t)
  {
    MallocFrame(cfg, s, size);
    if size > 0 && cfg.blockSize > 0 {
      var addr := Allocate(cfg, s.mem.heap, size).1;
      UpdateNeutral(cfg, s.blocks, Ids(Resolve(cfg.blockSize, addr, size)), Adopt, id, t);
    }
  }

  /**
    Ownership over whole runs in which remote footprints that share a block
    share their home: a block's version is the number of validated writes that
    covered it, validation never runs ahead of it, an owned block is owned by
    this node, and it was handed off at most once more than it was written
    write-invalidate.
   */
  lemma {:induction false} OwnershipInvariant(cfg: Config, calls: seq<Call>, keys: set<CacheKey>, id: BlockId)
    requires ValidNode(cfg) && AccessKeys(cfg, calls) <= keys && OneHome(cfg, keys)
    ensures OwnersOk(cfg, After(cfg, calls).blocks, keys)
    ensures var m, t := Lookup(After(cfg, calls).blocks, id), TallyOf(cfg, calls, id);
            BlockOk(cfg, m, t) && t.handoffs <= 1 + t.wiWrites
  {
    hide Access.Read, Access.Write, Access.Fence, Access.Malloc;
    AlwaysOwners(cfg, calls, keys);
    if calls != [] {
      var before, call := calls[..|calls| - 1], calls[|calls| - 1];
      assert forall k :: 0 <= k < |before| ==> before[k] == calls[k];
      assert AccessKeys(cfg, before) <= AccessKeys(cfg, calls);
      assert RemoteAccess(cfg, call) ==> call.Key() in AccessKeys(cfg, calls);
      OwnershipInvariant(cfg, before, keys, id);
      AlwaysSettled(cfg, before);
      CallTally(cfg, After(cfg, before), call, keys, id, TallyOf(cfg, before, id));
    }
  }
}
