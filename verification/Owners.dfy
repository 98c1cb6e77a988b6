/**
  Who a block's owner can be. With one remote home per block, the recorded
  owner is the home or this node, so a read is never redirected to a third
  node.
 */
module Owners {
  import opened Types
  import opened Profiling
  import Allocator
  import opened BlockRanges
  import opened Access
  import opened Frames
  import opened LruCache
  import opened StubControl
  import opened QueueRuns
  import opened Redirection
  import opened CacheRuns
  import StubNet

  /** The access touches the block. */
  predicate On(cfg: Config, key: CacheKey, id: BlockId)
  {
    cfg.blockSize > 0 && Touches(cfg.blockSize, key, id)
  }

  /** Remote footprints that share a block have the same home. */
  ghost predicate OneHome(cfg: Config, keys: set<CacheKey>)
  {
    forall a, b, id :: a in keys && b in keys && On(cfg, a, id) && On(cfg, b, id) ==> a.addr.home == b.addr.home
  }

  predicate OwnerOk(cfg: Config, owner: NodeId, home: NodeId)
  {
    owner == INVALID_NODE || owner == cfg.nodeId || owner == home
  }

  ghost predicate OwnersOk(cfg: Config, blocks: Blocks, keys: set<CacheKey>)
  {
    forall id, k :: k in keys && On(cfg, k, id) ==> OwnerOk(cfg, Lookup(blocks, id).owner, k.addr.home)
  }

  /** Setting a block's owner to itself, this node or the home of an access that touches it is harmless. */
  lemma SetOwner(cfg: Config, blocks: Blocks, keys: set<CacheKey>, id: BlockId, m: Meta, home: NodeId)
    requires OwnersOk(cfg, blocks, keys)
    requires m.owner == Lookup(blocks, id).owner || m.owner == cfg.nodeId || m.owner == home
    requires forall k :: k in keys && On(cfg, k, id) ==> k.addr.home == home
    ensures OwnersOk(cfg, blocks[id := m], keys)
  {
    forall j, k | k in keys && On(cfg, k, j)
      ensures OwnerOk(cfg, Lookup(blocks[id := m], j).owner, k.addr.home)
    {
      assert OwnerOk(cfg, Lookup(blocks, j).owner, k.addr.home);
    }
  }

  /** The only owners an update may record. */
  predicate UpdateWithin(cfg: Config, u: Update, home: NodeId)
  {
    match u
    case Prepare(h, _) => h == home || h == cfg.nodeId
    case ShareInvalid(h) => h == home
    case RemoteTransfer(_, _) => false
    case _ => true
  }

  /** Every footprint of `keys` that touches one of `ids` is homed at `home`. */
  ghost predicate HomedAt(cfg: Config, keys: set<CacheKey>, ids: seq<BlockId>, home: NodeId)
  {
    forall id, k :: id in ids && k in keys && On(cfg, k, id) ==> k.addr.home == home
  }

  lemma {:induction false} UpdateOwners(cfg: Config, blocks: Blocks, ids: seq<BlockId>, u: Update,
                                        keys: set<CacheKey>, home: NodeId)
    requires OwnersOk(cfg, blocks, keys) && UpdateWithin(cfg, u, home)
    requires HomedAt(cfg, keys, ids, home) || u.Adopt? || (u.Prepare? && u.home == cfg.nodeId)
    ensures OwnersOk(cfg, UpdateAll(cfg, blocks, ids, u), keys)
    decreases |ids|
  {
    if ids != [] {
      var m := UpdateOne(cfg, Lookup(blocks, ids[0]), u);
      var next := blocks[ids[0] := m];
      if HomedAt(cfg, keys, ids, home) {
        SetOwner(cfg, blocks, keys, ids[0], m, home);
        assert HomedAt(cfg, keys, ids[1..], home);
      } else {
        AdoptOwner(cfg, blocks, keys, ids[0], m);
      }
      UpdateOwners(cfg, next, ids[1..], u, keys, home);
    }
  }

  lemma AdoptOwner(cfg: Config, blocks: Blocks, keys: set<CacheKey>, id: BlockId, m: Meta)
    requires OwnersOk(cfg, blocks, keys) && (m.owner == cfg.nodeId || m.owner == Lookup(blocks, id).owner)
    ensures OwnersOk(cfg, blocks[id := m], keys)
  {
    forall j, k | k in keys && On(cfg, k, j)
      ensures OwnerOk(cfg, Lookup(blocks[id := m], j).owner, k.addr.home)
    {
      assert OwnerOk(cfg, Lookup(blocks, j).owner, k.addr.home);
    }
  }

  lemma {:induction false} ObserveOwners(cfg: Config, o: Observed, ids: seq<BlockId>, access: AccessType, local: bool,
                                         keys: set<CacheKey>)
    requires OwnersOk(cfg, o.blocks, keys)
    ensures OwnersOk(cfg, ObserveAll(cfg, o, ids, access, local).blocks, keys)
    decreases |ids|
  {
    if ids != [] {
      var m := Observe(cfg, Lookup(o.blocks, ids[0]), o.epoch + 1, access, local);
      assert m.owner == Lookup(o.blocks, ids[0]).owner;
      AdoptOwner(cfg, o.blocks, keys, ids[0], m);
      ObserveOwners(cfg, ObserveOne(cfg, o, ids[0], access, local), ids[1..], access, local, keys);
    }
  }

  lemma {:induction false} WriteOwners(cfg: Config, a: Applied, ids: seq<BlockId>, modes: seq<CoherenceMode>,
                                       home: NodeId, keys: set<CacheKey>)
    requires |ids| == |modes| && OwnersOk(cfg, a.blocks, keys) && HomedAt(cfg, keys, ids, home)
    ensures OwnersOk(cfg, ApplyWrites(cfg, a, ids, modes, home).blocks, keys)
    decreases |ids|
  {
    if ids != [] {
      var m := Lookup(a.blocks, ids[0]);
      var w := WriteOne(cfg, m, modes[0], home);
      SetOwner(cfg, a.blocks, keys, ids[0], w, home);
      assert HomedAt(cfg, keys, ids[1..], home);
      WriteOwners(cfg, ApplyWrite(cfg, a, ids[0], modes[0], home), ids[1..], modes[1..], home, keys);
    }
  }

  /** The blocks of an access in `keys` are homed at its home. */
  lemma AccessHomedAt(cfg: Config, keys: set<CacheKey>, key: CacheKey)
    requires OneHome(cfg, keys) && key in keys && cfg.blockSize > 0 && key.size > 0
    ensures HomedAt(cfg, keys, Ids(Resolve(cfg.blockSize, key.addr, key.size)), key.addr.home)
  {
    forall id, k | id in Ids(Resolve(cfg.blockSize, key.addr, key.size)) && k in keys && On(cfg, k, id)
      ensures k.addr.home == key.addr.home
    {
      assert On(cfg, key, id);
    }
  }

  lemma ProfiledOwners(cfg: Config, s: Node, key: CacheKey, ids: seq<BlockId>, access: AccessType, keys: set<CacheKey>)
    requires OwnersOk(cfg, s.blocks, keys)
    requires key.addr.home == cfg.nodeId || HomedAt(cfg, keys, ids, key.addr.home)
    ensures OwnersOk(cfg, Profiled(cfg, s, key, ids, access).blocks, keys)
  {
    var u := Prepare(key.addr.home, access);
    UpdateOwners(cfg, s.blocks, ids, u, keys, key.addr.home);
    var prepared := UpdateAll(cfg, s.blocks, ids, u);
    ObserveOwners(cfg, Observed(prepared, s.epoch, s.stats, []), ids, access, key.addr.home == cfg.nodeId, keys);
  }

  /** The owner a read consults is this node or the home. */
  lemma DominantOwnerIsHomeOrSelf(cfg: Config, blocks: Blocks, key: CacheKey, keys: set<CacheKey>)
    requires OwnersOk(cfg, blocks, keys) && key in keys && cfg.blockSize > 0 && key.size > 0
    ensures var owner := DominantOwner(blocks, Ids(Resolve(cfg.blockSize, key.addr, key.size)), key.addr.home);
            owner == cfg.nodeId || owner == key.addr.home
  {
    var ids := Ids(Resolve(cfg.blockSize, key.addr, key.size));
    if ids != [] {
      assert On(cfg, key, ids[0]);
    }
  }

  /** After a cache miss, the owner-aware read is always served by the home node. */
  lemma NeverRedirected(cfg: Config, s: Node, key: CacheKey, hits: seq<CacheKey>, schedule: seq<CacheKey>,
                        keys: set<CacheKey>)
    requires OwnersOk(cfg, s.blocks, keys) && key in keys && cfg.blockSize > 0 && key.size > 0
    requires !ReadCached(s.entries, key, hits).hit
    ensures var ids := Ids(Resolve(cfg.blockSize, key.addr, key.size));
            OwnerAwareRead(cfg, s, key, ids, schedule) ==
            HomeRead(cfg, s, key, ids, DominantOwner(s.blocks, ids, key.addr.home) != cfg.nodeId)
  {
    DominantOwnerIsHomeOrSelf(cfg, s.blocks, key, keys);
    HitIsStable(s.entries, key, hits, schedule);
  }

  lemma HomeReadOwners(cfg: Config, s: Node, key: CacheKey, ids: seq<BlockId>, share: bool, keys: set<CacheKey>)
    requires OwnersOk(cfg, s.blocks, keys) && HomedAt(cfg, keys, ids, key.addr.home)
    ensures OwnersOk(cfg, HomeRead(cfg, s, key, ids, share).s.blocks, keys)
  {
    UpdateOwners(cfg, s.blocks, ids, MarkValidated, keys, key.addr.home);
    UpdateOwners(cfg, UpdateAll(cfg, s.blocks, ids, MarkValidated), ids, ShareInvalid(key.addr.home), keys, key.addr.home);
  }

  lemma FinishReadOwners(cfg: Config, r: OwnerReply, key: CacheKey, ids: seq<BlockId>, modes: seq<CoherenceMode>,
                         keys: set<CacheKey>)
    requires OwnersOk(cfg, r.s.blocks, keys) && HomedAt(cfg, keys, ids, key.addr.home) && !r.redirected
    ensures OwnersOk(cfg, FinishRead(cfg, r, key, ids, modes).s.blocks, keys)
  {
    UpdateOwners(cfg, r.s.blocks, ids, MarkAdmitted, keys, key.addr.home);
  }

  lemma RemoteReadOwners(cfg: Config, s: Node, key: CacheKey, sched: Schedule, keys: set<CacheKey>)
    requires OwnersOk(cfg, s.blocks, keys) && OneHome(cfg, keys) && key in keys && cfg.blockSize > 0 && key.size > 0
    ensures OwnersOk(cfg, RemoteRead(cfg, s, key, Ids(Resolve(cfg.blockSize, key.addr, key.size)), sched).s.blocks, keys)
  {
    var ids := Ids(Resolve(cfg.blockSize, key.addr, key.size));
    AccessHomedAt(cfg, keys, key);
    ProfiledOwners(cfg, s, key, ids, ReadAccess, keys);
    var o := Profiled(cfg, s, key, ids, ReadAccess);
    var s1 := WithProfile(s, o);
    if !ReadCached(s.entries, key, sched.hits).hit {
      UpdateOwners(cfg, s1.blocks, ids, CountMiss, keys, key.addr.home);
      var missed := Missed(cfg, s1, ids);
      NeverRedirected(cfg, missed, key, sched.hits, sched.ownerHits, keys);
      var share := DominantOwner(missed.blocks, ids, key.addr.home) != cfg.nodeId;
      HomeReadOwners(cfg, missed, key, ids, share, keys);
      var r := HomeRead(cfg, missed, key, ids, share);
      if r.status == Ok {
        FinishReadOwners(cfg, r, key, ids, o.modes, keys);
      }
    }
  }

  lemma RemoteWriteOwners(cfg: Config, s: Node, addr: GlobalAddr, data: seq<byte>, keys: set<CacheKey>)
    requires OwnersOk(cfg, s.blocks, keys) && OneHome(cfg, keys) && cfg.blockSize > 0 && data != []
    requires CacheKey(addr, |data|) in keys
    ensures OwnersOk(cfg, RemoteWrite(cfg, s, addr, data, Resolve(cfg.blockSize, addr, |data|)).s.blocks, keys)
  {
    var key := CacheKey(addr, |data|);
    var range := Resolve(cfg.blockSize, addr, |data|);
    var ids := Ids(range);
    AccessHomedAt(cfg, keys, key);
    ProfiledOwners(cfg, s, key, ids, WriteAccess, keys);
    var o := Profiled(cfg, s, key, ids, WriteAccess);
    WriteOwners(cfg, Applied(o.blocks, false, false), ids, o.modes, addr.home, keys);
    WriteMetadataIsFinal(cfg, s, addr, data, range);
  }

  lemma MallocOwners(cfg: Config, s: Node, size: nat, keys: set<CacheKey>)
    requires OwnersOk(cfg, s.blocks, keys)
    ensures OwnersOk(cfg, Malloc(cfg, s, size).0.blocks, keys)
  {
    MallocFrame(cfg, s, size);
    if size > 0 && cfg.blockSize > 0 {
      var addr := Allocator.Allocate(cfg, s.mem.heap, size).1;
      UpdateOwners(cfg, s.blocks, Ids(Resolve(cfg.blockSize, addr, size)), Adopt, keys, cfg.nodeId);
    }
  }

  predicate SameBlocks(a: Node, b: Node)
  {
    a.blocks == b.blocks && a.epoch == b.epoch
  }

  /** After the metadata stage of a remote write no later stage touches the blocks. */
  lemma WriteMetadataIsFinal(cfg: Config, s: Node, addr: GlobalAddr, data: seq<byte>, range: BlockRange)
    ensures SameBlocks(RemoteWrite(cfg, s, addr, data, range).s,
                       WriteMetadata(cfg, s, CacheKey(addr, |data|), Ids(range)).0)
  {
    AnnouncedFrame(cfg, s, CacheKey(addr, |data|), range);
    RemoteWriteFrame(cfg, s, addr, data, range);
  }

  // -------------------------------------------------------------- every run

  lemma ReadOwners(cfg: Config, s: Node, key: CacheKey, sched: Schedule, keys: set<CacheKey>)
    requires Settled(cfg, s) && OwnersOk(cfg, s.blocks, keys) && OneHome(cfg, keys)
    requires key.addr.home != cfg.nodeId ==> key in keys
    ensures OwnersOk(cfg, Read(cfg, s, key, sched).s.blocks, keys)
  {
    hide RemoteRead, Profiled, OwnersOk, OneHome, Settled, Allocator.Accepts;
    ReadReduces(cfg, s, key, sched);
    var q := Quiet(cfg, s);
    if key.addr.IsValid() && key.size != 0 && Validate(cfg, q.mem.heap, key).Resolved? {
      if key.addr.home == cfg.nodeId {
        ProfiledOwners(cfg, q, key, Ids(Resolve(cfg.blockSize, key.addr, key.size)), ReadAccess, keys);
      } else {
        RemoteReadOwners(cfg, q, key, sched, keys);
      }
    }
  }

  lemma WriteCallOwners(cfg: Config, s: Node, addr: GlobalAddr, data: seq<byte>, sched: Schedule, keys: set<CacheKey>)
    requires Settled(cfg, s) && OwnersOk(cfg, s.blocks, keys) && OneHome(cfg, keys)
    requires addr.home != cfg.nodeId ==> CacheKey(addr, |data|) in keys
    ensures OwnersOk(cfg, Access.Write(cfg, s, addr, data, sched).s.blocks, keys)
  {
    hide RemoteWrite, Profiled, OwnersOk, OneHome, Settled, Allocator.Accepts;
    WriteReduces(cfg, s, addr, data, sched);
    var q, key := Quiet(cfg, s), CacheKey(addr, |data|);
    if addr.IsValid() && data != [] && Validate(cfg, q.mem.heap, key).Resolved? {
      if addr.home == cfg.nodeId {
        ProfiledOwners(cfg, q, key, Ids(Resolve(cfg.blockSize, addr, |data|)), WriteAccess, keys);
      } else {
        RemoteWriteOwners(cfg, q, addr, data, keys);
      }
    }
  }

  lemma {:induction false} AlwaysOwners(cfg: Config, calls: seq<Call>, keys: set<CacheKey>)
    requires AccessKeys(cfg, calls) <= keys && OneHome(cfg, keys)
    ensures OwnersOk(cfg, After(cfg, calls).blocks, keys)
  {
    hide Access.Read, Access.Write, Access.Fence, Access.Malloc, OneHome, Settled;
    if calls != [] {
      var before, call := calls[..|calls| - 1], calls[|calls| - 1];
      assert forall k :: 0 <= k < |before| ==> before[k] == calls[k];
      assert AccessKeys(cfg, before) <= AccessKeys(cfg, calls);
      assert RemoteAccess(cfg, call) ==> call.Key() in AccessKeys(cfg, calls);
      AlwaysOwners(cfg, before, keys);
      AlwaysSettled(cfg, before);
      var s := After(cfg, before);
      match call
      case CallMalloc(size) => MallocOwners(cfg, s, size, keys);
      case CallRead(key, sched) => ReadOwners(cfg, s, key, sched, keys);
      case CallWrite(addr, data, sched) => WriteCallOwners(cfg, s, addr, data, sched, keys);
      case CallFence(sched) => FenceKeepsCache(cfg, s, sched);
      case CallRestart =>
    }
  }

  /** With one home per block index nobody but the home answers. */
  lemma OneHomeStaysHome(cfg: Config, calls: seq<Call>, key: CacheKey, keys: set<CacheKey>)
    requires AccessKeys(cfg, calls) <= keys && OneHome(cfg, keys) && key in keys && RemoteRange(cfg, key)
    ensures !GoesToThird(cfg, After(cfg, calls), key)
  {
    hide After, OneHome, AccessKeys, OwnersOk, StubNet.Reaches;
    AlwaysOwners(cfg, calls, keys);
    DominantOwnerIsHomeOrSelf(cfg, After(cfg, calls).blocks, key, keys);
  }
}
