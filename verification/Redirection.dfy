/**
  Who answers a remote read that misses the cache (src/api/access_api.cc): its
  home, or the third node that the block records name as owner.
 */
module Redirection {
  import opened Types
  import opened LruCache
  import opened Profiling
  import opened BlockRanges
  import opened StubNet
  import opened Access
  import opened StubControl

  function IdsOf(cfg: Config, key: CacheKey): seq<BlockId>
    requires cfg.blockSize > 0 && key.size > 0
  {
    Ids(Resolve(cfg.blockSize, key.addr, key.size))
  }

  function At(key: CacheKey, node: NodeId): CacheKey
  {
    CacheKey(key.addr.(home := node), key.size)
  }

  /** A well-formed access of another node's memory. */
  predicate RemoteRange(cfg: Config, key: CacheKey)
  {
    key.addr.home != cfg.nodeId && key.addr.IsValid() && key.size > 0 && cfg.blockSize > 0
  }

  /** The ownership fields of a record after preparing it for a remote access. */
  predicate PreparedFrom(before: Meta, after: Meta, home: NodeId)
  {
    && after.version == before.version && after.lastValidated == before.lastValidated
    && after.owner == if before.owner == INVALID_NODE then home else before.owner
  }

  predicate SameOwnership(before: Meta, after: Meta)
  {
    after.version == before.version && after.lastValidated == before.lastValidated && after.owner == before.owner
  }

  lemma {:induction false} PrepareOwnership(cfg: Config, blocks: Blocks, ids: seq<BlockId>, home: NodeId, id: BlockId)
    requires home != cfg.nodeId && home != INVALID_NODE
    ensures var after := Lookup(UpdateAll(cfg, blocks, ids, Prepare(home, ReadAccess)), id);
            if id in ids then PreparedFrom(Lookup(blocks, id), after, home) else after == Lookup(blocks, id)
    decreases |ids|
  {
    if ids != [] {
      var next := blocks[ids[0] := UpdateOne(cfg, Lookup(blocks, ids[0]), Prepare(home, ReadAccess))];
      PrepareOwnership(cfg, next, ids[1..], home, id);
    }
  }

  lemma {:induction false} ObserveOwnership(cfg: Config, o: Observed, ids: seq<BlockId>, access: AccessType, local: bool, id: BlockId)
    ensures SameOwnership(Lookup(o.blocks, id), Lookup(ObserveAll(cfg, o, ids, access, local).blocks, id))
    decreases |ids|
  {
    if ids != [] {
      ObserveOwnership(cfg, ObserveOne(cfg, o, ids[0], access, local), ids[1..], access, local, id);
    }
  }

  lemma {:induction false} MissOwnership(cfg: Config, blocks: Blocks, ids: seq<BlockId>, id: BlockId)
    ensures SameOwnership(Lookup(blocks, id), Lookup(UpdateAll(cfg, blocks, ids, CountMiss), id))
    decreases |ids|
  {
    if ids != [] {
      MissOwnership(cfg, blocks[ids[0] := UpdateOne(cfg, Lookup(blocks, ids[0]), CountMiss)], ids[1..], id);
    }
  }

  /** The state in which a missed read looks for its owner. */
  function MissState(cfg: Config, s: Node, key: CacheKey): Node
    requires cfg.blockSize > 0 && key.size > 0
  {
    var q, ids := Quiet(cfg, s), IdsOf(cfg, key);
    Missed(cfg, WithProfile(q, Profiled(cfg, q, key, ids, ReadAccess)), ids)
  }

  lemma MissStateOwnership(cfg: Config, s: Node, key: CacheKey, id: BlockId)
    requires RemoteRange(cfg, key) && id in IdsOf(cfg, key)
    ensures PreparedFrom(Lookup(s.blocks, id), Lookup(MissState(cfg, s, key).blocks, id), key.addr.home)
  {
    hide UpdateAll, ObserveAll, Ids, Resolve;
    var q, ids := Quiet(cfg, s), IdsOf(cfg, key);
    var prepared := UpdateAll(cfg, q.blocks, ids, Prepare(key.addr.home, ReadAccess));
    PrepareOwnership(cfg, q.blocks, ids, key.addr.home, id);
    ObserveOwnership(cfg, Observed(prepared, q.epoch, q.stats, []), ids, ReadAccess, false, id);
    MissOwnership(cfg, Profiled(cfg, q, key, ids, ReadAccess).blocks, ids, id);
  }

  /** Preparing the records changes neither the dominant owner nor the validation of a remote range. */
  lemma MissStateOwner(cfg: Config, s: Node, key: CacheKey)
    requires RemoteRange(cfg, key)
    ensures var ids, home := IdsOf(cfg, key), key.addr.home;
            && DominantOwner(MissState(cfg, s, key).blocks, ids, home) == DominantOwner(s.blocks, ids, home)
            && (AllValidated(MissState(cfg, s, key).blocks, ids) <==> AllValidated(s.blocks, ids))
  {
    hide MissState, Ids, Resolve;
    var ids, home := IdsOf(cfg, key), key.addr.home;
    forall id | id in ids
      ensures PreparedFrom(Lookup(s.blocks, id), Lookup(MissState(cfg, s, key).blocks, id), home)
    {
      MissStateOwnership(cfg, s, key, id);
    }
    SameDominantOwner(s.blocks, MissState(cfg, s, key).blocks, ids, home);
  }

  lemma SameDominantOwner(a: Blocks, b: Blocks, ids: seq<BlockId>, home: NodeId)
    requires home != INVALID_NODE
    requires forall id :: id in ids ==> PreparedFrom(Lookup(a, id), Lookup(b, id), home)
    ensures DominantOwner(b, ids, home) == DominantOwner(a, ids, home)
    ensures AllValidated(b, ids) <==> AllValidated(a, ids)
  {
    if ids != [] {
      assert ids[0] in ids;
    }
  }

  /** The guard of the redirection: all blocks validated, one recorded owner that is a third node, and it has the range. */
  ghost predicate GoesToThird(cfg: Config, s: Node, key: CacheKey)
    requires cfg.blockSize > 0 && key.size > 0
  {
    var ids := IdsOf(cfg, key);
    var owner := DominantOwner(s.blocks, ids, key.addr.home);
    && AllValidated(s.blocks, ids)
    && owner !in {cfg.nodeId, key.addr.home, INVALID_NODE}
    && Reaches(cfg, s.mem, At(key, owner))
  }

  lemma MissStateData(cfg: Config, s: Node, key: CacheKey)
    requires cfg.blockSize > 0 && key.size > 0
    ensures MissState(cfg, s, key).mem == s.mem && MissState(cfg, s, key).entries == s.entries
  {
  }

  /** A missed read replies with what its owner-aware part found. */
  lemma MissReply(cfg: Config, s: Node, key: CacheKey, sched: Schedule)
    requires Settled(cfg, s) && RemoteRange(cfg, key) && !ReadCached(s.entries, key, sched.hits).hit
    ensures var r := OwnerAwareRead(cfg, MissState(cfg, s, key), key, IdsOf(cfg, key), sched.ownerHits);
            var reply := Read(cfg, s, key, sched);
            reply.status == r.status && (r.status == Ok ==> reply.bytes == r.bytes)
  {
    hide Profiled, ReadCached, OwnerAwareRead, Missed, Ids, Settled, UpdateAll, Admits;
    ReadReduces(cfg, s, key, sched);
  }

  lemma OwnerAwareReply(cfg: Config, s: Node, key: CacheKey, ids: seq<BlockId>, schedule: seq<CacheKey>)
    requires MemOk(cfg, s.mem) && !ReadCached(s.entries, key, schedule).hit
    ensures var r, owner := OwnerAwareRead(cfg, s, key, ids, schedule), DominantOwner(s.blocks, ids, key.addr.home);
            var third := AllValidated(s.blocks, ids) && owner !in {cfg.nodeId, key.addr.home, INVALID_NODE} &&
                         Reaches(cfg, s.mem, At(key, owner));
            && (r.redirected <==> third)
            && (third ==> r.status == Ok && r.bytes == Load(cfg, s.mem, At(key, owner)))
            && (!third ==> (r.status == Ok <==> Reaches(cfg, s.mem, key)) && (r.status == Ok ==> r.bytes == Load(cfg, s.mem, key)))
  {
    hide ReadCached, UpdateAll, AllValidated, DominantOwner, MemOk;
    var owner := DominantOwner(s.blocks, ids, key.addr.home);
    OpenedReaches(cfg, s.mem, owner, key);
  }

  lemma OpenedReaches(cfg: Config, mem: Memory, node: NodeId, key: CacheKey)
    requires MemOk(cfg, mem)
    ensures var again := Opened(cfg, mem, node);
            && (Reaches(cfg, again, key) <==> Reaches(cfg, mem, key))
            && (Reaches(cfg, mem, key) ==> Load(cfg, again, key) == Load(cfg, mem, key))
  {
    OpenedSame(cfg, mem, node);
  }

  /** The range, at the node that answers a missed read of it. */
  ghost function AnsweredFrom(cfg: Config, s: Node, key: CacheKey): CacheKey
    requires cfg.blockSize > 0 && key.size > 0
  {
    if GoesToThird(cfg, s, key) then At(key, DominantOwner(s.blocks, IdsOf(cfg, key), key.addr.home)) else key
  }

  /** A missed read is redirected iff the guard holds, and replies with the bytes of whoever answers. */
  lemma MissAnswers(cfg: Config, s: Node, key: CacheKey, sched: Schedule)
    requires Settled(cfg, s) && MemOk(cfg, s.mem) && RemoteRange(cfg, key) && !ReadCached(s.entries, key, sched.hits).hit
    ensures var r, from := Read(cfg, s, key, sched), AnsweredFrom(cfg, s, key);
            && (OwnerAwareRead(cfg, MissState(cfg, s, key), key, IdsOf(cfg, key), sched.ownerHits).redirected <==>
                GoesToThird(cfg, s, key))
            && (r.status == Ok <==> Reaches(cfg, s.mem, from)) && (r.status == Ok ==> r.bytes == Load(cfg, s.mem, from))
  {
    hide Access.Read, ReadCached, MissState, OwnerAwareRead, DominantOwner, AllValidated, Ids, Resolve, Load, Reaches,
         MemOk, Settled;
    MissStateOwner(cfg, s, key);
    MissReply(cfg, s, key, sched);
    MissStateData(cfg, s, key);
    HitIsStable(s.entries, key, sched.hits, sched.ownerHits);
    OwnerAwareReply(cfg, MissState(cfg, s, key), key, IdsOf(cfg, key), sched.ownerHits);
  }

  /** Whoever answers, a missed read succeeds iff the range fits a region. */
  lemma AnswersInRange(cfg: Config, s: Node, key: CacheKey)
    requires MemOk(cfg, s.mem) && RemoteRange(cfg, key)
    ensures Reaches(cfg, s.mem, AnsweredFrom(cfg, s, key)) <==> key.End() <= cfg.localRegionSize
  {
    hide DominantOwner, AllValidated, Ids, Resolve, MemOk;
    var from := AnsweredFrom(cfg, s, key);
    BankSize(cfg, s.mem, from.addr.home);
  }
}
