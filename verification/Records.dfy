/**
  What each access leaves in a block record, field by field, in every state
  (src/api/access_api.cc, PrepareMetadata, TryOwnerAwareRead,
  ApplyWriteMetadata): each covered block is updated exactly once, no other block
  is touched.
 */
module Records {
  import opened Types
  import opened Counters
  import opened LruCache
  import opened Profiling
  import opened BlockRanges
  import opened Allocator
  import opened StubNet
  import opened Access
  import opened StubControl
  import opened Redirection
  import opened Owners
  import opened CacheRuns
  import opened Ownership
  import opened ProfilingRuns

  /** The access gets past validation: well-formed, and inside one allocation if it is homed here. */
  predicate Accepted(cfg: Config, heap: Heap, key: CacheKey)
  {
    && key.addr.IsValid() && key.size > 0 && cfg.blockSize > 0
    && (key.addr.home == cfg.nodeId ==> Accepts(cfg, heap, key.addr, key.size))
  }

  /** The range of an access covers the block. */
  predicate Covered(cfg: Config, key: CacheKey, id: BlockId)
    requires cfg.blockSize > 0 && key.size > 0
  {
    && id.region == key.addr.region
    && key.addr.offset / cfg.blockSize <= id.index <= (key.addr.offset + key.size - 1) / cfg.blockSize
  }

  lemma CoveredIds(cfg: Config, key: CacheKey, id: BlockId)
    requires cfg.blockSize > 0 && key.size > 0
    ensures Covered(cfg, key, id) <==> id in IdsOf(cfg, key)
  {
    var ids, first := IdsOf(cfg, key), key.addr.offset / cfg.blockSize;
    if Covered(cfg, key, id) {
      assert ids[id.index - first] == id;
    }
  }

  // --------------------------------------------------------------- one loop

  lemma UpdateAt(cfg: Config, blocks: Blocks, range: BlockRange, u: Update, id: BlockId)
    ensures Lookup(UpdateAll(cfg, blocks, Ids(range), u), id) ==
            if id in Ids(range) then UpdateOne(cfg, Lookup(blocks, id), u) else Lookup(blocks, id)
  {
    IdsDistinct(range);
    if id in Ids(range) {
      UpdateHere(cfg, blocks, Ids(range), u, id);
    } else {
      UpdateElsewhere(cfg, blocks, Ids(range), u, id);
    }
  }

  /** Block i of an access is observed at the i-th epoch of that access. */
  lemma {:induction false} ObserveHere(cfg: Config, o: Observed, ids: seq<BlockId>, access: AccessType, local: bool, i: nat)
    requires Distinct(ids) && i < |ids|
    ensures Lookup(ObserveAll(cfg, o, ids, access, local).blocks, ids[i]) ==
            Observe(cfg, Lookup(o.blocks, ids[i]), o.epoch + 1 + i, access, local)
    decreases |ids|
  {
    hide Observe, Stats.Mode;
    var next := ObserveOne(cfg, o, ids[0], access, local);
    if i == 0 {
      ObserveElsewhere(cfg, next, ids[1..], access, local, ids[0]);
    } else {
      ObserveHere(cfg, next, ids[1..], access, local, i - 1);
    }
  }

  /** The record of a covered block once an access has prepared and profiled it. */
  function Noted(cfg: Config, s: Node, key: CacheKey, access: AccessType, id: BlockId): Meta
    requires cfg.blockSize > 0 && key.size > 0 && Covered(cfg, key, id)
  {
    Observe(cfg, UpdateOne(cfg, Lookup(s.blocks, id), Prepare(key.addr.home, access)),
            s.epoch + 1 + (id.index - key.addr.offset / cfg.blockSize), access, key.addr.home == cfg.nodeId)
  }

  lemma ProfiledAt(cfg: Config, s: Node, key: CacheKey, access: AccessType, id: BlockId)
    requires cfg.blockSize > 0 && key.size > 0
    ensures Lookup(Profiled(cfg, s, key, IdsOf(cfg, key), access).blocks, id) ==
            if Covered(cfg, key, id) then Noted(cfg, s, key, access, id) else Lookup(s.blocks, id)
  {
    hide Observe, UpdateAll, ObserveAll, UpdateOne;
    var range, u := Resolve(cfg.blockSize, key.addr, key.size), Prepare(key.addr.home, access);
    var ids := Ids(range);
    var o := Observed(UpdateAll(cfg, s.blocks, ids, u), s.epoch, s.stats, []);
    IdsDistinct(range);
    CoveredIds(cfg, key, id);
    UpdateAt(cfg, s.blocks, range, u, id);
    if Covered(cfg, key, id) {
      var i := id.index - key.addr.offset / cfg.blockSize;
      assert ids[i] == id;
      ObserveHere(cfg, o, ids, access, key.addr.home == cfg.nodeId, i);
    } else {
      ObserveElsewhere(cfg, o, ids, access, key.addr.home == cfg.nodeId, id);
    }
  }

  // ------------------------------------------------------------------ writes

  /** What a remote write leaves in a covered block that was in record `m`. */
  predicate WrittenRecord(cfg: Config, m: Meta, after: Meta, home: NodeId)
  {
    && after.version == m.version + 1 && after.lastValidated == m.lastValidated
    && after.remoteMisses == m.remoteMisses && after.admitted == m.admitted
    && match after.mode {
         case WI => after.owner == home && after.state == Shared && after.ownerEpoch == m.ownerEpoch
         case SI =>
           && after.owner == (if m.owner == INVALID_NODE then home else m.owner)
           && after.state == Shared && after.ownerEpoch == m.ownerEpoch
         case Adaptive => after.owner == cfg.nodeId && after.state == Owner && after.ownerEpoch == m.ownerEpoch + 1
       }
  }

  /** The part of a record that preparing and profiling a remote access can change, profile apart. */
  lemma NotedIs(cfg: Config, s: Node, key: CacheKey, access: AccessType, id: BlockId)
    requires RemoteRange(cfg, key) && Covered(cfg, key, id)
    ensures var m, n := Lookup(s.blocks, id), Noted(cfg, s, key, access, id);
            && n.owner == (if m.owner == INVALID_NODE then key.addr.home else m.owner)
            && n.state == (if m.state == Home then Shared else m.state)
            && n.version == m.version && n.lastValidated == m.lastValidated && n.remoteMisses == m.remoteMisses
            && n.admitted == m.admitted && n.ownerEpoch == m.ownerEpoch
            && n == Noted(cfg, Quiet(cfg, s), key, access, id)
  {
    hide Decide, Covered;
  }

  lemma WroteNoted(cfg: Config, s: Node, key: CacheKey, id: BlockId)
    requires RemoteRange(cfg, key) && Covered(cfg, key, id)
    ensures var n := Noted(cfg, Quiet(cfg, s), key, WriteAccess, id); var after := WriteOne(cfg, n, n.mode, key.addr.home);
            && WrittenRecord(cfg, Lookup(s.blocks, id), after, key.addr.home)
            && ProfileIn(after) == ProfileIn(Noted(cfg, s, key, WriteAccess, id))
  {
    hide Covered, Noted;
    NotedIs(cfg, s, key, WriteAccess, id);
  }

  /**
    The ownership rules of a write, in every settled state, delivered or not: each
    covered block gains a version; a write-invalidate write gives the block to its
    home, an adaptive one takes it for this node, a shared one leaves a set owner.
   */
  lemma WriteRecord(cfg: Config, s: Node, addr: GlobalAddr, data: seq<byte>, sched: Schedule, id: BlockId)
    requires Settled(cfg, s) && RemoteRange(cfg, CacheKey(addr, |data|))
    ensures var key := CacheKey(addr, |data|);
            var m, after := Lookup(s.blocks, id), Lookup(Access.Write(cfg, s, addr, data, sched).s.blocks, id);
            if Covered(cfg, key, id)
            then WrittenRecord(cfg, m, after, addr.home) && ProfileIn(after) == ProfileIn(Noted(cfg, s, key, WriteAccess, id))
            else after == m
  {
    hide RemoteWrite, Profiled, WriteMetadata, Settled, Ids, Resolve, Covered, Noted, WriteOne, WrittenRecord, ProfileIn;
    var q, key, range := Quiet(cfg, s), CacheKey(addr, |data|), Resolve(cfg.blockSize, addr, |data|);
    WriteReduces(cfg, s, addr, data, sched);
    WriteMetadataIsFinal(cfg, q, addr, data, range);
    WriteMetadataAt(cfg, q, key, range, id);
    ProfiledAt(cfg, q, key, WriteAccess, id);
    CoveredIds(cfg, key, id);
    if Covered(cfg, key, id) {
      WroteNoted(cfg, s, key, id);
    }
  }

  // ------------------------------------------------------------------- reads

  /** Every covered block is validated and records this owner. */
  ghost predicate NamedBy(cfg: Config, blocks: Blocks, key: CacheKey, owner: NodeId)
    requires cfg.blockSize > 0 && key.size > 0
  {
    forall id :: Covered(cfg, key, id) ==>
                   var m := Lookup(blocks, id); m.owner == owner && m.lastValidated >= m.version
  }

  /**
    The guard of the redirection, said through the records: the range is in its
    region, and all covered blocks are validated and name one owner that is
    neither this node nor the home. That owner is the one asked.
   */
  lemma RedirectedIff(cfg: Config, s: Node, key: CacheKey)
    requires MemOk(cfg, s.mem) && RemoteRange(cfg, key)
    ensures GoesToThird(cfg, s, key) <==>
            key.End() <= cfg.localRegionSize &&
            exists owner: NodeId :: owner !in {cfg.nodeId, key.addr.home, INVALID_NODE} && NamedBy(cfg, s.blocks, key, owner)
    ensures GoesToThird(cfg, s, key) ==> AnsweredFrom(cfg, s, key) != key && AnsweredFrom(cfg, s, key).addr.home != cfg.nodeId &&
                                         NamedBy(cfg, s.blocks, key, AnsweredFrom(cfg, s, key).addr.home)
  {
    hide Covered, Ids, Resolve, MemOk;
    var ids, home := IdsOf(cfg, key), key.addr.home;
    var owner := DominantOwner(s.blocks, ids, home);
    forall id
      ensures Covered(cfg, key, id) <==> id in ids
    {
      CoveredIds(cfg, key, id);
    }
    SomeCovered(cfg, key);
    BankSize(cfg, s.mem, owner);
    if n: NodeId :| n !in {cfg.nodeId, home, INVALID_NODE} && NamedBy(cfg, s.blocks, key, n) {
      assert ids[0] in ids;
      assert owner == n;
      BankSize(cfg, s.mem, n);
    }
    if owner !in {cfg.nodeId, home, INVALID_NODE} && AllValidated(s.blocks, ids) {
      assert NamedBy(cfg, s.blocks, key, owner);
    }
  }

  lemma SomeCovered(cfg: Config, key: CacheKey)
    requires cfg.blockSize > 0 && key.size > 0
    ensures IdsOf(cfg, key) != []
  {
  }

  /** How the owner-aware part of a missed read changes the records. */
  lemma OwnerAwareBlocks(cfg: Config, s: Node, key: CacheKey, ids: seq<BlockId>, schedule: seq<CacheKey>)
    requires !ReadCached(s.entries, key, schedule).hit
    ensures var r, v := OwnerAwareRead(cfg, s, key, ids, schedule), UpdateAll(cfg, s.blocks, ids, MarkValidated);
            && (r.status != Ok ==> r.s.blocks == s.blocks)
            && (r.status == Ok && r.redirected ==> r.s.blocks == v)
            && (r.status == Ok && !r.redirected ==>
                  r.s.blocks == if DominantOwner(s.blocks, ids, key.addr.home) == cfg.nodeId then v
                                else UpdateAll(cfg, v, ids, ShareInvalid(key.addr.home)))
  {
    hide ReadCached, UpdateAll, DominantOwner, AllValidated, Opened, Reaches, Load;
  }

  /** The version is the greatest of the covered blocks. */
  ghost predicate GreatestVersion(cfg: Config, blocks: Blocks, key: CacheKey, version: nat)
    requires cfg.blockSize > 0 && key.size > 0
  {
    && (forall id :: Covered(cfg, key, id) ==> Lookup(blocks, id).version <= version)
    && exists id :: Covered(cfg, key, id) && Lookup(blocks, id).version == version
  }

  lemma {:induction false} MaxVersionIs(blocks: Blocks, ids: seq<BlockId>)
    ensures forall id :: id in ids ==> Lookup(blocks, id).version <= MaxVersion(blocks, ids)
    ensures ids != [] ==> exists id :: id in ids && Lookup(blocks, id).version == MaxVersion(blocks, ids)
  {
    if ids != [] {
      MaxVersionIs(blocks, ids[1..]);
      var rest := MaxVersion(blocks, ids[1..]);
      if Lookup(blocks, ids[0]).version >= rest {
        assert ids[0] in ids;
      } else {
        var id :| id in ids[1..] && Lookup(blocks, id).version == rest;
        assert id in ids;
      }
    }
  }

  lemma MaxVersionIsGreatest(cfg: Config, blocks: Blocks, key: CacheKey)
    requires cfg.blockSize > 0 && key.size > 0
    ensures GreatestVersion(cfg, blocks, key, MaxVersion(blocks, IdsOf(cfg, key)))
  {
    hide MaxVersion, Covered;
    var ids := IdsOf(cfg, key);
    forall id
      ensures Covered(cfg, key, id) <==> id in ids
    {
      CoveredIds(cfg, key, id);
    }
    MaxVersionIs(blocks, ids);
    var id :| id in ids && Lookup(blocks, id).version == MaxVersion(blocks, ids);
    assert Covered(cfg, key, id);
  }

  /** How a remote read ends, as far as the records are concerned. */
  datatype ReadEnd = Hit | Failed | FromHome | FromThird

  /** What a remote read leaves, profile apart, in a covered block that was in record `m`. */
  ghost predicate ReadRecordOf(cfg: Config, blocks: Blocks, m: Meta, after: Meta, key: CacheKey, end: ReadEnd)
    requires cfg.blockSize > 0 && key.size > 0
  {
    && after.owner == (if m.owner == INVALID_NODE then key.addr.home else m.owner)
    && after.ownerEpoch == m.ownerEpoch
    && after.remoteMisses == m.remoteMisses + (if end.Hit? then 0 else 1)
    && after.lastValidated == (if end.Hit? || end.Failed? then m.lastValidated else m.version)
    && after.state == (if end.FromThird? then Owner else if m.state == Home then Shared else m.state)
    && (if end.FromThird? then GreatestVersion(cfg, blocks, key, after.version) else after.version == m.version)
  }

  ghost function EndOf(cfg: Config, s: Node, key: CacheKey, sched: Schedule): ReadEnd
    requires cfg.blockSize > 0 && key.size > 0
  {
    if ReadCached(s.entries, key, sched.hits).hit then Hit
    else if Read(cfg, s, key, sched).status != Ok then Failed
    else if GoesToThird(cfg, s, key) then FromThird
    else FromHome
  }

  lemma HitRecord(cfg: Config, s: Node, key: CacheKey, sched: Schedule)
    requires Settled(cfg, s) && RemoteRange(cfg, key) && ReadCached(s.entries, key, sched.hits).hit
    ensures Read(cfg, s, key, sched).s.blocks == Profiled(cfg, Quiet(cfg, s), key, IdsOf(cfg, key), ReadAccess).blocks
  {
    hide Profiled, ReadCached, OwnerAwareRead, Settled, Ids, Resolve;
    ReadReduces(cfg, s, key, sched);
  }

  /** The records in which a missed read looks for its owner: profiled, with the miss counted. */
  lemma MissedAt(cfg: Config, s: Node, key: CacheKey, id: BlockId)
    requires cfg.blockSize > 0 && key.size > 0
    ensures var m := Lookup(MissState(cfg, s, key).blocks, id);
            if Covered(cfg, key, id)
            then var n := Noted(cfg, s, key, ReadAccess, id); m == n.(remoteMisses := n.remoteMisses + 1)
            else m == Lookup(s.blocks, id)
  {
    hide Profiled, Ids, Resolve, Observe, UpdateAll, Covered;
    var q := Quiet(cfg, s);
    ProfiledAt(cfg, q, key, ReadAccess, id);
    CoveredIds(cfg, key, id);
    UpdateAt(cfg, Profiled(cfg, q, key, IdsOf(cfg, key), ReadAccess).blocks, Resolve(cfg.blockSize, key.addr, key.size), CountMiss, id);
  }

  /** The blocks a missed read leaves. */
  lemma MissBlocks(cfg: Config, s: Node, key: CacheKey, sched: Schedule)
    requires Settled(cfg, s) && RemoteRange(cfg, key) && !ReadCached(s.entries, key, sched.hits).hit
    ensures var ids := IdsOf(cfg, key); var r := OwnerAwareRead(cfg, MissState(cfg, s, key), key, ids, sched.ownerHits);
            var owned := if r.redirected then UpdateAll(cfg, r.s.blocks, ids, TakeOwner(MaxVersion(r.s.blocks, ids))) else r.s.blocks;
            var after := Read(cfg, s, key, sched).s.blocks;
            if r.status != Ok then after == r.s.blocks
            else after == owned || after == UpdateAll(cfg, owned, ids, MarkAdmitted)
  {
    hide Profiled, ReadCached, OwnerAwareRead, Missed, Settled, Ids, Resolve, UpdateAll, Admits, MaxVersion;
    ReadReduces(cfg, s, key, sched);
  }

  /** A block through the owner-aware part of a missed read. */
  lemma OwnerAwareAt(cfg: Config, s: Node, key: CacheKey, schedule: seq<CacheKey>, id: BlockId)
    requires !ReadCached(s.entries, key, schedule).hit && cfg.blockSize > 0 && key.size > 0
    ensures var r := OwnerAwareRead(cfg, s, key, IdsOf(cfg, key), schedule);
            var m, after := Lookup(s.blocks, id), Lookup(r.s.blocks, id);
            && after.version == m.version
            && (m.state != Invalid ==>
                  after == if r.status == Ok && Covered(cfg, key, id) then m.(lastValidated := m.version) else m)
  {
    hide ReadCached, OwnerAwareRead, Ids, Resolve, UpdateAll, Covered;
    var ids, range := IdsOf(cfg, key), Resolve(cfg.blockSize, key.addr, key.size);
    OwnerAwareBlocks(cfg, s, key, ids, schedule);
    CoveredIds(cfg, key, id);
    UpdateAt(cfg, s.blocks, range, MarkValidated, id);
    UpdateAt(cfg, UpdateAll(cfg, s.blocks, ids, MarkValidated), range, ShareInvalid(key.addr.home), id);
  }

  /** A block through the bookkeeping of a successful miss. */
  lemma FinishAt(cfg: Config, blocks: Blocks, key: CacheKey, redirected: bool, admitted: bool, id: BlockId)
    requires cfg.blockSize > 0 && key.size > 0
    ensures var ids := IdsOf(cfg, key); var version := MaxVersion(blocks, ids);
            var owned := if redirected then UpdateAll(cfg, blocks, ids, TakeOwner(version)) else blocks;
            var m, after := Lookup(blocks, id), Lookup(if admitted then UpdateAll(cfg, owned, ids, MarkAdmitted) else owned, id);
            after == if !Covered(cfg, key, id) then m
                     else if redirected then m.(state := Owner, version := version, admitted := after.admitted)
                     else m.(admitted := after.admitted)
  {
    hide Ids, Resolve, UpdateAll, Covered, MaxVersion;
    var ids, range := IdsOf(cfg, key), Resolve(cfg.blockSize, key.addr, key.size);
    var u := TakeOwner(MaxVersion(blocks, ids));
    var owned := if redirected then UpdateAll(cfg, blocks, ids, u) else blocks;
    CoveredIds(cfg, key, id);
    UpdateAt(cfg, blocks, range, u, id);
    UpdateAt(cfg, owned, range, MarkAdmitted, id);
  }

  lemma MissRecord(cfg: Config, s: Node, key: CacheKey, sched: Schedule, id: BlockId)
    requires Settled(cfg, s) && MemOk(cfg, s.mem) && RemoteRange(cfg, key) && Lookup(s.blocks, id).state != Invalid
    requires !ReadCached(s.entries, key, sched.hits).hit
    ensures var after := Lookup(Read(cfg, s, key, sched).s.blocks, id);
            if !Covered(cfg, key, id) then after == Lookup(s.blocks, id)
            else
              var n, ok := Noted(cfg, s, key, ReadAccess, id), Read(cfg, s, key, sched).status == Ok;
              var c := n.(remoteMisses := n.remoteMisses + 1, lastValidated := if ok then n.version else n.lastValidated,
                       admitted := after.admitted);
              if ok && GoesToThird(cfg, s, key)
              then after == c.(state := Owner, version := after.version) && GreatestVersion(cfg, s.blocks, key, after.version)
              else after == c
  {
    hide Access.Read, ReadCached, OwnerAwareRead, MissState, Settled, MemOk, Ids, Resolve, Observe, Covered,
         UpdateAll, MaxVersion,
         GoesToThird, GreatestVersion, Reaches, Load;
    var ids, missed := IdsOf(cfg, key), MissState(cfg, s, key);
    var r := OwnerAwareRead(cfg, missed, key, ids, sched.ownerHits);
    HitIsStable(s.entries, key, sched.hits, sched.ownerHits);
    MissStateData(cfg, s, key);
    MissReply(cfg, s, key, sched);
    MissAnswers(cfg, s, key, sched);
    MissBlocks(cfg, s, key, sched);
    MissedAt(cfg, s, key, id);
    OwnerAwareAt(cfg, missed, key, sched.ownerHits, id);
    FinishAt(cfg, r.s.blocks, key, r.redirected, false, id);
    FinishAt(cfg, r.s.blocks, key, r.redirected, true, id);
    NotedFacts(cfg, s, key, ReadAccess);
    SameGreatest(cfg, s, key, sched);
  }

  /** Noting a remote access keeps the version and never invalidates. */
  lemma NotedFacts(cfg: Config, s: Node, key: CacheKey, access: AccessType)
    requires RemoteRange(cfg, key)
    ensures forall id :: Covered(cfg, key, id) ==>
                           var m, n := Lookup(s.blocks, id), Noted(cfg, s, key, access, id);
                           n.version == m.version && (m.state != Invalid ==> n.state != Invalid)
  {
    hide Covered, Decide;
  }

  lemma SameGreatest(cfg: Config, s: Node, key: CacheKey, sched: Schedule)
    requires RemoteRange(cfg, key) && !ReadCached(s.entries, key, sched.ownerHits).hit
    ensures var r := OwnerAwareRead(cfg, MissState(cfg, s, key), key, IdsOf(cfg, key), sched.ownerHits);
            GreatestVersion(cfg, s.blocks, key, MaxVersion(r.s.blocks, IdsOf(cfg, key)))
  {
    hide ReadCached, OwnerAwareRead, MissState, Ids, Resolve, Observe, Covered, MaxVersion;
    var missed := MissState(cfg, s, key);
    var r := OwnerAwareRead(cfg, missed, key, IdsOf(cfg, key), sched.ownerHits);
    MissStateData(cfg, s, key);
    NotedFacts(cfg, s, key, ReadAccess);
    forall id | Covered(cfg, key, id)
      ensures Lookup(r.s.blocks, id).version == Lookup(s.blocks, id).version
    {
      MissedAt(cfg, s, key, id);
      OwnerAwareAt(cfg, missed, key, sched.ownerHits, id);
    }
    MaxVersionIsGreatest(cfg, r.s.blocks, key);
  }

  /**
    The ownership rules of a read, in every settled state: a miss is counted and,
    if it succeeds, validates the blocks; a redirected one also marks them owned
    at the greatest version; the owner is only set where it was unset.
   */
  lemma ReadRecord(cfg: Config, s: Node, key: CacheKey, sched: Schedule, id: BlockId)
    requires Settled(cfg, s) && MemOk(cfg, s.mem) && RemoteRange(cfg, key) && Lookup(s.blocks, id).state != Invalid
    ensures var m, after := Lookup(s.blocks, id), Lookup(Read(cfg, s, key, sched).s.blocks, id);
            if Covered(cfg, key, id)
            then && ReadRecordOf(cfg, s.blocks, m, after, key, EndOf(cfg, s, key, sched))
                 && ProfileIn(after) == ProfileIn(Noted(cfg, s, key, ReadAccess, id))
            else after == m
  {
    hide Access.Read, Profiled, Settled, MemOk, Ids, Resolve, Covered, Noted, ReadCached, GoesToThird, GreatestVersion;
    ProfiledAt(cfg, Quiet(cfg, s), key, ReadAccess, id);
    if Covered(cfg, key, id) {
      NotedIs(cfg, s, key, ReadAccess, id);
    }
    if ReadCached(s.entries, key, sched.hits).hit {
      HitRecord(cfg, s, key, sched);
    } else {
      MissRecord(cfg, s, key, sched, id);
    }
  }

  /**
    A record that an invalidation left invalid is shared again, and given back to
    its home, by the next missed read that its home answers, unless this node is
    recorded as the owner of the whole range.
   */
  lemma InvalidIsShared(cfg: Config, s: Node, key: CacheKey, sched: Schedule, id: BlockId)
    requires Settled(cfg, s) && MemOk(cfg, s.mem) && RemoteRange(cfg, key) && !ReadCached(s.entries, key, sched.hits).hit
    requires Read(cfg, s, key, sched).status == Ok && !GoesToThird(cfg, s, key)
    requires Covered(cfg, key, id) && Lookup(s.blocks, id).state == Invalid
    ensures var after, kept := Lookup(Read(cfg, s, key, sched).s.blocks, id), DominantOwner(s.blocks, IdsOf(cfg, key), key.addr.home) == cfg.nodeId;
            && after.state == (if kept then Invalid else Shared) && (!kept ==> after.owner == key.addr.home)
            && after.lastValidated == after.version == Lookup(s.blocks, id).version
  {
    hide Access.Read, ReadCached, OwnerAwareRead, MissState, Settled, MemOk, Ids, Resolve, Decide, Covered, UpdateAll,
         MaxVersion,
         GoesToThird, Reaches, Load, DominantOwner, AllValidated;
    var ids, range, missed := IdsOf(cfg, key), Resolve(cfg.blockSize, key.addr, key.size), MissState(cfg, s, key);
    var r := OwnerAwareRead(cfg, missed, key, ids, sched.ownerHits);
    HitIsStable(s.entries, key, sched.hits, sched.ownerHits);
    MissStateData(cfg, s, key);
    MissStateOwner(cfg, s, key);
    MissReply(cfg, s, key, sched);
    MissAnswers(cfg, s, key, sched);
    MissBlocks(cfg, s, key, sched);
    MissedAt(cfg, s, key, id);
    CoveredIds(cfg, key, id);
    OwnerAwareBlocks(cfg, missed, key, ids, sched.ownerHits);
    UpdateAt(cfg, missed.blocks, range, MarkValidated, id);
    UpdateAt(cfg, UpdateAll(cfg, missed.blocks, ids, MarkValidated), range, ShareInvalid(key.addr.home), id);
    FinishAt(cfg, r.s.blocks, key, false, false, id);
    FinishAt(cfg, r.s.blocks, key, false, true, id);
  }

  // -------------------------------------------------- local accesses, allocations

  /** What an accepted access of this node's memory leaves in a covered block. */
  predicate LocalRecordOf(cfg: Config, m: Meta, after: Meta, access: AccessType)
  {
    && after.owner == cfg.nodeId && after.state == Home
    && after.version == m.version + (if access.WriteAccess? then 1 else 0)
    && after.lastValidated == m.lastValidated && after.ownerEpoch == m.ownerEpoch
    && after.remoteMisses == m.remoteMisses && after.admitted == m.admitted
  }

  lemma LocalReadRecord(cfg: Config, s: Node, key: CacheKey, sched: Schedule, id: BlockId)
    requires Settled(cfg, s) && key.addr.home == cfg.nodeId && Accepted(cfg, s.mem.heap, key)
    ensures var m, after := Lookup(s.blocks, id), Lookup(Read(cfg, s, key, sched).s.blocks, id);
            if Covered(cfg, key, id)
            then LocalRecordOf(cfg, m, after, ReadAccess) && after == Noted(cfg, s, key, ReadAccess, id)
            else after == m
  {
    hide Profiled, Settled, Ids, Resolve, Decide, Covered, Accepts;
    ReadReduces(cfg, s, key, sched);
    ProfiledAt(cfg, Quiet(cfg, s), key, ReadAccess, id);
  }

  lemma LocalWriteRecord(cfg: Config, s: Node, addr: GlobalAddr, data: seq<byte>, sched: Schedule, id: BlockId)
    requires Settled(cfg, s) && addr.home == cfg.nodeId && Accepted(cfg, s.mem.heap, CacheKey(addr, |data|))
    ensures var key := CacheKey(addr, |data|);
            var m, after := Lookup(s.blocks, id), Lookup(Access.Write(cfg, s, addr, data, sched).s.blocks, id);
            if Covered(cfg, key, id)
            then LocalRecordOf(cfg, m, after, WriteAccess) && after == Noted(cfg, s, key, WriteAccess, id)
            else after == m
  {
    hide Profiled, Settled, Ids, Resolve, Decide, Covered, Accepts, StubNet.Write;
    WriteReduces(cfg, s, addr, data, sched);
    ProfiledAt(cfg, Quiet(cfg, s), CacheKey(addr, |data|), WriteAccess, id);
  }

  /** A granted allocation makes this node the home and owner of its blocks and changes no other record. */
  lemma MallocRecord(cfg: Config, s: Node, size: nat, id: BlockId)
    ensures var (s', addr) := Malloc(cfg, s, size); var m := Lookup(s.blocks, id);
            Lookup(s'.blocks, id) ==
            if addr.IsValid() && size > 0 && cfg.blockSize > 0 && Covered(cfg, CacheKey(addr, size), id)
            then m.(state := Home, owner := cfg.nodeId) else m
  {
    hide Accepts, UpdateAll, Ids, Resolve, Covered;
    var addr := Allocate(cfg, s.mem.heap, size).1;
    if size > 0 && cfg.blockSize > 0 {
      CoveredIds(cfg, CacheKey(addr, size), id);
      UpdateAt(cfg, s.blocks, Resolve(cfg.blockSize, addr, size), Adopt, id);
    }
  }

  /** A call that is no accepted access, allocation or restart changes no record. */
  lemma OtherCallsKeepRecords(cfg: Config, s: Node, call: Call)
    requires Settled(cfg, s) && !call.CallMalloc? && !call.CallRestart?
    requires call.CallRead? || call.CallWrite? ==> !Accepted(cfg, s.mem.heap, call.Key())
    ensures Exec(cfg, s, call).s.blocks == s.blocks && Exec(cfg, s, call).s.epoch == s.epoch
  {
    hide RemoteRead, RemoteWrite, LocalRead, LocalWrite, Settled, Accepts;
    match call
    case CallRead(key, sched) => ReadReduces(cfg, s, key, sched);
    case CallWrite(addr, data, sched) => WriteReduces(cfg, s, addr, data, sched);
    case CallFence(sched) => FenceKeepsCache(cfg, s, sched);
  }
}
