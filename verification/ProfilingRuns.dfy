/**
  The profiling laws over whole runs of client calls: conservation of the
  access counts, and how often one block can be admitted to the cache.
 */
module ProfilingRuns {
  import opened Types
  import opened Counters
  import opened Profiling
  import opened BlockRanges
  import opened Allocator
  import opened StubNet
  import opened Access
  import opened Frames
  import opened StubControl
  import opened Owners
  import opened CacheRuns

  ghost predicate ConservedNode(cfg: Config, s: Node)
  {
    Conserved(cfg, s.blocks, s.epoch)
  }

  /** Every access is decided once, in one mode; every remote read is a hit, an admission or a rejection. */
  predicate CountsAgree(epoch: nat, stats: Stats)
  {
    var ok :=
      && stats.modeWI + stats.modeSI + stats.modeAdaptive == epoch
      && stats.remoteReads == stats.hits + stats.admissions + stats.rejections;
    ok
  }

  lemma {:induction false} UpdateConserves(cfg: Config, blocks: Blocks, ids: seq<BlockId>, u: Update, epoch: nat)
    requires Conserved(cfg, blocks, epoch) && !u.RemoteInvalidate? && !u.RemoteTransfer?
    ensures Conserved(cfg, UpdateAll(cfg, blocks, ids, u), epoch)
    decreases |ids|
  {
    if ids != [] {
      var m := UpdateOne(cfg, Lookup(blocks, ids[0]), u);
      SameProfileConserves(cfg, blocks, epoch, ids[0], m);
      UpdateConserves(cfg, blocks[ids[0] := m], ids[1..], u, epoch);
    }
  }

  lemma {:induction false} ObserveAllConserves(cfg: Config, o: Observed, ids: seq<BlockId>, access: AccessType, local: bool)
    requires Conserved(cfg, o.blocks, o.epoch)
    ensures var r := ObserveAll(cfg, o, ids, access, local); Conserved(cfg, r.blocks, r.epoch)
    decreases |ids|
  {
    if ids != [] {
      var m := Lookup(o.blocks, ids[0]);
      ObserveAdvances(cfg, m, o.epoch + 1, access, local);
      AdvanceConserves(cfg, o.blocks, o.epoch, ids[0], Observe(cfg, m, o.epoch + 1, access, local));
      ObserveAllConserves(cfg, ObserveOne(cfg, o, ids[0], access, local), ids[1..], access, local);
    }
  }

  lemma {:induction false} ApplyConserves(cfg: Config, a: Applied, ids: seq<BlockId>, modes: seq<CoherenceMode>, home: NodeId, epoch: nat)
    requires |ids| == |modes| && Conserved(cfg, a.blocks, epoch)
    ensures Conserved(cfg, ApplyWrites(cfg, a, ids, modes, home).blocks, epoch)
    decreases |ids|
  {
    if ids != [] {
      var m := Lookup(a.blocks, ids[0]);
      var w := WriteOne(cfg, m, modes[0], home);
      SameProfileConserves(cfg, a.blocks, epoch, ids[0], w);
      ApplyConserves(cfg, ApplyWrite(cfg, a, ids[0], modes[0], home), ids[1..], modes[1..], home, epoch);
    }
  }

  lemma ProfiledConserves(cfg: Config, s: Node, key: CacheKey, ids: seq<BlockId>, access: AccessType)
    requires ConservedNode(cfg, s)
    ensures ConservedNode(cfg, WithProfile(s, Profiled(cfg, s, key, ids, access)))
  {
    var u := Prepare(key.addr.home, access);
    UpdateConserves(cfg, s.blocks, ids, u, s.epoch);
    ObserveAllConserves(cfg, Observed(UpdateAll(cfg, s.blocks, ids, u), s.epoch, s.stats, []), ids, access,
                        key.addr.home == cfg.nodeId);
  }

  lemma HomeReadConserves(cfg: Config, s: Node, key: CacheKey, ids: seq<BlockId>, share: bool)
    requires ConservedNode(cfg, s)
    ensures ConservedNode(cfg, HomeRead(cfg, s, key, ids, share).s)
  {
    UpdateConserves(cfg, s.blocks, ids, MarkValidated, s.epoch);
    UpdateConserves(cfg, UpdateAll(cfg, s.blocks, ids, MarkValidated), ids, ShareInvalid(key.addr.home), s.epoch);
  }

  lemma OwnerAwareReadConserves(cfg: Config, s: Node, key: CacheKey, ids: seq<BlockId>, schedule: seq<CacheKey>)
    requires ConservedNode(cfg, s)
    ensures ConservedNode(cfg, OwnerAwareRead(cfg, s, key, ids, schedule).s)
  {
    var via := s.(mem := Opened(cfg, s.mem, DominantOwner(s.blocks, ids, key.addr.home)));
    OwnerAwareReadCases(cfg, s, key, ids, schedule);
    HomeReadConserves(cfg, s, key, ids, false);
    HomeReadConserves(cfg, s, key, ids, true);
    HomeReadConserves(cfg, via, key, ids, true);
    UpdateConserves(cfg, s.blocks, ids, MarkValidated, s.epoch);
  }

  lemma FinishReadConserves(cfg: Config, r: OwnerReply, key: CacheKey, ids: seq<BlockId>, modes: seq<CoherenceMode>)
    requires ConservedNode(cfg, r.s)
    ensures ConservedNode(cfg, FinishRead(cfg, r, key, ids, modes).s)
  {
    var u := TakeOwner(MaxVersion(r.s.blocks, ids));
    UpdateConserves(cfg, r.s.blocks, ids, u, r.s.epoch);
    var owned := if r.redirected then UpdateAll(cfg, r.s.blocks, ids, u) else r.s.blocks;
    UpdateConserves(cfg, owned, ids, MarkAdmitted, r.s.epoch);
  }

  lemma RemoteReadConserves(cfg: Config, s: Node, key: CacheKey, ids: seq<BlockId>, sched: Schedule)
    requires ConservedNode(cfg, s)
    ensures ConservedNode(cfg, RemoteRead(cfg, s, key, ids, sched).s)
  {
    hide Profiled, OwnerAwareRead, FinishRead, UpdateAll;
    ProfiledConserves(cfg, s, key, ids, ReadAccess);
    var o := Profiled(cfg, s, key, ids, ReadAccess);
    var s1 := WithProfile(s, o);
    UpdateConserves(cfg, s1.blocks, ids, CountMiss, s1.epoch);
    var missed := Missed(cfg, s1, ids);
    OwnerAwareReadConserves(cfg, missed, key, ids, sched.ownerHits);
    FinishReadConserves(cfg, OwnerAwareRead(cfg, missed, key, ids, sched.ownerHits), key, ids, o.modes);
  }

  lemma RemoteWriteConserves(cfg: Config, s: Node, addr: GlobalAddr, data: seq<byte>, range: BlockRange)
    requires ConservedNode(cfg, s)
    ensures ConservedNode(cfg, RemoteWrite(cfg, s, addr, data, range).s)
  {
    var key, ids := CacheKey(addr, |data|), Ids(range);
    ProfiledConserves(cfg, s, key, ids, WriteAccess);
    var o := Profiled(cfg, s, key, ids, WriteAccess);
    ApplyConserves(cfg, Applied(o.blocks, false, false), ids, o.modes, addr.home, o.epoch);
    WriteMetadataIsFinal(cfg, s, addr, data, range);
  }

  lemma ReadConserves(cfg: Config, s: Node, key: CacheKey, sched: Schedule)
    requires Settled(cfg, s) && ConservedNode(cfg, s)
    ensures ConservedNode(cfg, Read(cfg, s, key, sched).s)
  {
    ReadReduces(cfg, s, key, sched);
    var q := Quiet(cfg, s);
    if key.size != 0 && cfg.blockSize != 0 {
      var ids := Ids(Resolve(cfg.blockSize, key.addr, key.size));
      ProfiledConserves(cfg, q, key, ids, ReadAccess);
      RemoteReadConserves(cfg, q, key, ids, sched);
    }
  }

  lemma WriteConserves(cfg: Config, s: Node, addr: GlobalAddr, data: seq<byte>, sched: Schedule)
    requires Settled(cfg, s) && ConservedNode(cfg, s)
    ensures ConservedNode(cfg, Access.Write(cfg, s, addr, data, sched).s)
  {
    WriteReduces(cfg, s, addr, data, sched);
    var q, key := Quiet(cfg, s), CacheKey(addr, |data|);
    if data != [] && cfg.blockSize != 0 {
      var range := Resolve(cfg.blockSize, addr, |data|);
      ProfiledConserves(cfg, q, key, Ids(range), WriteAccess);
      RemoteWriteConserves(cfg, q, addr, data, range);
    }
  }

  lemma MallocConserves(cfg: Config, s: Node, size: nat)
    requires ConservedNode(cfg, s)
    ensures ConservedNode(cfg, Malloc(cfg, s, size).0)
  {
    MallocFrame(cfg, s, size);
    if size > 0 && cfg.blockSize > 0 {
      var addr := Allocate(cfg, s.mem.heap, size).1;
      UpdateConserves(cfg, s.blocks, Ids(Resolve(cfg.blockSize, addr, size)), Adopt, s.epoch);
    }
  }

  /**
    Conservation in every run and configuration: the blocks' access counts sum
    to the epoch, and those of the blocks in the current window to the accesses
    of that window.
   */
  lemma {:induction false} AlwaysConserved(cfg: Config, calls: seq<Call>)
    ensures var s := After(cfg, calls); Conserved(cfg, s.blocks, s.epoch)
  {
    hide Access.Read, Access.Write, Access.Fence, Access.Malloc;
    if calls != [] {
      var before, call := calls[..|calls| - 1], calls[|calls| - 1];
      AlwaysConserved(cfg, before);
      AlwaysSettled(cfg, before);
      var s := After(cfg, before);
      match call
      case CallMalloc(size) => MallocConserves(cfg, s, size);
      case CallRead(key, sched) => ReadConserves(cfg, s, key, sched);
      case CallWrite(addr, data, sched) => WriteConserves(cfg, s, addr, data, sched);
      case CallFence(sched) => FenceKeepsCache(cfg, s, sched);
      case CallRestart =>
    }
  }

  // ------------------------------------------------------ mode and read counters

  lemma {:induction false} ObserveAllCounts(cfg: Config, o: Observed, ids: seq<BlockId>, access: AccessType, local: bool)
    requires CountsAgree(o.epoch, o.stats)
    ensures var r := ObserveAll(cfg, o, ids, access, local); CountsAgree(r.epoch, r.stats)
    decreases |ids|
  {
    if ids != [] {
      ObserveAllCounts(cfg, ObserveOne(cfg, o, ids[0], access, local), ids[1..], access, local);
    }
  }

  lemma ProfiledCounts(cfg: Config, s: Node, key: CacheKey, ids: seq<BlockId>, access: AccessType)
    requires CountsAgree(s.epoch, s.stats)
    ensures var o := Profiled(cfg, s, key, ids, access); CountsAgree(o.epoch, o.stats)
  {
    var prepared := UpdateAll(cfg, s.blocks, ids, Prepare(key.addr.home, access));
    ObserveAllCounts(cfg, Observed(prepared, s.epoch, s.stats, []), ids, access, key.addr.home == cfg.nodeId);
  }

  lemma RemoteReadCounts(cfg: Config, s: Node, key: CacheKey, ids: seq<BlockId>, sched: Schedule)
    requires CountsAgree(s.epoch, s.stats)
    ensures var r := RemoteRead(cfg, s, key, ids, sched).s; CountsAgree(r.epoch, r.stats)
  {
    hide Profiled, OwnerAwareRead, UpdateAll, Admits;
    ProfiledCounts(cfg, s, key, ids, ReadAccess);
    var missed := Missed(cfg, WithProfile(s, Profiled(cfg, s, key, ids, ReadAccess)), ids);
    OwnerAwareReadFrame(cfg, missed, key, ids, sched.ownerHits);
  }

  /** The counters CountsAgree looks at. */
  predicate SameCounts(a: Stats, b: Stats)
  {
    var ok :=
      && a.modeWI == b.modeWI && a.modeSI == b.modeSI && a.modeAdaptive == b.modeAdaptive
      && a.remoteReads == b.remoteReads && a.hits == b.hits
      && a.admissions == b.admissions && a.rejections == b.rejections;
    ok
  }

  lemma {:induction false} FlagsKeepCounts(stats: Stats, writes: seq<WriteCombining.PendingWrite>)
    ensures SameCounts(CountFlags(stats, writes), stats)
    decreases |writes|
  {
    if writes != [] {
      var w := writes[0];
      var s1 := if w.ownerBiased then stats.(ownerBiasedWrites := stats.ownerBiasedWrites + 1) else stats;
      var s2 := if w.ownerHandoff then s1.(ownerHandoffs := s1.ownerHandoffs + 1) else s1;
      FlagsKeepCounts(s2, writes[1..]);
    }
  }

  lemma FlushKeepsCounts(cfg: Config, s: Node, node: NodeId)
    ensures SameCounts(Flush(cfg, s, node).s.stats, s.stats)
  {
    FlagsKeepCounts(s.stats, Queue(s.queues, node));
  }

  lemma {:induction false} FlushAllKeepsCounts(cfg: Config, s: Node, todo: set<NodeId>, schedule: seq<NodeId>)
    ensures SameCounts(FlushAll(cfg, s, todo, schedule).s.stats, s.stats)
    decreases |todo|
  {
    if todo != {} {
      var node := Pick(todo, schedule);
      FlushKeepsCounts(cfg, s, node);
      var r := Flush(cfg, s, node);
      if r.status == Ok {
        FlushAllKeepsCounts(cfg, r.s, todo - {node}, Rest(schedule));
      }
    }
  }

  lemma CountsTransitive(a: Stats, b: Stats, c: Stats)
    requires SameCounts(a, b) && SameCounts(b, c)
    ensures SameCounts(a, c)
  {
  }

  lemma QueueWriteKeepsCounts(cfg: Config, s: Node, addr: GlobalAddr, data: seq<byte>, f: WriteFlags)
    ensures SameCounts(QueueWrite(cfg, s, addr, data, f).s.stats, s.stats)
  {
    var s1 := Enqueued(cfg, s, addr, data, f);
    assert SameCounts(s1.stats, s.stats);
    if FlushDue(cfg, s1, addr.home, f.modes) {
      var s2 := Flush(cfg, s1, addr.home).s;
      FlushKeepsCounts(cfg, s1, addr.home);
      CountsTransitive(s2.stats, s1.stats, s.stats);
      CountsTransitive(s2.stats.Write(false), s2.stats, s.stats);
    } else {
      CountsTransitive(s1.stats.Write(false), s1.stats, s.stats);
    }
  }

  lemma DeliveryKeepsCounts(cfg: Config, s: Node, addr: GlobalAddr, data: seq<byte>, f: WriteFlags)
    ensures SameCounts(QueueWrite(cfg, s, addr, data, f).s.stats, s.stats)
    ensures SameCounts(DirectWrite(cfg, s, addr, data).s.stats, s.stats)
  {
    QueueWriteKeepsCounts(cfg, s, addr, data, f);
  }

  lemma RemoteWriteCounts(cfg: Config, s: Node, addr: GlobalAddr, data: seq<byte>, range: BlockRange)
    requires CountsAgree(s.epoch, s.stats)
    ensures var r := RemoteWrite(cfg, s, addr, data, range).s; CountsAgree(r.epoch, r.stats)
  {
    var key := CacheKey(addr, |data|);
    ProfiledCounts(cfg, s, key, Ids(range), WriteAccess);
    AnnouncedFrame(cfg, s, key, range);
    RemoteWriteFrame(cfg, s, addr, data, range);
    RemoteWriteStages(cfg, s, addr, data, range);
    DeliveryKeepsCounts(cfg, Announced(cfg, s, key, range), addr, data, FlagsOf(cfg, s, key, range));
  }

  lemma ReadCounts(cfg: Config, s: Node, key: CacheKey, sched: Schedule)
    requires Settled(cfg, s) && CountsAgree(s.epoch, s.stats)
    ensures var r := Read(cfg, s, key, sched).s; CountsAgree(r.epoch, r.stats)
  {
    ReadReduces(cfg, s, key, sched);
    var q := Quiet(cfg, s);
    if key.size != 0 && cfg.blockSize != 0 {
      var ids := Ids(Resolve(cfg.blockSize, key.addr, key.size));
      ProfiledCounts(cfg, q, key, ids, ReadAccess);
      RemoteReadCounts(cfg, q, key, ids, sched);
    }
  }

  lemma WriteCounts(cfg: Config, s: Node, addr: GlobalAddr, data: seq<byte>, sched: Schedule)
    requires Settled(cfg, s) && CountsAgree(s.epoch, s.stats)
    ensures var r := Access.Write(cfg, s, addr, data, sched).s; CountsAgree(r.epoch, r.stats)
  {
    WriteReduces(cfg, s, addr, data, sched);
    var q, key := Quiet(cfg, s), CacheKey(addr, |data|);
    if data != [] && cfg.blockSize != 0 {
      var range := Resolve(cfg.blockSize, addr, |data|);
      ProfiledCounts(cfg, q, key, Ids(range), WriteAccess);
      RemoteWriteCounts(cfg, q, addr, data, range);
    }
  }

  lemma FenceCounts(cfg: Config, s: Node, sched: Schedule)
    requires Settled(cfg, s)
    ensures SameCounts(Fence(cfg, s, sched).s.stats, s.stats)
  {
    FenceReduces(cfg, s, sched);
    FlushAllKeepsCounts(cfg, Quiet(cfg, s), PendingDestinations(s.queues), sched.destinations);
  }

  lemma CallCounts(cfg: Config, s: Node, call: Call)
    requires Settled(cfg, s) && CountsAgree(s.epoch, s.stats) && !call.CallRestart?
    ensures var r := Exec(cfg, s, call).s; CountsAgree(r.epoch, r.stats)
  {
    match call
    case CallMalloc(size) => MallocFrame(cfg, s, size);
    case CallRead(key, sched) => ReadCounts(cfg, s, key, sched);
    case CallWrite(addr, data, sched) => WriteCounts(cfg, s, addr, data, sched);
    case CallFence(sched) =>
      FenceKeepsCache(cfg, s, sched);
      FenceCounts(cfg, s, sched);
  }

  /**
    In every run and configuration the three mode counters sum to the access
    epoch, and each remote read is exactly one of hit, admission and rejection.
   */
  lemma {:induction false} AlwaysCounted(cfg: Config, calls: seq<Call>)
    ensures var s := After(cfg, calls); CountsAgree(s.epoch, s.stats)
  {
    hide Access.Read, Access.Write, Access.Fence, Access.Malloc;
    if calls != [] {
      var before, call := calls[..|calls| - 1], calls[|calls| - 1];
      AlwaysCounted(cfg, before);
      AlwaysSettled(cfg, before);
      if !call.CallRestart? {
        CallCounts(cfg, After(cfg, before), call);
      }
    }
  }

  // ------------------------------------------------------ bounds of one block

  /** The part of a record that only profiling changes. */
  datatype Profile = Profile(mode: CoherenceMode, lastEpoch: nat, readCount: nat, writeCount: nat, invalidations: nat,
                             sharers: nat, windowId: nat, windowReads: nat, windowWrites: nat, phaseChanges: nat,
                             reuseDistance: nat, lastType: AccessType, switches: nat)

  function ProfileIn(m: Meta): Profile
  {
    Profile(m.mode, m.lastEpoch, m.readCount, m.writeCount, m.invalidationCost, m.sharers, m.windowId,
            m.windowReads, m.windowWrites, m.phaseChanges, m.reuseDistance, m.lastType, m.switches)
  }

  function ProfileOf(blocks: Blocks, id: BlockId): Profile
  {
    ProfileIn(Lookup(blocks, id))
  }

  lemma SameProfileBounded(cfg: Config, a: Blocks, b: Blocks, id: BlockId)
    requires ProfileOf(a, id) == ProfileOf(b, id) && Bounded(cfg, Lookup(a, id))
    ensures Bounded(cfg, Lookup(b, id))
  {
  }

  lemma {:induction false} UpdateKeepsProfile(cfg: Config, blocks: Blocks, ids: seq<BlockId>, u: Update, id: BlockId)
    requires !u.RemoteInvalidate? && !u.RemoteTransfer?
    ensures ProfileOf(UpdateAll(cfg, blocks, ids, u), id) == ProfileOf(blocks, id)
    decreases |ids|
  {
    if ids != [] {
      UpdateKeepsProfile(cfg, blocks[ids[0] := UpdateOne(cfg, Lookup(blocks, ids[0]), u)], ids[1..], u, id);
    }
  }

  lemma {:induction false} ApplyKeepsProfile(cfg: Config, a: Applied, ids: seq<BlockId>, modes: seq<CoherenceMode>, home: NodeId, id: BlockId)
    requires |ids| == |modes|
    ensures ProfileOf(ApplyWrites(cfg, a, ids, modes, home).blocks, id) == ProfileOf(a.blocks, id)
    decreases |ids|
  {
    if ids != [] {
      ApplyKeepsProfile(cfg, ApplyWrite(cfg, a, ids[0], modes[0], home), ids[1..], modes[1..], home, id);
    }
  }

  lemma HomeReadKeepsProfile(cfg: Config, s: Node, key: CacheKey, ids: seq<BlockId>, share: bool, id: BlockId)
    ensures ProfileOf(HomeRead(cfg, s, key, ids, share).s.blocks, id) == ProfileOf(s.blocks, id)
  {
    UpdateKeepsProfile(cfg, s.blocks, ids, MarkValidated, id);
    UpdateKeepsProfile(cfg, UpdateAll(cfg, s.blocks, ids, MarkValidated), ids, ShareInvalid(key.addr.home), id);
  }

  lemma OwnerAwareReadKeepsProfile(cfg: Config, s: Node, key: CacheKey, ids: seq<BlockId>, schedule: seq<CacheKey>, id: BlockId)
    ensures ProfileOf(OwnerAwareRead(cfg, s, key, ids, schedule).s.blocks, id) == ProfileOf(s.blocks, id)
  {
    var via := s.(mem := Opened(cfg, s.mem, DominantOwner(s.blocks, ids, key.addr.home)));
    OwnerAwareReadCases(cfg, s, key, ids, schedule);
    HomeReadKeepsProfile(cfg, s, key, ids, false, id);
    HomeReadKeepsProfile(cfg, s, key, ids, true, id);
    HomeReadKeepsProfile(cfg, via, key, ids, true, id);
    UpdateKeepsProfile(cfg, s.blocks, ids, MarkValidated, id);
  }

  lemma FinishReadKeepsProfile(cfg: Config, r: OwnerReply, key: CacheKey, ids: seq<BlockId>, modes: seq<CoherenceMode>, id: BlockId)
    ensures ProfileOf(FinishRead(cfg, r, key, ids, modes).s.blocks, id) == ProfileOf(r.s.blocks, id)
  {
    var u := TakeOwner(MaxVersion(r.s.blocks, ids));
    UpdateKeepsProfile(cfg, r.s.blocks, ids, u, id);
    var owned := if r.redirected then UpdateAll(cfg, r.s.blocks, ids, u) else r.s.blocks;
    UpdateKeepsProfile(cfg, owned, ids, MarkAdmitted, id);
  }

  /** A remote read changes a block's profile exactly as profiling the access does. */
  lemma RemoteReadProfile(cfg: Config, s: Node, key: CacheKey, ids: seq<BlockId>, sched: Schedule, id: BlockId)
    ensures ProfileOf(RemoteRead(cfg, s, key, ids, sched).s.blocks, id) ==
            ProfileOf(Profiled(cfg, s, key, ids, ReadAccess).blocks, id)
  {
    hide Profiled, OwnerAwareRead, UpdateAll, FinishRead, ProfileIn;
    var o := Profiled(cfg, s, key, ids, ReadAccess);
    var s1 := WithProfile(s, o);
    UpdateKeepsProfile(cfg, s1.blocks, ids, CountMiss, id);
    var missed := Missed(cfg, s1, ids);
    OwnerAwareReadKeepsProfile(cfg, missed, key, ids, sched.ownerHits, id);
    FinishReadKeepsProfile(cfg, OwnerAwareRead(cfg, missed, key, ids, sched.ownerHits), key, ids, o.modes, id);
  }

  lemma RemoteWriteProfile(cfg: Config, s: Node, addr: GlobalAddr, data: seq<byte>, range: BlockRange, id: BlockId)
    ensures ProfileOf(RemoteWrite(cfg, s, addr, data, range).s.blocks, id) ==
            ProfileOf(Profiled(cfg, s, CacheKey(addr, |data|), Ids(range), WriteAccess).blocks, id)
  {
    var o := Profiled(cfg, s, CacheKey(addr, |data|), Ids(range), WriteAccess);
    ApplyKeepsProfile(cfg, Applied(o.blocks, false, false), Ids(range), o.modes, addr.home, id);
    WriteMetadataIsFinal(cfg, s, addr, data, range);
  }

  /** The profile of a block after an access call: untouched, or as profiling the access leaves it. */
  ghost predicate ProfiledOrSame(cfg: Config, s: Node, after: Node, key: CacheKey, access: AccessType, id: BlockId)
  {
    || ProfileOf(after.blocks, id) == ProfileOf(s.blocks, id)
    || (key.size > 0 && cfg.blockSize > 0 &&
        ProfileOf(after.blocks, id) ==
        ProfileOf(Profiled(cfg, Quiet(cfg, s), key, Ids(Resolve(cfg.blockSize, key.addr, key.size)), access).blocks, id))
  }

  lemma ReadProfile(cfg: Config, s: Node, key: CacheKey, sched: Schedule, id: BlockId)
    requires Settled(cfg, s)
    ensures ProfiledOrSame(cfg, s, Read(cfg, s, key, sched).s, key, ReadAccess, id)
  {
    ReadReduces(cfg, s, key, sched);
    if key.size != 0 && cfg.blockSize != 0 {
      RemoteReadProfile(cfg, Quiet(cfg, s), key, Ids(Resolve(cfg.blockSize, key.addr, key.size)), sched, id);
    }
  }

  lemma WriteProfile(cfg: Config, s: Node, addr: GlobalAddr, data: seq<byte>, sched: Schedule, id: BlockId)
    requires Settled(cfg, s)
    ensures ProfiledOrSame(cfg, s, Access.Write(cfg, s, addr, data, sched).s, CacheKey(addr, |data|), WriteAccess, id)
  {
    hide RemoteWrite, Profiled, Settled, Accepts;
    WriteReduces(cfg, s, addr, data, sched);
    if data != [] && cfg.blockSize != 0 {
      RemoteWriteProfile(cfg, Quiet(cfg, s), addr, data, Resolve(cfg.blockSize, addr, |data|), id);
    }
  }

  lemma {:induction false} ObserveKeepsBounds(cfg: Config, o: Observed, ids: seq<BlockId>, access: AccessType, local: bool, id: BlockId)
    requires Bounded(cfg, Lookup(o.blocks, id))
    ensures Bounded(cfg, Lookup(ObserveAll(cfg, o, ids, access, local).blocks, id))
    decreases |ids|
  {
    if ids != [] {
      ObserveBounded(cfg, Lookup(o.blocks, id), o.epoch + 1, access, local);
      ObserveKeepsBounds(cfg, ObserveOne(cfg, o, ids[0], access, local), ids[1..], access, local, id);
    }
  }

  lemma AccessKeepsBounds(cfg: Config, s: Node, after: Node, key: CacheKey, access: AccessType, id: BlockId)
    requires Bounded(cfg, Lookup(s.blocks, id)) && ProfiledOrSame(cfg, s, after, key, access, id)
    ensures Bounded(cfg, Lookup(after.blocks, id))
  {
    if ProfileOf(after.blocks, id) == ProfileOf(s.blocks, id) {
      SameProfileBounded(cfg, s.blocks, after.blocks, id);
    } else {
      var ids, u, q := Ids(Resolve(cfg.blockSize, key.addr, key.size)), Prepare(key.addr.home, access), Quiet(cfg, s);
      var prepared := UpdateAll(cfg, s.blocks, ids, u);
      UpdateKeepsProfile(cfg, s.blocks, ids, u, id);
      SameProfileBounded(cfg, s.blocks, prepared, id);
      ObserveKeepsBounds(cfg, Observed(prepared, s.epoch, s.stats, []), ids, access, key.addr.home == cfg.nodeId, id);
      SameProfileBounded(cfg, Profiled(cfg, q, key, ids, access).blocks, after.blocks, id);
    }
  }

  lemma CallBounds(cfg: Config, s: Node, call: Call, id: BlockId)
    requires Settled(cfg, s) && Bounded(cfg, Lookup(s.blocks, id)) && !call.CallRestart?
    ensures Bounded(cfg, Lookup(Exec(cfg, s, call).s.blocks, id))
  {
    var after := Exec(cfg, s, call).s;
    match call
    case CallMalloc(size) =>
      MallocFrame(cfg, s, size);
      if size > 0 && cfg.blockSize > 0 {
        var addr := Allocate(cfg, s.mem.heap, size).1;
        UpdateKeepsProfile(cfg, s.blocks, Ids(Resolve(cfg.blockSize, addr, size)), Adopt, id);
      }
      SameProfileBounded(cfg, s.blocks, after.blocks, id);
    case CallRead(key, sched) =>
      ReadProfile(cfg, s, key, sched, id);
      AccessKeepsBounds(cfg, s, after, key, ReadAccess, id);
    case CallWrite(addr, data, sched) =>
      WriteProfile(cfg, s, addr, data, sched, id);
      AccessKeepsBounds(cfg, s, after, CacheKey(addr, |data|), WriteAccess, id);
    case CallFence(sched) => FenceKeepsCache(cfg, s, sched);
  }

  /**
    In every run: phase changes never exceed the block's accesses in its
    window, invalidations never its writes, sharers never its reads; an
    accessed block has a non-empty window; and without an override a block past
    a promotion threshold is not in SI mode.
   */
  lemma {:induction false} AlwaysBounded(cfg: Config, calls: seq<Call>, id: BlockId)
    ensures Bounded(cfg, Lookup(After(cfg, calls).blocks, id))
  {
    if calls != [] {
      var before := calls[..|calls| - 1];
      AlwaysBounded(cfg, before, id);
      AlwaysSettled(cfg, before);
      if !calls[|calls| - 1].CallRestart? {
        CallBounds(cfg, After(cfg, before), calls[|calls| - 1], id);
      }
    }
  }

  // ---------------------------------------------------- promotion over runs

  lemma {:induction false} ObserveKeepsPromotion(cfg: Config, o: Observed, ids: seq<BlockId>, access: AccessType, local: bool,
                                                 id: BlockId)
    requires PastPromotion(cfg, Lookup(o.blocks, id))
    ensures PastPromotion(cfg, Lookup(ObserveAll(cfg, o, ids, access, local).blocks, id))
    decreases |ids|
  {
    hide Decide, Stats.Mode;
    if ids != [] {
      ObserveKeepsPromotion(cfg, ObserveOne(cfg, o, ids[0], access, local), ids[1..], access, local, id);
    }
  }

  lemma AccessKeepsPromotion(cfg: Config, s: Node, after: Node, key: CacheKey, access: AccessType, id: BlockId)
    requires PastPromotion(cfg, Lookup(s.blocks, id)) && ProfiledOrSame(cfg, s, after, key, access, id)
    ensures PastPromotion(cfg, Lookup(after.blocks, id))
  {
    hide UpdateAll, ObserveAll;
    if ProfileOf(after.blocks, id) != ProfileOf(s.blocks, id) {
      var ids, u := Ids(Resolve(cfg.blockSize, key.addr, key.size)), Prepare(key.addr.home, access);
      var prepared := UpdateAll(cfg, s.blocks, ids, u);
      UpdateKeepsProfile(cfg, s.blocks, ids, u, id);
      ObserveKeepsPromotion(cfg, Observed(prepared, s.epoch, s.stats, []), ids, access, key.addr.home == cfg.nodeId, id);
    }
  }

  lemma CallKeepsPromotion(cfg: Config, s: Node, call: Call, id: BlockId)
    requires Settled(cfg, s) && PastPromotion(cfg, Lookup(s.blocks, id)) && !call.CallRestart?
    ensures PastPromotion(cfg, Lookup(Exec(cfg, s, call).s.blocks, id))
  {
    hide Access.Read, Access.Write, Access.Fence, Access.Malloc, ProfiledOrSame, UpdateAll;
    var after := Exec(cfg, s, call).s;
    match call
    case CallMalloc(size) =>
      MallocFrame(cfg, s, size);
      if size > 0 && cfg.blockSize > 0 {
        var addr := Allocate(cfg, s.mem.heap, size).1;
        UpdateKeepsProfile(cfg, s.blocks, Ids(Resolve(cfg.blockSize, addr, size)), Adopt, id);
      }
      assert ProfileOf(after.blocks, id) == ProfileOf(s.blocks, id);
    case CallRead(key, sched) =>
      ReadProfile(cfg, s, key, sched, id);
      AccessKeepsPromotion(cfg, s, after, key, ReadAccess, id);
    case CallWrite(addr, data, sched) =>
      WriteProfile(cfg, s, addr, data, sched, id);
      AccessKeepsPromotion(cfg, s, after, CacheKey(addr, |data|), WriteAccess, id);
    case CallFence(sched) => FenceKeepsCache(cfg, s, sched);
  }

  predicate NoRestart(calls: seq<Call>)
  {
    forall k :: 0 <= k < |calls| ==> !calls[k].CallRestart?
  }

  /**
    Promotion is irreversible over runs: without an override, once a block is
    past the sharer or invalidation threshold it stays past it and is never in
    SI mode again, whatever calls follow, until a restart.
   */
  lemma {:induction false} PromotionLasts(cfg: Config, calls: seq<Call>, more: seq<Call>, id: BlockId)
    requires !Overridden(cfg) && NoRestart(more) && PastPromotion(cfg, Lookup(After(cfg, calls).blocks, id))
    ensures var m := Lookup(After(cfg, calls + more).blocks, id); PastPromotion(cfg, m) && m.mode != SI
  {
    hide Exec, PastPromotion;
    AlwaysBounded(cfg, calls + more, id);
    if more == [] {
      assert calls + more == calls;
    } else {
      var k := |more| - 1;
      var before, call := calls + more[..k], more[k];
      assert (calls + more)[..|calls| + k] == before;
      PromotionLasts(cfg, calls, more[..k], id);
      AlwaysSettled(cfg, before);
      CallKeepsPromotion(cfg, After(cfg, before), call, id);
    }
  }

  /**
    In every run, for every block that was ever accessed: the empty-window tests
    and the last conjunct of the admission test make no difference.
   */
  lemma DeadTestsInRuns(cfg: Config, calls: seq<Call>, id: BlockId)
    requires Lookup(After(cfg, calls).blocks, id).lastEpoch != 0
    ensures var m := Lookup(After(cfg, calls).blocks, id);
            && m.WindowTotal() > 0 && Decide(cfg, m) == DecideByRatios(cfg, m)
            && (cfg.enableCache && cfg.admissionPolicy !in {1, 2} ==> (ShouldCache(cfg, m) <==> AdmitByProfile(cfg, m)))
  {
    AlwaysBounded(cfg, calls, id);
    DeadTests(cfg, Lookup(After(cfg, calls).blocks, id));
  }
}
