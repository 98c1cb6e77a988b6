/**
  What every call adds to every statistics counter, in every run
  (src/stats/counters.cc, as the API calls it), said through the status of
  the call and the cache, queues and block records it finds and leaves.
 */
module CallStats {
  import opened Types
  import opened Counters
  import opened WriteCombining
  import opened LruCache
  import opened Profiling
  import opened BlockRanges
  import opened Allocator
  import opened StubNet
  import opened Access
  import opened Frames
  import opened StubControl
  import opened Redirection
  import opened Ownership
  import opened ProfilingRuns
  import opened Records
  import opened AdmissionRules
  import opened WriteOutcomes

  // ------------------------------------------------------- blocks by their mode

  /** How many of the blocks are in the mode. */
  function Holding(blocks: Blocks, ids: seq<BlockId>, mode: CoherenceMode): nat
  {
    if ids == [] then 0
    else
      var n := |ids| - 1;
      Holding(blocks, ids[..n], mode) + if Lookup(blocks, ids[n]).mode == mode then 1 else 0
  }

  /** How many of the blocks changed their mode. */
  function Switched(before: Blocks, after: Blocks, ids: seq<BlockId>): nat
  {
    if ids == [] then 0
    else
      var n := |ids| - 1;
      Switched(before, after, ids[..n]) + if Lookup(before, ids[n]).mode != Lookup(after, ids[n]).mode then 1 else 0
  }

  /** The counters after profiling the blocks of one access. */
  function Profiles(stats: Stats, before: Blocks, after: Blocks, ids: seq<BlockId>): Stats
  {
    stats.(modeWI := stats.modeWI + Holding(after, ids, WI), modeSI := stats.modeSI + Holding(after, ids, SI),
    modeAdaptive := stats.modeAdaptive + Holding(after, ids, Adaptive), switches := stats.switches + Switched(before, after, ids))
  }

  lemma {:induction false} SameModes(a: Blocks, b: Blocks, c: Blocks, d: Blocks, ids: seq<BlockId>)
    requires forall id :: id in ids ==> Lookup(a, id).mode == Lookup(c, id).mode && Lookup(b, id).mode == Lookup(d, id).mode
    ensures Switched(a, b, ids) == Switched(c, d, ids)
    ensures forall mode :: Holding(b, ids, mode) == Holding(d, ids, mode)
  {
    if ids != [] {
      var n := |ids| - 1;
      assert forall id :: id in ids[..n] ==> id in ids;
      assert ids[n] in ids;
      SameModes(a, b, c, d, ids[..n]);
    }
  }

  lemma SnocObserve(cfg: Config, o: Observed, ids: seq<BlockId>, access: AccessType, local: bool)
    requires ids != []
    ensures var n := |ids| - 1;
            ObserveAll(cfg, o, ids, access, local) == ObserveOne(cfg, ObserveAll(cfg, o, ids[..n], access, local), ids[n], access, local)
    decreases |ids|
  {
    hide ObserveOne;
    var n := |ids| - 1;
    if n == 0 {
      assert ids[1..] == [] && ids[..0] == [];
    } else {
      SnocObserve(cfg, ObserveOne(cfg, o, ids[0], access, local), ids[1..], access, local);
      assert ids[1..][..n - 1] == ids[..n][1..];
    }
  }

  /** Observing distinct blocks counts each once, by the mode it is left in. */
  lemma {:induction false} ObserveStats(cfg: Config, o: Observed, ids: seq<BlockId>, access: AccessType, local: bool)
    requires Distinct(ids)
    ensures var r := ObserveAll(cfg, o, ids, access, local); r.stats == Profiles(o.stats, o.blocks, r.blocks, ids)
    decreases |ids|
  {
    hide Observe;
    if ids != [] {
      var n := |ids| - 1;
      var front, id := ids[..n], ids[n];
      var p, r := ObserveAll(cfg, o, front, access, local), ObserveAll(cfg, o, ids, access, local);
      assert id !in front;
      ObserveStats(cfg, o, front, access, local);
      SnocObserve(cfg, o, ids, access, local);
      ObserveElsewhere(cfg, o, front, access, local, id);
      SameModes(o.blocks, p.blocks, o.blocks, r.blocks, front);
    }
  }

  /** Preparing the blocks changes no mode, so profiling counts from the records the call found. */
  lemma ProfiledStats(cfg: Config, s: Node, key: CacheKey, access: AccessType)
    requires cfg.blockSize > 0 && key.size > 0
    ensures var ids := IdsOf(cfg, key); var o := Profiled(cfg, s, key, ids, access);
            o.stats == Profiles(s.stats, s.blocks, o.blocks, ids)
  {
    hide UpdateAll, ObserveAll, Profiles, Ids, ProfileIn;
    var range, u := Resolve(cfg.blockSize, key.addr, key.size), Prepare(key.addr.home, access);
    var ids, prepared := Ids(range), UpdateAll(cfg, s.blocks, Ids(range), u);
    IdsDistinct(range);
    ObserveStats(cfg, Observed(prepared, s.epoch, s.stats, []), ids, access, key.addr.home == cfg.nodeId);
    forall id
      ensures Lookup(prepared, id).mode == Lookup(s.blocks, id).mode
    {
      UpdateAt(cfg, s.blocks, range, u, id);
    }
    SameProfiles(s.stats, prepared, Profiled(cfg, s, key, ids, access).blocks, s.blocks, Profiled(cfg, s, key, ids, access).blocks, ids);
  }

  lemma SameProfiles(stats: Stats, a: Blocks, b: Blocks, c: Blocks, d: Blocks, ids: seq<BlockId>)
    requires forall id :: id in ids ==> Lookup(a, id).mode == Lookup(c, id).mode && Lookup(b, id).mode == Lookup(d, id).mode
    ensures Profiles(stats, a, b, ids) == Profiles(stats, c, d, ids)
  {
    SameModes(a, b, c, d, ids);
  }

  // ------------------------------------------------------------------- reads

  /** The counters after a read, from its outcome. */
  ghost function ReadCounted(cfg: Config, s: Node, key: CacheKey, sched: Schedule, status: Status, after: Blocks): Stats
  {
    if !Accepted(cfg, s.mem.heap, key) then s.stats
    else
      var p := Profiles(s.stats, s.blocks, after, IdsOf(cfg, key));
      if key.addr.home == cfg.nodeId then p.(localReads := p.localReads + 1)
      else if ReadCached(s.entries, key, sched.hits).hit then p.(hits := p.hits + 1, remoteReads := p.remoteReads + 1)
      else
        var m := p.(misses := p.misses + 1);
        if status != Ok then m
        else if AllCacheable(cfg, after, key) then m.(admissions := m.admissions + 1, remoteReads := m.remoteReads + 1)
        else m.(rejections := m.rejections + 1, remoteReads := m.remoteReads + 1)
  }

  /**
    What a read adds to the counters, in every run: one block count per covered
    block by the mode it is left in, and exactly one of local read, hit,
    admission, rejection and failed miss.
   */
  lemma ReadAdds(cfg: Config, calls: seq<Call>, key: CacheKey, sched: Schedule)
    ensures var s := After(cfg, calls); var r := Read(cfg, s, key, sched);
            r.s.stats == ReadCounted(cfg, s, key, sched, r.status, r.s.blocks)
  {
    hide After, Access.Read, Accepts, Settled, Profiles, AllCacheable, ReadCached, ProfileIn;
    var s := After(cfg, calls);
    AlwaysSettled(cfg, calls);
    if !Accepted(cfg, s.mem.heap, key) {
      RefusedReadAdds(cfg, s, key, sched);
    } else if key.addr.home == cfg.nodeId {
      LocalReadAdds(cfg, s, key, sched);
    } else {
      RemoteReadAdds(cfg, s, key, sched);
      if !ReadCached(s.entries, key, sched.hits).hit && Read(cfg, s, key, sched).status == Ok {
        AdmittedIff(cfg, calls, key, sched);
        ProfilesKeep(s.stats, s.blocks, Read(cfg, s, key, sched).s.blocks, IdsOf(cfg, key));
      }
    }
  }

  lemma ProfilesKeep(stats: Stats, a: Blocks, b: Blocks, ids: seq<BlockId>)
    ensures var p := Profiles(stats, a, b, ids); p.admissions == stats.admissions && p.rejections == stats.rejections
  {
  }

  lemma RefusedReadAdds(cfg: Config, s: Node, key: CacheKey, sched: Schedule)
    requires Settled(cfg, s) && !Accepted(cfg, s.mem.heap, key)
    ensures Read(cfg, s, key, sched).s.stats == s.stats
  {
    hide RemoteRead, Profiled, Settled, Accepts;
    ReadReduces(cfg, s, key, sched);
  }

  lemma LocalReadAdds(cfg: Config, s: Node, key: CacheKey, sched: Schedule)
    requires Settled(cfg, s) && Accepted(cfg, s.mem.heap, key) && key.addr.home == cfg.nodeId
    ensures var r := Read(cfg, s, key, sched).s; var p := Profiles(s.stats, s.blocks, r.blocks, IdsOf(cfg, key));
            r.stats == p.(localReads := p.localReads + 1)
  {
    hide Profiled, Settled, Accepts, Profiles, Ids, Resolve;
    ReadReduces(cfg, s, key, sched);
    ProfiledStats(cfg, Quiet(cfg, s), key, ReadAccess);
  }

  /** A remote read counts its blocks, then a hit, or a miss and how it ended. */
  lemma RemoteReadAdds(cfg: Config, s: Node, key: CacheKey, sched: Schedule)
    requires Settled(cfg, s) && RemoteRange(cfg, key)
    ensures var r := Read(cfg, s, key, sched); var p := Profiles(s.stats, s.blocks, r.s.blocks, IdsOf(cfg, key));
            if ReadCached(s.entries, key, sched.hits).hit
            then r.s.stats == p.(hits := p.hits + 1, remoteReads := p.remoteReads + 1)
            else
              var m := p.(misses := p.misses + 1);
              if r.status != Ok then r.s.stats == m
              else || r.s.stats == m.(admissions := m.admissions + 1, remoteReads := m.remoteReads + 1)
                   || r.s.stats == m.(rejections := m.rejections + 1, remoteReads := m.remoteReads + 1)
  {
    hide Profiled, Settled, Profiles, Ids, Resolve, ReadCached, OwnerAwareRead, UpdateAll, Admits, Insert, ProfileIn,
         RemoteRead;
    var q, ids := Quiet(cfg, s), IdsOf(cfg, key);
    var o := Profiled(cfg, q, key, ids, ReadAccess);
    ReadReduces(cfg, s, key, sched);
    ProfiledStats(cfg, q, key, ReadAccess);
    var after := RemoteRead(cfg, q, key, ids, sched).s.blocks;
    forall id
      ensures Lookup(o.blocks, id).mode == Lookup(after, id).mode
    {
      RemoteReadProfile(cfg, q, key, ids, sched, id);
      ModeInProfile(o.blocks, after, id);
    }
    SameProfiles(s.stats, s.blocks, o.blocks, s.blocks, after, ids);
    RemoteReadStats(cfg, q, key, ids, sched);
  }

  lemma ModeInProfile(a: Blocks, b: Blocks, id: BlockId)
    requires ProfileOf(a, id) == ProfileOf(b, id)
    ensures Lookup(a, id).mode == Lookup(b, id).mode
  {
  }

  lemma RemoteReadStats(cfg: Config, s: Node, key: CacheKey, ids: seq<BlockId>, sched: Schedule)
    ensures var r, p := RemoteRead(cfg, s, key, ids, sched), Profiled(cfg, s, key, ids, ReadAccess).stats;
            if ReadCached(s.entries, key, sched.hits).hit
            then r.s.stats == p.(hits := p.hits + 1, remoteReads := p.remoteReads + 1)
            else
              var m := p.(misses := p.misses + 1);
              if r.status != Ok then r.s.stats == m
              else || r.s.stats == m.(admissions := m.admissions + 1, remoteReads := m.remoteReads + 1)
                   || r.s.stats == m.(rejections := m.rejections + 1, remoteReads := m.remoteReads + 1)
  {
    hide Profiled, ReadCached, OwnerAwareRead, UpdateAll, Admits, Insert, MaxVersion;
    var missed := Missed(cfg, WithProfile(s, Profiled(cfg, s, key, ids, ReadAccess)), ids);
    OwnerAwareReadFrame(cfg, missed, key, ids, sched.ownerHits);
  }

  // ------------------------------------------------------------------ writes

  /** How many of the writes are owner-biased. */
  function Biased(writes: seq<PendingWrite>): nat
  {
    if writes == [] then 0 else Biased(writes[..|writes| - 1]) + if writes[|writes| - 1].ownerBiased then 1 else 0
  }

  function HandedOff(writes: seq<PendingWrite>): nat
  {
    if writes == [] then 0 else HandedOff(writes[..|writes| - 1]) + if writes[|writes| - 1].ownerHandoff then 1 else 0
  }

  /** The counters after a batch is sent; a failed or empty batch counts nothing. */
  function BatchCounted(stats: Stats, batch: seq<PendingWrite>, status: Status): Stats
  {
    if status != Ok || batch == [] then stats
    else
      stats.(flushedBatches := stats.flushedBatches + 1, flushedWrites := stats.flushedWrites + |batch|,
      flushedBytes := stats.flushedBytes + PayloadBytes(batch),
      ownerBiasedWrites := stats.ownerBiasedWrites + Biased(batch), ownerHandoffs := stats.ownerHandoffs + HandedOff(batch))
  }

  lemma {:induction false} FlagSums(w: PendingWrite, rest: seq<PendingWrite>)
    ensures Biased([w] + rest) == (if w.ownerBiased then 1 else 0) + Biased(rest)
    ensures HandedOff([w] + rest) == (if w.ownerHandoff then 1 else 0) + HandedOff(rest)
  {
    var all := [w] + rest;
    if rest == [] {
      assert all[..0] == [];
    } else {
      var n := |rest| - 1;
      assert all[..|all| - 1] == [w] + rest[..n];
      FlagSums(w, rest[..n]);
    }
  }

  lemma {:induction false} FlagsCounted(stats: Stats, writes: seq<PendingWrite>)
    ensures CountFlags(stats, writes) ==
            stats.(ownerBiasedWrites := stats.ownerBiasedWrites + Biased(writes), ownerHandoffs := stats.ownerHandoffs + HandedOff(writes))
    decreases |writes|
  {
    hide Biased, HandedOff;
    if writes == [] {
      NoFlags();
    } else {
      var w := writes[0];
      var s1 := if w.ownerBiased then stats.(ownerBiasedWrites := stats.ownerBiasedWrites + 1) else stats;
      var s2 := if w.ownerHandoff then s1.(ownerHandoffs := s1.ownerHandoffs + 1) else s1;
      FlagsCounted(s2, writes[1..]);
      assert [w] + writes[1..] == writes;
      FlagSums(w, writes[1..]);
    }
  }

  lemma NoFlags()
    ensures Biased([]) == 0 && HandedOff([]) == 0
  {
  }

  lemma FlushAdds(cfg: Config, s: Node, node: NodeId)
    ensures var r := Flush(cfg, s, node); r.s.stats == BatchCounted(s.stats, Queue(s.queues, node), r.status)
  {
    hide BatchWrite, CountFlags, PayloadBytes, Biased, HandedOff;
    FlagsCounted(s.stats, Queue(s.queues, node));
  }

  /** The counters after a remote write: its blocks, the entries it invalidated, its queueing, its flush, its success. */
  ghost predicate WriteCounted(cfg: Config, s: Node, after: Node, key: CacheKey, status: Status, w: PendingWrite)
    requires RemoteRange(cfg, key)
  {
    var p := Profiles(s.stats, s.blocks, after.blocks, IdsOf(cfg, key));
    var range := InMode(cfg, after.blocks, key, WI);
    var left := Drop(s.entries, if range then Overlapping(key) else Exact(key));
    var dropped := |s.entries| - |left|;
    var i := if range then p.(rangeInvalidations := p.rangeInvalidations + dropped)
             else p.(preciseInvalidations := p.preciseInvalidations + dropped);
    var queue := Queue(s.queues, key.addr.home);
    var q := if !cfg.enableWriteBatching then i
             else i.(queued := i.queued + 1, merged := i.merged + if |Enqueue(queue, w)| == |queue| then 1 else 0);
    var f := if cfg.enableWriteBatching && Due(cfg, after.blocks, key, Enqueue(queue, w))
             then BatchCounted(q, Enqueue(queue, w), status) else q;
    after.stats == if status == Ok then f.(remoteWrites := f.remoteWrites + 1) else f
  }

  /** The counters of the announced write: blocks and invalidations. */
  lemma AnnouncedStats(cfg: Config, s: Node, addr: GlobalAddr, data: seq<byte>, sched: Schedule)
    requires Settled(cfg, s) && RemoteRange(cfg, CacheKey(addr, |data|))
    ensures var key, range := CacheKey(addr, |data|), Resolve(cfg.blockSize, addr, |data|);
            var a, after := Announced(cfg, Quiet(cfg, s), key, range), Access.Write(cfg, s, addr, data, sched).s.blocks;
            var p := Profiles(s.stats, s.blocks, after, IdsOf(cfg, key));
            var left := Drop(s.entries, if InMode(cfg, after, key, WI) then Overlapping(key) else Exact(key));
            a.stats == if InMode(cfg, after, key, WI)
                       then p.(rangeInvalidations := p.rangeInvalidations + |s.entries| - |left|)
                       else p.(preciseInvalidations := p.preciseInvalidations + |s.entries| - |left|)
  {
    hide Access.Write, Profiled, ApplyWrites, Settled, Profiles, Ids, Resolve, InMode, TakenOver, ProfileIn,
         WriteRequests, Announced, Drop;
    var q, key, range := Quiet(cfg, s), CacheKey(addr, |data|), Resolve(cfg.blockSize, addr, |data|);
    var ids, after := IdsOf(cfg, key), Access.Write(cfg, s, addr, data, sched).s.blocks;
    var o := Profiled(cfg, q, key, ids, WriteAccess);
    FlagsAre(cfg, s, addr, data, sched);
    AnnouncedFrame(cfg, q, key, range);
    ProfiledStats(cfg, q, key, WriteAccess);
    forall id | id in ids
      ensures Lookup(o.blocks, id).mode == Lookup(after, id).mode
    {
      CoveredIds(cfg, key, id);
      ProfiledAt(cfg, q, key, WriteAccess, id);
      WriteRecord(cfg, s, addr, data, sched, id);
      ModeIn(Lookup(o.blocks, id), Lookup(after, id));
    }
    SameProfiles(s.stats, s.blocks, o.blocks, s.blocks, after, ids);
  }

  lemma ModeIn(m: Meta, n: Meta)
    requires ProfileIn(m) == ProfileIn(n)
    ensures m.mode == n.mode
  {
  }

  lemma MergedIff(queue: seq<PendingWrite>, w: PendingWrite)
    ensures |Enqueue(queue, w)| == |queue| <==> MergeTarget(queue, w) < |queue|
  {
    hide Merge;
  }

  /** What a remote write adds to the counters, in every run, delivered, queued or refused. */
  lemma WriteAdds(cfg: Config, calls: seq<Call>, addr: GlobalAddr, data: seq<byte>, sched: Schedule) returns (w: PendingWrite)
    requires RemoteRange(cfg, CacheKey(addr, |data|))
    ensures var key, s := CacheKey(addr, |data|), After(cfg, calls); var r := Access.Write(cfg, s, addr, data, sched);
            && QueuedAs(cfg, s.blocks, r.s.blocks, key, data, w)
            && WriteCounted(cfg, s, r.s, key, r.status, w)
  {
    hide After, Access.Write, Settled, Profiles, Ids, Resolve, InMode, TakenOver, Announced, Drop, Flush, Enqueue,
         Due, BatchCounted,
         FlushDue, FlagsOf;
    var s, key, range := After(cfg, calls), CacheKey(addr, |data|), Resolve(cfg.blockSize, addr, |data|);
    var q, r := Quiet(cfg, s), Access.Write(cfg, s, addr, data, sched);
    var a, f := Announced(cfg, q, key, range), FlagsOf(cfg, q, key, range);
    AlwaysSettled(cfg, calls);
    FlagsAre(cfg, s, addr, data, sched);
    w := PendingWrite(addr, data, DominantMode(f.modes), f.biased, f.handoff);
    AnnouncedStats(cfg, s, addr, data, sched);
    AnnouncedData(cfg, q, key, range);
    DeliveryStats(cfg, s, addr, data, sched);
    var e := Enqueued(cfg, a, addr, data, f);
    JoinsQueue(cfg, s, a, addr, data, f, w);
    DueIff(cfg, s.blocks, r.s.blocks, key, f, e);
    MergedIff(Queue(s.queues, addr.home), w);
    FlushAdds(cfg, e, addr.home);
  }

  lemma DeliveryStats(cfg: Config, s: Node, addr: GlobalAddr, data: seq<byte>, sched: Schedule)
    requires Settled(cfg, s) && RemoteRange(cfg, CacheKey(addr, |data|))
    ensures var key, range := CacheKey(addr, |data|), Resolve(cfg.blockSize, addr, |data|);
            var a, f := Announced(cfg, Quiet(cfg, s), key, range), FlagsOf(cfg, Quiet(cfg, s), key, range);
            var r, e := Access.Write(cfg, s, addr, data, sched), Enqueued(cfg, a, addr, data, f);
            var d := if !cfg.enableWriteBatching then Controlled(a, r.status)
                     else if FlushDue(cfg, e, addr.home, f.modes) then Flush(cfg, e, addr.home) else Controlled(e, Ok);
            && r.status == d.status
            && r.s.stats == if r.status == Ok then d.s.stats.(remoteWrites := d.s.stats.remoteWrites + 1) else d.s.stats
  {
    hide Announced, FlagsOf, Enqueued, Flush, FlushDue, Settled, Resolve, RemoteWrite, StubNet.Write;
    WriteReduces(cfg, s, addr, data, sched);
    RemoteWriteStages(cfg, Quiet(cfg, s), addr, data, Resolve(cfg.blockSize, addr, |data|));
  }

  /** What any other write adds: its blocks and one local write if its range is allocated here, else nothing. */
  lemma OtherWriteAdds(cfg: Config, calls: seq<Call>, addr: GlobalAddr, data: seq<byte>, sched: Schedule)
    requires !RemoteRange(cfg, CacheKey(addr, |data|))
    ensures var key, s := CacheKey(addr, |data|), After(cfg, calls); var r := Access.Write(cfg, s, addr, data, sched).s;
            r.stats == if !Accepted(cfg, s.mem.heap, key) then s.stats
                       else var p := Profiles(s.stats, s.blocks, r.blocks, IdsOf(cfg, key)); p.(localWrites := p.localWrites + 1)
  {
    hide After, Profiled, Settled, Accepts, Profiles, Ids, Resolve, Store, RemoteWrite;
    var s, key := After(cfg, calls), CacheKey(addr, |data|);
    AlwaysSettled(cfg, calls);
    WriteReduces(cfg, s, addr, data, sched);
    if Accepted(cfg, s.mem.heap, key) {
      ProfiledStats(cfg, Quiet(cfg, s), key, WriteAccess);
    }
  }

  /** An allocation adds one iff it is granted. */
  lemma MallocAdds(cfg: Config, calls: seq<Call>, size: nat)
    ensures var s := After(cfg, calls); var (after, addr) := Malloc(cfg, s, size);
            after.stats == if addr.IsValid() then s.stats.(allocs := s.stats.allocs + 1) else s.stats
  {
    hide After, Accepts, UpdateAll, Allocate;
  }
}
