/**
  Which reads are admitted to the cache, exactly, in every run
  (src/api/access_api.cc, lm_read; src/memory/cache/cache_manager.cc,
  ShouldCache), said through the counters of the covered blocks.
 */
module AdmissionRules {
  import opened Types
  import opened LruCache
  import opened Profiling
  import opened BlockRanges
  import Arithmetic
  import Allocator
  import opened Batching
  import opened Access
  import opened Frames
  import opened StubControl
  import opened Redirection
  import opened CacheRuns
  import opened Ownership
  import opened ProfilingRuns
  import opened Records
  import opened ProfileTraces

  /** The block lets a read that covers it into the cache. */
  predicate Cacheable(cfg: Config, m: Meta)
  {
    var total := (m.windowReads + m.windowWrites) as real;
    && cfg.enableCache && m.mode != WI
    && (|| cfg.admissionPolicy == 1
        || (&& cfg.admissionPolicy != 2
            && m.readCount >= cfg.minReads && m.writeCount <= cfg.maxWrites && m.sharers <= cfg.maxSharers
            && m.reuseDistance <= cfg.maxReuseDistance
            && m.windowReads as real >= cfg.minReadRatio * total
            && m.phaseChanges as real <= cfg.maxPhaseChangeRatio * total))
  }

  /** The admission test by cross-multiplication, on an accessed block. */
  lemma TestIs(cfg: Config, m: Meta)
    requires Bounded(cfg, m) && m.lastEpoch != 0
    ensures m.mode != WI && ShouldCache(cfg, m) <==> Cacheable(cfg, m)
    ensures Cacheable(cfg, m) ==> m.mode != WI
  {
    RatioIff(m.windowReads, m.WindowTotal(), cfg.minReadRatio);
    RatioIff(m.phaseChanges, m.WindowTotal(), cfg.maxPhaseChangeRatio);
  }

  lemma TestByProfile(cfg: Config, m: Meta, n: Meta)
    requires ProfileIn(m) == ProfileIn(n)
    ensures ShouldCache(cfg, m) <==> ShouldCache(cfg, n)
    ensures Cacheable(cfg, m) <==> Cacheable(cfg, n)
  {
  }

  /** The bookkeeping of a missed read that succeeds. */
  lemma MissFinishes(cfg: Config, s: Node, key: CacheKey, sched: Schedule)
    requires Settled(cfg, s) && RemoteRange(cfg, key) && !ReadCached(s.entries, key, sched.hits).hit
    requires Read(cfg, s, key, sched).status == Ok
    ensures var ids, missed := IdsOf(cfg, key), MissState(cfg, s, key);
            var r := OwnerAwareRead(cfg, missed, key, ids, sched.ownerHits);
            r.status == Ok && Read(cfg, s, key, sched) ==
            FinishRead(cfg, r, key, ids, Profiled(cfg, Quiet(cfg, s), key, ids, ReadAccess).modes)
  {
    hide Profiled, ReadCached, OwnerAwareRead, Missed, Ids, Settled, UpdateAll, Admits, FinishRead;
    ReadReduces(cfg, s, key, sched);
  }

  /** The modes an access reports are those its blocks are left in. */
  lemma ModesAre(cfg: Config, s: Node, key: CacheKey, access: AccessType, mode: CoherenceMode)
    requires cfg.blockSize > 0 && key.size > 0
    ensures var o := Profiled(cfg, s, key, IdsOf(cfg, key), access);
            && |o.modes| == |IdsOf(cfg, key)|
            && (mode in o.modes <==> exists id :: Covered(cfg, key, id) && Lookup(o.blocks, id).mode == mode)
  {
    hide UpdateAll, ObserveAll, Covered;
    var range := Resolve(cfg.blockSize, key.addr, key.size);
    var ids := Ids(range);
    var o := Profiled(cfg, s, key, ids, access);
    IdsDistinct(range);
    forall i | 0 <= i < |ids|
      ensures o.modes[i] == Lookup(o.blocks, ids[i]).mode && Covered(cfg, key, ids[i])
    {
      var prepared := UpdateAll(cfg, s.blocks, ids, Prepare(key.addr.home, access));
      ReportedModes(cfg, Observed(prepared, s.epoch, s.stats, []), ids, access, key.addr.home == cfg.nodeId, i);
      CoveredIds(cfg, key, ids[i]);
    }
    if mode in o.modes {
      var i :| 0 <= i < |ids| && o.modes[i] == mode;
      assert Covered(cfg, key, ids[i]) && Lookup(o.blocks, ids[i]).mode == mode;
    }
    if id :| Covered(cfg, key, id) && Lookup(o.blocks, id).mode == mode {
      CoveredIds(cfg, key, id);
      var i :| 0 <= i < |ids| && ids[i] == id;
      assert o.modes[i] in o.modes;
    }
  }

  /** Every covered block lets the read in. */
  ghost predicate AllCacheable(cfg: Config, blocks: Blocks, key: CacheKey)
    requires cfg.blockSize > 0 && key.size > 0
  {
    forall id :: Covered(cfg, key, id) ==> Cacheable(cfg, Lookup(blocks, id))
  }

  /** The code's test, over the blocks as the read finds and leaves them. */
  lemma AdmitsIff(cfg: Config, calls: seq<Call>, key: CacheKey, sched: Schedule, owned: Blocks)
    requires RemoteRange(cfg, key)
    requires var after := Read(cfg, After(cfg, calls), key, sched).s.blocks;
             forall id :: ProfileOf(owned, id) == ProfileOf(after, id)
    ensures var s := After(cfg, calls); var after := Read(cfg, s, key, sched).s.blocks;
            WI !in Profiled(cfg, Quiet(cfg, s), key, IdsOf(cfg, key), ReadAccess).modes && Admits(cfg, owned, IdsOf(cfg, key)) <==>
            AllCacheable(cfg, after, key)
  {
    hide After, Access.Read, Profiled, Covered, ProfileIn, Ids, Resolve, Cacheable, ShouldCache, Bounded;
    var s, ids := After(cfg, calls), IdsOf(cfg, key);
    var after, o := Read(cfg, s, key, sched).s.blocks, Profiled(cfg, Quiet(cfg, s), key, ids, ReadAccess);
    ModesAre(cfg, Quiet(cfg, s), key, ReadAccess, WI);
    SomeCovered(cfg, key);
    forall id
      ensures Covered(cfg, key, id) <==> id in ids
      ensures Covered(cfg, key, id) ==>
                && Lookup(o.blocks, id).mode == Lookup(after, id).mode
                && (ShouldCache(cfg, Lookup(owned, id)) && Lookup(after, id).mode != WI <==> Cacheable(cfg, Lookup(after, id)))
    {
      CoveredIds(cfg, key, id);
      if Covered(cfg, key, id) {
        AdmitsOne(cfg, calls, key, sched, id);
        assert ProfileOf(owned, id) == ProfileOf(after, id);
        TestByProfile(cfg, Lookup(owned, id), Lookup(after, id));
      }
    }
  }

  /** A record with the profile of a noted block has its mode and has been accessed. */
  lemma NotedFor(cfg: Config, s: Node, key: CacheKey, id: BlockId, m: Meta)
    requires cfg.blockSize > 0 && key.size > 0 && Covered(cfg, key, id)
    requires ProfileIn(m) == ProfileIn(Noted(cfg, s, key, ReadAccess, id))
    ensures m.mode == Noted(cfg, Quiet(cfg, s), key, ReadAccess, id).mode && m.lastEpoch != 0
  {
    hide Decide, Covered;
  }

  lemma AdmitsOne(cfg: Config, calls: seq<Call>, key: CacheKey, sched: Schedule, id: BlockId)
    requires RemoteRange(cfg, key) && Covered(cfg, key, id)
    ensures var s := After(cfg, calls); var m := Lookup(Read(cfg, s, key, sched).s.blocks, id);
            && Lookup(Profiled(cfg, Quiet(cfg, s), key, IdsOf(cfg, key), ReadAccess).blocks, id).mode == m.mode
            && (m.mode != WI && ShouldCache(cfg, m) <==> Cacheable(cfg, m))
  {
    hide After, Access.Read, Profiled, Covered, Ids, Resolve, Cacheable, ShouldCache, Bounded, Settled, Noted,
         ProfileIn, Breadth;
    var s, all := After(cfg, calls), calls + [CallRead(key, sched)];
    AlwaysSettled(cfg, calls);
    ReadObserves(cfg, s, key, sched, id);
    ProfiledAt(cfg, Quiet(cfg, s), key, ReadAccess, id);
    NotedFor(cfg, s, key, id, Lookup(Read(cfg, s, key, sched).s.blocks, id));
    LastCall(cfg, calls, CallRead(key, sched));
    AlwaysBounded(cfg, all, id);
    TestIs(cfg, Lookup(After(cfg, all).blocks, id));
  }

  /**
    Exactly which reads are admitted. In every run a missed remote read that
    succeeds is put into the cache, and counted as an admission, iff every block
    it covers lets it in by the counters the read leaves; otherwise the cache is
    unchanged and it is counted as a rejection.
   */
  lemma AdmittedIff(cfg: Config, calls: seq<Call>, key: CacheKey, sched: Schedule)
    requires RemoteRange(cfg, key) && !ReadCached(After(cfg, calls).entries, key, sched.hits).hit
    requires Read(cfg, After(cfg, calls), key, sched).status == Ok
    ensures var s := After(cfg, calls); var r := Read(cfg, s, key, sched); var admitted := AllCacheable(cfg, r.s.blocks, key);
            && r.s.entries == (if admitted then Insert(cfg, s.entries, key, r.bytes) else s.entries)
            && r.s.stats.admissions == s.stats.admissions + (if admitted then 1 else 0)
            && r.s.stats.rejections == s.stats.rejections + (if admitted then 0 else 1)
            && forall id :: Lookup(r.s.blocks, id).admitted ==
                            (Lookup(s.blocks, id).admitted || (admitted && Covered(cfg, key, id)))
  {
    hide After, Access.Read, Profiled, Covered, Ids, Resolve, ReadCached, OwnerAwareRead, MissState, Settled,
         UpdateAll, Admits, Insert,
         AllCacheable, MaxVersion, ProfileIn;
    var s, ids := After(cfg, calls), IdsOf(cfg, key);
    var missed, modes := MissState(cfg, s, key), Profiled(cfg, Quiet(cfg, s), key, ids, ReadAccess).modes;
    var r := OwnerAwareRead(cfg, missed, key, ids, sched.ownerHits);
    var owned := if r.redirected then UpdateAll(cfg, r.s.blocks, ids, TakeOwner(MaxVersion(r.s.blocks, ids))) else r.s.blocks;
    AlwaysSettled(cfg, calls);
    MissFinishes(cfg, s, key, sched);
    HitIsStable(s.entries, key, sched.hits, sched.ownerHits);
    MissStateData(cfg, s, key);
    MissStats(cfg, s, key);
    OwnerAwareBytes(cfg, missed, key, ids, sched.ownerHits);
    OwnerAwareReadFrame(cfg, missed, key, ids, sched.ownerHits);
    forall id
      ensures ProfileOf(owned, id) == ProfileOf(Read(cfg, s, key, sched).s.blocks, id)
    {
      OwnedProfile(cfg, r, key, modes, id);
    }
    AdmitsIff(cfg, calls, key, sched, owned);
    forall id
      ensures Lookup(Read(cfg, s, key, sched).s.blocks, id).admitted ==
              (Lookup(s.blocks, id).admitted || (WI !in modes && Admits(cfg, owned, ids) && Covered(cfg, key, id)))
    {
      FlagAt(cfg, s, key, sched, id);
    }
  }

  lemma MissStats(cfg: Config, s: Node, key: CacheKey)
    requires cfg.blockSize > 0 && key.size > 0
    ensures var m := MissState(cfg, s, key).stats; m.admissions == s.stats.admissions && m.rejections == s.stats.rejections
  {
    hide UpdateAll, ObserveAll;
    var q, ids := Quiet(cfg, s), IdsOf(cfg, key);
    var prepared := UpdateAll(cfg, q.blocks, ids, Prepare(key.addr.home, ReadAccess));
    ObserveKeepsVerdicts(cfg, Observed(prepared, q.epoch, q.stats, []), ids, ReadAccess, key.addr.home == cfg.nodeId);
  }

  lemma {:induction false} ObserveKeepsVerdicts(cfg: Config, o: Observed, ids: seq<BlockId>, access: AccessType, local: bool)
    ensures var a := ObserveAll(cfg, o, ids, access, local).stats;
            a.admissions == o.stats.admissions && a.rejections == o.stats.rejections
    decreases |ids|
  {
    if ids != [] {
      ObserveKeepsVerdicts(cfg, ObserveOne(cfg, o, ids[0], access, local), ids[1..], access, local);
    }
  }

  lemma OwnedProfile(cfg: Config, r: OwnerReply, key: CacheKey, modes: seq<CoherenceMode>, id: BlockId)
    requires cfg.blockSize > 0 && key.size > 0
    ensures var ids := IdsOf(cfg, key);
            var owned := if r.redirected then UpdateAll(cfg, r.s.blocks, ids, TakeOwner(MaxVersion(r.s.blocks, ids))) else r.s.blocks;
            ProfileOf(owned, id) == ProfileOf(FinishRead(cfg, r, key, ids, modes).s.blocks, id)
  {
    hide UpdateAll, Ids, Resolve, MaxVersion, FinishRead, ProfileIn;
    FinishReadKeepsProfile(cfg, r, key, IdsOf(cfg, key), modes, id);
    UpdateKeepsProfile(cfg, r.s.blocks, IdsOf(cfg, key), TakeOwner(MaxVersion(r.s.blocks, IdsOf(cfg, key))), id);
  }

  /** The admission mark of a block after a missed read that succeeds. */
  lemma FlagAt(cfg: Config, s: Node, key: CacheKey, sched: Schedule, id: BlockId)
    requires Settled(cfg, s) && RemoteRange(cfg, key) && !ReadCached(s.entries, key, sched.hits).hit
    requires Read(cfg, s, key, sched).status == Ok
    ensures var ids := IdsOf(cfg, key); var r := OwnerAwareRead(cfg, MissState(cfg, s, key), key, ids, sched.ownerHits);
            var owned := if r.redirected then UpdateAll(cfg, r.s.blocks, ids, TakeOwner(MaxVersion(r.s.blocks, ids))) else r.s.blocks;
            var modes := Profiled(cfg, Quiet(cfg, s), key, ids, ReadAccess).modes;
            Lookup(Read(cfg, s, key, sched).s.blocks, id).admitted ==
            (Lookup(s.blocks, id).admitted || (WI !in modes && Admits(cfg, owned, ids) && Covered(cfg, key, id)))
  {
    hide Access.Read, Profiled, Covered, Ids, Resolve, ReadCached, OwnerAwareRead, MissState, Settled, UpdateAll,
         Admits, Insert,
         MaxVersion, Decide;
    var ids, range, missed := IdsOf(cfg, key), Resolve(cfg.blockSize, key.addr, key.size), MissState(cfg, s, key);
    var r := OwnerAwareRead(cfg, missed, key, ids, sched.ownerHits);
    var u, v := TakeOwner(MaxVersion(r.s.blocks, ids)), UpdateAll(cfg, missed.blocks, ids, MarkValidated);
    var owned := if r.redirected then UpdateAll(cfg, r.s.blocks, ids, u) else r.s.blocks;
    MissFinishes(cfg, s, key, sched);
    HitIsStable(s.entries, key, sched.hits, sched.ownerHits);
    MissStateData(cfg, s, key);
    MissedAt(cfg, s, key, id);
    CoveredIds(cfg, key, id);
    OwnerAwareBlocks(cfg, missed, key, ids, sched.ownerHits);
    UpdateAt(cfg, missed.blocks, range, MarkValidated, id);
    UpdateAt(cfg, v, range, ShareInvalid(key.addr.home), id);
    UpdateAt(cfg, r.s.blocks, range, u, id);
    UpdateAt(cfg, owned, range, MarkAdmitted, id);
  }

  /** Under the never-admit policy no read of any run adds an entry: it only reorders what is resident. */
  lemma NeverAdmits(cfg: Config, calls: seq<Call>, key: CacheKey, sched: Schedule)
    requires cfg.admissionPolicy == 2
    ensures var s := After(cfg, calls); forall e :: e in Read(cfg, s, key, sched).s.entries <==> e in s.entries
  {
    hide After, Access.Read, ReadCached, Settled, Insert, Covered, Touch;
    var s := After(cfg, calls);
    AlwaysSettled(cfg, calls);
    AlwaysTidy(cfg, calls);
    ReadEntries(cfg, s, key, sched);
    if RemoteRange(cfg, key) {
      ReadOutcome(cfg, s, key, sched);
      LookupTouches(s.entries, key, sched.hits);
      if ReadCached(s.entries, key, sched.hits).hit {
        HitReorders(s.entries, key, sched.hits);
      } else if Read(cfg, s, key, sched).status == Ok {
        AdmittedIff(cfg, calls, key, sched);
        FirstCovered(cfg, key);
      }
    } else {
      OtherReadKeepsEntries(cfg, s, key, sched);
    }
  }

  lemma FirstCovered(cfg: Config, key: CacheKey)
    requires cfg.blockSize > 0 && key.size > 0
    ensures Covered(cfg, key, BlockId(key.addr.region, key.addr.offset / cfg.blockSize))
  {
    Arithmetic.DivMonotone(key.addr.offset, key.addr.offset + key.size - 1, cfg.blockSize);
  }

  lemma HitReorders(entries: seq<Entry>, key: CacheKey, schedule: seq<CacheKey>)
    requires WellFormed(entries) && ReadCached(entries, key, schedule).hit
    ensures forall e :: e in ReadCached(entries, key, schedule).entries <==> e in entries
  {
    hide Touch;
    LookupTouches(entries, key, schedule);
    TouchKeeps(entries, Served(entries, key, schedule).value);
  }

  lemma OtherReadKeepsEntries(cfg: Config, s: Node, key: CacheKey, sched: Schedule)
    requires Settled(cfg, s) && !RemoteRange(cfg, key)
    ensures Read(cfg, s, key, sched).s.entries == s.entries
  {
    hide RemoteRead, Profiled, Settled, Allocator.Accepts;
    ReadReduces(cfg, s, key, sched);
  }
}
