/**
  How often one block can be admitted to the cache under the profiled policy:
  admission needs enough reads but not too many sharers, every remote read adds
  to both, and neither counter ever falls.
 */
module Admission {
  import opened Types
  import opened Profiling
  import opened BlockRanges
  import opened Allocator
  import opened Access
  import opened Frames
  import opened StubControl
  import opened Owners
  import opened CacheRuns
  import opened Ownership
  import opened ProfilingRuns

  /** A block that was only ever read remotely has as many sharers as reads. */
  predicate ReadTimes(m: Meta, n: nat)
  {
    m.readCount == n && m.sharers == n
  }

  /** Profiling an access counts each of its blocks once. */
  lemma {:induction false} ObserveCountsOnce(cfg: Config, o: Observed, ids: seq<BlockId>, access: AccessType, local: bool,
                                             id: BlockId, n: nat)
    requires Distinct(ids) && ReadTimes(Lookup(o.blocks, id), n)
    requires id in ids && access.ReadAccess? ==> !local
    ensures ReadTimes(Lookup(ObserveAll(cfg, o, ids, access, local).blocks, id),
                      if id in ids && access.ReadAccess? then n + 1 else n)
    decreases |ids|
  {
    if ids != [] {
      var next := ObserveOne(cfg, o, ids[0], access, local);
      if id == ids[0] {
        ObserveElsewhere(cfg, next, ids[1..], access, local, id);
      } else {
        ObserveCountsOnce(cfg, next, ids[1..], access, local, id, n);
      }
    }
  }

  lemma ProfiledCountsOnce(cfg: Config, s: Node, key: CacheKey, range: BlockRange, access: AccessType, id: BlockId, n: nat)
    requires ReadTimes(Lookup(s.blocks, id), n)
    requires id in Ids(range) && access.ReadAccess? ==> key.addr.home != cfg.nodeId
    ensures ReadTimes(Seen(cfg, s, key, Ids(range), access, id), if id in Ids(range) && access.ReadAccess? then n + 1 else n)
  {
    var ids, u := Ids(range), Prepare(key.addr.home, access);
    IdsDistinct(range);
    UpdateKeepsProfile(cfg, s.blocks, ids, u, id);
    ObserveCountsOnce(cfg, Observed(UpdateAll(cfg, s.blocks, ids, u), s.epoch, s.stats, []), ids, access,
                      key.addr.home == cfg.nodeId, id, n);
  }

  /** The read counts at which the profiled policy can admit, up to `n` reads. */
  function Openings(cfg: Config, n: nat): nat
  {
    var top := Min(n, cfg.maxSharers);
    if top < cfg.minReads then 0 else top - cfg.minReads + 1
  }

  predicate UsesProfile(cfg: Config) {
    cfg.admissionPolicy != 1 && cfg.admissionPolicy != 2
  }

  /** The call admitted its range to the cache. */
  ghost predicate Admitting(cfg: Config, s: Node, call: Call)
  {
    call.CallRead? && Exec(cfg, s, call).s.stats.admissions > s.stats.admissions
  }

  lemma FinishReadAdmits(cfg: Config, r: OwnerReply, key: CacheKey, ids: seq<BlockId>, modes: seq<CoherenceMode>, id: BlockId, n: nat)
    requires ReadTimes(Lookup(r.s.blocks, id), n) && UsesProfile(cfg)
    ensures FinishRead(cfg, r, key, ids, modes).s.stats.admissions > r.s.stats.admissions && id in ids ==>
              cfg.minReads <= n <= cfg.maxSharers
  {
    var u := TakeOwner(MaxVersion(r.s.blocks, ids));
    UpdateKeepsProfile(cfg, r.s.blocks, ids, u, id);
    var owned := if r.redirected then UpdateAll(cfg, r.s.blocks, ids, u) else r.s.blocks;
    if WI !in modes && Admits(cfg, owned, ids) && id in ids {
      assert ShouldCache(cfg, Lookup(owned, id));
    }
  }

  lemma {:induction false} ObserveKeepsAdmissions(cfg: Config, o: Observed, ids: seq<BlockId>, access: AccessType, local: bool)
    ensures ObserveAll(cfg, o, ids, access, local).stats.admissions == o.stats.admissions
    decreases |ids|
  {
    if ids != [] {
      ObserveKeepsAdmissions(cfg, ObserveOne(cfg, o, ids[0], access, local), ids[1..], access, local);
    }
  }

  lemma RemoteReadAdmits(cfg: Config, s: Node, key: CacheKey, range: BlockRange, sched: Schedule, id: BlockId, n: nat)
    requires ReadTimes(Lookup(s.blocks, id), n) && UsesProfile(cfg) && key.addr.home != cfg.nodeId
    ensures var r := RemoteRead(cfg, s, key, Ids(range), sched).s;
            && ReadTimes(Lookup(r.blocks, id), if id in Ids(range) then n + 1 else n)
            && (r.stats.admissions > s.stats.admissions && id in Ids(range) ==> cfg.minReads <= n + 1 <= cfg.maxSharers)
  {
    var ids := Ids(range);
    var n' := if id in ids then n + 1 else n;
    ProfiledCountsOnce(cfg, s, key, range, ReadAccess, id, n);
    RemoteReadProfile(cfg, s, key, ids, sched, id);
    var prepared := UpdateAll(cfg, s.blocks, ids, Prepare(key.addr.home, ReadAccess));
    ObserveKeepsAdmissions(cfg, Observed(prepared, s.epoch, s.stats, []), ids, ReadAccess, false);
    var o := Profiled(cfg, s, key, ids, ReadAccess);
    var missed := Missed(cfg, WithProfile(s, o), ids);
    UpdateKeepsProfile(cfg, o.blocks, ids, CountMiss, id);
    OwnerAwareReadFrame(cfg, missed, key, ids, sched.ownerHits);
    OwnerAwareReadKeepsProfile(cfg, missed, key, ids, sched.ownerHits, id);
    FinishReadAdmits(cfg, OwnerAwareRead(cfg, missed, key, ids, sched.ownerHits), key, ids, o.modes, id, n');
  }

  /** The calls of a run, since its last restart, that admitted a range containing the block. */
  ghost function Admissions(cfg: Config, calls: seq<Call>, id: BlockId): nat
  {
    if calls == [] then 0
    else
      var before, call := calls[..|calls| - 1], calls[|calls| - 1];
      if call.CallRestart? then 0
      else Admissions(cfg, before, id) +
           if Admitting(cfg, After(cfg, before), call) && On(cfg, call.key, id) then 1 else 0
  }

  /** Reads of the block come from remote addresses only. */
  predicate ReadRemotely(cfg: Config, calls: seq<Call>, id: BlockId)
  {
    forall k :: 0 <= k < |calls| && calls[k].CallRead? && On(cfg, calls[k].key, id) ==>
      calls[k].key.addr.home != cfg.nodeId
  }

  lemma ReadCallAdmits(cfg: Config, s: Node, key: CacheKey, sched: Schedule, id: BlockId, n: nat)
    requires Settled(cfg, s) && UsesProfile(cfg) && ReadTimes(Lookup(s.blocks, id), n)
    requires On(cfg, key, id) ==> key.addr.home != cfg.nodeId
    ensures var r := Read(cfg, s, key, sched).s;
            exists n' :: n <= n' <= n + 1 && ReadTimes(Lookup(r.blocks, id), n') &&
                         (r.stats.admissions > s.stats.admissions && On(cfg, key, id) ==>
                            n' == n + 1 && cfg.minReads <= n' <= cfg.maxSharers)
  {
    ReadReduces(cfg, s, key, sched);
    var q := Quiet(cfg, s);
    var r := Read(cfg, s, key, sched).s;
    if key.addr.IsValid() && key.size != 0 && Validate(cfg, q.mem.heap, key).Resolved? {
      var range := Resolve(cfg.blockSize, key.addr, key.size);
      assert id in Ids(range) <==> On(cfg, key, id);
      if key.addr.home == cfg.nodeId {
        ProfiledCountsOnce(cfg, q, key, range, ReadAccess, id, n);
        assert ReadTimes(Lookup(r.blocks, id), n);
      } else {
        RemoteReadAdmits(cfg, q, key, range, sched, id, n);
        assert ReadTimes(Lookup(r.blocks, id), if id in Ids(range) then n + 1 else n);
      }
    } else {
      assert ReadTimes(Lookup(r.blocks, id), n);
    }
  }

  lemma OtherCallKeepsReads(cfg: Config, s: Node, call: Call, id: BlockId, n: nat)
    requires Settled(cfg, s) && ReadTimes(Lookup(s.blocks, id), n) && !call.CallRead? && !call.CallRestart?
    ensures ReadTimes(Lookup(Exec(cfg, s, call).s.blocks, id), n)
  {
    match call
    case CallMalloc(size) =>
      MallocFrame(cfg, s, size);
      if size > 0 && cfg.blockSize > 0 {
        var addr := Allocate(cfg, s.mem.heap, size).1;
        UpdateKeepsProfile(cfg, s.blocks, Ids(Resolve(cfg.blockSize, addr, size)), Adopt, id);
      }
    case CallWrite(addr, data, sched) => WriteKeepsReads(cfg, s, addr, data, sched, id, n);
    case CallFence(sched) => FenceKeepsCache(cfg, s, sched);
  }

  lemma WriteKeepsReads(cfg: Config, s: Node, addr: GlobalAddr, data: seq<byte>, sched: Schedule, id: BlockId, n: nat)
    requires Settled(cfg, s) && ReadTimes(Lookup(s.blocks, id), n)
    ensures ReadTimes(Lookup(Access.Write(cfg, s, addr, data, sched).s.blocks, id), n)
  {
    WriteReduces(cfg, s, addr, data, sched);
    var q, key := Quiet(cfg, s), CacheKey(addr, |data|);
    if addr.IsValid() && data != [] && Validate(cfg, q.mem.heap, key).Resolved? {
      var range := Resolve(cfg.blockSize, addr, |data|);
      ProfiledCountsOnce(cfg, q, key, range, WriteAccess, id, n);
      RemoteWriteProfile(cfg, q, addr, data, range, id);
    }
  }

  lemma {:induction false} AdmissionsWithinOpenings(cfg: Config, calls: seq<Call>, id: BlockId)
    requires UsesProfile(cfg) && ReadRemotely(cfg, calls, id)
    ensures var m := Lookup(After(cfg, calls).blocks, id);
            m.sharers == m.readCount && Admissions(cfg, calls, id) <= Openings(cfg, m.readCount)
  {
    if calls != [] {
      var before, call := calls[..|calls| - 1], calls[|calls| - 1];
      assert forall k :: 0 <= k < |before| ==> before[k] == calls[k];
      AdmissionsWithinOpenings(cfg, before, id);
      AlwaysSettled(cfg, before);
      var s := After(cfg, before);
      var n := Lookup(s.blocks, id).readCount;
      if call.CallRead? {
        ReadCallAdmits(cfg, s, call.key, call.sched, id, n);
      } else if !call.CallRestart? {
        OtherCallKeepsReads(cfg, s, call, id, n);
      }
    }
  }

  /**
    Admission bound: under the profiled policy, in any run, a block that is
    read only remotely is admitted by at most
    max(0, max_sharers - min_reads + 1) reads.
   */
  lemma AdmissionBound(cfg: Config, calls: seq<Call>, id: BlockId)
    requires UsesProfile(cfg) && ReadRemotely(cfg, calls, id)
    ensures Admissions(cfg, calls, id) <= if cfg.maxSharers < cfg.minReads then 0 else cfg.maxSharers - cfg.minReads + 1
  {
    AdmissionsWithinOpenings(cfg, calls, id);
  }
}
