/**
  Profiling against an independent reference (src/memory/cache/cache_manager.cc,
  ObserveAccess, DecideCoherenceMode): the accesses of each block are listed in
  order, every counter is a count over that list, and the mode is decided from
  the counts by cross-multiplication.
 */
module ProfileTraces {
  import opened Types
  import opened Arithmetic
  import opened LruCache
  import opened Profiling
  import opened BlockRanges
  import opened Allocator
  import opened Access
  import opened Frames
  import opened StubControl
  import opened Redirection
  import opened Owners
  import opened ProfilingRuns
  import opened Records
  import opened OwnerHistory

  /** One observed access of a block. */
  datatype Sample = Sample(epoch: nat, access: AccessType, local: bool)

  // ------------------------------------------------------- counts over a trace

  function WindowAt(cfg: Config, x: Sample): int
  {
    (x.epoch - 1) / Max(1, cfg.windowSize)
  }

  /** Which accesses are counted: of a type, perhaps only remote ones, perhaps only those of one window. */
  datatype Query = Query(access: AccessType, remote: bool, window: Option<int>)

  predicate Matches(cfg: Config, x: Sample, q: Query)
  {
    x.access == q.access && (q.remote ==> !x.local) && (q.window.Some? ==> WindowAt(cfg, x) == q.window.value)
  }

  function Count(cfg: Config, trace: seq<Sample>, q: Query): nat
  {
    if trace == [] then 0
    else
      var n := |trace| - 1;
      Count(cfg, trace[..n], q) + if Matches(cfg, trace[n], q) then 1 else 0
  }

  /** Accesses in a window whose type differs from that of the access before them. */
  function Turns(cfg: Config, trace: seq<Sample>, w: int): nat
  {
    if |trace| < 2 then 0
    else
      var n := |trace| - 1;
      Turns(cfg, trace[..n], w) + if trace[n].access != trace[n - 1].access && WindowAt(cfg, trace[n]) == w then 1 else 0
  }

  /** Writes dominate the window, or its accesses alternate. */
  predicate Contended(cfg: Config, writes: nat, turns: nat, total: nat)
  {
    writes as real >= cfg.writeDominantRatio * total as real || turns as real >= cfg.phasePromoteRatio * total as real
  }

  /** The mode the accesses of a block call for. A block never accessed is write-invalidate. */
  function ModeOf(cfg: Config, trace: seq<Sample>): CoherenceMode
  {
    if trace == [] || cfg.modeOverride == 0 then WI
    else if cfg.modeOverride == 1 then SI
    else if cfg.modeOverride == 2 then Adaptive
    else
      var w := WindowAt(cfg, trace[|trace| - 1]);
      var writes := Count(cfg, trace, Query(WriteAccess, false, Some(w)));
      var total := Count(cfg, trace, Query(ReadAccess, false, Some(w))) + writes;
      if Contended(cfg, writes, Turns(cfg, trace, w), total) then WI
      else if Count(cfg, trace, Query(ReadAccess, true, None)) >= cfg.sharerPromote ||
              Count(cfg, trace, Query(WriteAccess, true, None)) >= cfg.invalidationPromote then Adaptive
      else SI
  }

  /** How often the mode changed. */
  function Switches(cfg: Config, trace: seq<Sample>): nat
  {
    if trace == [] then 0
    else
      var before := trace[..|trace| - 1];
      Switches(cfg, before) + if ModeOf(cfg, before) != ModeOf(cfg, trace) then 1 else 0
  }

  /** The profile the accesses of a block call for. */
  function ProfileFrom(cfg: Config, trace: seq<Sample>): Profile
  {
    if trace == [] then Profile(WI, 0, 0, 0, 0, 0, 0, 0, 0, 0, 0, ReadAccess, 0)
    else
      var n := |trace| - 1;
      var last := trace[n];
      var w := WindowAt(cfg, last);
      Profile(ModeOf(cfg, trace), last.epoch,
              Count(cfg, trace, Query(ReadAccess, false, None)), Count(cfg, trace, Query(WriteAccess, false, None)),
              Count(cfg, trace, Query(WriteAccess, true, None)), Count(cfg, trace, Query(ReadAccess, true, None)),
              if w < 0 then 0 else w,
              Count(cfg, trace, Query(ReadAccess, false, Some(w))), Count(cfg, trace, Query(WriteAccess, false, Some(w))),
              Turns(cfg, trace, w),
              if n == 0 || last.epoch < trace[n - 1].epoch then 0 else last.epoch - trace[n - 1].epoch,
              last.access, Switches(cfg, trace))
  }

  // ------------------------------------------------------------- one access

  /** Accesses are listed in the order of their epochs, which start at one. */
  predicate Ordered(trace: seq<Sample>)
  {
    && (forall i :: 0 <= i < |trace| ==> trace[i].epoch > 0)
    && (forall i, j :: 0 <= i < j < |trace| ==> trace[i].epoch < trace[j].epoch)
  }

  lemma RatioIff(part: nat, total: nat, ratio: real)
    requires total > 0
    ensures part as real / total as real >= ratio <==> part as real >= ratio * total as real
    ensures part as real / total as real <= ratio <==> part as real <= ratio * total as real
  {
    var x, t := part as real / total as real, total as real;
    assert x * t == part as real;
    if x > ratio {
      assert (x - ratio) * t > 0.0;
    } else if x < ratio {
      assert (ratio - x) * t > 0.0;
    }
  }

  lemma {:induction false} NoneInLaterWindow(cfg: Config, trace: seq<Sample>, access: AccessType, w: int)
    requires forall i :: 0 <= i < |trace| ==> WindowAt(cfg, trace[i]) < w
    ensures Count(cfg, trace, Query(access, false, Some(w))) == 0 && Turns(cfg, trace, w) == 0
  {
    if trace != [] {
      NoneInLaterWindow(cfg, trace[..|trace| - 1], access, w);
    }
  }

  lemma WindowsAscend(cfg: Config, trace: seq<Sample>, x: Sample)
    requires Ordered(trace + [x])
    ensures forall i :: 0 <= i < |trace| ==> WindowAt(cfg, trace[i]) <= WindowAt(cfg, x)
    ensures trace != [] ==> forall i :: 0 <= i < |trace| ==> WindowAt(cfg, trace[i]) <= WindowAt(cfg, trace[|trace| - 1])
    ensures WindowAt(cfg, x) >= 0
  {
    var all := trace + [x];
    forall i, j | 0 <= i <= j < |all|
      ensures WindowAt(cfg, all[i]) <= WindowAt(cfg, all[j])
    {
      DivMonotone(all[i].epoch - 1, all[j].epoch - 1, Max(1, cfg.windowSize));
    }
    assert all[|trace|] == x && x.epoch > 0;
    assert forall i :: 0 <= i < |trace| ==> all[i] == trace[i];
  }

  /** What counting one more access does to each count. */
  lemma CountMore(cfg: Config, trace: seq<Sample>, x: Sample, q: Query)
    ensures Count(cfg, trace + [x], q) == Count(cfg, trace, q) + if Matches(cfg, x, q) then 1 else 0
  {
    assert (trace + [x])[..|trace|] == trace;
  }

  /** The counts of the window x falls in, before x is counted: those of the record, or zero after a roll-over. */
  lemma BeforeInWindow(cfg: Config, m: Meta, trace: seq<Sample>, x: Sample)
    requires x.epoch > 0 && Ordered(trace + [x]) && ProfileIn(m) == ProfileFrom(cfg, trace)
    ensures var r, w := Rolled(cfg, m, x.epoch), WindowAt(cfg, x);
            && r.windowId == w
            && r.windowReads == Count(cfg, trace, Query(ReadAccess, false, Some(w)))
            && r.windowWrites == Count(cfg, trace, Query(WriteAccess, false, Some(w)))
            && r.phaseChanges == Turns(cfg, trace, w)
  {
    hide ModeOf, Switches, Count, Turns, WindowAt, Ordered;
    var w := WindowAt(cfg, x);
    WindowsAscend(cfg, trace, x);
    SameWindow(cfg, x);
    if trace == [] {
      NoneInLaterWindow(cfg, trace, ReadAccess, w);
      NoneInLaterWindow(cfg, trace, WriteAccess, w);
    } else if WindowAt(cfg, trace[|trace| - 1]) != w {
      assert WindowAt(cfg, trace[|trace| - 1]) <= w;
      NoneInLaterWindow(cfg, trace, ReadAccess, w);
      NoneInLaterWindow(cfg, trace, WriteAccess, w);
      var last := WindowAt(cfg, trace[|trace| - 1]);
      assert m.windowId == (if last < 0 then 0 else last);
      FirstWindow(cfg, trace, x);
    } else {
      assert m.windowId == w;
    }
  }

  lemma SameWindow(cfg: Config, x: Sample)
    requires x.epoch > 0
    ensures WindowOf(cfg, x.epoch) == WindowAt(cfg, x)
  {
  }

  lemma FirstWindow(cfg: Config, trace: seq<Sample>, x: Sample)
    requires trace != [] && Ordered(trace + [x])
    ensures WindowAt(cfg, trace[|trace| - 1]) >= 0
  {
    assert (trace + [x])[|trace| - 1] == trace[|trace| - 1];
  }

  /** Counting one access keeps the counters equal to the counts. */
  lemma CountedReflects(cfg: Config, m: Meta, trace: seq<Sample>, x: Sample)
    requires Ordered(trace + [x]) && ProfileIn(m) == ProfileFrom(cfg, trace)
    ensures x.epoch > 0
    ensures var c, p := Counted(cfg, m, x.epoch, x.access, x.local), ProfileFrom(cfg, trace + [x]);
            ProfileIn(c) == p.(mode := m.mode, switches := m.switches)
  {
    hide ModeOf, Switches, Rolled;
    var all, w := trace + [x], WindowAt(cfg, x);
    assert all[..|trace|] == trace && all[|trace|] == x;
    assert x.epoch > 0;
    BeforeInWindow(cfg, m, trace, x);
    WindowsAscend(cfg, trace, x);
    RolledKeeps(cfg, m, x.epoch);
    CountMore(cfg, trace, x, Query(ReadAccess, false, None));
    CountMore(cfg, trace, x, Query(WriteAccess, false, None));
    CountMore(cfg, trace, x, Query(ReadAccess, true, None));
    CountMore(cfg, trace, x, Query(WriteAccess, true, None));
    CountMore(cfg, trace, x, Query(ReadAccess, false, Some(w)));
    CountMore(cfg, trace, x, Query(WriteAccess, false, Some(w)));
    if trace != [] {
      assert all[|trace| - 1] == trace[|trace| - 1];
      assert trace[|trace| - 1].epoch < x.epoch by { assert all[|trace| - 1].epoch < all[|trace|].epoch; }
      assert trace[|trace| - 1].epoch > 0 by { assert all[|trace| - 1].epoch > 0; }
    }
  }

  lemma RolledKeeps(cfg: Config, m: Meta, epoch: nat)
    requires epoch > 0
    ensures var r := Rolled(cfg, m, epoch);
            r == m.(windowId := r.windowId, windowReads := r.windowReads, windowWrites := r.windowWrites, phaseChanges := r.phaseChanges)
  {
  }

  /** The decision, by cross-multiplication on the counters, on every record. */
  lemma DecisionIs(cfg: Config, m: Meta)
    requires !Overridden(cfg)
    ensures Decide(cfg, m) ==
            if Contended(cfg, m.windowWrites, m.phaseChanges, m.windowReads + m.windowWrites) then WI
            else if m.sharers >= cfg.sharerPromote || m.invalidationCost >= cfg.invalidationPromote then Adaptive
            else SI
  {
    if m.WindowTotal() > 0 {
      RatioIff(m.windowWrites, m.WindowTotal(), cfg.writeDominantRatio);
      RatioIff(m.phaseChanges, m.WindowTotal(), cfg.phasePromoteRatio);
    }
  }

  /** The mode the accesses call for, x included, is decided from the counted record. */
  lemma DecisionReflects(cfg: Config, c: Meta, trace: seq<Sample>, x: Sample)
    requires var p := ProfileFrom(cfg, trace + [x]); ProfileIn(c) == p.(mode := c.mode, switches := c.switches)
    ensures Decide(cfg, c) == ModeOf(cfg, trace + [x])
  {
    hide Contended, Decide, Count, Turns, Switches, WindowAt;
    var all := trace + [x];
    assert all[|trace|] == x;
    CountsItself(cfg, trace, x);
    if Overridden(cfg) {
      OverrideIs(cfg, c);
    } else {
      DecisionIs(cfg, c);
    }
  }

  lemma SwitchesMore(cfg: Config, trace: seq<Sample>, x: Sample)
    ensures Switches(cfg, trace + [x]) == Switches(cfg, trace) + if ModeOf(cfg, trace) != ModeOf(cfg, trace + [x]) then 1 else 0
  {
    hide ModeOf;
    assert (trace + [x])[..|trace|] == trace;
  }

  lemma ModeFrom(cfg: Config, trace: seq<Sample>)
    ensures var p := ProfileFrom(cfg, trace); p.mode == ModeOf(cfg, trace) && p.switches == Switches(cfg, trace)
  {
    hide Count, Turns, WindowAt;
  }

  /** One observed access keeps the whole profile equal to what the accesses call for. */
  lemma ObserveReflects(cfg: Config, m: Meta, trace: seq<Sample>, x: Sample)
    requires Ordered(trace + [x]) && ProfileIn(m) == ProfileFrom(cfg, trace)
    ensures x.epoch > 0
    ensures ProfileIn(Observe(cfg, m, x.epoch, x.access, x.local)) == ProfileFrom(cfg, trace + [x])
  {
    hide Counted, Decide, ProfileFrom, ModeOf, Switches, Ordered;
    CountedReflects(cfg, m, trace, x);
    var c := Counted(cfg, m, x.epoch, x.access, x.local);
    ModeFrom(cfg, trace);
    ModeFrom(cfg, trace + [x]);
    DecisionReflects(cfg, c, trace, x);
    SwitchesMore(cfg, trace, x);
  }

  lemma OverrideIs(cfg: Config, m: Meta)
    requires Overridden(cfg)
    ensures Decide(cfg, m).Code() == cfg.modeOverride
  {
  }

  lemma CountsItself(cfg: Config, trace: seq<Sample>, x: Sample)
    ensures var all, w := trace + [x], WindowAt(cfg, x);
            Count(cfg, all, Query(ReadAccess, false, Some(w))) + Count(cfg, all, Query(WriteAccess, false, Some(w))) > 0
  {
    CountMore(cfg, trace, x, Query(x.access, false, Some(WindowAt(cfg, x))));
  }

  // -------------------------------------------------------------- one call

  /** The number of blocks an access covers. */
  function Breadth(cfg: Config, key: CacheKey): nat
    requires cfg.blockSize > 0 && key.size > 0
  {
    DivMonotone(key.addr.offset, key.addr.offset + key.size - 1, cfg.blockSize);
    (key.addr.offset + key.size - 1) / cfg.blockSize - key.addr.offset / cfg.blockSize + 1
  }

  lemma {:induction false} ObserveEpoch(cfg: Config, o: Observed, ids: seq<BlockId>, access: AccessType, local: bool)
    ensures ObserveAll(cfg, o, ids, access, local).epoch == o.epoch + |ids|
    decreases |ids|
  {
    if ids != [] {
      ObserveEpoch(cfg, ObserveOne(cfg, o, ids[0], access, local), ids[1..], access, local);
    }
  }

  lemma ProfiledEpoch(cfg: Config, s: Node, key: CacheKey, access: AccessType)
    requires cfg.blockSize > 0 && key.size > 0
    ensures Profiled(cfg, s, key, IdsOf(cfg, key), access).epoch == s.epoch + Breadth(cfg, key)
  {
    hide UpdateAll, ObserveAll;
    var ids := IdsOf(cfg, key);
    ObserveEpoch(cfg, Observed(UpdateAll(cfg, s.blocks, ids, Prepare(key.addr.home, access)), s.epoch, s.stats, []), ids, access,
                 key.addr.home == cfg.nodeId);
  }

  /** The profile and epoch a call leaves: each covered block is observed once, at its own epoch. */
  ghost predicate Observes(cfg: Config, s: Node, after: Node, key: CacheKey, access: AccessType, id: BlockId)
  {
    if !Accepted(cfg, s.mem.heap, key) then after.epoch == s.epoch && after.blocks == s.blocks
    else
      && after.epoch == s.epoch + Breadth(cfg, key)
      && ProfileOf(after.blocks, id) ==
         if Covered(cfg, key, id) then ProfileIn(Noted(cfg, s, key, access, id)) else ProfileOf(s.blocks, id)
  }

  lemma ReadObserves(cfg: Config, s: Node, key: CacheKey, sched: Schedule, id: BlockId)
    requires Settled(cfg, s)
    ensures Observes(cfg, s, Read(cfg, s, key, sched).s, key, ReadAccess, id)
  {
    hide RemoteRead, Profiled, Settled, Accepts, Noted, Covered, ProfileIn, Ids, Resolve, Breadth;
    var q := Quiet(cfg, s);
    if Accepted(cfg, s.mem.heap, key) {
      ReadReduces(cfg, s, key, sched);
      ProfiledAt(cfg, q, key, ReadAccess, id);
      ProfiledEpoch(cfg, q, key, ReadAccess);
      if key.addr.home != cfg.nodeId {
        RemoteReadProfile(cfg, q, key, IdsOf(cfg, key), sched, id);
        RemoteReadEpoch(cfg, q, key, IdsOf(cfg, key), sched);
      }
      if Covered(cfg, key, id) {
        SameNoted(cfg, s, key, ReadAccess, id);
      }
    } else {
      OtherCallsKeepRecords(cfg, s, CallRead(key, sched));
    }
  }

  lemma SameNoted(cfg: Config, s: Node, key: CacheKey, access: AccessType, id: BlockId)
    requires cfg.blockSize > 0 && key.size > 0 && Covered(cfg, key, id)
    ensures Noted(cfg, Quiet(cfg, s), key, access, id) == Noted(cfg, s, key, access, id)
  {
  }

  lemma RemoteReadEpoch(cfg: Config, s: Node, key: CacheKey, ids: seq<BlockId>, sched: Schedule)
    ensures RemoteRead(cfg, s, key, ids, sched).s.epoch == Profiled(cfg, s, key, ids, ReadAccess).epoch
  {
    hide Profiled, ReadCached, OwnerAwareRead, UpdateAll, Admits;
    var missed := Missed(cfg, WithProfile(s, Profiled(cfg, s, key, ids, ReadAccess)), ids);
    OwnerAwareReadFrame(cfg, missed, key, ids, sched.ownerHits);
  }

  lemma RemoteWriteEpoch(cfg: Config, s: Node, addr: GlobalAddr, data: seq<byte>, range: BlockRange)
    ensures RemoteWrite(cfg, s, addr, data, range).s.epoch == Profiled(cfg, s, CacheKey(addr, |data|), Ids(range), WriteAccess).epoch
  {
    hide RemoteWrite, Profiled, ApplyWrites, Ids;
    WriteMetadataIsFinal(cfg, s, addr, data, range);
  }

  lemma WriteObserves(cfg: Config, s: Node, addr: GlobalAddr, data: seq<byte>, sched: Schedule, id: BlockId)
    requires Settled(cfg, s)
    ensures Observes(cfg, s, Access.Write(cfg, s, addr, data, sched).s, CacheKey(addr, |data|), WriteAccess, id)
  {
    hide RemoteWrite, Profiled, Settled, Accepts, Noted, Covered, ProfileIn, Ids, Resolve, Breadth;
    var q, key := Quiet(cfg, s), CacheKey(addr, |data|);
    if Accepted(cfg, s.mem.heap, key) {
      var range := Resolve(cfg.blockSize, addr, |data|);
      WriteReduces(cfg, s, addr, data, sched);
      ProfiledAt(cfg, q, key, WriteAccess, id);
      ProfiledEpoch(cfg, q, key, WriteAccess);
      if addr.home != cfg.nodeId {
        RemoteWriteProfile(cfg, q, addr, data, range, id);
        RemoteWriteEpoch(cfg, q, addr, data, range);
      }
      if Covered(cfg, key, id) {
        SameNoted(cfg, s, key, WriteAccess, id);
      }
    } else {
      OtherCallsKeepRecords(cfg, s, CallWrite(addr, data, sched));
    }
  }

  // -------------------------------------------------------------- every run

  function AccessOf(call: Call): AccessType
  {
    if call.CallWrite? then WriteAccess else ReadAccess
  }

  /** The call is an accepted access that covers the block. */
  predicate Samples(cfg: Config, s: Node, call: Call, id: BlockId)
  {
    (call.CallRead? || call.CallWrite?) && Accepted(cfg, s.mem.heap, call.Key()) && Covered(cfg, call.Key(), id)
  }

  function SampleOf(cfg: Config, s: Node, call: Call, id: BlockId): Sample
    requires Samples(cfg, s, call, id)
  {
    Sample(s.epoch + 1 + (id.index - call.Key().addr.offset / cfg.blockSize), AccessOf(call), call.Key().addr.home == cfg.nodeId)
  }

  /** The accesses of a block since the last restart, hits, misses and refused deliveries included. */
  ghost function TraceOf(cfg: Config, calls: seq<Call>, id: BlockId): seq<Sample>
  {
    if calls == [] then []
    else
      var before, call := calls[..|calls| - 1], calls[|calls| - 1];
      var s := After(cfg, before);
      if call.CallRestart? then []
      else if Samples(cfg, s, call, id) then TraceOf(cfg, before, id) + [SampleOf(cfg, s, call, id)]
      else TraceOf(cfg, before, id)
  }

  /** The trace is ordered and does not run ahead of the access epoch. */
  predicate InTime(trace: seq<Sample>, epoch: nat)
  {
    Ordered(trace) && forall i :: 0 <= i < |trace| ==> trace[i].epoch <= epoch
  }

  lemma InTimeMore(trace: seq<Sample>, epoch: nat, x: Sample, later: nat)
    requires InTime(trace, epoch) && epoch < x.epoch <= later
    ensures InTime(trace + [x], later)
  {
  }

  lemma SampleInTime(cfg: Config, s: Node, call: Call, id: BlockId)
    requires Samples(cfg, s, call, id)
    ensures s.epoch < SampleOf(cfg, s, call, id).epoch <= s.epoch + Breadth(cfg, call.Key())
  {
    hide Accepts;
  }

  /** A covered block is observed as its sample says. */
  lemma NotedReflects(cfg: Config, s: Node, call: Call, id: BlockId, trace: seq<Sample>)
    requires Samples(cfg, s, call, id) && InTime(trace, s.epoch) && ProfileOf(s.blocks, id) == ProfileFrom(cfg, trace)
    ensures ProfileIn(Noted(cfg, s, call.Key(), AccessOf(call), id)) == ProfileFrom(cfg, trace + [SampleOf(cfg, s, call, id)])
  {
    hide Observe, ProfileFrom, Accepts, Covered, Ordered;
    var x, key := SampleOf(cfg, s, call, id), call.Key();
    SampleInTime(cfg, s, call, id);
    InTimeMore(trace, s.epoch, x, x.epoch);
    var prepared := UpdateOne(cfg, Lookup(s.blocks, id), Prepare(key.addr.home, AccessOf(call)));
    ObserveReflects(cfg, prepared, trace, x);
  }

  lemma CallReflects(cfg: Config, s: Node, call: Call, id: BlockId, trace: seq<Sample>)
    requires Settled(cfg, s) && InTime(trace, s.epoch) && ProfileOf(s.blocks, id) == ProfileFrom(cfg, trace) && !call.CallRestart?
    ensures var after := Exec(cfg, s, call).s;
            var next := if Samples(cfg, s, call, id) then trace + [SampleOf(cfg, s, call, id)] else trace;
            InTime(next, after.epoch) && ProfileOf(after.blocks, id) == ProfileFrom(cfg, next)
  {
    hide Access.Read, Access.Write, Access.Fence, Access.Malloc, Settled, ProfileFrom, ProfileIn, Noted, Covered,
         Accepts, Ordered,
         Breadth, SampleOf;
    var after := Exec(cfg, s, call).s;
    match call {
      case CallMalloc(size) => MallocReflects(cfg, s, size, id);
      case CallRead(key, sched) => ReadObserves(cfg, s, key, sched, id);
      case CallWrite(addr, data, sched) => WriteObserves(cfg, s, addr, data, sched, id);
      case CallFence(sched) => OtherCallsKeepRecords(cfg, s, call);
    }
    if Samples(cfg, s, call, id) {
      SampleInTime(cfg, s, call, id);
      InTimeMore(trace, s.epoch, SampleOf(cfg, s, call, id), after.epoch);
      NotedReflects(cfg, s, call, id, trace);
    }
  }

  lemma MallocReflects(cfg: Config, s: Node, size: nat, id: BlockId)
    ensures var after := Malloc(cfg, s, size).0; after.epoch == s.epoch && ProfileOf(after.blocks, id) == ProfileOf(s.blocks, id)
  {
    hide Access.Malloc, Covered;
    MallocRecord(cfg, s, size, id);
    MallocFrame(cfg, s, size);
  }

  /**
    In every run, whatever the configuration, the profile of every block is what
    its accesses since the last restart call for: reads, writes, sharers,
    invalidations, window counts, phase changes, reuse distance, mode and mode
    switches.
   */
  lemma {:induction false} AlwaysReflects(cfg: Config, calls: seq<Call>, id: BlockId)
    ensures InTime(TraceOf(cfg, calls, id), After(cfg, calls).epoch)
    ensures ProfileOf(After(cfg, calls).blocks, id) == ProfileFrom(cfg, TraceOf(cfg, calls, id))
  {
    hide Exec, Samples, SampleOf, Settled;
    if calls != [] {
      var before, call := calls[..|calls| - 1], calls[|calls| - 1];
      AlwaysReflects(cfg, before, id);
      AlwaysSettled(cfg, before);
      if call.CallRestart? {
        RestartForgets(cfg, After(cfg, before), id);
      } else {
        CallReflects(cfg, After(cfg, before), call, id, TraceOf(cfg, before, id));
      }
    }
  }

  /**
    The mode of every accessed block of every run without an override, by its
    counters alone: WI iff writes or phase changes reach their share of the
    window; otherwise Adaptive iff sharers or invalidations reach their
    threshold; otherwise SI.
   */
  lemma AlwaysDecided(cfg: Config, calls: seq<Call>, id: BlockId)
    requires !(0 <= cfg.modeOverride <= 2) && Lookup(After(cfg, calls).blocks, id).lastEpoch != 0
    ensures var m := Lookup(After(cfg, calls).blocks, id);
            m.mode ==
            if Contended(cfg, m.windowWrites, m.phaseChanges, m.windowReads + m.windowWrites) then WI
            else if m.sharers >= cfg.sharerPromote || m.invalidationCost >= cfg.invalidationPromote then Adaptive
            else SI
  {
    hide After, Contended, Count, Turns, TraceOf, Switches;
    AlwaysReflects(cfg, calls, id);
  }
}
