/**
  What a client can do, looking only at its own calls and the configuration, to
  make its runs refinable: equal or disjoint remote ranges, one home per block
  index, and nothing queued between calls or a fence between writing a remote
  range and reading it.
 */
module Discipline {
  import opened Types
  import opened LruCache
  import opened WriteCombining
  import opened StubNet
  import opened Access
  import Frames
  import opened StubControl
  import opened QueueRuns
  import opened Batching
  import opened Owners
  import opened Redirection
  import opened CacheRuns
  import opened FlatMemory

  // ----------------------------------------------------------- tame footprints

  predicate EqualOrDisjoint(keys: set<CacheKey>)
  {
    forall a, b :: a in keys && b in keys ==> a == b || !ShareByte(a, b)
  }

  /** Remote footprints are equal or disjoint, unless nothing is cached, and share a block only if they share the home. */
  ghost predicate Tame(cfg: Config, keys: set<CacheKey>)
  {
    (NeverCaches(cfg) || EqualOrDisjoint(keys)) && OneHome(cfg, keys)
  }

  /** With equal or disjoint ranges, or nothing cached, an invalidation never leaves an entry the write reaches. */
  lemma DisjointWritesAreClean(cfg: Config, calls: seq<Call>)
    requires NeverCaches(cfg) || EqualOrDisjoint(AccessKeys(cfg, calls))
    ensures CleanWrites(cfg, calls)
  {
    hide After, Frames.FlagsOf, ShareByte;
    forall k | 0 <= k < |calls|
      ensures CleanWrite(cfg, After(cfg, calls[..k]), calls[k])
    {
      assert forall j :: 0 <= j < k ==> calls[..k][j] == calls[j];
      EntriesWereAccessed(cfg, calls[..k]);
      assert AccessKeys(cfg, calls[..k]) <= AccessKeys(cfg, calls);
      assert RemoteWriteCall(cfg, calls[k]) ==> calls[k].Key() in AccessKeys(cfg, calls);
    }
  }

  /** A permitted remote read that misses the cache finds nothing pending for its range. */
  ghost predicate UpToDateRead(cfg: Config, s: Node, call: Call)
  {
    && call.CallRead? && call.key.addr.home != cfg.nodeId && Permitted(cfg, s.mem.heap, call.key)
    && !ReadCached(s.entries, call.key, call.sched.hits).hit
    ==> CaughtUp(cfg, s, call.key)
  }

  /** Every read of the run that goes to home memory finds nothing pending for its range. */
  ghost predicate UpToDateReads(cfg: Config, calls: seq<Call>)
  {
    forall k :: 0 <= k < |calls| ==> UpToDateRead(cfg, After(cfg, calls[..k]), calls[k])
  }

  /** With one home per block index a missed read fetches current bytes iff nothing is pending for its range. */
  lemma HomeFetches(cfg: Config, calls: seq<Call>)
    requires OneHome(cfg, AccessKeys(cfg, calls))
    ensures CurrentFetches(cfg, calls) <==> UpToDateReads(cfg, calls)
  {
    hide After, History, CurrentFetch, UpToDateRead, AccessKeys, OneHome;
    forall k | 0 <= k < |calls|
      ensures CurrentFetch(cfg, After(cfg, calls[..k]), calls[k], History(cfg, calls[..k])) <==>
              UpToDateRead(cfg, After(cfg, calls[..k]), calls[k])
    {
      HomeFetch(cfg, calls, k);
    }
  }

  lemma HomeFetch(cfg: Config, calls: seq<Call>, k: nat)
    requires OneHome(cfg, AccessKeys(cfg, calls)) && k < |calls|
    ensures CurrentFetch(cfg, After(cfg, calls[..k]), calls[k], History(cfg, calls[..k])) <==>
            UpToDateRead(cfg, After(cfg, calls[..k]), calls[k])
  {
    hide After, History, OneHome, CaughtUp, GoesToThird, ReadCached;
    if calls[k].CallRead? && RemoteRange(cfg, calls[k].key) {
      assert forall j :: 0 <= j < k ==> calls[..k][j] == calls[j];
      assert AccessKeys(cfg, calls[..k]) <= AccessKeys(cfg, calls);
      assert RemoteAccess(cfg, calls[k]) && calls[k].Key() in AccessKeys(cfg, calls);
      OneHomeStaysHome(cfg, calls[..k], calls[k].key, AccessKeys(cfg, calls));
    }
  }

  // ------------------------------------------------------------- fenced reads

  predicate Barrier(call: Call)
  {
    call.CallFence? || call.CallRestart?
  }

  /** Between a remote write and a later read that shares a byte with it there is a fence or a restart. */
  predicate FencedReads(cfg: Config, calls: seq<Call>)
  {
    forall i, j | 0 <= i < j < |calls| && RemoteWriteCall(cfg, calls[i]) && calls[j].CallRead?
      :: ShareByte(calls[i].Key(), calls[j].Key()) ==> exists b :: i < b < j && Barrier(calls[b])
  }

  predicate CoveredIn(queue: seq<PendingWrite>, n: NodeId, i: int)
  {
    exists k :: 0 <= k < |queue| && queue[k].Covers(n, i)
  }

  lemma {:induction false} UncoveredByte(queue: seq<PendingWrite>, n: NodeId, i: int, base: byte)
    requires !CoveredIn(queue, n, i)
    ensures ByteAfter(queue, n, i, base) == base
  {
    if queue != [] {
      var m := |queue| - 1;
      assert forall k :: 0 <= k < m ==> queue[..m][k] == queue[k];
      UncoveredByte(queue[..m], n, i, base);
    }
  }

  lemma EnqueueCovers(queue: seq<PendingWrite>, w: PendingWrite, n: NodeId, i: int)
    requires CoveredIn(Enqueue(queue, w), n, i)
    ensures CoveredIn(queue, n, i) || w.Covers(n, i)
  {
    var after, t := Enqueue(queue, w), MergeTarget(queue, w);
    var k :| 0 <= k < |after| && after[k].Covers(n, i);
    if t < |queue| {
      if k == t {
        MergeIsUnion(queue[t], w, n, i);
      } else {
        assert queue[k].Covers(n, i);
      }
    } else if k < |queue| {
      assert queue[k].Covers(n, i);
    }
  }

  /** Call k is a remote write of byte (n, i) with no barrier after it. */
  predicate WrittenSince(cfg: Config, calls: seq<Call>, k: nat, n: NodeId, i: int)
  {
    && k < |calls| && RemoteWriteCall(cfg, calls[k]) && calls[k].Key().Covers(n, i)
    && forall b :: k < b < |calls| ==> !Barrier(calls[b])
  }

  lemma WrittenSinceExtends(cfg: Config, calls: seq<Call>, k: nat, n: NodeId, i: int)
    requires calls != [] && !Barrier(calls[|calls| - 1]) && WrittenSince(cfg, calls[..|calls| - 1], k, n, i)
    ensures WrittenSince(cfg, calls, k, n, i)
  {
    var m := |calls| - 1;
    assert forall b :: 0 <= b < m ==> calls[..m][b] == calls[b];
  }

  /** A barrier leaves no queue behind. */
  lemma BarrierEmpties(cfg: Config, calls: seq<Call>, call: Call, n: NodeId)
    requires WritesInRange(cfg, calls) && SafeQueueing(cfg, calls) && Barrier(call)
    ensures Queue(Exec(cfg, After(cfg, calls), call).s.queues, n) == []
  {
    hide After, Access.Fence;
    if call.CallFence? {
      FenceDeliversHistory(cfg, calls, call.sched);
    }
  }

  /** Every queued byte was written by a call with no fence or restart since. */
  lemma {:induction false} QueuedSince(cfg: Config, calls: seq<Call>, n: NodeId, i: int) returns (k: nat)
    requires WritesInRange(cfg, calls) && SafeQueueing(cfg, calls)
    requires CoveredIn(Queue(After(cfg, calls).queues, n), n, i)
    ensures WrittenSince(cfg, calls, k, n, i)
  {
    hide Exec, Enqueue, CoveredIn, WrittenSince;
    NothingCovered(n, i);
    if calls == [] {
      assert false;
    } else {
      var m := |calls| - 1;
      var before, call := calls[..m], calls[m];
      assert forall b :: 0 <= b < m ==> before[b] == calls[b];
      SafePrefix(cfg, calls, m);
      var s := After(cfg, before);
      if Barrier(call) {
        BarrierEmpties(cfg, before, call, n);
        assert false;
      }
      AlwaysSettled(cfg, before);
      var w := CallStep(cfg, s, call, n);
      if CoveredIn(Queue(s.queues, n), n, i) {
        k := QueuedSince(cfg, before, n, i);
        WrittenSinceExtends(cfg, calls, k, n, i);
      } else {
        EnqueueCovers(Queue(s.queues, n), w, n, i);
        k := m;
        LastWritten(cfg, calls, w, n, i);
      }
    }
  }

  lemma NothingCovered(n: NodeId, i: int)
    ensures !CoveredIn([], n, i)
  {
  }

  lemma LastWritten(cfg: Config, calls: seq<Call>, w: PendingWrite, n: NodeId, i: int)
    requires calls != [] && RemoteWriteCall(cfg, calls[|calls| - 1])
    requires QueuedForm(w, calls[|calls| - 1].addr, calls[|calls| - 1].data) && w.Covers(n, i)
    ensures WrittenSince(cfg, calls, |calls| - 1, n, i)
  {
  }

  /** Fence-disciplined clients never read home memory behind a queue. */
  lemma FencedReadsAreUpToDate(cfg: Config, calls: seq<Call>)
    requires WritesInRange(cfg, calls) && SafeQueueing(cfg, calls) && FencedReads(cfg, calls)
    ensures UpToDateReads(cfg, calls)
  {
    hide After, ReadCached, Bank, ByteAfter, Permitted;
    forall k | 0 <= k < |calls| && calls[k].CallRead?
      ensures CaughtUp(cfg, After(cfg, calls[..k]), calls[k].key)
    {
      FencedReadCaughtUp(cfg, calls, k);
    }
  }

  lemma FencedReadCaughtUp(cfg: Config, calls: seq<Call>, k: nat)
    requires WritesInRange(cfg, calls) && SafeQueueing(cfg, calls) && FencedReads(cfg, calls)
    requires k < |calls| && calls[k].CallRead?
    ensures CaughtUp(cfg, After(cfg, calls[..k]), calls[k].key)
  {
    hide After, Bank, ByteAfter, SafeQueueing, CoveredIn;
    var before, s, key := calls[..k], After(cfg, calls[..k]), calls[k].key;
    assert forall b :: 0 <= b < k ==> before[b] == calls[b];
    SafePrefix(cfg, calls, k);
    var home := key.addr.home;
    var bank := Bank(cfg, s.mem, home);
    forall i | key.addr.offset <= i < key.End() && i < |bank|
      ensures ByteAfter(Queue(s.queues, home), home, i, bank[i]) == bank[i]
    {
      if CoveredIn(Queue(s.queues, home), home, i) {
        var j := QueuedSince(cfg, before, home, i);
        assert false;
      }
      UncoveredByte(Queue(s.queues, home), home, i, bank[i]);
    }
  }

  /** With nothing queued between calls every read is up to date. */
  lemma ImmediateDeliveryIsUpToDate(cfg: Config, calls: seq<Call>)
    requires Depth(cfg) == 0
    ensures UpToDateReads(cfg, calls)
  {
    hide After, ReadCached, Bank, Permitted;
    forall k | 0 <= k < |calls| && calls[k].CallRead?
      ensures CaughtUp(cfg, After(cfg, calls[..k]), calls[k].key)
    {
      QueueDepthBound(cfg, calls[..k], calls[k].key.addr.home);
    }
  }

  /** The rules, in terms of the configuration and the calls alone. */
  ghost predicate ClientRules(cfg: Config, calls: seq<Call>)
  {
    && WritesInRange(cfg, calls)
    && (Depth(cfg) <= 1 || Spaced(WriteKeys(cfg, calls)))
    && (Depth(cfg) == 0 || FencedReads(cfg, calls))
    && Tame(cfg, AccessKeys(cfg, calls))
  }

  /** A client that keeps the rules sees a flat memory, whatever the threshold. */
  lemma RulesSuffice(cfg: Config, calls: seq<Call>)
    requires ClientRules(cfg, calls)
    ensures Refinable(cfg, calls)
  {
    hide Depth, Spaced, OneHome, EqualOrDisjoint, FencedReads, SafeQueueing, UpToDateReads, CurrentFetches, CleanWrites;
    DisjointWritesAreClean(cfg, calls);
    HomeFetches(cfg, calls);
    if Depth(cfg) <= 1 {
      ShortQueuesAreSafe(cfg, calls);
    } else {
      SpacedWritesAreSafe(cfg, calls);
    }
    if Depth(cfg) == 0 {
      ImmediateDeliveryIsUpToDate(cfg, calls);
    } else {
      FencedReadsAreUpToDate(cfg, calls);
    }
  }
}
