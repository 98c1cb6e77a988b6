/**
  Exact conditions: who answers a missed read, which reads and which cached
  entries are behind, and which writes stay readable although they were refused
  (src/api/access_api.cc). Everything here is about every run of every client.
 */
module Exactness {
  import opened Types
  import opened WriteCombining
  import opened LruCache
  import opened BlockRanges
  import opened StubNet
  import opened Access
  import opened Frames
  import opened StubControl
  import opened QueueRuns
  import opened Batching
  import opened Redirection
  import opened CacheRuns
  import opened FlatMemory
  import opened Owners
  import opened Discipline
  import opened AllocationRuns

  // ---------------------------------------------------- who answers a missed read

  /**
    Who answers. In every run, whatever the homes: a missed remote read is
    redirected iff the guard holds. Then it returns the owner's bytes; otherwise
    it succeeds iff its range is in its home region and returns the home's bytes.
   */
  lemma MissAnswered(cfg: Config, calls: seq<Call>, key: CacheKey, sched: Schedule)
    requires RemoteRange(cfg, key) && !ReadCached(After(cfg, calls).entries, key, sched.hits).hit
    ensures var s := After(cfg, calls); var r := Read(cfg, s, key, sched);
            var owner := DominantOwner(s.blocks, IdsOf(cfg, key), key.addr.home);
            && (OwnerAwareRead(cfg, MissState(cfg, s, key), key, IdsOf(cfg, key), sched.ownerHits).redirected <==>
                GoesToThird(cfg, s, key))
            && (GoesToThird(cfg, s, key) ==> r.status == Ok && r.bytes == Load(cfg, s.mem, At(key, owner)))
            && (!GoesToThird(cfg, s, key) ==>
                  && (r.status == Ok <==> Reaches(cfg, s.mem, key))
                  && (r.status == Ok ==> r.bytes == Load(cfg, s.mem, key)))
  {
    hide Access.Read, ReadCached, After, MissState, OwnerAwareRead, DominantOwner, AllValidated, Ids, Resolve, Load,
         Reaches, MemOk;
    AlwaysSettled(cfg, calls);
    MemoryKeepsShape(cfg, calls);
    MissAnswers(cfg, After(cfg, calls), key, sched);
  }

  // ------------------------------------------- which reads and entries are behind

  /**
    Exactly which missed reads are behind. For every threshold, in every run
    whose writes are in range and safely queued, whatever the homes: a remote
    read of a range in its region that misses the cache succeeds, and returns the
    bytes last written in program order iff its fetch is current: its home
    answers and replaying its pending writes would change none of the bytes, or
    a third node answers and happens to hold them.
   */
  lemma FetchCurrentIff(cfg: Config, calls: seq<Call>, key: CacheKey, sched: Schedule)
    requires WritesInRange(cfg, calls) && SafeQueueing(cfg, calls)
    requires RemoteRange(cfg, key) && key.End() <= cfg.localRegionSize
    requires !ReadCached(After(cfg, calls).entries, key, sched.hits).hit
    ensures var s, hist := After(cfg, calls), History(cfg, calls); var r := Read(cfg, s, key, sched);
            r.status == Ok && (r.bytes == RefBytes(hist, key) <==> FetchIsCurrent(cfg, s, key, hist))
  {
    hide After, Access.Read, ReadCached, FetchIsCurrent, History, Faithful, Settled, RefBytes;
    RunData(cfg, calls);
    AlwaysSettled(cfg, calls);
    MissIsReferenceIff(cfg, After(cfg, calls), key, sched, History(cfg, calls));
  }

  /** With one home per block index the home answers, and only the queue matters. */
  lemma BehindQueueIff(cfg: Config, calls: seq<Call>, key: CacheKey, sched: Schedule, keys: set<CacheKey>)
    requires WritesInRange(cfg, calls) && SafeQueueing(cfg, calls)
    requires AccessKeys(cfg, calls) <= keys && OneHome(cfg, keys) && key in keys
    requires RemoteRange(cfg, key) && key.End() <= cfg.localRegionSize
    requires !ReadCached(After(cfg, calls).entries, key, sched.hits).hit
    ensures var s := After(cfg, calls); var r := Read(cfg, s, key, sched);
            && r.status == Ok && Reaches(cfg, s.mem, key) && r.bytes == Load(cfg, s.mem, key)
            && (r.bytes == RefBytes(History(cfg, calls), key) <==> CaughtUp(cfg, s, key))
  {
    hide After, Access.Read, ReadCached, OneHome, AccessKeys, CaughtUp, History, GoesToThird, MissState,
         OwnerAwareRead, RefBytes;
    OneHomeStaysHome(cfg, calls, key, keys);
    MissAnswered(cfg, calls, key, sched);
    FetchCurrentIff(cfg, calls, key, sched);
  }

  /** Call k of the run, if it is a read that succeeds, returns the bytes last written before it. */
  ghost predicate ReadIsCurrent(cfg: Config, calls: seq<Call>, k: nat)
    requires k < |calls|
  {
    calls[k].CallRead? ==>
      var r := Exec(cfg, After(cfg, calls[..k]), calls[k]);
      r.status == Ok ==> r.bytes == RefBytes(History(cfg, calls[..k]), calls[k].key)
  }

  /**
    Exactly which runs are flat. For every threshold, in every run with in-range,
    safely queued writes that leave no entry sharing a byte with them, whatever
    the homes: all its reads, hits and misses, return the bytes last written iff
    every permitted read that misses fetches current bytes.
   */
  lemma ReadsCurrentIff(cfg: Config, calls: seq<Call>)
    requires WritesInRange(cfg, calls) && SafeQueueing(cfg, calls) && CleanWrites(cfg, calls)
    ensures (forall k :: 0 <= k < |calls| ==> ReadIsCurrent(cfg, calls, k)) <==> CurrentFetches(cfg, calls)
  {
    hide After, Exec, History, ReadIsCurrent, CurrentFetch, CleanWrites, SafeQueueing;
    if CurrentFetches(cfg, calls) {
      forall k | 0 <= k < |calls|
        ensures ReadIsCurrent(cfg, calls, k)
      {
        CurrentIfFetched(cfg, calls, k);
      }
    } else {
      var k :| 0 <= k < |calls| && !CurrentFetch(cfg, After(cfg, calls[..k]), calls[k], History(cfg, calls[..k]));
      BehindIfNot(cfg, calls, k);
    }
  }

  lemma CurrentIfFetched(cfg: Config, calls: seq<Call>, k: nat)
    requires Refinable(cfg, calls) && k < |calls|
    ensures ReadIsCurrent(cfg, calls, k)
  {
    hide After, Exec, Refinable;
    if calls[k].CallRead? {
      assert calls[..k + 1] == calls[..k] + [calls[k]];
      RefinablePrefix(cfg, calls, k + 1);
      ReadsReturnLastWrites(cfg, calls[..k], calls[k].key, calls[k].sched);
    }
  }

  lemma BehindIfNot(cfg: Config, calls: seq<Call>, k: nat)
    requires WritesInRange(cfg, calls) && SafeQueueing(cfg, calls) && k < |calls|
    requires !CurrentFetch(cfg, After(cfg, calls[..k]), calls[k], History(cfg, calls[..k]))
    ensures !ReadIsCurrent(cfg, calls, k)
  {
    hide After, SafeQueueing, Access.Read, ReadCached, FetchIsCurrent, History;
    assert forall j :: 0 <= j < k ==> calls[..k][j] == calls[j];
    SafePrefix(cfg, calls, k);
    FetchCurrentIff(cfg, calls[..k], calls[k].key, calls[k].sched);
  }

  /** For a client with tame footprints: all reads are current iff none goes to home memory behind a queue. */
  lemma TameReadsCurrentIff(cfg: Config, calls: seq<Call>)
    requires WritesInRange(cfg, calls) && SafeQueueing(cfg, calls) && Tame(cfg, AccessKeys(cfg, calls))
    ensures (forall k :: 0 <= k < |calls| ==> ReadIsCurrent(cfg, calls, k)) <==> UpToDateReads(cfg, calls)
  {
    hide ReadIsCurrent, CurrentFetches, UpToDateReads, CleanWrites, SafeQueueing, EqualOrDisjoint, OneHome;
    DisjointWritesAreClean(cfg, calls);
    HomeFetches(cfg, calls);
    ReadsCurrentIff(cfg, calls);
  }

  // --------------------------------------------------- one cached entry over a run

  /** From call k on the range stays resident, and no later call writes it. */
  ghost predicate ResidentSince(cfg: Config, calls: seq<Call>, k: nat, key: CacheKey)
    requires k < |calls|
  {
    && (forall j :: k < j <= |calls| ==> Has(After(cfg, calls[..j]).entries, key))
    && (forall j :: k < j < |calls| && RemoteWriteCall(cfg, calls[j]) ==> calls[j].Key() != key)
  }

  lemma ResidentPrefix(cfg: Config, calls: seq<Call>, k: nat, key: CacheKey)
    requires k + 1 < |calls| && ResidentSince(cfg, calls, k, key)
    ensures ResidentSince(cfg, calls[..|calls| - 1], k, key)
  {
    hide After, Has;
    var n := |calls| - 1;
    var before := calls[..n];
    assert forall j :: 0 <= j < n ==> before[j] == calls[j];
    forall j | k < j <= n
      ensures Has(After(cfg, before[..j]).entries, key)
    {
      assert before[..j] == calls[..j];
    }
  }

  /** While it stays resident an entry keeps the payload it was admitted with. */
  lemma {:induction false} PayloadSince(cfg: Config, calls: seq<Call>, k: nat, key: CacheKey)
    requires k < |calls| && ResidentSince(cfg, calls, k, key)
    ensures Has(After(cfg, calls[..k + 1]).entries, key) && Has(After(cfg, calls).entries, key)
    ensures PayloadOf(After(cfg, calls).entries, key) == PayloadOf(After(cfg, calls[..k + 1]).entries, key)
  {
    hide Exec, Has, PayloadOf, Tidy;
    assert Has(After(cfg, calls[..k + 1]).entries, key);
    assert calls[..|calls|] == calls;
    assert Has(After(cfg, calls[..|calls|]).entries, key);
    if k + 1 < |calls| {
      var n := |calls| - 1;
      var before := calls[..n];
      ResidentPrefix(cfg, calls, k, key);
      PayloadSince(cfg, before, k, key);
      assert before[..k + 1] == calls[..k + 1];
      AlwaysTidy(cfg, before);
      AlwaysSettled(cfg, before);
      assert Has(After(cfg, before).entries, key);
      PayloadStays(cfg, After(cfg, before), calls[n], key);
    }
  }

  /** While it stays resident the reference bytes of its range do not change either. */
  lemma {:induction false} ReferenceSince(cfg: Config, calls: seq<Call>, k: nat, key: CacheKey)
    requires k < |calls| && ResidentSince(cfg, calls, k, key) && CleanWrites(cfg, calls) && key.addr.home != cfg.nodeId
    ensures RefBytes(History(cfg, calls), key) == RefBytes(History(cfg, calls[..k + 1]), key)
  {
    hide Exec, Has, RefBytes, CleanWrite;
    if k + 1 == |calls| {
      assert calls[..k + 1] == calls;
    } else {
      var n := |calls| - 1;
      var before, call := calls[..n], calls[n];
      ResidentPrefix(cfg, calls, k, key);
      CleanPrefix(cfg, calls, n);
      ReferenceSince(cfg, before, k, key);
      assert before[..k + 1] == calls[..k + 1];
      assert calls[..|calls|] == calls && Has(After(cfg, calls[..|calls|]).entries, key);
      AlwaysSettled(cfg, before);
      AlwaysTidy(cfg, before);
      if call.CallRestart? {
        RestartEmpties(cfg, before, call, key);
        assert false;
      }
      if call.CallWrite? && Exec(cfg, After(cfg, before), call).status == Ok {
        SurvivorIsUntouched(cfg, After(cfg, before), call, key, History(cfg, before));
      }
    }
  }

  /** An entry that survives a clean write of another range keeps its reference bytes. */
  lemma SurvivorIsUntouched(cfg: Config, s: Node, call: Call, key: CacheKey, hist: seq<PendingWrite>)
    requires Settled(cfg, s) && Tidy(cfg, s.entries) && call.CallWrite? && CleanWrite(cfg, s, call)
    requires key.addr.home != cfg.nodeId && (RemoteWriteCall(cfg, call) ==> call.Key() != key)
    requires Has(Exec(cfg, s, call).s.entries, key) && Exec(cfg, s, call).status == Ok
    ensures RefBytes(hist + [Plain(call.addr, call.data)], key) == RefBytes(hist, key)
  {
    hide Access.Write, RefBytes, Settled, FlagsOf, CachesItself, LeftBy, Insert;
    var addr, data := call.addr, call.data;
    if addr.home != cfg.nodeId {
      OkIsWellFormed(cfg, s, addr, data, call.sched);
      EntriesAfterWrite(cfg, s, addr, data, call.sched);
      LeftWithout(cfg, s, addr, data);
      InsertKeeps(cfg, LeftBy(cfg, s, addr, data), CacheKey(addr, |data|), data);
      var after := Exec(cfg, s, call).s.entries;
      var i :| 0 <= i < |after| && after[i].key == key;
      assert after[i] in after;
      assert after[i] in LeftBy(cfg, s, addr, data);
    }
    UnaffectedBytes(hist, Plain(addr, data), key);
  }

  lemma OkIsWellFormed(cfg: Config, s: Node, addr: GlobalAddr, data: seq<byte>, sched: Schedule)
    requires Settled(cfg, s) && addr.home != cfg.nodeId && Access.Write(cfg, s, addr, data, sched).status == Ok
    ensures RemoteRange(cfg, CacheKey(addr, |data|))
  {
    hide RemoteWrite, Settled;
    WriteReduces(cfg, s, addr, data, sched);
  }

  lemma RestartEmpties(cfg: Config, calls: seq<Call>, call: Call, key: CacheKey)
    requires call.CallRestart?
    ensures !Has(Exec(cfg, After(cfg, calls), call).s.entries, key)
  {
    hide After;
  }

  /**
    Which bytes a cached entry holds. In every run, whatever the homes, queues and
    overlaps: an entry that read k admitted and that stayed resident since holds
    the recorded owner's bytes of that moment if the redirection guard held at
    k, and the home's bytes if it did not. No flush, fence or write to another range
    since then makes a difference.
   */
  lemma EntryBytesIff(cfg: Config, calls: seq<Call>, k: nat, key: CacheKey)
    requires k < |calls| && calls[k].CallRead? && calls[k].key == key && RemoteRange(cfg, key)
    requires !Has(After(cfg, calls[..k]).entries, key) && ResidentSince(cfg, calls, k, key)
    ensures Has(After(cfg, calls).entries, key)
    ensures var s, bytes := After(cfg, calls[..k]), PayloadOf(After(cfg, calls).entries, key);
            var owner := DominantOwner(s.blocks, IdsOf(cfg, key), key.addr.home);
            && (GoesToThird(cfg, s, key) ==> bytes == Load(cfg, s.mem, At(key, owner)))
            && (!GoesToThird(cfg, s, key) ==> Reaches(cfg, s.mem, key) && bytes == Load(cfg, s.mem, key))
  {
    hide After, Access.Read, ResidentSince, Has, PayloadOf, History, GoesToThird, MissState, OwnerAwareRead, ReadCached;
    PayloadSince(cfg, calls, k, key);
    AdmittedBytes(cfg, calls, k, key);
    MissAnswered(cfg, calls[..k], key, calls[k].sched);
  }

  /**
    Exactly which cached entries are current. In every run with in-range, safely
    queued, clean writes, whatever the homes: an entry that read k admitted and
    that stayed resident since holds the bytes last written to its range iff what
    read k fetched was current.
   */
  lemma EntryCurrentIff(cfg: Config, calls: seq<Call>, k: nat, key: CacheKey)
    requires WritesInRange(cfg, calls) && SafeQueueing(cfg, calls) && CleanWrites(cfg, calls)
    requires k < |calls| && calls[k].CallRead? && calls[k].key == key && RemoteRange(cfg, key)
    requires key.End() <= cfg.localRegionSize
    requires !Has(After(cfg, calls[..k]).entries, key) && ResidentSince(cfg, calls, k, key)
    ensures Has(After(cfg, calls).entries, key)
    ensures PayloadOf(After(cfg, calls).entries, key) == RefBytes(History(cfg, calls), key) <==>
            FetchIsCurrent(cfg, After(cfg, calls[..k]), key, History(cfg, calls[..k]))
  {
    hide After, Access.Read, FetchIsCurrent, SafeQueueing, CleanWrites, History, ResidentSince, Has, PayloadOf,
         RefBytes, ReadCached;
    assert forall j :: 0 <= j < k ==> calls[..k][j] == calls[j];
    SafePrefix(cfg, calls, k);
    PayloadSince(cfg, calls, k, key);
    ReferenceSince(cfg, calls, k, key);
    AdmittedBytes(cfg, calls, k, key);
    FetchCurrentIff(cfg, calls[..k], key, calls[k].sched);
  }

  /** The read that brings a range into the cache missed, and admitted exactly the bytes it returned. */
  lemma AdmittedBytes(cfg: Config, calls: seq<Call>, k: nat, key: CacheKey)
    requires k < |calls| && calls[k].CallRead? && calls[k].key == key && RemoteRange(cfg, key)
    requires !Has(After(cfg, calls[..k]).entries, key) && Has(After(cfg, calls[..k + 1]).entries, key)
    ensures var s := After(cfg, calls[..k]);
            && !ReadCached(s.entries, key, calls[k].sched.hits).hit
            && Read(cfg, s, key, calls[k].sched).status == Ok
            && PayloadOf(After(cfg, calls[..k + 1]).entries, key) == Read(cfg, s, key, calls[k].sched).bytes
            && History(cfg, calls[..k + 1]) == History(cfg, calls[..k])
  {
    hide Access.Read, Access.Write, Access.Fence, Access.Malloc, Has, PayloadOf, ReadCached, Settled;
    var before, after := calls[..k], calls[..k + 1];
    assert after[..|after| - 1] == before && after[|after| - 1] == calls[k];
    AlwaysSettled(cfg, before);
    AlwaysTidy(cfg, before);
    MissedThenAdmitted(cfg, After(cfg, before), key, calls[k].sched);
  }

  lemma MissedThenAdmitted(cfg: Config, s: Node, key: CacheKey, sched: Schedule)
    requires Settled(cfg, s) && Tidy(cfg, s.entries) && RemoteRange(cfg, key)
    requires !Has(s.entries, key) && Has(Read(cfg, s, key, sched).s.entries, key)
    ensures !ReadCached(s.entries, key, sched.hits).hit && Read(cfg, s, key, sched).status == Ok
    ensures PayloadOf(Read(cfg, s, key, sched).s.entries, key) == Read(cfg, s, key, sched).bytes
  {
    hide Access.Read, Insert, Settled, Touch;
    ReadOutcome(cfg, s, key, sched);
    var r := Read(cfg, s, key, sched);
    if ReadCached(s.entries, key, sched.hits).hit {
      HitKeepsKeys(s.entries, key, sched.hits);
      assert false;
    }
    InsertKeeps(cfg, s.entries, key, r.bytes);
    var e := Entry(key, PayloadOf(r.s.entries, key));
    assert e in r.s.entries;
    assert !(e in s.entries) by {
      if e in s.entries {
        OneEntryPerKey(s.entries, e);
      }
    }
  }

  lemma HitKeepsKeys(entries: seq<Entry>, key: CacheKey, schedule: seq<CacheKey>)
    requires WellFormed(entries) && ReadCached(entries, key, schedule).hit && !Has(entries, key)
    ensures !Has(ReadCached(entries, key, schedule).entries, key)
  {
    var k := Served(entries, key, schedule).value;
    ServerIsResident(entries, key, k);
    TouchKeeps(entries, k);
    var after := Touch(entries, k);
    forall i | 0 <= i < |after|
      ensures after[i].key != key
    {
      assert after[i] in after && after[i] in entries;
    }
  }

  // ------------------------------------------------------ writes that cache themselves

  /** The guard, said through the modes: some block of the range is in Adaptive mode after profiling the write. */
  lemma CachesItselfIffAdaptive(cfg: Config, s: Node, addr: GlobalAddr, data: seq<byte>)
    requires RemoteRange(cfg, CacheKey(addr, |data|))
    ensures var key := CacheKey(addr, |data|);
            CachesItself(cfg, s, addr, data) <==>
            && cfg.enableWriteBatching && Storable(cfg, |data|)
            && Adaptive in Profiled(cfg, Quiet(cfg, s), key, IdsOf(cfg, key), WriteAccess).modes
  {
    hide UpdateAll, ObserveAll;
    var q, key := Quiet(cfg, s), CacheKey(addr, |data|);
    var o := Profiled(cfg, q, key, IdsOf(cfg, key), WriteAccess);
    BiasNeedsAdaptive(cfg, Applied(o.blocks, false, false), IdsOf(cfg, key), o.modes, addr.home);
  }

  /**
    In every run, after every remote write, delivered, queued or refused: its
    range is resident iff the guard holds, and then with the written bytes.
   */
  lemma ResidentAfterWriteIff(cfg: Config, calls: seq<Call>, addr: GlobalAddr, data: seq<byte>, sched: Schedule)
    requires RemoteRange(cfg, CacheKey(addr, |data|))
    ensures var s, key := After(cfg, calls), CacheKey(addr, |data|); var r := Access.Write(cfg, s, addr, data, sched);
            && (Has(r.s.entries, key) <==> CachesItself(cfg, s, addr, data))
            && (CachesItself(cfg, s, addr, data) ==> PayloadOf(r.s.entries, key) == data)
  {
    hide After, Access.Write, CachesItself, Settled, FlagsOf;
    var s, key := After(cfg, calls), CacheKey(addr, |data|);
    AlwaysSettled(cfg, calls);
    AlwaysTidy(cfg, calls);
    EntriesAfterWrite(cfg, s, addr, data, sched);
    LeftWithout(cfg, s, addr, data);
    if CachesItself(cfg, s, addr, data) {
      InsertedFirst(cfg, s, addr, data);
    }
  }

  lemma InsertedFirst(cfg: Config, s: Node, addr: GlobalAddr, data: seq<byte>)
    requires RemoteRange(cfg, CacheKey(addr, |data|)) && Tidy(cfg, s.entries) && CachesItself(cfg, s, addr, data)
    ensures var key := CacheKey(addr, |data|); var after := Insert(cfg, LeftBy(cfg, s, addr, data), key, data);
            Has(after, key) && PayloadOf(after, key) == data
  {
    hide LeftBy, FlagsOf, Insert;
    var key := CacheKey(addr, |data|);
    LeftWithout(cfg, s, addr, data);
    InsertKeeps(cfg, LeftBy(cfg, s, addr, data), key, data);
    var after := Insert(cfg, LeftBy(cfg, s, addr, data), key, data);
    OneEntryPerKey(after, after[0]);
  }

  /**
    Exactly which out-of-range writes can be read back. In every run, after a
    remote write past the region, refused at once or still queued: reading its
    range succeeds iff the write cached itself or its invalidation left a range
    that contains it. In the first case the read returns the written bytes, in
    the second the part of a containing entry. If only in-range entries were
    cached, it succeeds iff the guard holds.
   */
  lemma RefusedWriteReadBackIff(cfg: Config, calls: seq<Call>, addr: GlobalAddr, data: seq<byte>, sched: Schedule,
                                later: Schedule)
    requires RemoteRange(cfg, CacheKey(addr, |data|)) && addr.offset + |data| > cfg.localRegionSize
    ensures var s, key := After(cfg, calls), CacheKey(addr, |data|);
            var r := Read(cfg, Access.Write(cfg, s, addr, data, sched).s, key, later);
            && (r.status == Ok <==> CachesItself(cfg, s, addr, data) || Servers(LeftBy(cfg, s, addr, data), key) != {})
            && (CachesItself(cfg, s, addr, data) ==> r.bytes == data)
            && (!CachesItself(cfg, s, addr, data) && r.status == Ok ==>
                  exists k :: k in Servers(LeftBy(cfg, s, addr, data), key) && Has(LeftBy(cfg, s, addr, data), k) &&
                              r.bytes == Part(PayloadOf(LeftBy(cfg, s, addr, data), k), k, key))
            && ((forall e :: e in s.entries ==> e.key.End() <= cfg.localRegionSize) ==>
                  (r.status == Ok <==> CachesItself(cfg, s, addr, data)))
  {
    hide Access.Write, Access.Read, CachesItself, Settled, LeftBy, Insert, ReadCached, GoesToThird, MissState,
         OwnerAwareRead, Reaches;
    var s, key, all := After(cfg, calls), CacheKey(addr, |data|), calls + [CallWrite(addr, data, sched)];
    var s1 := Access.Write(cfg, s, addr, data, sched).s;
    LastCall(cfg, calls, CallWrite(addr, data, sched));
    AlwaysSettled(cfg, calls);
    AlwaysSettled(cfg, all);
    AlwaysTidy(cfg, all);
    ResidentAfterWriteIff(cfg, calls, addr, data, sched);
    EntriesAfterWrite(cfg, s, addr, data, sched);
    NoServerInRange(cfg, s, addr, data);
    if ReadCached(s1.entries, key, later.hits).hit {
      HitSucceeds(cfg, s1, key, later);
    } else {
      MissAnswered(cfg, all, key, later);
      BeyondEveryBank(cfg, all, key);
    }
    HitIff(s1.entries, key, later.hits);
    if !CachesItself(cfg, s, addr, data) && ReadCached(s1.entries, key, later.hits).hit {
      HitIsPart(s1.entries, key, later.hits);
    }
  }

  lemma HitIff(entries: seq<Entry>, key: CacheKey, schedule: seq<CacheKey>)
    ensures ReadCached(entries, key, schedule).hit <==> Has(entries, key) || Servers(entries, key) != {}
    ensures Has(entries, key) ==> ReadCached(entries, key, schedule).bytes == Part(PayloadOf(entries, key), key, key)
  {
  }

  lemma HitIsPart(entries: seq<Entry>, key: CacheKey, schedule: seq<CacheKey>)
    requires !Has(entries, key) && ReadCached(entries, key, schedule).hit
    ensures exists k :: k in Servers(entries, key) && Has(entries, k) &&
                        ReadCached(entries, key, schedule).bytes == Part(PayloadOf(entries, k), k, key)
  {
    hide Part, Touch;
    var k := Pick(Servers(entries, key), schedule);
    ServerIsResident(entries, key, k);
  }

  /** A range past the region is in no bank, so no miss of it is answered. */
  lemma BeyondEveryBank(cfg: Config, calls: seq<Call>, key: CacheKey)
    requires RemoteRange(cfg, key) && key.End() > cfg.localRegionSize
    ensures !Reaches(cfg, After(cfg, calls).mem, key) && !GoesToThird(cfg, After(cfg, calls), key)
  {
    hide After, DominantOwner, AllValidated;
    MemoryKeepsShape(cfg, calls);
    var mem := After(cfg, calls).mem;
    forall n: NodeId
      ensures !Reaches(cfg, mem, At(key, n))
    {
      if Reaches(cfg, mem, At(key, n)) {
        ReachesInBank(cfg, mem, At(key, n));
      }
    }
    assert At(key, key.addr.home) == key;
  }

  lemma NoServerInRange(cfg: Config, s: Node, addr: GlobalAddr, data: seq<byte>)
    requires RemoteRange(cfg, CacheKey(addr, |data|)) && addr.offset + |data| > cfg.localRegionSize
    ensures (forall e :: e in s.entries ==> e.key.End() <= cfg.localRegionSize) ==>
              Servers(LeftBy(cfg, s, addr, data), CacheKey(addr, |data|)) == {}
  {
    hide FlagsOf;
  }
}
