/**
  The whole runtime refines a flat byte memory: cache, batching, ownership and
  coherence modes are invisible in a run whose writes leave no stale entry
  behind and whose missed reads are answered with current bytes.
 */
module FlatMemory {
  import opened Types
  import opened WriteCombining
  import opened LruCache
  import opened BlockRanges
  import opened Allocator
  import opened StubNet
  import opened Access
  import opened Frames
  import opened StubControl
  import opened QueueRuns
  import opened Batching
  import opened Redirection
  import opened CacheRuns

  /** The bytes of a footprint in the reference memory: the last writes in program order, zero before any. */
  function RefBytes(hist: seq<PendingWrite>, key: CacheKey): (r: seq<byte>)
    ensures |r| == key.size
    ensures forall j :: 0 <= j < key.size ==> r[j] == ByteAfter(hist, key.addr.home, key.addr.offset + j, 0)
  {
    seq(key.size, j requires 0 <= j => ByteAfter(hist, key.addr.home, key.addr.offset + j, 0))
  }

  /** The footprints have a byte of home memory in common (the stub ignores the region id). */
  predicate ShareByte(a: CacheKey, b: CacheKey)
  {
    && a.addr.home == b.addr.home && a.size > 0 && b.size > 0
    && a.addr.offset < b.End() && b.addr.offset < a.End()
  }

  lemma UnaffectedBytes(hist: seq<PendingWrite>, w: PendingWrite, key: CacheKey)
    requires !ShareByte(key, w.Key())
    ensures RefBytes(hist + [w], key) == RefBytes(hist, key)
  {
    forall j | 0 <= j < key.size
      ensures RefBytes(hist + [w], key)[j] == RefBytes(hist, key)[j]
    {
      assert (hist + [w])[..|hist|] == hist;
      assert !w.Covers(key.addr.home, key.addr.offset + j);
    }
  }

  lemma WrittenBytes(hist: seq<PendingWrite>, w: PendingWrite)
    ensures RefBytes(hist + [w], w.Key()) == w.payload
  {
    forall j | 0 <= j < |w.payload|
      ensures RefBytes(hist + [w], w.Key())[j] == w.payload[j]
    {
      assert w.Covers(w.addr.home, w.addr.offset + j);
    }
  }

  // ------------------------------------------------------------ cache content

  /** Every entry holds the reference bytes of its footprint. */
  ghost predicate UpToDate(entries: seq<Entry>, hist: seq<PendingWrite>)
  {
    forall e :: e in entries ==> e.payload == RefBytes(hist, e.key)
  }

  /** Every cached entry is a remote in-range footprint with the reference bytes. */
  ghost predicate CacheOk(cfg: Config, entries: seq<Entry>, hist: seq<PendingWrite>)
  {
    var ok :=
      && Tidy(cfg, entries) && UpToDate(entries, hist)
      && forall e :: e in entries ==> e.key.addr.home != cfg.nodeId && e.key.End() <= cfg.localRegionSize;
    ok
  }

  lemma DropCacheOk(cfg: Config, entries: seq<Entry>, sel: Selector, hist: seq<PendingWrite>, w: PendingWrite)
    requires CacheOk(cfg, entries, hist) && forall e :: e in Drop(entries, sel) ==> !ShareByte(e.key, w.Key())
    ensures CacheOk(cfg, Drop(entries, sel), hist + [w])
  {
    DropKeeps(cfg, entries, sel);
    forall e | e in Drop(entries, sel)
      ensures e.payload == RefBytes(hist + [w], e.key)
    {
      UnaffectedBytes(hist, w, e.key);
    }
  }

  lemma InsertCacheOk(cfg: Config, entries: seq<Entry>, key: CacheKey, hist: seq<PendingWrite>)
    requires CacheOk(cfg, entries, hist) && key.addr.home != cfg.nodeId && key.End() <= cfg.localRegionSize
    ensures CacheOk(cfg, Insert(cfg, entries, key, RefBytes(hist, key)), hist)
  {
    InsertKeeps(cfg, entries, key, RefBytes(hist, key));
  }

  /** A hit returns the reference bytes and keeps the cache content. */
  lemma HitIsReference(cfg: Config, entries: seq<Entry>, key: CacheKey, schedule: seq<CacheKey>, hist: seq<PendingWrite>)
    requires CacheOk(cfg, entries, hist)
    ensures var c := ReadCached(entries, key, schedule);
            && CacheOk(cfg, c.entries, hist)
            && (c.hit ==> c.bytes == RefBytes(hist, key) && key.End() <= cfg.localRegionSize)
  {
    var c := ReadCached(entries, key, schedule);
    if Has(entries, key) {
      ServedBytes(cfg, entries, key, key, hist);
    } else if c.hit {
      var k := Pick(Servers(entries, key), schedule);
      ServerIsResident(entries, key, k);
      ServedBytes(cfg, entries, k, key, hist);
    }
  }

  lemma ServedBytes(cfg: Config, entries: seq<Entry>, k: CacheKey, key: CacheKey, hist: seq<PendingWrite>)
    requires CacheOk(cfg, entries, hist) && Has(entries, k) && Serves(k, key)
    ensures CacheOk(cfg, Touch(entries, k), hist)
    ensures Part(PayloadOf(entries, k), k, key) == RefBytes(hist, key) && key.End() <= cfg.localRegionSize
  {
    TouchKeeps(entries, k);
    var p := PayloadOf(entries, k);
    assert Entry(k, p) in entries;
    assert p == RefBytes(hist, k);
  }

  // --------------------------------------------------------- what a miss fetches

  /** Replaying the pending writes of this home would change no byte of the range. */
  ghost predicate CaughtUp(cfg: Config, s: Node, key: CacheKey)
  {
    var home := key.addr.home;
    var bank := Bank(cfg, s.mem, home);
    forall i :: key.addr.offset <= i < key.End() && i < |bank| ==> ByteAfter(Queue(s.queues, home), home, i, bank[i]) == bank[i]
  }

  /** Home memory holds the reference bytes of a range iff its queue has nothing to add. */
  lemma LoadIsReferenceIff(cfg: Config, s: Node, key: CacheKey, hist: seq<PendingWrite>)
    requires Faithful(cfg, s.mem, s.queues, hist) && Reaches(cfg, s.mem, key)
    ensures key.End() <= cfg.localRegionSize
    ensures Load(cfg, s.mem, key) == RefBytes(hist, key) <==> CaughtUp(cfg, s, key)
  {
    hide ByteAfter;
    var home, bytes, ref := key.addr.home, Load(cfg, s.mem, key), RefBytes(hist, key);
    ReachesInBank(cfg, s.mem, key);
    BankSize(cfg, s.mem, home);
    var bank := Bank(cfg, s.mem, home);
    assert forall j :: 0 <= j < key.size ==> bytes[j] == bank[key.addr.offset + j];
    assert forall j :: 0 <= j < key.size ==>
        ref[j] == ByteAfter(Queue(s.queues, home), home, key.addr.offset + j, bank[key.addr.offset + j]);
    if bytes == ref {
      forall i | key.addr.offset <= i < key.End()
        ensures ByteAfter(Queue(s.queues, home), home, i, bank[i]) == bank[i]
      {
        assert bytes[i - key.addr.offset] == ref[i - key.addr.offset];
      }
    }
  }

  /** What a missed read fetches is current: nothing pending at its home, or a third node that happens to hold its bytes. */
  ghost predicate FetchIsCurrent(cfg: Config, s: Node, key: CacheKey, hist: seq<PendingWrite>)
    requires cfg.blockSize > 0 && key.size > 0
  {
    if GoesToThird(cfg, s, key)
    then Load(cfg, s.mem, At(key, DominantOwner(s.blocks, IdsOf(cfg, key), key.addr.home))) == RefBytes(hist, key)
    else CaughtUp(cfg, s, key)
  }

  /** A missed read of a remote range in its region returns the reference bytes iff its fetch is current. */
  lemma MissIsReferenceIff(cfg: Config, s: Node, key: CacheKey, sched: Schedule, hist: seq<PendingWrite>)
    requires Settled(cfg, s) && Faithful(cfg, s.mem, s.queues, hist) && RemoteRange(cfg, key)
    requires !ReadCached(s.entries, key, sched.hits).hit
    ensures var r := Read(cfg, s, key, sched);
            && (r.status == Ok <==> key.End() <= cfg.localRegionSize)
            && (r.status == Ok ==> (r.bytes == RefBytes(hist, key) <==> FetchIsCurrent(cfg, s, key, hist)))
  {
    hide Access.Read, ReadCached, MissState, OwnerAwareRead, DominantOwner, Ids, Resolve, Load, Reaches, MemOk,
         CaughtUp, RefBytes, Settled;
    MissAnswers(cfg, s, key, sched);
    AnswersInRange(cfg, s, key);
    if !GoesToThird(cfg, s, key) && Reaches(cfg, s.mem, key) {
      LoadIsReferenceIff(cfg, s, key, hist);
    }
  }

  // --------------------------------------------------------------- one call

  /** The access is well-formed and inside its home: this node's allocations, or a remote region. */
  predicate Permitted(cfg: Config, heap: Heap, key: CacheKey)
  {
    && key.addr.IsValid() && key.size > 0 && cfg.blockSize > 0
    && if key.addr.home == cfg.nodeId then Accepts(cfg, heap, key.addr, key.size) else key.End() <= cfg.localRegionSize
  }

  /** A permitted remote read that misses the cache fetches current bytes. */
  ghost predicate CurrentFetch(cfg: Config, s: Node, call: Call, hist: seq<PendingWrite>)
  {
    && call.CallRead? && call.key.addr.home != cfg.nodeId && Permitted(cfg, s.mem.heap, call.key)
    && !ReadCached(s.entries, call.key, call.sched.hits).hit
    ==> FetchIsCurrent(cfg, s, call.key, hist)
  }

  /** No entry that a remote write's invalidation leaves shares a byte with it. */
  ghost predicate CleanWrite(cfg: Config, s: Node, call: Call)
  {
    RemoteWriteCall(cfg, call) && RemoteRange(cfg, call.Key()) ==>
      forall e :: e in LeftBy(cfg, s, call.addr, call.data) ==> !ShareByte(e.key, call.Key())
  }

  lemma ReadFlat(cfg: Config, s: Node, key: CacheKey, sched: Schedule, hist: seq<PendingWrite>)
    requires Settled(cfg, s) && CacheOk(cfg, s.entries, hist) && DataOk(cfg, s, hist)
    requires CurrentFetch(cfg, s, CallRead(key, sched), hist)
    ensures var r := Read(cfg, s, key, sched);
            && CacheOk(cfg, r.s.entries, hist) && (r.status == Ok ==> r.bytes == RefBytes(hist, key))
            && (r.status == Ok <==> Permitted(cfg, s.mem.heap, key))
  {
    hide Access.Read, ReadCached, CacheOk, FetchIsCurrent, RefBytes, Accepts, Settled, Insert, Faithful;
    if RemoteRange(cfg, key) {
      ReadOutcome(cfg, s, key, sched);
      HitIsReference(cfg, s.entries, key, sched.hits, hist);
      if !ReadCached(s.entries, key, sched.hits).hit {
        MissIsReferenceIff(cfg, s, key, sched, hist);
        if key.End() <= cfg.localRegionSize {
          InsertCacheOk(cfg, s.entries, key, hist);
        }
      }
    } else {
      OtherReadFlat(cfg, s, key, sched, hist);
    }
  }

  /** Reads of this node's own memory, and reads refused before anything is looked up. */
  lemma OtherReadFlat(cfg: Config, s: Node, key: CacheKey, sched: Schedule, hist: seq<PendingWrite>)
    requires Settled(cfg, s) && DataOk(cfg, s, hist) && !RemoteRange(cfg, key)
    ensures var r := Read(cfg, s, key, sched);
            && r.s.entries == s.entries && (r.status == Ok ==> r.bytes == RefBytes(hist, key))
            && (r.status == Ok <==> Permitted(cfg, s.mem.heap, key))
  {
    hide RemoteRead, Accepts, Profiled, Settled;
    ReadReduces(cfg, s, key, sched);
    assert Queue(s.queues, cfg.nodeId) == [];
    if key.addr.home == cfg.nodeId && Reaches(cfg, s.mem, key) {
      LoadIsReferenceIff(cfg, s, key, hist);
    }
  }

  lemma WriteFlat(cfg: Config, s: Node, addr: GlobalAddr, data: seq<byte>, sched: Schedule, hist: seq<PendingWrite>)
    requires Settled(cfg, s) && CacheOk(cfg, s.entries, hist) && DataOk(cfg, s, hist)
    requires CleanWrite(cfg, s, CallWrite(addr, data, sched))
    requires addr.home != cfg.nodeId ==>
               addr.offset + |data| <= cfg.localRegionSize && NoLaterOverlap(Queue(s.queues, addr.home), Plain(addr, data))
    ensures var r := Access.Write(cfg, s, addr, data, sched);
            && CacheOk(cfg, r.s.entries, if r.status == Ok then hist + [Plain(addr, data)] else hist)
            && (r.status == Ok <==> Permitted(cfg, s.mem.heap, CacheKey(addr, |data|)))
  {
    hide Access.Write, CacheOk, Accepts, Settled, DataOk, NoLaterOverlap;
    if RemoteRange(cfg, CacheKey(addr, |data|)) {
      RemoteWriteFlat(cfg, s, addr, data, sched, hist);
    } else {
      OtherWriteFlat(cfg, s, addr, data, sched, hist);
    }
  }

  /** What a remote write leaves in the cache agrees with the reference extended by it. */
  lemma RemoteWriteFlat(cfg: Config, s: Node, addr: GlobalAddr, data: seq<byte>, sched: Schedule, hist: seq<PendingWrite>)
    requires Settled(cfg, s) && CacheOk(cfg, s.entries, hist) && DataOk(cfg, s, hist)
    requires CleanWrite(cfg, s, CallWrite(addr, data, sched)) && RemoteRange(cfg, CacheKey(addr, |data|))
    requires addr.offset + |data| <= cfg.localRegionSize && NoLaterOverlap(Queue(s.queues, addr.home), Plain(addr, data))
    ensures var r := Access.Write(cfg, s, addr, data, sched);
            r.status == Ok && CacheOk(cfg, r.s.entries, hist + [Plain(addr, data)])
  {
    hide Access.Write, CacheOk, Settled, DataOk, NoLaterOverlap, FlagsOf, CachesItself, Insert, RefBytes;
    var key, w := CacheKey(addr, |data|), Plain(addr, data);
    InRangeWriteSucceeds(cfg, s, addr, data, sched, hist);
    EntriesAfterWrite(cfg, s, addr, data, sched);
    var f := FlagsOf(cfg, Quiet(cfg, s), key, Resolve(cfg.blockSize, addr, |data|));
    assert CallWrite(addr, data, sched).Key() == key;
    DropCacheOk(cfg, s.entries, if WI in f.modes then Overlapping(key) else Exact(key), hist, w);
    WrittenBytes(hist, w);
    InsertCacheOk(cfg, LeftBy(cfg, s, addr, data), key, hist + [w]);
  }

  lemma InRangeWriteSucceeds(cfg: Config, s: Node, addr: GlobalAddr, data: seq<byte>, sched: Schedule, hist: seq<PendingWrite>)
    requires Settled(cfg, s) && DataOk(cfg, s, hist) && RemoteRange(cfg, CacheKey(addr, |data|))
    requires addr.offset + |data| <= cfg.localRegionSize && NoLaterOverlap(Queue(s.queues, addr.home), Plain(addr, data))
    ensures Access.Write(cfg, s, addr, data, sched).status == Ok
  {
    hide RemoteWrite, Settled, DataOk, NoLaterOverlap;
    var q := Quiet(cfg, s);
    WriteReduces(cfg, s, addr, data, sched);
    QuietData(cfg, s, hist);
    RemoteWriteData(cfg, q, addr, data, Resolve(cfg.blockSize, addr, |data|), hist);
  }

  lemma QuietData(cfg: Config, s: Node, hist: seq<PendingWrite>)
    requires DataOk(cfg, s, hist)
    ensures DataOk(cfg, Quiet(cfg, s), hist)
  {
  }

  /** Writes to this node change no remote reference byte; refused ones change nothing. */
  lemma OtherWriteFlat(cfg: Config, s: Node, addr: GlobalAddr, data: seq<byte>, sched: Schedule, hist: seq<PendingWrite>)
    requires Settled(cfg, s) && CacheOk(cfg, s.entries, hist) && !RemoteRange(cfg, CacheKey(addr, |data|))
    ensures var r := Access.Write(cfg, s, addr, data, sched);
            && CacheOk(cfg, r.s.entries, if r.status == Ok then hist + [Plain(addr, data)] else hist)
            && (r.status == Ok <==> Permitted(cfg, s.mem.heap, CacheKey(addr, |data|)))
  {
    hide RemoteWrite, Accepts, Profiled, Settled, CacheOk, Store;
    WriteReduces(cfg, s, addr, data, sched);
    if addr.home == cfg.nodeId {
      OwnWriteCacheOk(cfg, s.entries, hist, Plain(addr, data));
    }
  }

  lemma OwnWriteCacheOk(cfg: Config, entries: seq<Entry>, hist: seq<PendingWrite>, w: PendingWrite)
    requires CacheOk(cfg, entries, hist) && w.addr.home == cfg.nodeId
    ensures CacheOk(cfg, entries, hist + [w])
  {
    hide RefBytes;
    forall e | e in entries
      ensures RefBytes(hist + [w], e.key) == RefBytes(hist, e.key)
    {
      UnaffectedBytes(hist, w, e.key);
    }
  }

  /** One call returns what the reference memory holds and keeps the invariant. */
  lemma CallFlat(cfg: Config, s: Node, call: Call, hist: seq<PendingWrite>)
    requires Settled(cfg, s) && CacheOk(cfg, s.entries, hist) && DataOk(cfg, s, hist)
    requires RemoteWriteCall(cfg, call) ==>
               && call.Key().End() <= cfg.localRegionSize
               && NoLaterOverlap(Queue(s.queues, call.addr.home), Plain(call.addr, call.data))
    requires CurrentFetch(cfg, s, call, hist) && CleanWrite(cfg, s, call) && !call.CallRestart?
    ensures var r := Exec(cfg, s, call);
            && CacheOk(cfg, r.s.entries, if call.CallWrite? && r.status == Ok then hist + [Plain(call.addr, call.data)] else hist)
            && (call.CallRead? && r.status == Ok ==> r.bytes == RefBytes(hist, call.key))
            && (call.CallRead? || call.CallWrite? ==> (r.status == Ok <==> Permitted(cfg, s.mem.heap, call.Key())))
  {
    hide Access.Read, Access.Write, Access.Fence, Access.Malloc, CacheOk, DataOk, Settled, CurrentFetch, CleanWrite,
         NoLaterOverlap, Permitted;
    match call
    case CallMalloc(size) => MallocFrame(cfg, s, size);
    case CallRead(key, sched) => ReadFlat(cfg, s, key, sched, hist);
    case CallWrite(addr, data, sched) => WriteFlat(cfg, s, addr, data, sched, hist);
    case CallFence(sched) => FenceKeepsCache(cfg, s, sched);
  }

  // ------------------------------------------------------------- whole runs

  /** Every missed read of the run fetches current bytes. */
  ghost predicate CurrentFetches(cfg: Config, calls: seq<Call>)
  {
    forall k :: 0 <= k < |calls| ==> CurrentFetch(cfg, After(cfg, calls[..k]), calls[k], History(cfg, calls[..k]))
  }

  /** Every remote write of the run leaves no entry that shares a byte with it. */
  ghost predicate CleanWrites(cfg: Config, calls: seq<Call>)
  {
    forall k :: 0 <= k < |calls| ==> CleanWrite(cfg, After(cfg, calls[..k]), calls[k])
  }

  lemma CurrentPrefix(cfg: Config, calls: seq<Call>, n: nat)
    requires CurrentFetches(cfg, calls) && n <= |calls|
    ensures CurrentFetches(cfg, calls[..n])
  {
    hide After, History, CurrentFetch;
    forall k | 0 <= k < n
      ensures CurrentFetch(cfg, After(cfg, calls[..n][..k]), calls[..n][k], History(cfg, calls[..n][..k]))
    {
      assert calls[..n][..k] == calls[..k];
    }
  }

  lemma CleanPrefix(cfg: Config, calls: seq<Call>, n: nat)
    requires CleanWrites(cfg, calls) && n <= |calls|
    ensures CleanWrites(cfg, calls[..n])
  {
    hide After, CleanWrite;
    forall k | 0 <= k < n
      ensures CleanWrite(cfg, After(cfg, calls[..n][..k]), calls[..n][k])
    {
      assert calls[..n][..k] == calls[..k];
    }
  }

  /**
    What a run needs: in-range remote writes that no entry behind their merge
    target overlaps, that leave no cached entry sharing a byte with them, and
    missed reads that fetch current bytes. Exactness shows that the last is
    needed, Discipline what a client can do to get all of it.
   */
  ghost predicate Refinable(cfg: Config, calls: seq<Call>)
  {
    && WritesInRange(cfg, calls) && SafeQueueing(cfg, calls) && CleanWrites(cfg, calls) && CurrentFetches(cfg, calls)
  }

  lemma RefinablePrefix(cfg: Config, calls: seq<Call>, n: nat)
    requires Refinable(cfg, calls) && n <= |calls|
    ensures Refinable(cfg, calls[..n])
  {
    hide SafeQueueing, CleanWrites, CurrentFetches;
    assert forall k :: 0 <= k < n ==> calls[..n][k] == calls[k];
    SafePrefix(cfg, calls, n);
    CleanPrefix(cfg, calls, n);
    CurrentPrefix(cfg, calls, n);
  }

  lemma NothingIsCached(cfg: Config, hist: seq<PendingWrite>)
    ensures CacheOk(cfg, [], hist)
  {
  }

  lemma {:induction false} RunFlat(cfg: Config, calls: seq<Call>)
    requires Refinable(cfg, calls)
    ensures CacheOk(cfg, After(cfg, calls).entries, History(cfg, calls))
  {
    hide Access.Read, Access.Write, Access.Fence, Access.Malloc, CurrentFetch, CleanWrite, DataOk, NoLaterOverlap,
         CacheOk, Settled;
    NothingIsCached(cfg, []);
    if calls != [] {
      var n := |calls| - 1;
      var before, call := calls[..n], calls[n];
      RefinablePrefix(cfg, calls, n);
      RunFlat(cfg, before);
      RunData(cfg, before);
      AlwaysSettled(cfg, before);
      if !call.CallRestart? {
        CallFlat(cfg, After(cfg, before), call, History(cfg, before));
      }
    }
  }

  lemma CallInRun(cfg: Config, calls: seq<Call>, call: Call)
    requires Refinable(cfg, calls + [call]) && !call.CallRestart?
    ensures var s, r := After(cfg, calls), Exec(cfg, After(cfg, calls), call);
            && (call.CallRead? && r.status == Ok ==> r.bytes == RefBytes(History(cfg, calls), call.key))
            && (call.CallRead? || call.CallWrite? ==> (r.status == Ok <==> Permitted(cfg, s.mem.heap, call.Key())))
  {
    hide Exec, After, History, CacheOk, DataOk, Settled, CurrentFetch, CleanWrite, NoLaterOverlap, Permitted, RefBytes;
    var all, n := calls + [call], |calls|;
    assert all[..n] == calls && all[n] == call;
    RefinablePrefix(cfg, all, n);
    assert RemoteWriteCall(cfg, call) ==> all[n].Key().End() <= cfg.localRegionSize;
    RunFlat(cfg, calls);
    RunData(cfg, calls);
    AlwaysSettled(cfg, calls);
    CallFlat(cfg, After(cfg, calls), call, History(cfg, calls));
  }

  /**
    Flat-memory refinement. For every refinable run of allocations, reads,
    writes, fences and restarts, under every threshold, mode sequence, admission
    policy, capacity and eviction order: every permitted read, local or remote,
    hit or miss, succeeds and returns exactly the bytes last written in program
    order, zero where none was; any other read fails.
   */
  lemma ReadsReturnLastWrites(cfg: Config, calls: seq<Call>, key: CacheKey, sched: Schedule)
    requires Refinable(cfg, calls + [CallRead(key, sched)])
    ensures var r := Exec(cfg, After(cfg, calls), CallRead(key, sched));
            && (r.status == Ok <==> Permitted(cfg, After(cfg, calls).mem.heap, key))
            && (r.status == Ok ==> r.bytes == RefBytes(History(cfg, calls), key))
  {
    hide Exec, After, Refinable, Permitted, History;
    CallInRun(cfg, calls, CallRead(key, sched));
  }

  /** Under the same conditions a write returns Ok, and so joins the reference history, iff it is permitted. */
  lemma WritesSucceed(cfg: Config, calls: seq<Call>, addr: GlobalAddr, data: seq<byte>, sched: Schedule)
    requires Refinable(cfg, calls + [CallWrite(addr, data, sched)])
    ensures Exec(cfg, After(cfg, calls), CallWrite(addr, data, sched)).status == Ok <==>
            Permitted(cfg, After(cfg, calls).mem.heap, CacheKey(addr, |data|))
  {
    hide Exec, After, Refinable, Permitted, History;
    CallInRun(cfg, calls, CallWrite(addr, data, sched));
  }

  // ------------------------------------------------------- which writes are clean

  /**
    The condition on writes, said through the cache and the modes: every resident
    entry that shares a byte with the write is its very range, or some block is
    in WI mode and the entry has the write's region id.
   */
  lemma CleanWriteIff(cfg: Config, s: Node, addr: GlobalAddr, data: seq<byte>, sched: Schedule)
    requires RemoteRange(cfg, CacheKey(addr, |data|))
    ensures var key := CacheKey(addr, |data|);
            var modes := Profiled(cfg, Quiet(cfg, s), key, IdsOf(cfg, key), WriteAccess).modes;
            CleanWrite(cfg, s, CallWrite(addr, data, sched)) <==>
            forall e :: e in s.entries && ShareByte(e.key, key) ==>
                          e.key == key || (WI in modes && e.key.addr.region == addr.region)
  {
    hide Profiled;
    var key, call := CacheKey(addr, |data|), CallWrite(addr, data, sched);
    var f := FlagsOf(cfg, Quiet(cfg, s), key, Resolve(cfg.blockSize, addr, |data|));
    assert call.Key() == key;
    assert forall e :: e in s.entries && ShareByte(e.key, key) ==>
        (e in LeftBy(cfg, s, addr, data) <==> !(e.key == key || (WI in f.modes && e.key.addr.region == addr.region)));
  }

  /** An invalidation keeps the cache up to date for every payload of the write iff what it leaves shares no byte with it. */
  lemma InvalidationTight(entries: seq<Entry>, sel: Selector, key: CacheKey, hist: seq<PendingWrite>)
    requires UpToDate(entries, hist)
    ensures (forall data: seq<byte> :: |data| == key.size ==>
                                         UpToDate(Drop(entries, sel), hist + [Plain(key.addr, data)])) <==>
            (forall e :: e in Drop(entries, sel) ==> !ShareByte(e.key, key))
  {
    if forall e :: e in Drop(entries, sel) ==> !ShareByte(e.key, key) {
      forall data: seq<byte>, e | |data| == key.size && e in Drop(entries, sel)
        ensures e.payload == RefBytes(hist + [Plain(key.addr, data)], e.key)
      {
        UnaffectedBytes(hist, Plain(key.addr, data), e.key);
      }
    } else {
      var e :| e in Drop(entries, sel) && ShareByte(e.key, key);
      var data := StaleFor(e, key, hist);
      assert !UpToDate(Drop(entries, sel), hist + [Plain(key.addr, data)]);
    }
  }

  /**
    A write that is not write-invalidate drops only its own footprint. That
    keeps the cache up to date for every payload iff no other resident entry
    shares a byte with it.
   */
  lemma ExactInvalidationTight(entries: seq<Entry>, key: CacheKey, hist: seq<PendingWrite>)
    requires UpToDate(entries, hist) && key.size > 0
    ensures (forall data: seq<byte> :: |data| == key.size ==>
                                         UpToDate(Drop(entries, Exact(key)), hist + [Plain(key.addr, data)])) <==>
            (forall e :: e in entries && e.key != key ==> !ShareByte(e.key, key))
  {
    InvalidationTight(entries, Exact(key), key, hist);
  }

  /** A payload that contradicts a resident entry sharing a byte with the write. */
  lemma StaleFor(e: Entry, key: CacheKey, hist: seq<PendingWrite>) returns (data: seq<byte>)
    requires ShareByte(e.key, key) && e.payload == RefBytes(hist, e.key)
    ensures |data| == key.size && e.payload != RefBytes(hist + [Plain(key.addr, data)], e.key)
  {
    var i := Max(e.key.addr.offset, key.addr.offset);
    var j := i - e.key.addr.offset;
    var other: byte := if e.payload[j] == 0 then 1 else 0;
    data := seq(key.size, _ => other);
    var w := Plain(key.addr, data);
    assert (hist + [w])[|hist|].Covers(e.key.addr.home, i) && w.At(i) == other;
    assert RefBytes(hist + [w], e.key)[j] == other;
  }
}
