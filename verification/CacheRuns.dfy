/**
  The cached entries over whole runs, whatever the client does: how a call can
  change them, and that keys stay unique and payloads keep their size
  (src/api/access_api.cc, src/memory/cache/cache_manager.cc).
 */
module CacheRuns {
  import opened Types
  import opened LruCache
  import opened BlockRanges
  import opened StubNet
  import opened Access
  import opened Frames
  import opened StubControl
  import opened QueueRuns
  import opened Redirection

  // ------------------------------------------------------------------ fences

  lemma FenceKeepsCache(cfg: Config, s: Node, sched: Schedule)
    requires Settled(cfg, s)
    ensures var r := Fence(cfg, s, sched).s; r.entries == s.entries && r.blocks == s.blocks && r.epoch == s.epoch
  {
    FenceReduces(cfg, s, sched);
    FlushAllKeepsCache(cfg, Quiet(cfg, s), PendingDestinations(s.queues), sched.destinations);
  }

  lemma {:induction false} FlushAllKeepsCache(cfg: Config, s: Node, todo: set<NodeId>, schedule: seq<NodeId>)
    ensures var r := FlushAll(cfg, s, todo, schedule).s; r.entries == s.entries && r.blocks == s.blocks && r.epoch == s.epoch
    decreases |todo|
  {
    if todo != {} {
      var node := Pick(todo, schedule);
      var r := Flush(cfg, s, node);
      if r.status == Ok {
        FlushAllKeepsCache(cfg, r.s, todo - {node}, Rest(schedule));
      }
    }
  }

  // ------------------------------------------------------------------- reads

  /** Where the owner-aware part of a missed read gets its bytes. */
  lemma OwnerAwareBytes(cfg: Config, s: Node, key: CacheKey, ids: seq<BlockId>, schedule: seq<CacheKey>)
    requires !ReadCached(s.entries, key, schedule).hit
    ensures var r := OwnerAwareRead(cfg, s, key, ids, schedule);
            r.s.entries == s.entries && (r.status == Ok ==> |r.bytes| == key.size)
  {
    hide ReadCached, UpdateAll, Opened, AllValidated, DominantOwner;
  }

  /** A remote read touches the entry that serves it, or on a miss changes nothing or inserts what it fetched. */
  lemma RemoteReadEntries(cfg: Config, s: Node, key: CacheKey, ids: seq<BlockId>, sched: Schedule)
    ensures var r, c := RemoteRead(cfg, s, key, ids, sched), ReadCached(s.entries, key, sched.hits);
            if c.hit then r.s.entries == c.entries
            else
              || r.s.entries == s.entries
              || (&& r.status == Ok && |r.bytes| == key.size && !FixedWI(cfg)
                  && r.s.entries == Insert(cfg, s.entries, key, r.bytes))
  {
    hide Profiled, ReadCached, UpdateAll, Insert, OwnerAwareRead;
    if !ReadCached(s.entries, key, sched.hits).hit {
      if FixedWI(cfg) {
        ProfiledModesFixed(cfg, s, key, ids, ReadAccess, WI);
      }
      HitIsStable(s.entries, key, sched.hits, sched.ownerHits);
      var missed := Missed(cfg, WithProfile(s, Profiled(cfg, s, key, ids, ReadAccess)), ids);
      OwnerAwareBytes(cfg, missed, key, ids, sched.ownerHits);
    }
  }

  lemma HitSucceeds(cfg: Config, s: Node, key: CacheKey, sched: Schedule)
    requires Settled(cfg, s) && RemoteRange(cfg, key) && ReadCached(s.entries, key, sched.hits).hit
    ensures var r := Read(cfg, s, key, sched); r.status == Ok && r.bytes == ReadCached(s.entries, key, sched.hits).bytes
  {
    hide Profiled, ReadCached, OwnerAwareRead, Settled;
    ReadReduces(cfg, s, key, sched);
  }

  /** A hit replies with the serving entry's bytes; a missed read keeps the cache or adds exactly what it returned. */
  lemma ReadOutcome(cfg: Config, s: Node, key: CacheKey, sched: Schedule)
    requires Settled(cfg, s) && RemoteRange(cfg, key)
    ensures var r, c := Read(cfg, s, key, sched), ReadCached(s.entries, key, sched.hits);
            if c.hit then r.status == Ok && r.bytes == c.bytes && r.s.entries == c.entries
            else r.s.entries == s.entries ||
                 (r.status == Ok && |r.bytes| == key.size && r.s.entries == Insert(cfg, s.entries, key, r.bytes))
  {
    hide RemoteRead, ReadCached, Settled, Insert;
    ReadReduces(cfg, s, key, sched);
    RemoteReadEntries(cfg, Quiet(cfg, s), key, IdsOf(cfg, key), sched);
    if ReadCached(s.entries, key, sched.hits).hit {
      HitSucceeds(cfg, s, key, sched);
    }
  }

  ghost predicate ReadStep(cfg: Config, before: seq<Entry>, after: seq<Entry>, key: CacheKey, schedule: seq<CacheKey>)
  {
    || after == before
    || (ReadCached(before, key, schedule).hit && after == ReadCached(before, key, schedule).entries)
    || (&& !Has(before, key) && key.addr.home != cfg.nodeId && !FixedWI(cfg)
        && exists bytes: seq<byte> :: |bytes| == key.size && after == Insert(cfg, before, key, bytes))
  }

  lemma ReadEntries(cfg: Config, s: Node, key: CacheKey, sched: Schedule)
    requires Settled(cfg, s)
    ensures ReadStep(cfg, s.entries, Read(cfg, s, key, sched).s.entries, key, sched.hits)
  {
    hide RemoteRead, Profiled, Insert, Settled;
    ReadReduces(cfg, s, key, sched);
    if key.addr.IsValid() && key.size != 0 {
      var q := Quiet(cfg, s);
      var v := Validate(cfg, q.mem.heap, key);
      if v.Resolved? && key.addr.home != cfg.nodeId {
        RemoteReadEntries(cfg, q, key, Ids(v.range), sched);
      }
    }
  }

  // ------------------------------------------------------------------ writes

  lemma {:induction false} BiasNeedsAdaptive(cfg: Config, a: Applied, ids: seq<BlockId>, modes: seq<CoherenceMode>, home: NodeId)
    requires |ids| == |modes|
    ensures ApplyWrites(cfg, a, ids, modes, home).biased <==> a.biased || Adaptive in modes
    ensures ApplyWrites(cfg, a, ids, modes, home).handoff ==> a.handoff || Adaptive in modes
    decreases |ids|
  {
    if ids != [] {
      BiasNeedsAdaptive(cfg, ApplyWrite(cfg, a, ids[0], modes[0], home), ids[1..], modes[1..], home);
    }
  }

  /** The entries a remote write leaves: its own range dropped, and itself if owner-biased and batched. */
  lemma RemoteWriteEntries(cfg: Config, s: Node, addr: GlobalAddr, data: seq<byte>, range: BlockRange)
    ensures var key := CacheKey(addr, |data|);
            var f := FlagsOf(cfg, s, key, range);
            var left := Drop(s.entries, if WI in f.modes then Overlapping(key) else Exact(key));
            RemoteWrite(cfg, s, addr, data, range).s.entries ==
            if cfg.enableWriteBatching && f.biased then Insert(cfg, left, key, data) else left
  {
    var key := CacheKey(addr, |data|);
    AnnouncedFrame(cfg, s, key, range);
    RemoteWriteStages(cfg, s, addr, data, range);
    QueueWriteFrame(cfg, Announced(cfg, s, key, range), addr, data, FlagsOf(cfg, s, key, range));
    DirectWriteFrame(cfg, Announced(cfg, s, key, range), addr, data);
  }

  /** The guard under which a remote write leaves its own bytes in the cache before it is delivered. */
  ghost predicate CachesItself(cfg: Config, s: Node, addr: GlobalAddr, data: seq<byte>)
    requires RemoteRange(cfg, CacheKey(addr, |data|))
  {
    && cfg.enableWriteBatching && Storable(cfg, |data|)
    && FlagsOf(cfg, Quiet(cfg, s), CacheKey(addr, |data|), Resolve(cfg.blockSize, addr, |data|)).biased
  }

  /** What a write's invalidation leaves. */
  ghost function LeftBy(cfg: Config, s: Node, addr: GlobalAddr, data: seq<byte>): seq<Entry>
    requires RemoteRange(cfg, CacheKey(addr, |data|))
  {
    var key := CacheKey(addr, |data|);
    var f := FlagsOf(cfg, Quiet(cfg, s), key, Resolve(cfg.blockSize, addr, |data|));
    Drop(s.entries, if WI in f.modes then Overlapping(key) else Exact(key))
  }

  lemma EntriesAfterWrite(cfg: Config, s: Node, addr: GlobalAddr, data: seq<byte>, sched: Schedule)
    requires Settled(cfg, s) && RemoteRange(cfg, CacheKey(addr, |data|))
    ensures Access.Write(cfg, s, addr, data, sched).s.entries ==
            if CachesItself(cfg, s, addr, data) then Insert(cfg, LeftBy(cfg, s, addr, data), CacheKey(addr, |data|), data)
            else LeftBy(cfg, s, addr, data)
  {
    hide RemoteWrite, Drop, FlagsOf, Settled, Evict;
    WriteReduces(cfg, s, addr, data, sched);
    RemoteWriteEntries(cfg, Quiet(cfg, s), addr, data, Resolve(cfg.blockSize, addr, |data|));
  }

  lemma NoBiasUnderWI(cfg: Config, s: Node, key: CacheKey, range: BlockRange)
    requires FixedWI(cfg) && range.count > 0
    ensures !FlagsOf(cfg, s, key, range).biased
  {
    hide UpdateAll, ObserveAll;
    WriteModesFit(cfg, s, key, range);
    assert Fixed(cfg, WI);
    var o := Profiled(cfg, s, key, Ids(range), WriteAccess);
    BiasNeedsAdaptive(cfg, Applied(o.blocks, false, false), Ids(range), o.modes, key.addr.home);
  }

  /** A write leaves the entries alone, or invalidates its range and perhaps caches itself. */
  ghost predicate WriteStep(cfg: Config, before: seq<Entry>, after: seq<Entry>, key: CacheKey, data: seq<byte>)
  {
    || after == before
    || exists sel: Selector :: sel.Hits(key) &&
         (after == Drop(before, sel) || (!FixedWI(cfg) && after == Insert(cfg, Drop(before, sel), key, data)))
  }

  lemma WriteEntries(cfg: Config, s: Node, addr: GlobalAddr, data: seq<byte>, sched: Schedule)
    requires Settled(cfg, s)
    ensures var key, after := CacheKey(addr, |data|), Access.Write(cfg, s, addr, data, sched).s.entries;
            if addr.home == cfg.nodeId then after == s.entries else WriteStep(cfg, s.entries, after, key, data)
  {
    hide RemoteWrite, Profiled, Insert, Settled, Drop, FlagsOf;
    WriteReduces(cfg, s, addr, data, sched);
    if addr.IsValid() && data != [] {
      var q, key := Quiet(cfg, s), CacheKey(addr, |data|);
      var v := Validate(cfg, q.mem.heap, key);
      if v.Resolved? && addr.home != cfg.nodeId {
        RemoteWriteEntries(cfg, q, addr, data, v.range);
        if FixedWI(cfg) {
          NoBiasUnderWI(cfg, q, key, v.range);
        }
        var sel := if WI in FlagsOf(cfg, q, key, v.range).modes then Overlapping(key) else Exact(key);
        assert sel.Hits(key);
      }
    }
  }

  // -------------------------------------------------------------- every run

  ghost predicate Tidy(cfg: Config, entries: seq<Entry>)
  {
    WellFormed(entries) && WithinCapacity(cfg, entries)
  }

  lemma HitTidy(cfg: Config, entries: seq<Entry>, key: CacheKey, schedule: seq<CacheKey>)
    requires Tidy(cfg, entries)
    ensures Tidy(cfg, ReadCached(entries, key, schedule).entries)
  {
    if Served(entries, key, schedule).Some? {
      var k := Served(entries, key, schedule).value;
      if !Has(entries, key) {
        ServerIsResident(entries, key, k);
      }
      TouchKeeps(entries, k);
    }
  }

  lemma CallTidy(cfg: Config, s: Node, call: Call)
    requires Settled(cfg, s) && Tidy(cfg, s.entries)
    ensures Tidy(cfg, Exec(cfg, s, call).s.entries)
  {
    hide Access.Read, Access.Write, Access.Fence, Access.Malloc, Tidy, ReadCached, Insert, Drop;
    match call
    case CallMalloc(size) => MallocFrame(cfg, s, size);
    case CallRead(key, sched) =>
      ReadEntries(cfg, s, key, sched);
      ReadStepTidy(cfg, s.entries, Read(cfg, s, key, sched).s.entries, key, sched.hits);
    case CallWrite(addr, data, sched) =>
      WriteEntries(cfg, s, addr, data, sched);
      if addr.home != cfg.nodeId {
        WriteStepTidy(cfg, s.entries, Access.Write(cfg, s, addr, data, sched).s.entries, CacheKey(addr, |data|), data);
      }
    case CallFence(sched) => FenceKeepsCache(cfg, s, sched);
    case CallRestart => NothingIsTidy(cfg);
  }

  lemma ReadStepTidy(cfg: Config, before: seq<Entry>, after: seq<Entry>, key: CacheKey, schedule: seq<CacheKey>)
    requires Tidy(cfg, before) && ReadStep(cfg, before, after, key, schedule)
    ensures Tidy(cfg, after)
  {
    hide ReadCached, Insert;
    if after != before {
      if after == ReadCached(before, key, schedule).entries {
        HitTidy(cfg, before, key, schedule);
      } else {
        var bytes: seq<byte> :| |bytes| == key.size && after == Insert(cfg, before, key, bytes);
        InsertKeeps(cfg, before, key, bytes);
      }
    }
  }

  lemma WriteStepTidy(cfg: Config, before: seq<Entry>, after: seq<Entry>, key: CacheKey, data: seq<byte>)
    requires Tidy(cfg, before) && WriteStep(cfg, before, after, key, data) && |data| == key.size
    ensures Tidy(cfg, after)
  {
    hide Insert, Drop;
    if after != before {
      var sel: Selector :| sel.Hits(key) &&
        (after == Drop(before, sel) || (!FixedWI(cfg) && after == Insert(cfg, Drop(before, sel), key, data)));
      DropKeeps(cfg, before, sel);
      InsertKeeps(cfg, Drop(before, sel), key, data);
    }
  }

  lemma NothingIsTidy(cfg: Config)
    ensures Tidy(cfg, [])
  {
  }

  /** In every run keys stay unique, payloads have their key's size and a non-zero capacity is respected. */
  lemma {:induction false} AlwaysTidy(cfg: Config, calls: seq<Call>)
    ensures Tidy(cfg, After(cfg, calls).entries)
  {
    hide Exec, Tidy;
    NothingIsTidy(cfg);
    if calls != [] {
      var before := calls[..|calls| - 1];
      AlwaysTidy(cfg, before);
      AlwaysSettled(cfg, before);
      CallTidy(cfg, After(cfg, before), calls[|calls| - 1]);
    }
  }

  lemma LeftWithout(cfg: Config, s: Node, addr: GlobalAddr, data: seq<byte>)
    requires RemoteRange(cfg, CacheKey(addr, |data|)) && Tidy(cfg, s.entries)
    ensures Tidy(cfg, LeftBy(cfg, s, addr, data)) && !Has(LeftBy(cfg, s, addr, data), CacheKey(addr, |data|))
  {
    hide FlagsOf;
    var key := CacheKey(addr, |data|);
    var f := FlagsOf(cfg, Quiet(cfg, s), key, Resolve(cfg.blockSize, addr, |data|));
    DropKeeps(cfg, s.entries, if WI in f.modes then Overlapping(key) else Exact(key));
    var left := LeftBy(cfg, s, addr, data);
    assert forall i :: 0 <= i < |left| ==> left[i] in left;
  }

  // ------------------------------------------------------ where entries come from

  /** Nothing is ever cached: caching is off, or every block is write-invalidate. */
  predicate NeverCaches(cfg: Config)
  {
    !cfg.enableCache || FixedWI(cfg)
  }

  /** A call adds at most the range it accesses, and nothing when nothing is ever cached. */
  lemma CallAdds(cfg: Config, s: Node, call: Call)
    requires Settled(cfg, s) && Tidy(cfg, s.entries)
    ensures forall e :: e in Exec(cfg, s, call).s.entries ==>
                          e in s.entries || (RemoteAccess(cfg, call) && e.key == call.Key() && !NeverCaches(cfg))
  {
    hide Access.Read, Access.Write, Access.Fence, Access.Malloc, Tidy, ReadCached, Insert, Drop;
    match call
    case CallMalloc(size) => MallocFrame(cfg, s, size);
    case CallRead(key, sched) =>
      ReadEntries(cfg, s, key, sched);
      ReadStepAdds(cfg, s.entries, Read(cfg, s, key, sched).s.entries, key, sched.hits);
    case CallWrite(addr, data, sched) =>
      WriteEntries(cfg, s, addr, data, sched);
      if addr.home != cfg.nodeId {
        WriteStepAdds(cfg, s.entries, Access.Write(cfg, s, addr, data, sched).s.entries, CacheKey(addr, |data|), data);
      }
    case CallFence(sched) => FenceKeepsCache(cfg, s, sched);
    case CallRestart =>
  }

  lemma ReadStepAdds(cfg: Config, before: seq<Entry>, after: seq<Entry>, key: CacheKey, schedule: seq<CacheKey>)
    requires Tidy(cfg, before) && ReadStep(cfg, before, after, key, schedule)
    ensures forall e :: e in after ==> e in before || (key.addr.home != cfg.nodeId && e.key == key && !NeverCaches(cfg))
  {
    hide Insert;
    if after != before {
      if after == ReadCached(before, key, schedule).entries {
        LookupTouches(before, key, schedule);
        var k := Served(before, key, schedule);
        if k.Some? {
          TouchKeeps(before, k.value);
        }
      } else {
        var bytes: seq<byte> :| |bytes| == key.size && after == Insert(cfg, before, key, bytes);
        InsertKeeps(cfg, before, key, bytes);
      }
    }
  }

  lemma WriteStepAdds(cfg: Config, before: seq<Entry>, after: seq<Entry>, key: CacheKey, data: seq<byte>)
    requires Tidy(cfg, before) && WriteStep(cfg, before, after, key, data) && |data| == key.size
    ensures forall e :: e in after ==> e in before || (e.key == key && !NeverCaches(cfg))
  {
    hide Insert;
    if after != before {
      var sel: Selector :| sel.Hits(key) &&
        (after == Drop(before, sel) || (!FixedWI(cfg) && after == Insert(cfg, Drop(before, sel), key, data)));
      DropKeeps(cfg, before, sel);
      InsertKeeps(cfg, Drop(before, sel), key, data);
    }
  }

  /** In every run only ranges that were accessed are resident, and none when nothing is ever cached. */
  lemma {:induction false} EntriesWereAccessed(cfg: Config, calls: seq<Call>)
    ensures forall e :: e in After(cfg, calls).entries ==> e.key in AccessKeys(cfg, calls) && !NeverCaches(cfg)
  {
    hide Exec, Tidy;
    if calls != [] {
      var n := |calls| - 1;
      var before := calls[..n];
      assert forall k :: 0 <= k < n ==> before[k] == calls[k];
      assert AccessKeys(cfg, before) <= AccessKeys(cfg, calls);
      assert RemoteAccess(cfg, calls[n]) ==> calls[n].Key() in AccessKeys(cfg, calls);
      EntriesWereAccessed(cfg, before);
      AlwaysTidy(cfg, before);
      AlwaysSettled(cfg, before);
      CallAdds(cfg, After(cfg, before), calls[n]);
    }
  }

  // ---------------------------------------------------- one entry over a call

  /** An entry that survives a call keeps its payload, unless the call writes its very range. */
  lemma PayloadStays(cfg: Config, s: Node, call: Call, key: CacheKey)
    requires Settled(cfg, s) && Tidy(cfg, s.entries)
    requires Has(s.entries, key) && Has(Exec(cfg, s, call).s.entries, key)
    requires RemoteWriteCall(cfg, call) ==> call.Key() != key
    ensures PayloadOf(Exec(cfg, s, call).s.entries, key) == PayloadOf(s.entries, key)
  {
    hide Access.Read, Access.Write, Access.Fence, Access.Malloc, Tidy, ReadCached, Insert, Drop;
    match call
    case CallMalloc(size) => MallocFrame(cfg, s, size);
    case CallRead(k, sched) =>
      ReadEntries(cfg, s, k, sched);
      ReadStepStays(cfg, s.entries, Read(cfg, s, k, sched).s.entries, k, sched.hits, key);
    case CallWrite(addr, data, sched) =>
      WriteEntries(cfg, s, addr, data, sched);
      if addr.home != cfg.nodeId {
        WriteStepStays(cfg, s.entries, Access.Write(cfg, s, addr, data, sched).s.entries, CacheKey(addr, |data|), data, key);
      }
    case CallFence(sched) => FenceKeepsCache(cfg, s, sched);
  }

  lemma SamePayload(before: seq<Entry>, after: seq<Entry>, key: CacheKey)
    requires WellFormed(before) && WellFormed(after) && Has(before, key) && Has(after, key)
    requires forall e :: e in after && e.key == key ==> e in before
    ensures PayloadOf(after, key) == PayloadOf(before, key)
  {
    var e := Entry(key, PayloadOf(after, key));
    assert e in after;
    OneEntryPerKey(before, e);
  }

  lemma ReadStepStays(cfg: Config, before: seq<Entry>, after: seq<Entry>, k: CacheKey, schedule: seq<CacheKey>, key: CacheKey)
    requires Tidy(cfg, before) && ReadStep(cfg, before, after, k, schedule) && Has(before, key) && Has(after, key)
    ensures PayloadOf(after, key) == PayloadOf(before, key)
  {
    hide Insert, Drop;
    ReadStepTidy(cfg, before, after, k, schedule);
    if after != before {
      if after == ReadCached(before, k, schedule).entries {
        if Served(before, k, schedule).Some? {
          var served := Served(before, k, schedule).value;
          if !Has(before, k) {
            ServerIsResident(before, k, served);
          }
          TouchKeeps(before, served);
        }
      } else {
        var bytes: seq<byte> :| |bytes| == k.size && after == Insert(cfg, before, k, bytes);
        InsertKeeps(cfg, before, k, bytes);
        assert k != key;
      }
      SamePayload(before, after, key);
    }
  }

  lemma WriteStepStays(cfg: Config, before: seq<Entry>, after: seq<Entry>, k: CacheKey, data: seq<byte>, key: CacheKey)
    requires Tidy(cfg, before) && WriteStep(cfg, before, after, k, data) && |data| == k.size && k != key
    requires Has(before, key) && Has(after, key)
    ensures PayloadOf(after, key) == PayloadOf(before, key)
  {
    hide Insert;
    WriteStepTidy(cfg, before, after, k, data);
    if after != before {
      var sel: Selector :| sel.Hits(k) &&
        (after == Drop(before, sel) || (!FixedWI(cfg) && after == Insert(cfg, Drop(before, sel), k, data)));
      DropKeeps(cfg, before, sel);
      InsertKeeps(cfg, Drop(before, sel), k, data);
      SamePayload(before, after, key);
    }
  }
}
