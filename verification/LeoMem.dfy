/**
  The client library object (src/api/access_api.cc, src/api/sync_api.cc,
  src/api/alloc_api.cc, src/runtime/context.cc): the lm_* calls as methods over
  the shared block records, the cache manager, the ack table, the allocator and
  the stub transport. Every method is proved to carry out the step of Access it
  stands for, so the run theorems hold of the object.
 */
module LeoMemRuntime {
  import opened Types
  import opened Counters
  import opened WriteCombining
  import opened LruCache
  import opened Profiling
  import opened ControlAcks
  import opened BlockRanges
  import opened Allocator
  import opened StubNet
  import opened Access
  import QueueRuns
  import opened CacheManagers
  import opened StubTransports

  // ------------------------------------------------------------- block table

  /** The table of shared block records; a record is created on first use. */
  class BlockTable {
    var metas: map<BlockId, BlockMeta>

    /** No two blocks share a record. */
    ghost predicate Valid()
      reads this
    {
      forall a, b :: a in metas && b in metas && a != b ==> metas[a] != metas[b]
    }

    ghost function View(): Blocks
      reads this, metas.Values
    {
      map id | id in metas :: metas[id].rec
    }

    constructor ()
      ensures Valid() && View() == map[] && metas == map[]
    {
      metas := map[];
    }

    function Get(id: BlockId): (m: Meta)
      reads this, metas.Values
      ensures m == Lookup(View(), id)
    {
      if id in metas then metas[id].rec else FRESH
    }

    method GetOrCreate(id: BlockId) returns (meta: BlockMeta)
      requires Valid()
      modifies this
      ensures Valid() && fresh(metas.Values - old(metas.Values))
      ensures metas == old(metas)[id := meta] && (id in old(metas) ==> meta == old(metas[id]))
      ensures meta.rec == old(Get(id)) && (meta in old(metas.Values) || fresh(meta))
    {
      if id in metas {
        meta := metas[id];
      } else {
        meta := new BlockMeta();
        metas := metas[id := meta];
      }
    }

    /** Write one record. */
    method Put(id: BlockId, m: Meta)
      requires Valid()
      modifies this, metas.Values
      ensures Valid() && fresh(metas.Values - old(metas.Values)) && View() == old(View())[id := m]
    {
      var meta := GetOrCreate(id);
      assert metas[id] == meta;
      meta.rec := m;
    }

    /** A loop over an access's blocks. */
    method Update(cfg: Config, ids: seq<BlockId>, u: Update)
      requires Valid()
      modifies this, metas.Values
      ensures Valid() && fresh(metas.Values - old(metas.Values))
      ensures View() == UpdateAll(cfg, old(View()), ids, u)
    {
      for i := 0 to |ids|
        invariant Valid() && fresh(metas.Values - old(metas.Values))
        invariant UpdateAll(cfg, View(), ids[i..], u) == UpdateAll(cfg, old(View()), ids, u)
      {
        assert ids[i..][1..] == ids[i + 1..];
        Put(ids[i], UpdateOne(cfg, Get(ids[i]), u));
      }
    }

    method ObserveIn(cache: CacheManager, id: BlockId, access: AccessType, local: bool)
      returns (before: CoherenceMode, mode: CoherenceMode)
      requires Valid()
      modifies this, metas.Values, cache`accessEpoch
      ensures Valid() && fresh(metas.Values - old(metas.Values)) && cache.accessEpoch == old(cache.accessEpoch) + 1
      ensures var m := old(Get(id)); var next := Observe(cache.cfg, m, cache.accessEpoch, access, local);
              before == m.mode && mode == next.mode && View() == old(View())[id := next]
    {
      hide Observe;
      var meta := GetOrCreate(id);
      before := meta.rec.mode;
      assert metas[id] == meta;
      mode := cache.ObserveAccess(meta, access, local);
    }

    method DominantOwnerNode(ids: seq<BlockId>, fallback: NodeId) returns (owner: NodeId)
      ensures owner == DominantOwner(View(), ids, fallback)
    {
      if ids == [] {
        return fallback;
      }
      owner := Get(ids[0]).owner;
      if owner == INVALID_NODE {
        return fallback;
      }
      for i := 1 to |ids|
        invariant forall k :: 0 <= k < i ==> Lookup(View(), ids[k]).owner == owner
      {
        if Get(ids[i]).owner != owner {
          return fallback;
        }
      }
    }

    method AllMetasValidated(ids: seq<BlockId>) returns (validated: bool)
      ensures validated == AllValidated(View(), ids)
    {
      for i := 0 to |ids|
        invariant forall k :: 0 <= k < i ==> Lookup(View(), ids[k]).lastValidated >= Lookup(View(), ids[k]).version
      {
        if Get(ids[i]).lastValidated < Get(ids[i]).version {
          return false;
        }
      }
      return true;
    }

    method MaxObservedVersion(ids: seq<BlockId>) returns (version: nat)
      ensures version == MaxVersion(View(), ids)
    {
      version := 0;
      for i := 0 to |ids|
        invariant Max(version, MaxVersion(View(), ids[i..])) == MaxVersion(View(), ids)
      {
        assert ids[i..][1..] == ids[i + 1..];
        version := Max(version, Get(ids[i]).version);
      }
    }

    method ShouldCacheAll(cfg: Config, ids: seq<BlockId>) returns (all: bool)
      ensures all == Admits(cfg, View(), ids)
    {
      hide ShouldCache;
      if ids == [] {
        return false;
      }
      for i := 0 to |ids|
        invariant forall k :: 0 <= k < i ==> ShouldCache(cfg, Lookup(View(), ids[k]))
      {
        if !ShouldCache(cfg, Get(ids[i])) {
          return false;
        }
      }
      return true;
    }
  }

  // ---------------------------------------------------------------- the calls

  lemma ObserveNext(cfg: Config, o: Observed, modes: seq<CoherenceMode>, ids: seq<BlockId>, access: AccessType, local: bool)
    requires ids != [] && o.modes == []
    ensures var r := ObserveOne(cfg, o, ids[0], access, local);
            && |r.modes| == 1 && r.modes == [r.modes[0]]
            && ObserveAll(cfg, o.(modes := modes), ids, access, local) ==
               ObserveAll(cfg, r.(modes := modes + [r.modes[0]]), ids[1..], access, local)
  {
    hide Observe, Stats.Mode;
  }

  lemma MissKeepsEntries(entries: seq<Entry>, key: CacheKey, schedule: seq<CacheKey>)
    requires !ReadCached(entries, key, schedule).hit
    ensures ReadCached(entries, key, schedule) == CacheReply(entries, false, [])
  {
  }

  lemma ObserveNone(cfg: Config, o: Observed, access: AccessType, local: bool)
    ensures ObserveAll(cfg, o, [], access, local) == o
  {
  }

  class LeoMem {
    const cfg: Config
    const cache: CacheManager
    const acks: AckTable
    const allocator: DsmAllocator
    const net: StubTransport
    const table: BlockTable
    var stats: Stats

    ghost function Repr(): set<object>
      reads this, table
    {
      {this, cache, acks, allocator, net, table} + table.metas.Values
    }

    ghost predicate Valid()
      reads this, cache, acks, allocator, net, table
    {
      && cache.cfg == cfg && acks.cfg == cfg && allocator.cfg == cfg && net.cfg == cfg
      && net.allocator == allocator && cache.Valid() && table.Valid()
    }

    ghost function View(): Node
      reads Repr()
    {
      Node(table.View(), cache.accessEpoch, cache.entries, cache.writeQueues,
           acks.nextId, acks.pending, net.inboxes, Memory(net.regions, allocator.View()), stats)
    }

    constructor (cfg: Config, inboxes: Inboxes)
      ensures Valid() && fresh(Repr()) && this.cfg == cfg && View() == Boot(cfg, inboxes)
    {
      this.cfg := cfg;
      cache := new CacheManager(cfg);
      acks := new AckTable(cfg);
      var heap := new DsmAllocator(cfg);
      allocator := heap;
      net := new StubTransport(cfg, heap, inboxes);
      table := new BlockTable();
      stats := NO_STATS;
    }

    method UpdateBlocks(ids: seq<BlockId>, u: Update)
      requires Valid()
      modifies table, table.metas.Values
      ensures Valid() && fresh(Repr() - old(Repr()))
      ensures View() == old(View()).(blocks := UpdateAll(cfg, old(View()).blocks, ids, u))
    {
      hide CacheManagers.Agrees, BlockTable.View, BlockTable.Valid;
      table.Update(cfg, ids, u);
    }

    // ------------------------------------------------- single effects on the state

    method Post(m: ControlMessage)
      requires Valid()
      modifies net
      ensures Valid() && Repr() == old(Repr())
      ensures View() == old(View()).(inboxes := StubNet.Post(cfg.nodeId, old(View()).inboxes, m))
    {
      hide CacheManagers.Agrees, BlockTable.View, BlockTable.Valid;
      net.PostControlMessage(m);
    }

    method Acknowledge(id: nat)
      requires Valid()
      modifies acks
      ensures Valid() && Repr() == old(Repr())
      ensures View() == old(View()).(pending := if id == 0 then old(View()).pending else old(View()).pending - {id})
    {
      hide CacheManagers.Agrees, BlockTable.View, BlockTable.Valid;
      acks.CompleteControlAck(id);
    }

    method InvalidateOverlapping(addr: GlobalAddr, size: nat) returns (removed: nat)
      requires Valid()
      modifies cache
      ensures Valid() && Repr() == old(Repr())
      ensures View() == old(View()).(entries := Drop(old(View()).entries, Overlapping(CacheKey(addr, size))))
      ensures removed == |old(View()).entries| - |View().entries|
    {
      hide CacheManagers.Agrees, BlockTable.View, BlockTable.Valid;
      removed := cache.InvalidateRange(addr, size);
    }

    // ------------------------------------------------------- control messages

    method HandleMessage(m: ControlMessage, inFence: bool)
      requires Valid()
      modifies Repr()
      ensures Valid() && fresh(Repr() - old(Repr()))
      ensures View() == Handle(cfg, old(View()), m, inFence)
    {
      hide UpdateAll, Drop, StubNet.Post, LeoMem.View, LeoMem.Valid;
      if m.opcode.IsAck() {
        Acknowledge(m.id);
        return;
      }
      var range := Rebuilt(m.first, m.last);
      if m.opcode.InvalidateRange? {
        var base := BaseAddr(cfg.blockSize, range, m.source);
        var removed := InvalidateOverlapping(base, Span(cfg.blockSize, range));
        if !inFence {
          UpdateBlocks(Ids(range), RemoteInvalidate(m));
        }
      } else {
        UpdateBlocks(Ids(range), RemoteTransfer(m, !inFence));
      }
      Post(m.Ack(cfg.nodeId));
    }

    method HandleMessages(messages: seq<ControlMessage>, inFence: bool)
      requires Valid()
      modifies Repr()
      ensures Valid() && fresh(Repr() - old(Repr()))
      ensures View() == HandleAll(cfg, old(View()), messages, inFence)
    {
      hide Handle, LeoMem.View, LeoMem.Valid;
      for i := 0 to |messages|
        invariant Valid() && fresh(Repr() - old(Repr()))
        invariant HandleAll(cfg, View(), messages[i..], inFence) == HandleAll(cfg, old(View()), messages, inFence)
      {
        assert messages[i..][1..] == messages[i + 1..];
        HandleMessage(messages[i], inFence);
      }
    }

    method PostMessages(messages: seq<ControlMessage>)
      requires Valid()
      modifies net
      ensures Valid() && Repr() == old(Repr())
      ensures View() == old(View()).(inboxes := PostAll(cfg.nodeId, old(View()).inboxes, messages))
    {
      hide StubNet.Post, LeoMem.View, LeoMem.Valid;
      for i := 0 to |messages|
        invariant Valid() && Repr() == old(Repr())
        invariant View() == old(View()).(inboxes := View().inboxes)
        invariant PostAll(cfg.nodeId, View().inboxes, messages[i..]) == PostAll(cfg.nodeId, old(View()).inboxes, messages)
      {
        assert messages[i..][1..] == messages[i + 1..];
        Post(messages[i]);
      }
    }

    method AdvanceAcks() returns (status: Status, retries: seq<ControlMessage>, ghost schedule: seq<nat>)
      requires Valid()
      modifies acks
      ensures Valid() && Repr() == old(Repr())
      ensures var before := old(View()).pending; var p := Poll(cfg, before, before.Keys, schedule);
              status == p.status && retries == p.retries && View() == old(View()).(pending := p.pending)
    {
      hide Poll;
      status, retries, schedule := acks.AdvanceControlAckTimeouts();
    }

    /** Both drain loops; the fence's one leaves more of the records alone. */
    method ProcessPendingControlMessages(inFence: bool) returns (status: Status, ghost schedule: seq<nat>)
      requires Valid()
      modifies Repr()
      ensures Valid() && fresh(Repr() - old(Repr()))
      ensures Controlled(View(), status) == ControlPhase(cfg, old(View()), inFence, schedule)
    {
      hide HandleAll, Poll, PostAll, Drained, Undrained, LeoMem.View, LeoMem.Valid;
      var messages := Drain();
      HandleMessages(messages, inFence);
      var retries;
      status, retries, schedule := AdvanceAcks();
      if status == Ok {
        PostMessages(retries);
      }
    }

    method Drain() returns (messages: seq<ControlMessage>)
      requires Valid()
      modifies net
      ensures Valid() && Repr() == old(Repr())
      ensures messages == Drained(old(View()).inboxes, cfg.nodeId)
      ensures View() == old(View()).(inboxes := Undrained(old(View()).inboxes, cfg.nodeId))
    {
      hide CacheManagers.Agrees, BlockTable.View, BlockTable.Valid;
      messages := net.DrainControlMessages(64);
    }
  
    // -------------------------------------------------------------- metadata

    method ObserveBlock(id: BlockId, access: AccessType, local: bool) returns (mode: CoherenceMode)
      requires Valid()
      modifies Repr()
      ensures Valid() && fresh(Repr() - old(Repr()))
      ensures var s := old(View()); var o := ObserveOne(cfg, Observed(s.blocks, s.epoch, s.stats, []), id, access, local);
              mode == o.modes[0] && View() == WithProfile(s, o)
    {
      hide Observe, Stats.Mode, LeoMem.View, LeoMem.Valid;
      var before;
      before, mode := ObserveRecord(id, access, local);
      RecordMode(mode, before != mode);
    }

    method RecordMode(mode: CoherenceMode, switched: bool)
      requires Valid()
      modifies this
      ensures Valid() && Repr() == old(Repr())
      ensures View() == old(View()).(stats := old(View()).stats.Mode(mode, switched))
    {
      hide CacheManagers.Agrees, BlockTable.View, BlockTable.Valid;
      stats := stats.Mode(mode, switched);
    }

    method ObserveRecord(id: BlockId, access: AccessType, local: bool) returns (before: CoherenceMode, mode: CoherenceMode)
      requires Valid()
      modifies cache, table, table.metas.Values
      ensures Valid() && fresh(Repr() - old(Repr()))
      ensures var s := old(View()); var m := Observe(cfg, Lookup(s.blocks, id), s.epoch + 1, access, local);
              && before == Lookup(s.blocks, id).mode && mode == m.mode
              && View() == s.(blocks := s.blocks[id := m], epoch := s.epoch + 1)
    {
      hide Observe, CacheManagers.Agrees, BlockTable.View, BlockTable.Valid;
      before, mode := table.ObserveIn(cache, id, access, local);
    }

    method ObserveMetas(ids: seq<BlockId>, access: AccessType, local: bool) returns (modes: seq<CoherenceMode>)
      requires Valid()
      modifies Repr()
      ensures Valid() && fresh(Repr() - old(Repr()))
      ensures var s := old(View()); var o := ObserveAll(cfg, Observed(s.blocks, s.epoch, s.stats, []), ids, access, local);
              modes == o.modes && View() == WithProfile(s, o)
    {
      hide ObserveOne, ObserveAll, LeoMem.View, LeoMem.Valid;
      modes := [];
      for i := 0 to |ids|
        invariant Valid() && fresh(Repr() - old(Repr()))
        invariant View() == old(View()).(blocks := View().blocks, epoch := View().epoch, stats := View().stats)
        invariant ObserveAll(cfg, Observed(View().blocks, View().epoch, View().stats, modes), ids[i..], access, local) ==
                  ObserveAll(cfg, Observed(old(View()).blocks, old(View()).epoch, old(View()).stats, []), ids, access, local)
      {
        assert ids[i..][1..] == ids[i + 1..];
        ObserveNext(cfg, Observed(View().blocks, View().epoch, View().stats, []), modes, ids[i..], access, local);
        var mode := ObserveBlock(ids[i], access, local);
        modes := modes + [mode];
      }
      ObserveNone(cfg, Observed(View().blocks, View().epoch, View().stats, modes), access, local);
    }

    /** PrepareMetadata, then ObserveMetas. */
    method Profile(key: CacheKey, ids: seq<BlockId>, access: AccessType) returns (modes: seq<CoherenceMode>)
      requires Valid()
      modifies Repr()
      ensures Valid() && fresh(Repr() - old(Repr()))
      ensures var o := Profiled(cfg, old(View()), key, ids, access); modes == o.modes && View() == WithProfile(old(View()), o)
    {
      hide UpdateAll, ObserveAll, LeoMem.View, LeoMem.Valid;
      UpdateBlocks(ids, Prepare(key.addr.home, access));
      modes := ObserveMetas(ids, access, key.addr.home == cfg.nodeId);
    }

    method ValidateAndResolveRange(key: CacheKey) returns (v: Validation)
      requires Valid()
      ensures v == Validate(cfg, View().mem.heap, key)
    {
      hide CacheManagers.Agrees, BlockTable.View, BlockTable.Valid;
      if key.size == 0 || cfg.blockSize == 0 {
        return Rejected(InvalidArg);
      }
      if key.addr.home == cfg.nodeId {
        var local := allocator.ResolveBlockRange(key.addr, key.size);
        match local
        case None => return Rejected(OutOfRange);
        case Some(range) => return Resolved(range);
      }
      return Resolved(Resolve(cfg.blockSize, key.addr, key.size));
    }

    // ------------------------------------------------------------------ reads

    method Fetch(key: CacheKey) returns (status: Status, bytes: seq<byte>)
      requires Valid()
      modifies net
      ensures Valid() && Repr() == old(Repr())
      ensures View() == old(View()).(mem := Opened(cfg, old(View()).mem, key.addr.home))
      ensures status == if Reaches(cfg, old(View()).mem, key) then Ok else OutOfRange
      ensures bytes == if status == Ok then Load(cfg, old(View()).mem, key) else []
      ensures status == Ok ==> |bytes| == key.size
    {
      hide CacheManagers.Agrees, BlockTable.View, BlockTable.Valid;
      status, bytes := net.Read(key.addr, key.size);
    }

    method TryCached(key: CacheKey) returns (hit: bool, bytes: seq<byte>, ghost schedule: seq<CacheKey>)
      requires Valid() && key.size > 0
      modifies cache
      ensures Valid() && Repr() == old(Repr())
      ensures var c := ReadCached(old(View()).entries, key, schedule);
              hit == c.hit && bytes == c.bytes && View() == old(View()).(entries := c.entries)
      ensures hit ==> |bytes| == key.size
    {
      hide CacheManagers.Agrees, BlockTable.View, BlockTable.Valid;
      hit, bytes, schedule := cache.TryReadCached(key.addr, key.size);
    }

    method InsertCached(key: CacheKey, data: seq<byte>)
      requires Valid() && key.size == |data|
      modifies cache
      ensures Valid() && Repr() == old(Repr())
      ensures View() == old(View()).(entries := Insert(cfg, old(View()).entries, key, data))
    {
      hide CacheManagers.Agrees, BlockTable.View, BlockTable.Valid;
      cache.InsertCached(key.addr, data);
    }

    method ReadAtHome(key: CacheKey, ids: seq<BlockId>, share: bool) returns (status: Status, bytes: seq<byte>)
      requires Valid()
      modifies Repr()
      ensures Valid() && fresh(Repr() - old(Repr()))
      ensures OwnerReply(View(), status, bytes, false) == HomeRead(cfg, old(View()), key, ids, share)
      ensures status == Ok ==> |bytes| == key.size
    {
      hide UpdateAll, Reaches, Opened, Load, LeoMem.View, LeoMem.Valid;
      status, bytes := Fetch(key);
      if status == Ok {
        UpdateBlocks(ids, MarkValidated);
        if share {
          UpdateBlocks(ids, ShareInvalid(key.addr.home));
        }
      }
    }
  
    method OwnerOf(ids: seq<BlockId>, fallback: NodeId) returns (owner: NodeId, validated: bool)
      requires Valid()
      ensures owner == DominantOwner(View().blocks, ids, fallback) && validated == AllValidated(View().blocks, ids)
    {
      hide CacheManagers.Agrees, BlockTable.View, BlockTable.Valid;
      owner := table.DominantOwnerNode(ids, fallback);
      validated := table.AllMetasValidated(ids);
    }

    method TryOwnerAwareRead(key: CacheKey, ids: seq<BlockId>)
      returns (status: Status, bytes: seq<byte>, redirected: bool, ghost schedule: seq<CacheKey>)
      requires Valid() && key.size > 0
      modifies Repr()
      ensures Valid() && fresh(Repr() - old(Repr()))
      ensures OwnerReply(View(), status, bytes, redirected) == OwnerAwareRead(cfg, old(View()), key, ids, schedule)
      ensures status == Ok ==> |bytes| == key.size
    {
      hide UpdateAll, Reaches, Opened, Load, HomeRead, ReadCached, DominantOwner, AllValidated, LeoMem.View, LeoMem.Valid;
      schedule := [];
      var owner, validated := OwnerOf(ids, key.addr.home);
      if owner == cfg.nodeId {
        if validated {
          var hit;
          hit, bytes, schedule := TryCached(key);
          if hit {
            return Ok, bytes, true, schedule;
          }
          MissKeepsEntries(old(View()).entries, key, schedule);
        }
        status, bytes := ReadAtHome(key, ids, false);
        return status, bytes, false, schedule;
      }
      if validated && owner != INVALID_NODE && owner != key.addr.home {
        status, bytes := Fetch(CacheKey(key.addr.(home := owner), key.size));
        if status == Ok {
          UpdateBlocks(ids, MarkValidated);
          return Ok, bytes, true, schedule;
        }
      }
      status, bytes := ReadAtHome(key, ids, true);
      return status, bytes, false, schedule;
    }

    /** What follows a successful remote transfer. */
    method CompleteRead(key: CacheKey, ids: seq<BlockId>, modes: seq<CoherenceMode>, bytes: seq<byte>, redirected: bool)
      requires Valid() && key.size == |bytes|
      modifies Repr()
      ensures Valid() && fresh(Repr() - old(Repr()))
      ensures Reply(View(), Ok, bytes) == FinishRead(cfg, OwnerReply(old(View()), Ok, bytes, redirected), key, ids, modes)
    {
      hide UpdateAll, MaxVersion, Admits, Insert, Stats.Admission, Stats.Read, LeoMem.View, LeoMem.Valid;
      if redirected {
        var version := MaxObservedVersion(ids);
        UpdateBlocks(ids, TakeOwner(version));
      }
      var admitted := false;
      if WI !in modes {
        admitted := ShouldAdmitCached(ids);
      }
      CountAdmission(admitted);
      if admitted {
        AdmitRead(key, ids, bytes);
      }
    }

    method AdmitRead(key: CacheKey, ids: seq<BlockId>, bytes: seq<byte>)
      requires Valid() && key.size == |bytes|
      modifies Repr()
      ensures Valid() && fresh(Repr() - old(Repr()))
      ensures View() == old(View()).(blocks := UpdateAll(cfg, old(View()).blocks, ids, MarkAdmitted),
                     entries := Insert(cfg, old(View()).entries, key, bytes))
    {
      hide UpdateAll, Insert, LeoMem.View, LeoMem.Valid;
      UpdateBlocks(ids, MarkAdmitted);
      InsertCached(key, bytes);
    }

    method MaxObservedVersion(ids: seq<BlockId>) returns (version: nat)
      requires Valid()
      ensures version == MaxVersion(View().blocks, ids)
    {
      hide CacheManagers.Agrees, BlockTable.View, BlockTable.Valid;
      version := table.MaxObservedVersion(ids);
    }

    method ShouldAdmitCached(ids: seq<BlockId>) returns (admitted: bool)
      requires Valid()
      ensures admitted == Admits(cfg, View().blocks, ids)
    {
      hide CacheManagers.Agrees, BlockTable.View, BlockTable.Valid;
      admitted := table.ShouldCacheAll(cfg, ids);
    }

    method CountAdmission(admitted: bool)
      requires Valid()
      modifies this
      ensures Valid() && Repr() == old(Repr())
      ensures View() == old(View()).(stats := old(View()).stats.Admission(admitted).Read(false))
    {
      hide CacheManagers.Agrees, BlockTable.View, BlockTable.Valid;
      stats := stats.Admission(admitted).Read(false);
    }

    method CountHit()
      requires Valid()
      modifies this
      ensures Valid() && Repr() == old(Repr())
      ensures View() == old(View()).(stats := old(View()).stats.(hits := old(View()).stats.hits + 1).Read(false))
    {
      hide CacheManagers.Agrees, BlockTable.View, BlockTable.Valid;
      stats := stats.(hits := stats.hits + 1).Read(false);
    }

    method CountMisses(ids: seq<BlockId>)
      requires Valid()
      modifies Repr()
      ensures Valid() && fresh(Repr() - old(Repr())) && View() == Missed(cfg, old(View()), ids)
    {
      hide UpdateAll;
      stats := stats.(misses := stats.misses + 1);
      UpdateBlocks(ids, CountMiss);
    }

    method ReadRemote(key: CacheKey, ids: seq<BlockId>, ghost polls: seq<nat>)
      returns (status: Status, bytes: seq<byte>, ghost sched: Schedule)
      requires Valid() && key.size > 0
      modifies Repr()
      ensures sched.polls == polls
      ensures Valid() && fresh(Repr() - old(Repr()))
      ensures Reply(View(), status, bytes) == RemoteRead(cfg, old(View()), key, ids, sched)
    {
      hide Profiled, ReadCached, Missed, OwnerAwareRead, FinishRead, Stats.Read, LeoMem.View, LeoMem.Valid;
      sched := Schedule(polls, [], [], [], []);
      var modes := Profile(key, ids, ReadAccess);
      ghost var hits, ownerHits;
      var hit, redirected;
      hit, bytes, hits := TryCached(key);
      sched := sched.(hits := hits);
      if hit {
        CountHit();
        return Ok, bytes, sched;
      }
      MissKeepsEntries(old(View()).entries, key, hits);
      CountMisses(ids);
      status, bytes, redirected, ownerHits := TryOwnerAwareRead(key, ids);
      sched := sched.(ownerHits := ownerHits);
      if status != Ok {
        return status, [], sched;
      }
      CompleteRead(key, ids, modes, bytes, redirected);
    }
  
    method CountRead(local: bool)
      requires Valid()
      modifies this
      ensures Valid() && Repr() == old(Repr())
      ensures View() == old(View()).(stats := old(View()).stats.Read(local))
    {
      hide CacheManagers.Agrees, BlockTable.View, BlockTable.Valid;
      stats := stats.Read(local);
    }

    method ReadLocal(key: CacheKey, ids: seq<BlockId>) returns (status: Status, bytes: seq<byte>)
      requires Valid() && key.addr.home == cfg.nodeId
      modifies Repr()
      ensures Valid() && fresh(Repr() - old(Repr()))
      ensures Reply(View(), status, bytes) == LocalRead(cfg, old(View()), key, ids)
    {
      hide Profiled, Stats.Read, LeoMem.View, LeoMem.Valid;
      var modes := Profile(key, ids, ReadAccess);
      status, bytes := Fetch(key);
      if status == Ok {
        CountRead(true);
      }
    }

    method lm_read(addr: GlobalAddr, size: nat) returns (status: Status, bytes: seq<byte>, ghost sched: Schedule)
      requires Valid()
      modifies Repr()
      ensures Valid() && fresh(Repr() - old(Repr()))
      ensures Reply(View(), status, bytes) == Access.Read(cfg, old(View()), CacheKey(addr, size), sched)
    {
      hide ControlPhase, LocalRead, RemoteRead, Ids, Validate, LeoMem.View, LeoMem.Valid;
      var key := CacheKey(addr, size);
      sched := Schedule([], [], [], [], []);
      if !addr.IsValid() || size == 0 {
        return InvalidArg, [], sched;
      }
      ghost var polls;
      status, polls := ProcessPendingControlMessages(false);
      sched := sched.(polls := polls);
      if status != Ok {
        return status, [], sched;
      }
      var v := ValidateAndResolveRange(key);
      if v.Rejected? {
        return v.status, [], sched;
      }
      if addr.home == cfg.nodeId {
        status, bytes := ReadLocal(key, Ids(v.range));
      } else {
        status, bytes, sched := ReadRemote(key, Ids(v.range), polls);
      }
    }

    // ----------------------------------------------------------------- writes

    method ApplyOne(id: BlockId, mode: CoherenceMode, home: NodeId) returns (handoff: bool)
      requires Valid()
      modifies table, table.metas.Values
      ensures Valid() && fresh(Repr() - old(Repr()))
      ensures var m := Lookup(old(View()).blocks, id);
              && View() == old(View()).(blocks := old(View()).blocks[id := WriteOne(cfg, m, mode, home)])
              && handoff == (mode.Adaptive? && m.owner != cfg.nodeId)
    {
      hide WriteOne, Accepts, CacheManagers.Agrees, BlockTable.View, BlockTable.Valid;
      var m := table.Get(id);
      handoff := mode.Adaptive? && m.owner != cfg.nodeId;
      table.Put(id, WriteOne(cfg, m, mode, home));
    }

    method ApplyWriteMetadata(ids: seq<BlockId>, modes: seq<CoherenceMode>, home: NodeId)
      returns (biased: bool, handoff: bool)
      requires Valid() && |ids| == |modes|
      modifies Repr()
      ensures Valid() && fresh(Repr() - old(Repr()))
      ensures var a := ApplyWrites(cfg, Applied(old(View()).blocks, false, false), ids, modes, home);
              biased == a.biased && handoff == a.handoff && View() == old(View()).(blocks := a.blocks)
    {
      hide WriteOne, LeoMem.View, LeoMem.Valid;
      biased, handoff := false, false;
      for i := 0 to |ids|
        invariant Valid() && fresh(Repr() - old(Repr()))
        invariant View() == old(View()).(blocks := View().blocks)
        invariant ApplyWrites(cfg, Applied(View().blocks, biased, handoff), ids[i..], modes[i..], home) ==
                  ApplyWrites(cfg, Applied(old(View()).blocks, false, false), ids, modes, home)
      {
        assert ids[i..][1..] == ids[i + 1..] && modes[i..][1..] == modes[i + 1..];
        var taken := ApplyOne(ids[i], modes[i], home);
        biased := biased || modes[i].Adaptive?;
        handoff := handoff || taken;
      }
    }

    method PrepareWrite(key: CacheKey, ids: seq<BlockId>) returns (f: WriteFlags)
      requires Valid()
      modifies Repr()
      ensures Valid() && fresh(Repr() - old(Repr()))
      ensures (View(), f) == WriteMetadata(cfg, old(View()), key, ids)
    {
      hide UpdateAll, ApplyWrites, LeoMem.View, LeoMem.Valid;
      var modes := Profile(key, ids, WriteAccess);
      var biased, handoff := ApplyWriteMetadata(ids, modes, key.addr.home);
      f := WriteFlags(modes, biased, handoff);
    }

    /** MakeControlMessage, PostControlMessage and TrackPendingControlAck. */
    method SendRequest(addr: GlobalAddr, range: BlockRange, mode: CoherenceMode, opcode: Opcode, version: nat)
      requires Valid()
      modifies acks, net
      ensures Valid() && Repr() == old(Repr())
      ensures View() == Request(cfg, old(View()), Message(cfg, old(View()), addr, range, mode, opcode, version))
    {
      hide StubNet.Post, CacheManagers.Agrees, BlockTable.View, BlockTable.Valid;
      var id := acks.NextControlRequestId();
      var m := ControlMessage(opcode, cfg.nodeId, addr.home, id, range.first, range.last, version, mode);
      net.PostControlMessage(m);
      acks.TrackPendingControlAck(m);
    }

    method SendWriteRequests(key: CacheKey, range: BlockRange, f: WriteFlags)
      requires Valid()
      modifies Repr()
      ensures Valid() && fresh(Repr() - old(Repr()))
      ensures View() == WriteRequests(cfg, old(View()), key, range, f)
    {
      hide MaxVersion, Ids, Message, Request, LeoMem.View, LeoMem.Valid;
      var version := MaxObservedVersion(Ids(range));
      if WI in f.modes {
        SendRequest(key.addr, range, WI, InvalidateRange, version);
      }
      if f.handoff {
        SendRequest(key.addr, range, Adaptive, OwnerTransfer, version);
      }
    }

    method InvalidateExact(key: CacheKey) returns (removed: nat)
      requires Valid()
      modifies cache
      ensures Valid() && Repr() == old(Repr())
      ensures View() == old(View()).(entries := Drop(old(View()).entries, Exact(key)))
      ensures removed == |old(View()).entries| - |View().entries|
    {
      hide CacheManagers.Agrees, BlockTable.View, BlockTable.Valid;
      removed := cache.Invalidate(key.addr, key.size);
    }

    method InvalidateCached(key: CacheKey, f: WriteFlags)
      requires Valid()
      modifies Repr()
      ensures Valid() && fresh(Repr() - old(Repr()))
      ensures |Drop(old(View()).entries, if WI in f.modes then Overlapping(key) else Exact(key))| <= |old(View()).entries|
      ensures View() == InvalidateFor(old(View()), key, f)
    {
      hide Drop, Stats.Invalidated, LeoMem.View, LeoMem.Valid;
      var removed;
      if WI in f.modes {
        removed := InvalidateOverlapping(key.addr, key.size);
      } else {
        removed := InvalidateExact(key);
      }
      CountInvalidations(WI in f.modes, removed);
    }

    method CountInvalidations(range: bool, removed: nat)
      requires Valid()
      modifies this
      ensures Valid() && Repr() == old(Repr())
      ensures View() == old(View()).(stats := old(View()).stats.Invalidated(range, removed))
    {
      hide CacheManagers.Agrees, BlockTable.View, BlockTable.Valid;
      stats := stats.Invalidated(range, removed);
    }
  
    /** Carry out a batch drained from a queue, and count it. */
    method FlushDestination(node: NodeId) returns (status: Status)
      requires Valid()
      modifies Repr()
      ensures Valid() && fresh(Repr() - old(Repr()))
      ensures Controlled(View(), status) == Flush(cfg, old(View()), node)
    {
      hide StubNet.BatchWrite, CountFlags, Stats.Flushed, PayloadBytes, LeoMem.View, LeoMem.Valid;
      var writes, totalBytes := DrainQueue(node);
      status := Send(writes);
      if status != Ok || writes == [] {
        return;
      }
      CountBatch(writes, totalBytes);
    }

    method DrainQueue(node: NodeId) returns (writes: seq<PendingWrite>, totalBytes: nat)
      requires Valid()
      modifies cache
      ensures Valid() && Repr() == old(Repr())
      ensures writes == Queue(old(View()).queues, node) && totalBytes == PayloadBytes(writes)
      ensures View() == old(View()).(queues := old(View()).queues - {node})
    {
      hide CacheManagers.Agrees, BlockTable.View, BlockTable.Valid;
      writes, totalBytes := cache.DrainRemoteWrites(node);
    }

    method Send(writes: seq<PendingWrite>) returns (status: Status)
      requires Valid()
      modifies net, allocator
      ensures Valid() && Repr() == old(Repr())
      ensures var w := StubNet.BatchWrite(cfg, old(View()).mem, writes);
              status == w.status && View() == old(View()).(mem := w.mem)
    {
      hide StubNet.BatchWrite, CacheManagers.Agrees, BlockTable.View, BlockTable.Valid;
      status := net.BatchWrite(writes);
    }

    method CountBatch(writes: seq<PendingWrite>, totalBytes: nat)
      requires Valid()
      modifies this
      ensures Valid() && Repr() == old(Repr())
      ensures View() == old(View()).(stats := CountFlags(old(View()).stats, writes).Flushed(|writes|, totalBytes))
    {
      hide CacheManagers.Agrees, BlockTable.View, BlockTable.Valid;
      for i := 0 to |writes|
        invariant Valid() && Repr() == old(Repr()) && View() == old(View()).(stats := stats)
        invariant CountFlags(stats, writes[i..]) == CountFlags(old(stats), writes)
      {
        assert writes[i..][1..] == writes[i + 1..];
        if writes[i].ownerBiased {
          stats := stats.(ownerBiasedWrites := stats.ownerBiasedWrites + 1);
        }
        if writes[i].ownerHandoff {
          stats := stats.(ownerHandoffs := stats.ownerHandoffs + 1);
        }
      }
      stats := stats.Flushed(|writes|, totalBytes);
    }

    method MostAggressiveBatchThreshold(modes: seq<CoherenceMode>) returns (threshold: nat)
      requires Valid()
      ensures threshold == FlushThreshold(cfg, modes) && threshold >= 1
      ensures threshold == if WI in modes then 1
                           else if Adaptive in modes then Min(Max(1, cfg.batchThreshold), Max(1, cfg.adaptiveBatchThreshold))
                           else Max(1, cfg.batchThreshold)
    {
      hide CacheManagers.Agrees, BlockTable.View, BlockTable.Valid;
      threshold := cache.EffectiveBatchThreshold(SI);
      for i := 0 to |modes|
        invariant threshold == FlushThreshold(cfg, modes[..i]) && threshold >= 1
      {
        assert modes[..i + 1][..i] == modes[..i];
        var t := cache.EffectiveBatchThreshold(modes[i]);
        threshold := Min(threshold, t);
      }
      assert modes[..|modes|] == modes;
      QueueRuns.ThresholdIs(cfg, modes);
    }

    method EnqueueWrite(addr: GlobalAddr, data: seq<byte>, f: WriteFlags)
      requires Valid() && data != [] && cfg.enableWriteBatching
      modifies Repr()
      ensures Valid() && fresh(Repr() - old(Repr())) && View() == Enqueued(cfg, old(View()), addr, data, f)
    {
      hide Enqueue, MergeTarget, Insert, Stats.Queued, CacheManagers.Agrees, BlockTable.View, BlockTable.Valid;
      var merged := cache.QueueRemoteWrite(addr, data, DominantMode(f.modes), f.biased, f.handoff);
      stats := stats.Queued(merged);
      if f.biased {
        cache.InsertCached(addr, data);
      }
    }

    method DestinationDue(node: NodeId, modes: seq<CoherenceMode>) returns (due: bool)
      requires Valid()
      ensures due == FlushDue(cfg, View(), node, modes)
    {
      hide CacheManagers.Agrees, BlockTable.View, BlockTable.Valid;
      var threshold := MostAggressiveBatchThreshold(modes);
      due := cache.ShouldFlushDestination(node, threshold);
      due := WI in modes || due;
    }

    method CountWrite(local: bool)
      requires Valid()
      modifies this
      ensures Valid() && Repr() == old(Repr())
      ensures View() == old(View()).(stats := old(View()).stats.Write(local))
    {
      hide CacheManagers.Agrees, BlockTable.View, BlockTable.Valid;
      stats := stats.Write(local);
    }

    method WriteQueued(addr: GlobalAddr, data: seq<byte>, f: WriteFlags) returns (status: Status)
      requires Valid() && data != [] && cfg.enableWriteBatching
      modifies Repr()
      ensures Valid() && fresh(Repr() - old(Repr()))
      ensures Reply(View(), status, []) == QueueWrite(cfg, old(View()), addr, data, f)
    {
      hide Enqueued, FlushDue, Flush, Stats.Write, LeoMem.View, LeoMem.Valid;
      EnqueueWrite(addr, data, f);
      var due := DestinationDue(addr.home, f.modes);
      if due {
        status := FlushDestination(addr.home);
        if status != Ok {
          return;
        }
      }
      CountWrite(false);
      status := Ok;
    }

    method WriteThrough(addr: GlobalAddr, data: seq<byte>) returns (status: Status)
      requires Valid()
      modifies Repr()
      ensures Valid() && fresh(Repr() - old(Repr()))
      ensures Reply(View(), status, []) == DirectWrite(cfg, old(View()), addr, data)
    {
      hide StubNet.Write, Stats.Write, CacheManagers.Agrees, BlockTable.View, BlockTable.Valid;
      status := net.Write(addr, data);
      if status == Ok {
        stats := stats.Write(addr.home == cfg.nodeId);
      }
    }

    method WriteRemote(addr: GlobalAddr, data: seq<byte>, range: BlockRange) returns (status: Status)
      requires Valid() && data != []
      modifies Repr()
      ensures Valid() && fresh(Repr() - old(Repr()))
      ensures Reply(View(), status, []) == RemoteWrite(cfg, old(View()), addr, data, range)
    {
      hide WriteMetadata, WriteRequests, InvalidateFor, QueueWrite, DirectWrite, Ids, LeoMem.View, LeoMem.Valid;
      var key := CacheKey(addr, |data|);
      var f := PrepareWrite(key, Ids(range));
      SendWriteRequests(key, range, f);
      InvalidateCached(key, f);
      if cfg.enableWriteBatching {
        status := WriteQueued(addr, data, f);
      } else {
        status := WriteThrough(addr, data);
      }
    }

    method lm_write(addr: GlobalAddr, data: seq<byte>) returns (status: Status, ghost sched: Schedule)
      requires Valid()
      modifies Repr()
      ensures Valid() && fresh(Repr() - old(Repr()))
      ensures Reply(View(), status, []) == Access.Write(cfg, old(View()), addr, data, sched)
    {
      hide ControlPhase, DirectWrite, Profiled, RemoteWrite, Ids, Validate, LeoMem.View, LeoMem.Valid;
      sched := Schedule([], [], [], [], []);
      if !addr.IsValid() || data == [] {
        return InvalidArg, sched;
      }
      ghost var polls;
      status, polls := ProcessPendingControlMessages(false);
      sched := sched.(polls := polls);
      if status != Ok {
        return;
      }
      var v := ValidateAndResolveRange(CacheKey(addr, |data|));
      if v.Rejected? {
        return v.status, sched;
      }
      if addr.home == cfg.nodeId {
        var modes := Profile(CacheKey(addr, |data|), Ids(v.range), WriteAccess);
        status := WriteThrough(addr, data);
      } else {
        status := WriteRemote(addr, data, v.range);
      }
    }

    // ----------------------------------------------------------- fence, malloc

    method Destinations() returns (nodes: set<NodeId>)
      requires Valid()
      ensures nodes == PendingDestinations(View().queues)
    {
      hide CacheManagers.Agrees, BlockTable.View, BlockTable.Valid;
      nodes := set n | n in cache.writeQueues && cache.writeQueues[n] != [];
    }

    method FlushDestinations(nodes: set<NodeId>) returns (status: Status, ghost schedule: seq<NodeId>)
      requires Valid()
      modifies Repr()
      ensures Valid() && fresh(Repr() - old(Repr()))
      ensures Controlled(View(), status) == FlushAll(cfg, old(View()), nodes, schedule)
      decreases |nodes|
    {
      hide Flush, LeoMem.View, LeoMem.Valid;
      if nodes == {} {
        return Ok, [];
      }
      var node :| node in nodes;
      status := FlushDestination(node);
      schedule := [node];
      if status == Ok {
        ghost var rest;
        status, rest := FlushDestinations(nodes - {node});
        schedule := [node] + rest;
      }
    }

    method lm_fence() returns (status: Status, ghost sched: Schedule)
      requires Valid()
      modifies Repr()
      ensures Valid() && fresh(Repr() - old(Repr()))
      ensures Controlled(View(), status) == Fence(cfg, old(View()), sched)
    {
      hide ControlPhase, FlushAll, PendingDestinations, LeoMem.View, LeoMem.Valid;
      ghost var polls, order, finalPolls := [], [], [];
      sched := Schedule([], [], [], [], []);
      status, polls := ProcessPendingControlMessages(true);
      sched := sched.(polls := polls);
      if status != Ok {
        return;
      }
      var nodes := Destinations();
      status, order := FlushDestinations(nodes);
      sched := sched.(destinations := order);
      if status != Ok {
        return;
      }
      status, finalPolls := ProcessPendingControlMessages(true);
      sched := sched.(finalPolls := finalPolls);
    }

    method lm_malloc(size: nat) returns (addr: GlobalAddr)
      requires Valid()
      modifies Repr()
      ensures Valid() && fresh(Repr() - old(Repr()))
      ensures (View(), addr) == Malloc(cfg, old(View()), size)
    {
      hide HeapOk, InsideSome, RoomFor, UpdateAll, Accepts, Resolve, Ids, CacheManagers.Agrees, BlockTable.View,
           BlockTable.Valid;
      addr := allocator.AllocateBlocks(size);
      if !addr.IsValid() {
        return;
      }
      var range := allocator.ResolveBlockRange(addr, size);
      if range.None? {
        return INVALID_ADDR;
      }
      UpdateBlocks(Ids(range.value), Adopt);
      stats := stats.(allocs := stats.allocs + 1);
    }
  }
}
