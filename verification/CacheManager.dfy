/**
  The cache manager object (src/memory/cache/cache_manager.cc): a hash map of
  cached reads, a recency list and a byte counter that must agree, the
  per-destination write queues and the access epoch. Each method is proved
  against the value-level operation it implements.
 */
module CacheManagers {
  import opened Types
  import opened WriteCombining
  import opened LruCache
  import opened Profiling
  import opened Access

  /** The list and the map hold exactly these entries, in this order. */
  ghost predicate Represents(lru: seq<CacheKey>, cached: map<CacheKey, seq<byte>>, entries: seq<Entry>)
  {
    var ok :=
      && |lru| == |entries|
      && (forall i :: 0 <= i < |lru| ==> lru[i] == entries[i].key && lru[i] in cached && cached[lru[i]] == entries[i].payload)
      && (forall k :: k in cached ==> Has(entries, k));
    ok
  }

  /** The map, the recency list and the byte counter agree, and a non-zero capacity is respected. */
  ghost predicate Agrees(cfg: Config, lru: seq<CacheKey>, cached: map<CacheKey, seq<byte>>, bytes: nat, entries: seq<Entry>)
  {
    var ok :=
      && Represents(lru, cached, entries)
      && WellFormed(entries)
      && bytes == Bytes(entries)
      && WithinCapacity(cfg, entries);
    ok
  }

  /** Where the list iterator stored with a cached value points. */
  function Position(lru: seq<CacheKey>, key: CacheKey): (i: nat)
    requires key in lru
    ensures i < |lru| && lru[i] == key
  {
    if lru[0] == key then 0 else 1 + Position(lru[1..], key)
  }

  lemma ResidentIffCached(lru: seq<CacheKey>, cached: map<CacheKey, seq<byte>>, entries: seq<Entry>, key: CacheKey)
    requires Represents(lru, cached, entries)
    ensures key in cached <==> Has(entries, key)
    ensures key in cached <==> key in lru
  {
    if Has(entries, key) {
      var i :| 0 <= i < |entries| && entries[i].key == key;
      assert lru[i] == key;
    }
  }

  lemma CachedIffResident(cfg: Config, lru: seq<CacheKey>, cached: map<CacheKey, seq<byte>>, bytes: nat, entries: seq<Entry>, key: CacheKey)
    requires Agrees(cfg, lru, cached, bytes, entries)
    ensures key in cached <==> Has(entries, key)
    ensures key in cached <==> key in lru
  {
    ResidentIffCached(lru, cached, entries, key);
  }

  lemma PayloadIsCached(cfg: Config, lru: seq<CacheKey>, cached: map<CacheKey, seq<byte>>, bytes: nat, entries: seq<Entry>, key: CacheKey)
    requires Agrees(cfg, lru, cached, bytes, entries) && key in cached
    ensures Has(entries, key) && PayloadOf(entries, key) == cached[key] && |cached[key]| == key.size
  {
    ResidentIffCached(lru, cached, entries, key);
    var i :| 0 <= i < |entries| && entries[i].key == key;
    PayloadAt(entries, i);
  }

  lemma UnlinkKeepsKeys(entries: seq<Entry>, i: nat, k: CacheKey)
    requires i < |entries| && Has(entries, k) && k != entries[i].key
    ensures Has(entries[..i] + entries[i + 1..], k)
  {
    var j :| 0 <= j < |entries| && entries[j].key == k;
    var rest := entries[..i] + entries[i + 1..];
    assert rest[if j < i then j else j - 1].key == k;
  }

  lemma SpliceOutRepresents(lru: seq<CacheKey>, cached: map<CacheKey, seq<byte>>, entries: seq<Entry>, i: nat)
    requires Represents(lru, cached, entries) && WellFormed(entries) && i < |lru|
    ensures Represents(lru[..i] + lru[i + 1..], cached - {lru[i]}, entries[..i] + entries[i + 1..])
  {
    assert forall j :: 0 <= j < |entries| && j != i ==> entries[j].key != entries[i].key;
    forall k | k in cached - {lru[i]}
      ensures Has(entries[..i] + entries[i + 1..], k)
    {
      UnlinkKeepsKeys(entries, i, k);
    }
  }

  lemma PushRepresents(lru: seq<CacheKey>, cached: map<CacheKey, seq<byte>>, entries: seq<Entry>, key: CacheKey, data: seq<byte>)
    requires Represents(lru, cached, entries) && key !in cached
    ensures Represents([key] + lru, cached[key := data], [Entry(key, data)] + entries)
  {
    var after := [Entry(key, data)] + entries;
    forall k | k in cached[key := data]
      ensures Has(after, k)
    {
      if k == key {
        assert after[0].key == k;
      } else {
        var i :| 0 <= i < |entries| && entries[i].key == k;
        assert after[1 + i].key == k;
      }
    }
  }

  /** Erasing one list node and its map entry drops exactly that entry. */
  lemma UnlinkAgrees(cfg: Config, lru: seq<CacheKey>, cached: map<CacheKey, seq<byte>>, bytes: nat, entries: seq<Entry>, i: nat)
    requires Agrees(cfg, lru, cached, bytes, entries) && i < |lru|
    ensures lru[i] in cached && |cached[lru[i]]| <= bytes && (cfg.cacheCapacity != 0 ==> bytes <= cfg.cacheCapacity)
    ensures Agrees(cfg, lru[..i] + lru[i + 1..], cached - {lru[i]}, bytes - |cached[lru[i]]|, Drop(entries, Exact(lru[i])))
    ensures |Drop(entries, Exact(lru[i]))| == |entries| - 1
  {
    SpliceOutRepresents(lru, cached, entries, i);
    DropExactSplit(entries, i);
    DropKeeps(cfg, entries, Exact(lru[i]));
  }

  /** A new entry at the front, when it fits. */
  lemma PushAgrees(cfg: Config, lru: seq<CacheKey>, cached: map<CacheKey, seq<byte>>, bytes: nat, entries: seq<Entry>,
                   key: CacheKey, data: seq<byte>)
    requires Agrees(cfg, lru, cached, bytes, entries) && key !in cached && |data| == key.size
    requires cfg.cacheCapacity != 0 ==> bytes + |data| <= cfg.cacheCapacity
    ensures Agrees(cfg, [key] + lru, cached[key := data], bytes + |data|, [Entry(key, data)] + entries)
  {
    PushRepresents(lru, cached, entries, key, data);
    assert forall i :: 0 <= i < |entries| ==> entries[i].key in cached;
    PushFrontKeeps(Entry(key, data), entries);
  }

  function MoveToFront(lru: seq<CacheKey>, i: nat): seq<CacheKey>
    requires i < |lru|
  {
    [lru[i]] + (lru[..i] + lru[i + 1..])
  }

  /** Overwriting a payload with one of the same size and moving its node to the front. */
  lemma RefreshAgrees(cfg: Config, lru: seq<CacheKey>, cached: map<CacheKey, seq<byte>>, bytes: nat, entries: seq<Entry>,
                      i: nat, data: seq<byte>)
    requires Agrees(cfg, lru, cached, bytes, entries) && i < |lru| && |data| == lru[i].size
    ensures Agrees(cfg, MoveToFront(lru, i), cached[lru[i] := data], bytes,
                   [Entry(lru[i], data)] + Drop(entries, Exact(lru[i])))
  {
    var key := lru[i];
    UnlinkAgrees(cfg, lru, cached, bytes, entries, i);
    PayloadIsCached(cfg, lru, cached, bytes, entries, key);
    PushAgrees(cfg, lru[..i] + lru[i + 1..], cached - {key}, bytes - |cached[key]|, Drop(entries, Exact(key)), key, data);
    Reinserted(cached, key, data);
  }

  lemma Reinserted(cached: map<CacheKey, seq<byte>>, key: CacheKey, data: seq<byte>)
    ensures (cached - {key})[key := data] == cached[key := data]
  {
  }

  /** Moving a node to the front is a touch. */
  lemma TouchAgrees(cfg: Config, lru: seq<CacheKey>, cached: map<CacheKey, seq<byte>>, bytes: nat, entries: seq<Entry>, i: nat)
    requires Agrees(cfg, lru, cached, bytes, entries) && i < |lru|
    ensures Has(entries, lru[i])
    ensures Agrees(cfg, MoveToFront(lru, i), cached, bytes, Touch(entries, lru[i]))
  {
    PayloadAt(entries, i);
    RefreshAgrees(cfg, lru, cached, bytes, entries, i, cached[lru[i]]);
    assert cached[lru[i] := cached[lru[i]]] == cached;
  }

  /** A reply served from the resident key `k`. */
  lemma ServedReply(entries: seq<Entry>, k: CacheKey, key: CacheKey, p: seq<byte>)
    requires WellFormed(entries) && Entry(k, p) in entries && Serves(k, key) && |p| == k.size
    requires k == key || !Has(entries, key)
    ensures Has(entries, k)
    ensures var begin := key.addr.offset - k.addr.offset;
            ReadCached(entries, key, [k]) == CacheReply(Touch(entries, k), true, p[begin..begin + key.size])
  {
    OneEntryPerKey(entries, Entry(k, p));
    assert Entry(k, p).key in Servers(entries, key);
  }

  /** Nothing is served when no cached key contains the range. */
  lemma MissedReply(cfg: Config, lru: seq<CacheKey>, cached: map<CacheKey, seq<byte>>, bytes: nat, entries: seq<Entry>, key: CacheKey)
    requires Agrees(cfg, lru, cached, bytes, entries) && key !in cached
    requires forall k :: k in cached ==> !Serves(k, key)
    ensures ReadCached(entries, key, []) == CacheReply(entries, false, [])
  {
    ResidentIffCached(lru, cached, entries, key);
    assert forall e :: e in entries ==> e.key in cached;
    assert Servers(entries, key) == {};
  }

  /** Cutting the range out of the resident key `k`. */
  lemma HitReply(cfg: Config, lru: seq<CacheKey>, cached: map<CacheKey, seq<byte>>, bytes: nat, entries: seq<Entry>,
                 k: CacheKey, key: CacheKey)
    requires Agrees(cfg, lru, cached, bytes, entries) && k in cached && Serves(k, key)
    requires k == key || key !in cached
    ensures Has(entries, k)
    ensures var begin := key.addr.offset - k.addr.offset;
            && begin + key.size <= |cached[k]|
            && ReadCached(entries, key, [k]) == CacheReply(Touch(entries, k), true, cached[k][begin..begin + key.size])
  {
    ResidentIffCached(lru, cached, entries, key);
    ResidentIffCached(lru, cached, entries, k);
    PayloadIsCached(cfg, lru, cached, bytes, entries, k);
    ServedReply(entries, k, key, cached[k]);
  }

  /** Removing an entry the selector hits anyway does not change what the selector leaves. */
  lemma {:induction false} DropAbsorbs(entries: seq<Entry>, sel: Selector, key: CacheKey)
    requires sel.Hits(key)
    ensures Drop(Drop(entries, Exact(key)), sel) == Drop(entries, sel)
  {
    if entries != [] {
      DropAbsorbs(entries[1..], sel, key);
      var rest := Drop(entries[1..], Exact(key));
      if entries[0].key != key {
        assert ([entries[0]] + rest)[1..] == rest;
      }
    }
  }

  lemma NothingHit(cfg: Config, lru: seq<CacheKey>, cached: map<CacheKey, seq<byte>>, bytes: nat, entries: seq<Entry>, sel: Selector)
    requires Agrees(cfg, lru, cached, bytes, entries)
    requires forall k :: k in cached ==> !sel.Hits(k)
    ensures Drop(entries, sel) == entries
  {
    assert forall e :: e in entries ==> e.key in cached;
    DropNothing(entries, sel);
  }

  lemma FitDropsLast(entries: seq<Entry>, capacity: nat, extra: nat)
    requires entries != [] && Bytes(entries) + extra > capacity
    ensures Fit(entries, capacity, extra) == Fit(entries[..|entries| - 1], capacity, extra)
    ensures Bytes(entries) == Bytes(entries[..|entries| - 1]) + |entries[|entries| - 1].payload|
  {
    var n := |entries| - 1;
    assert entries == entries[..n] + [entries[n]];
    BytesConcat(entries[..n], [entries[n]]);
  }

  /** Reuse distance and phase changes, relative to the previous access. */
  function Compared(m: Meta, epoch: nat, access: AccessType): Meta
  {
    m.(lastEpoch := epoch, lastType := access,
    reuseDistance := if m.lastEpoch != 0 && m.lastEpoch <= epoch then epoch - m.lastEpoch else m.reuseDistance,
    phaseChanges := if m.lastEpoch != 0 && m.lastType != access then m.phaseChanges + 1 else m.phaseChanges)
  }

  function Tallied(m: Meta, access: AccessType, local: bool): Meta
  {
    match access
    case ReadAccess =>
      m.(readCount := m.readCount + 1, windowReads := m.windowReads + 1,
      sharers := if local then m.sharers else m.sharers + 1)
    case WriteAccess =>
      m.(writeCount := m.writeCount + 1, windowWrites := m.windowWrites + 1,
      invalidationCost := if local then m.invalidationCost else m.invalidationCost + 1)
  }

  function Decided(cfg: Config, m: Meta): Meta
  {
    var next := Decide(cfg, m);
    m.(mode := next, switches := if next != m.mode then m.switches + 1 else m.switches)
  }

  /** Profiling an access is done in these stages. */
  lemma ObserveInStages(cfg: Config, m: Meta, epoch: nat, access: AccessType, local: bool)
    requires epoch > 0
    ensures Observe(cfg, m, epoch, access, local) ==
            Decided(cfg, Tallied(Compared(Rolled(cfg, m, epoch), epoch, access), access, local))
  {
    assert Counted(cfg, m, epoch, access, local) == Tallied(Compared(Rolled(cfg, m, epoch), epoch, access), access, local);
  }

  /** A shared metadata record; callers hold references to it. */
  class BlockMeta {
    var rec: Meta

    constructor ()
      ensures rec == FRESH
    {
      rec := FRESH;
    }
  }

  class CacheManager {
    const cfg: Config
    var accessEpoch: nat
    var cachedBytes: nat
    var evictionCount: nat
    var lru: seq<CacheKey>
    var cachedReads: map<CacheKey, seq<byte>>
    var writeQueues: Queues
    ghost var entries: seq<Entry>

    /** The recency list, the map and the byte counter represent `entries`. */
    ghost predicate Valid()
      reads this
    {
      Agrees(cfg, lru, cachedReads, cachedBytes, entries)
    }

    constructor (cfg: Config)
      ensures Valid() && this.cfg == cfg
      ensures entries == [] && writeQueues == map[] && accessEpoch == 0 && evictionCount == 0
    {
      this.cfg := cfg;
      accessEpoch, cachedBytes, evictionCount := 0, 0, 0;
      lru, cachedReads, writeQueues := [], map[], map[];
      entries := [];
    }

    // ------------------------------------------------------------ the cache

    /** Erase a resident key from the list and the map. */
    method Unlink(key: CacheKey)
      requires Valid() && key in cachedReads
      modifies this`lru, this`cachedReads, this`cachedBytes, this`entries
      ensures Valid() && cachedReads == old(cachedReads) - {key}
      ensures entries == Drop(old(entries), Exact(key)) && |entries| == |old(entries)| - 1
    {
      hide Agrees;
      CachedIffResident(cfg, lru, cachedReads, cachedBytes, entries, key);
      var i := Position(lru, key);
      UnlinkAgrees(cfg, lru, cachedReads, cachedBytes, entries, i);
      cachedBytes := cachedBytes - |cachedReads[key]|;
      lru := lru[..i] + lru[i + 1..];
      cachedReads := cachedReads - {key};
      entries := Drop(entries, Exact(key));
    }

    /** Move a resident key to the front of the list. */
    method TouchLocked(key: CacheKey)
      requires Valid() && key in cachedReads
      modifies this`lru, this`entries
      ensures Valid() && Has(old(entries), key) && entries == Touch(old(entries), key)
    {
      hide Agrees;
      CachedIffResident(cfg, lru, cachedReads, cachedBytes, entries, key);
      var i := Position(lru, key);
      TouchAgrees(cfg, lru, cachedReads, cachedBytes, entries, i);
      lru := MoveToFront(lru, i);
      entries := Touch(entries, key);
    }

    /** Evict from the tail until `incoming` more bytes fit: exactly the shortest tail that makes room. */
    method EvictIfNeededLocked(incoming: nat)
      requires Valid()
      modifies this`lru, this`cachedReads, this`cachedBytes, this`evictionCount, this`entries
      ensures Valid() && entries == Evict(cfg, old(entries), incoming)
      ensures evictionCount == old(evictionCount) + |old(entries)| - |entries|
      ensures cachedReads.Keys <= old(cachedReads).Keys
    {
      if cfg.cacheCapacity == 0 {
        return;
      }
      while lru != [] && cachedBytes + incoming > cfg.cacheCapacity
        invariant Valid()
        invariant Fit(entries, cfg.cacheCapacity, incoming) == Fit(old(entries), cfg.cacheCapacity, incoming)
        invariant evictionCount == old(evictionCount) + |old(entries)| - |entries|
        invariant cachedReads.Keys <= old(cachedReads).Keys
        decreases |entries|
      {
        var n := |lru| - 1;
        var victim := lru[n];
        FitDropsLast(entries, cfg.cacheCapacity, incoming);
        DropExactSplit(entries, n);
        assert entries[..n] + entries[n + 1..] == entries[..n];
        if victim !in cachedReads {
          assert false;
        }
        Unlink(victim);
        evictionCount := evictionCount + 1;
      }
    }

    /** Walk the map in some order for a resident range that contains `key`. */
    method FindServing(key: CacheKey) returns (found: Option<CacheKey>)
      ensures found.Some? ==> found.value in cachedReads && Serves(found.value, key)
      ensures found.None? ==> forall k :: k in cachedReads ==> !Serves(k, key)
    {
      var todo := cachedReads.Keys;
      while todo != {}
        invariant todo <= cachedReads.Keys
        invariant forall k :: k in cachedReads && Serves(k, key) ==> k in todo
        decreases |todo|
      {
        var k :| k in todo;
        if Serves(k, key) {
          return Some(k);
        }
        todo := todo - {k};
      }
      return None;
    }

    method TryReadCached(addr: GlobalAddr, size: nat)
      returns (hit: bool, bytes: seq<byte>, ghost schedule: seq<CacheKey>)
      requires Valid()
      modifies this`lru, this`entries
      ensures Valid() && (hit ==> |bytes| == size)
      ensures if size == 0 then !hit && entries == old(entries)
              else CacheReply(entries, hit, bytes) == ReadCached(old(entries), CacheKey(addr, size), schedule)
    {
      hide Agrees, Servers, Has, PayloadOf, Drop, Pick, Serves;
      if size == 0 {
        return false, [], [];
      }
      var key := CacheKey(addr, size);
      var k := key;
      if key !in cachedReads {
        var found := FindServing(key);
        if found.None? {
          MissedReply(cfg, lru, cachedReads, cachedBytes, entries, key);
          return false, [], [];
        }
        k := found.value;
      }
      HitReply(cfg, lru, cachedReads, cachedBytes, entries, k, key);
      var begin := addr.offset - k.addr.offset;
      bytes := cachedReads[k][begin..begin + size];
      TouchLocked(k);
      return true, bytes, [k];
    }

    method InsertCached(addr: GlobalAddr, data: seq<byte>)
      requires Valid()
      modifies this`lru, this`cachedReads, this`cachedBytes, this`evictionCount, this`entries
      ensures Valid() && entries == Insert(cfg, old(entries), CacheKey(addr, |data|), data)
    {
      if |data| == 0 || !cfg.enableCache {
        return;
      }
      if cfg.cacheCapacity != 0 && |data| > cfg.cacheCapacity {
        return;
      }
      var key := CacheKey(addr, |data|);
      CachedIffResident(cfg, lru, cachedReads, cachedBytes, entries, key);
      if key in cachedReads {
        PayloadIsCached(cfg, lru, cachedReads, cachedBytes, entries, key);
        if |cachedReads[key]| != |data| {
          assert false;
        }
        Refresh(key, data);
        EvictIfNeededLocked(0);
        return;
      }
      EvictIfNeededLocked(|data|);
      PushFront(key, data);
    }

    /** Overwrite a resident payload and move it to the front. */
    method Refresh(key: CacheKey, data: seq<byte>)
      requires Valid() && key in cachedReads && |data| == key.size
      modifies this`lru, this`cachedReads, this`entries
      ensures Valid() && entries == [Entry(key, data)] + Drop(old(entries), Exact(key))
    {
      hide Agrees;
      CachedIffResident(cfg, lru, cachedReads, cachedBytes, entries, key);
      var i := Position(lru, key);
      RefreshAgrees(cfg, lru, cachedReads, cachedBytes, entries, i, data);
      cachedReads := cachedReads[key := data];
      lru := MoveToFront(lru, i);
      entries := [Entry(key, data)] + Drop(entries, Exact(key));
    }

    method PushFront(key: CacheKey, data: seq<byte>)
      requires Valid() && key !in cachedReads && |data| == key.size
      requires cfg.cacheCapacity != 0 ==> cachedBytes + |data| <= cfg.cacheCapacity
      modifies this`lru, this`cachedReads, this`cachedBytes, this`entries
      ensures Valid() && entries == [Entry(key, data)] + old(entries)
    {
      hide Agrees;
      PushAgrees(cfg, lru, cachedReads, cachedBytes, entries, key, data);
      lru := [key] + lru;
      cachedBytes := cachedBytes + |data|;
      cachedReads := cachedReads[key := data];
      entries := [Entry(key, data)] + entries;
    }

    method Invalidate(addr: GlobalAddr, size: nat) returns (removed: nat)
      requires Valid()
      modifies this`lru, this`cachedReads, this`cachedBytes, this`entries
      ensures Valid() && entries == Drop(old(entries), Exact(CacheKey(addr, size)))
      ensures removed == |old(entries)| - |entries|
    {
      hide Agrees;
      var key := CacheKey(addr, size);
      CachedIffResident(cfg, lru, cachedReads, cachedBytes, entries, key);
      if key !in cachedReads {
        NothingHit(cfg, lru, cachedReads, cachedBytes, entries, Exact(key));
        return 0;
      }
      Unlink(key);
      return 1;
    }

    method InvalidateRange(addr: GlobalAddr, size: nat) returns (removed: nat)
      requires Valid()
      modifies this`lru, this`cachedReads, this`cachedBytes, this`entries
      ensures Valid() && entries == Drop(old(entries), Overlapping(CacheKey(addr, size)))
      ensures removed == |old(entries)| - |entries|
    {
      hide Agrees;
      var key := CacheKey(addr, size);
      ghost var sel := Overlapping(key);
      removed := 0;
      var todo := cachedReads.Keys;
      while todo != {}
        invariant Valid()
        invariant Drop(entries, sel) == Drop(old(entries), sel)
        invariant todo <= cachedReads.Keys
        invariant forall k :: k in cachedReads && RangesOverlap(k, key) ==> k in todo
        invariant removed == |old(entries)| - |entries|
        decreases |todo|
      {
        var k :| k in todo;
        if RangesOverlap(k, key) {
          DropAbsorbs(entries, sel, k);
          Unlink(k);
          removed := removed + 1;
        }
        todo := todo - {k};
      }
      NothingHit(cfg, lru, cachedReads, cachedBytes, entries, sel);
    }

    // ------------------------------------------------------------- profiling

    method ObserveAccess(meta: BlockMeta, access: AccessType, local: bool) returns (mode: CoherenceMode)
      modifies this`accessEpoch, meta
      ensures accessEpoch == old(accessEpoch) + 1
      ensures meta.rec == Observe(cfg, old(meta.rec), accessEpoch, access, local) && mode == meta.rec.mode
    {
      accessEpoch := accessEpoch + 1;
      var epoch := accessEpoch;
      var windowId := (epoch - 1) / AtLeastOne(cfg.windowSize);
      if meta.rec.windowId != windowId {
        meta.rec := meta.rec.(windowId := windowId, windowReads := 0, windowWrites := 0, phaseChanges := 0);
      }
      assert meta.rec == Rolled(cfg, old(meta.rec), epoch);
      ObserveInStages(cfg, old(meta.rec), epoch, access, local);
      CompareWithLast(meta, epoch, access);
      CountAccess(meta, access, local);
      mode := DecideMode(meta);
    }

    /** Reuse distance and phase change, then the epoch and type of this access. */
    method CompareWithLast(meta: BlockMeta, epoch: nat, access: AccessType)
      modifies meta
      ensures meta.rec == Compared(old(meta.rec), epoch, access)
    {
      var lastEpoch := meta.rec.lastEpoch;
      if lastEpoch != 0 && lastEpoch <= epoch {
        meta.rec := meta.rec.(reuseDistance := epoch - lastEpoch);
      }
      if lastEpoch != 0 && meta.rec.lastType != access {
        meta.rec := meta.rec.(phaseChanges := meta.rec.phaseChanges + 1);
      }
      meta.rec := meta.rec.(lastEpoch := epoch, lastType := access);
    }

    method CountAccess(meta: BlockMeta, access: AccessType, local: bool)
      modifies meta
      ensures meta.rec == Tallied(old(meta.rec), access, local)
    {
      if access == ReadAccess {
        meta.rec := meta.rec.(readCount := meta.rec.readCount + 1, windowReads := meta.rec.windowReads + 1);
        if !local {
          meta.rec := meta.rec.(sharers := meta.rec.sharers + 1);
        }
      } else {
        meta.rec := meta.rec.(writeCount := meta.rec.writeCount + 1, windowWrites := meta.rec.windowWrites + 1);
        if !local {
          meta.rec := meta.rec.(invalidationCost := meta.rec.invalidationCost + 1);
        }
      }
    }

    method DecideMode(meta: BlockMeta) returns (mode: CoherenceMode)
      modifies meta
      ensures meta.rec == Decided(cfg, old(meta.rec)) && mode == meta.rec.mode
    {
      mode := Decide(cfg, meta.rec);
      if meta.rec.mode != mode {
        meta.rec := meta.rec.(switches := meta.rec.switches + 1);
      }
      meta.rec := meta.rec.(mode := mode);
    }

    // ---------------------------------------------------------- write queues

    method QueueRemoteWrite(addr: GlobalAddr, data: seq<byte>, mode: CoherenceMode, ownerBiased: bool, ownerHandoff: bool)
      returns (merged: bool)
      modifies this`writeQueues
      ensures var queue, w := Queue(old(writeQueues), addr.home), PendingWrite(addr, data, mode, ownerBiased, ownerHandoff);
              if data == [] || !cfg.enableWriteBatching then writeQueues == old(writeQueues) && !merged
              else writeQueues == old(writeQueues)[addr.home := Enqueue(queue, w)] &&
                   merged == (MergeTarget(queue, w) < |queue|)
    {
      if data == [] || !cfg.enableWriteBatching {
        return false;
      }
      var incoming := PendingWrite(addr, data, mode, ownerBiased, ownerHandoff);
      var queue := Queue(writeQueues, addr.home);
      for i := 0 to |queue|
        invariant forall k :: 0 <= k < i ==> !CanMerge(queue[k], incoming)
      {
        if CanMerge(queue[i], incoming) {
          writeQueues := writeQueues[addr.home := queue[i := Merge(queue[i], incoming)]];
          return true;
        }
      }
      writeQueues := writeQueues[addr.home := queue + [incoming]];
      return false;
    }

    method ShouldFlushDestination(node: NodeId, threshold: nat) returns (due: bool)
      ensures threshold > 0 ==> due == (|Queue(writeQueues, node)| >= threshold)
      ensures threshold == 0 ==> due == (Queue(writeQueues, node) != [])
    {
      if node !in writeQueues {
        return false;
      }
      return |writeQueues[node]| >= AtLeastOne(threshold);
    }

    method DrainRemoteWrites(node: NodeId) returns (writes: seq<PendingWrite>, totalBytes: nat)
      modifies this`writeQueues
      ensures writes == Queue(old(writeQueues), node) && writeQueues == old(writeQueues) - {node}
      ensures totalBytes == PayloadBytes(writes)
    {
      totalBytes := 0;
      if node !in writeQueues {
        return [], 0;
      }
      writes := writeQueues[node];
      for i := 0 to |writes|
        invariant totalBytes == PayloadBytes(writes[..i])
      {
        totalBytes := totalBytes + |writes[i].payload|;
        assert writes[..i + 1][..i] == writes[..i];
      }
      assert writes[..|writes|] == writes;
      writeQueues := writeQueues - {node};
    }

    method EffectiveBatchThreshold(mode: CoherenceMode) returns (t: nat)
      ensures t == BatchThreshold(cfg, mode) && t >= 1
      ensures t == Max(1, if mode.WI? then 1 else if mode.Adaptive? then cfg.adaptiveBatchThreshold else cfg.batchThreshold)
    {
      match mode
      case WI => return 1;
      case Adaptive => return AtLeastOne(cfg.adaptiveBatchThreshold);
      case SI => return AtLeastOne(cfg.batchThreshold);
    }
  }
}
