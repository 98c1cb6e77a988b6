/**
  The shadow cache as a value: the resident entries in recency order, most
  recent first. The operations are those of src/memory/cache/cache_manager.cc;
  a capacity of zero means unbounded.
 */
module LruCache {
  import opened Types

  datatype Entry = Entry(key: CacheKey, payload: seq<byte>)

  predicate RangesOverlap(a: CacheKey, b: CacheKey)
  {
    && a.addr.home == b.addr.home
    && a.addr.region == b.addr.region
    && !(a.End() <= b.addr.offset || b.End() <= a.addr.offset)
  }

  /** Which keys an invalidation removes: one exact key, or every key overlapping a range. */
  datatype Selector = Exact(key: CacheKey) | Overlapping(key: CacheKey) {
    predicate Hits(k: CacheKey) {
      match this
      case Exact(key) => k == key
      case Overlapping(key) => RangesOverlap(k, key)
    }
  }

  predicate Has(entries: seq<Entry>, key: CacheKey)
  {
    exists i :: 0 <= i < |entries| && entries[i].key == key
  }

  function PayloadOf(entries: seq<Entry>, key: CacheKey): (p: seq<byte>)
    requires Has(entries, key)
    ensures Entry(key, p) in entries
  {
    if entries[0].key == key then
      assert entries[0] == Entry(key, entries[0].payload);
      entries[0].payload
    else
      assert Has(entries[1..], key) by {
        var i :| 0 <= i < |entries| && entries[i].key == key;
        assert entries[1..][i - 1].key == key;
      }
      PayloadOf(entries[1..], key)
  }

  /** Bytes resident. */
  function Bytes(entries: seq<Entry>): nat
  {
    if entries == [] then 0 else |entries[0].payload| + Bytes(entries[1..])
  }

  /** Entries the selector does not hit, in the same order. */
  function Drop(entries: seq<Entry>, sel: Selector): (r: seq<Entry>)
    ensures |r| <= |entries|
    ensures forall e :: e in r <==> e in entries && !sel.Hits(e.key)
  {
    if entries == [] then []
    else if sel.Hits(entries[0].key) then Drop(entries[1..], sel)
    else [entries[0]] + Drop(entries[1..], sel)
  }

  /** Remove from the tail until `extra` more bytes fit. */
  function Fit(entries: seq<Entry>, capacity: nat, extra: nat): (r: seq<Entry>)
    ensures r <= entries
    ensures Bytes(r) + extra <= capacity || r == []
  {
    if entries == [] || Bytes(entries) + extra <= capacity then entries
    else Fit(entries[..|entries| - 1], capacity, extra)
  }

  function Evict(cfg: Config, entries: seq<Entry>, extra: nat): (r: seq<Entry>)
    ensures r <= entries
  {
    if cfg.cacheCapacity == 0 then entries else Fit(entries, cfg.cacheCapacity, extra)
  }

  function Touch(entries: seq<Entry>, key: CacheKey): seq<Entry>
    requires Has(entries, key)
  {
    [Entry(key, PayloadOf(entries, key))] + Drop(entries, Exact(key))
  }

  /** Whether InsertCached stores the entry at all. */
  predicate Storable(cfg: Config, size: nat)
  {
    cfg.enableCache && size != 0 && (cfg.cacheCapacity == 0 || size <= cfg.cacheCapacity)
  }

  function Insert(cfg: Config, entries: seq<Entry>, key: CacheKey, data: seq<byte>): seq<Entry>
  {
    if !Storable(cfg, key.size) then entries
    else if Has(entries, key) then Evict(cfg, [Entry(key, data)] + Drop(entries, Exact(key)), 0)
    else [Entry(key, data)] + Evict(cfg, entries, key.size)
  }

  /** Keys are unique and every payload has its key's size. */
  predicate WellFormed(entries: seq<Entry>)
  {
    && (forall i, j :: 0 <= i < j < |entries| ==> entries[i].key != entries[j].key)
    && (forall i :: 0 <= i < |entries| ==> |entries[i].payload| == entries[i].key.size)
  }

  predicate WithinCapacity(cfg: Config, entries: seq<Entry>)
  {
    cfg.cacheCapacity == 0 || Bytes(entries) <= cfg.cacheCapacity
  }

  // ---------------------------------------------------------------- lists

  lemma {:induction false} BytesConcat(a: seq<Entry>, b: seq<Entry>)
    ensures Bytes(a + b) == Bytes(a) + Bytes(b)
  {
    if a == [] {
      assert a + b == b;
    } else {
      assert (a + b)[1..] == a[1..] + b;
      BytesConcat(a[1..], b);
    }
  }

  lemma {:induction false} DropBytes(entries: seq<Entry>, sel: Selector)
    ensures Bytes(Drop(entries, sel)) <= Bytes(entries)
  {
    if entries != [] {
      DropBytes(entries[1..], sel);
    }
  }

  lemma {:induction false} DropConcat(a: seq<Entry>, b: seq<Entry>, sel: Selector)
    ensures Drop(a + b, sel) == Drop(a, sel) + Drop(b, sel)
  {
    if a == [] {
      assert a + b == b;
    } else {
      assert (a + b)[1..] == a[1..] + b;
      DropConcat(a[1..], b, sel);
    }
  }

  lemma {:induction false} DropWellFormed(entries: seq<Entry>, sel: Selector)
    requires WellFormed(entries)
    ensures WellFormed(Drop(entries, sel))
  {
    if entries != [] {
      var tail := entries[1..];
      assert forall i :: 0 <= i < |tail| ==> tail[i] == entries[i + 1];
      DropWellFormed(tail, sel);
      assert forall e :: e in tail ==> e.key != entries[0].key;
      assert forall i :: 0 <= i < |Drop(tail, sel)| ==> Drop(tail, sel)[i] in Drop(tail, sel);
    }
  }

  /** Nothing is dropped when nothing is hit. */
  lemma {:induction false} DropNothing(entries: seq<Entry>, sel: Selector)
    requires forall e :: e in entries ==> !sel.Hits(e.key)
    ensures Drop(entries, sel) == entries
  {
    if entries != [] {
      DropNothing(entries[1..], sel);
    }
  }

  /** Dropping a resident key splices out its single entry. */
  lemma DropExactSplit(entries: seq<Entry>, i: nat)
    requires WellFormed(entries) && i < |entries|
    ensures Drop(entries, Exact(entries[i].key)) == entries[..i] + entries[i + 1..]
    ensures Bytes(entries) == |entries[i].payload| + Bytes(entries[..i] + entries[i + 1..])
  {
    var sel := Exact(entries[i].key);
    var a, b := entries[..i], entries[i + 1..];
    assert entries == a + ([entries[i]] + b);
    DropConcat(a, [entries[i]] + b, sel);
    DropConcat([entries[i]], b, sel);
    DropNothing(a, sel);
    DropNothing(b, sel);
    BytesConcat(a, [entries[i]] + b);
    BytesConcat([entries[i]], b);
    BytesConcat(a, b);
  }

  lemma PayloadAt(entries: seq<Entry>, i: nat)
    requires WellFormed(entries) && i < |entries|
    ensures Has(entries, entries[i].key) && PayloadOf(entries, entries[i].key) == entries[i].payload
  {
    var key := entries[i].key;
    assert Has(entries, key);
    var e := Entry(key, PayloadOf(entries, key));
    var j :| 0 <= j < |entries| && entries[j] == e;
    assert entries[j].key == entries[i].key;
  }

  // -------------------------------------------------------------- eviction

  /**
    Eviction removes exactly the shortest tail that makes room: what stays is
    a prefix that fits, and every longer prefix does not fit.
   */
  lemma {:induction false} FitIsLongestPrefix(entries: seq<Entry>, capacity: nat, extra: nat, n: nat)
    requires n <= |entries|
    ensures Bytes(entries[..n]) + extra <= capacity ==> n <= |Fit(entries, capacity, extra)|
  {
    if Bytes(entries[..n]) + extra <= capacity && entries != [] && Bytes(entries) + extra > capacity {
      assert entries[..|entries|] == entries;
      var front := entries[..|entries| - 1];
      assert front[..n] == entries[..n];
      FitIsLongestPrefix(front, capacity, extra, n);
    }
  }

  /** A larger budget over a longer list keeps at least as much. */
  lemma FitMonotone(a: seq<Entry>, b: seq<Entry>, c: nat, d: nat, extra: nat)
    requires a <= b && c <= d
    ensures Fit(a, c, extra) <= Fit(b, d, extra)
  {
    var r := Fit(a, c, extra);
    if r != [] {
      assert b[..|r|] == r;
      FitIsLongestPrefix(b, d, extra, |r|);
    }
  }

  // ---------------------------------------------------- invariants of insert

  lemma PushFrontKeeps(e: Entry, rest: seq<Entry>)
    requires WellFormed(rest) && |e.payload| == e.key.size
    requires forall x :: x in rest ==> x.key != e.key
    ensures WellFormed([e] + rest) && Bytes([e] + rest) == |e.payload| + Bytes(rest)
  {
    assert ([e] + rest)[1..] == rest;
    assert forall k :: 0 <= k < |rest| ==> rest[k] in rest;
  }

  lemma OneEntryPerKey(entries: seq<Entry>, e: Entry)
    requires WellFormed(entries) && e in entries
    ensures Has(entries, e.key) && PayloadOf(entries, e.key) == e.payload
  {
    var i :| 0 <= i < |entries| && entries[i] == e;
    PayloadAt(entries, i);
  }

  /** A hit only reorders: the same entries stay resident. */
  lemma TouchKeeps(entries: seq<Entry>, key: CacheKey)
    requires WellFormed(entries) && Has(entries, key)
    ensures WellFormed(Touch(entries, key)) && Bytes(Touch(entries, key)) == Bytes(entries)
    ensures forall e :: e in Touch(entries, key) <==> e in entries
  {
    var i :| 0 <= i < |entries| && entries[i].key == key;
    PayloadAt(entries, i);
    DropExactSplit(entries, i);
    DropWellFormed(entries, Exact(key));
    PushFrontKeeps(Entry(key, PayloadOf(entries, key)), Drop(entries, Exact(key)));
    forall e | e in entries && e.key == key
      ensures e == Entry(key, PayloadOf(entries, key))
    {
      OneEntryPerKey(entries, e);
    }
  }

  /** A refreshed entry never evicts, because the refreshed list is no larger than before. */
  lemma RefreshNeverEvicts(cfg: Config, entries: seq<Entry>, key: CacheKey, data: seq<byte>)
    requires WellFormed(entries) && Has(entries, key) && WithinCapacity(cfg, entries) && |data| == key.size
    ensures Bytes([Entry(key, data)] + Drop(entries, Exact(key))) == Bytes(entries)
    ensures Storable(cfg, key.size) ==>
              Insert(cfg, entries, key, data) == [Entry(key, data)] + Drop(entries, Exact(key))
  {
    var i :| 0 <= i < |entries| && entries[i].key == key;
    DropExactSplit(entries, i);
    assert ([Entry(key, data)] + Drop(entries, Exact(key)))[1..] == Drop(entries, Exact(key));
  }

  /** Room is made by keeping a prefix. */
  lemma EvictKeeps(cfg: Config, entries: seq<Entry>, key: CacheKey, data: seq<byte>)
    requires WellFormed(entries) && WithinCapacity(cfg, entries) && |data| == key.size
    requires Storable(cfg, key.size) && !Has(entries, key)
    ensures var r := [Entry(key, data)] + Evict(cfg, entries, key.size);
            && WellFormed(r) && WithinCapacity(cfg, r)
            && forall e :: e in r ==> e == Entry(key, data) || (e in entries && e.key != key)
  {
    var kept := Evict(cfg, entries, key.size);
    assert forall i :: 0 <= i < |kept| ==> kept[i] == entries[i];
    PushFrontKeeps(Entry(key, data), kept);
  }

  lemma InsertKeeps(cfg: Config, entries: seq<Entry>, key: CacheKey, data: seq<byte>)
    requires WellFormed(entries) && WithinCapacity(cfg, entries) && |data| == key.size
    ensures WellFormed(Insert(cfg, entries, key, data)) && WithinCapacity(cfg, Insert(cfg, entries, key, data))
    ensures Storable(cfg, key.size) ==> |Insert(cfg, entries, key, data)| > 0 &&
                                        Insert(cfg, entries, key, data)[0] == Entry(key, data)
    ensures forall e :: e in Insert(cfg, entries, key, data) ==>
                          (e == Entry(key, data) && Storable(cfg, key.size)) ||
                          (e in entries && (Storable(cfg, key.size) ==> e.key != key))
  {
    hide Evict, Bytes, WellFormed, WithinCapacity;
    if Storable(cfg, key.size) {
      if Has(entries, key) {
        RefreshKeeps(cfg, entries, key, data);
      } else {
        EvictKeeps(cfg, entries, key, data);
      }
    }
  }

  lemma RefreshKeeps(cfg: Config, entries: seq<Entry>, key: CacheKey, data: seq<byte>)
    requires WellFormed(entries) && WithinCapacity(cfg, entries) && |data| == key.size
    requires Storable(cfg, key.size) && Has(entries, key)
    ensures var r := Insert(cfg, entries, key, data);
            && WellFormed(r) && WithinCapacity(cfg, r) && r != [] && r[0] == Entry(key, data)
            && forall e :: e in r ==> e == Entry(key, data) || (e in entries && e.key != key)
  {
    hide Evict, Bytes;
    RefreshNeverEvicts(cfg, entries, key, data);
    DropWellFormed(entries, Exact(key));
    assert forall e :: e in Drop(entries, Exact(key)) ==> e.key != key;
  }

  /** A hit moves its entry to the front and keeps the order of the others. */
  lemma TouchIs(entries: seq<Entry>, i: nat)
    requires WellFormed(entries) && i < |entries|
    ensures Has(entries, entries[i].key)
    ensures Touch(entries, entries[i].key) == [entries[i]] + entries[..i] + entries[i + 1..]
  {
    PayloadAt(entries, i);
    DropExactSplit(entries, i);
  }

  /** The entry fits the cache: caching is on, it is not empty, and the capacity, if any, holds it. */
  predicate CanHold(cfg: Config, size: nat)
  {
    cfg.enableCache && size > 0 && (cfg.cacheCapacity > 0 ==> size <= cfg.cacheCapacity)
  }

  /**
    What an insertion leaves. An entry that does not fit changes nothing. A
    resident key is refreshed in front and evicts nothing; a new one goes in front
    of the longest run of most recent entries that fits with it.
   */
  lemma InsertIs(cfg: Config, entries: seq<Entry>, key: CacheKey, data: seq<byte>) returns (n: nat)
    requires WellFormed(entries) && WithinCapacity(cfg, entries) && |data| == key.size
    ensures n <= |entries|
    ensures !CanHold(cfg, key.size) ==> Insert(cfg, entries, key, data) == entries
    ensures CanHold(cfg, key.size) && Has(entries, key) ==>
              n < |entries| && entries[n].key == key &&
              Insert(cfg, entries, key, data) == [Entry(key, data)] + entries[..n] + entries[n + 1..]
    ensures CanHold(cfg, key.size) && !Has(entries, key) ==>
              && Insert(cfg, entries, key, data) == [Entry(key, data)] + entries[..n]
              && (if cfg.cacheCapacity == 0 then n == |entries|
                  else && Bytes(entries[..n]) + key.size <= cfg.cacheCapacity
                       && forall k :: n < k <= |entries| ==> Bytes(entries[..k]) + key.size > cfg.cacheCapacity)
  {
    hide WellFormed, WithinCapacity, Bytes, Fit, Drop;
    n := 0;
    if CanHold(cfg, key.size) {
      if Has(entries, key) {
        n :| n < |entries| && entries[n].key == key;
        RefreshNeverEvicts(cfg, entries, key, data);
        DropExactSplit(entries, n);
      } else if cfg.cacheCapacity == 0 {
        n := |entries|;
        assert entries[..n] == entries;
      } else {
        n := FitSplits(entries, cfg.cacheCapacity, key.size);
      }
    }
  }

  /** Eviction keeps a prefix, and no longer one fits. */
  lemma FitSplits(entries: seq<Entry>, capacity: nat, extra: nat) returns (n: nat)
    requires extra <= capacity
    ensures n <= |entries| && Fit(entries, capacity, extra) == entries[..n] && Bytes(entries[..n]) + extra <= capacity
    ensures forall k :: n < k <= |entries| ==> Bytes(entries[..k]) + extra > capacity
  {
    hide Bytes;
    n := |Fit(entries, capacity, extra)|;
    assert entries[..n] == Fit(entries, capacity, extra);
    NoBytes();
    forall k | n < k <= |entries|
      ensures Bytes(entries[..k]) + extra > capacity
    {
      FitIsLongestPrefix(entries, capacity, extra, k);
    }
  }

  lemma NoBytes()
    ensures Bytes([]) == 0
  {
  }

  lemma DropKeeps(cfg: Config, entries: seq<Entry>, sel: Selector)
    requires WellFormed(entries) && WithinCapacity(cfg, entries)
    ensures WellFormed(Drop(entries, sel)) && WithinCapacity(cfg, Drop(entries, sel))
  {
    DropWellFormed(entries, sel);
    DropBytes(entries, sel);
  }

  // ------------------------------------------------ the inclusion property

  datatype CacheOp = InsertOp(key: CacheKey, data: seq<byte>) | DropOp(sel: Selector)

  function Apply(cfg: Config, entries: seq<Entry>, op: CacheOp): seq<Entry>
  {
    match op
    case InsertOp(key, data) => Insert(cfg, entries, key, data)
    case DropOp(sel) => Drop(entries, sel)
  }

  function Run(cfg: Config, ops: seq<CacheOp>): seq<Entry>
  {
    if ops == [] then [] else Apply(cfg, Run(cfg, ops[..|ops| - 1]), ops[|ops| - 1])
  }

  predicate CapacityAtMost(small: Config, large: Config)
  {
    && small.enableCache == large.enableCache
    && (large.cacheCapacity == 0 || (small.cacheCapacity != 0 && small.cacheCapacity <= large.cacheCapacity))
  }

  /** Every inserted payload has its key's size and fits the given capacity. */
  predicate OpFits(cfg: Config, op: CacheOp)
  {
    op.InsertOp? ==> |op.data| == op.key.size && (cfg.cacheCapacity == 0 || op.key.size <= cfg.cacheCapacity)
  }

  lemma {:induction false} DropPrefix(a: seq<Entry>, b: seq<Entry>, sel: Selector)
    requires a <= b
    ensures Drop(a, sel) <= Drop(b, sel)
  {
    assert b == a + b[|a|..];
    DropConcat(a, b[|a|..], sel);
  }

  lemma EvictPrefix(small: Config, large: Config, a: seq<Entry>, b: seq<Entry>, extra: nat)
    requires CapacityAtMost(small, large) && a <= b
    ensures Evict(small, a, extra) <= Evict(large, b, extra)
  {
    if large.cacheCapacity != 0 {
      FitMonotone(a, b, small.cacheCapacity, large.cacheCapacity, extra);
    }
  }

  lemma HasPrefix(a: seq<Entry>, b: seq<Entry>, key: CacheKey)
    requires a <= b && Has(a, key)
    ensures Has(b, key)
  {
    var i :| 0 <= i < |a| && a[i].key == key;
    assert b[i].key == key;
  }

  lemma InsertPrefix(small: Config, large: Config, a: seq<Entry>, b: seq<Entry>, op: CacheOp)
    requires CapacityAtMost(small, large) && OpFits(small, op) && op.InsertOp?
    requires WellFormed(a) && WellFormed(b) && WithinCapacity(small, a) && WithinCapacity(large, b)
    requires a <= b
    ensures Apply(small, a, op) <= Apply(large, b, op)
  {
    var key, sel := op.key, Exact(op.key);
    if Storable(small, key.size) {
      if Has(a, key) {
        HasPrefix(a, b, key);
        RefreshNeverEvicts(small, a, key, op.data);
        RefreshNeverEvicts(large, b, key, op.data);
        DropPrefix(a, b, sel);
      } else if Has(b, key) {
        RefreshNeverEvicts(large, b, key, op.data);
        DropNothing(a, sel);
        DropPrefix(a, b, sel);
      } else {
        EvictPrefix(small, large, a, b, key.size);
      }
    }
  }

  lemma {:induction false} RunKeeps(cfg: Config, ops: seq<CacheOp>)
    requires forall k :: 0 <= k < |ops| ==> ops[k].InsertOp? ==> |ops[k].data| == ops[k].key.size
    ensures WellFormed(Run(cfg, ops)) && WithinCapacity(cfg, Run(cfg, ops))
  {
    if ops != [] {
      var before, op := ops[..|ops| - 1], ops[|ops| - 1];
      RunKeeps(cfg, before);
      match op
      case InsertOp(key, data) => InsertKeeps(cfg, Run(cfg, before), key, data);
      case DropOp(sel) => DropKeeps(cfg, Run(cfg, before), sel);
    }
  }

  /**
    LRU inclusion: after any trace of insertions and invalidations whose
    payloads fit the smaller capacity, the smaller cache's recency list is a
    prefix of the larger cache's, payloads included.
   */
  lemma {:induction false} Inclusion(small: Config, large: Config, ops: seq<CacheOp>)
    requires CapacityAtMost(small, large)
    requires forall k :: 0 <= k < |ops| ==> OpFits(small, ops[k])
    ensures Run(small, ops) <= Run(large, ops)
  {
    if ops != [] {
      var before, op := ops[..|ops| - 1], ops[|ops| - 1];
      Inclusion(small, large, before);
      RunKeeps(small, before);
      RunKeeps(large, before);
      match op
      case InsertOp(key, data) => InsertPrefix(small, large, Run(small, before), Run(large, before), op);
      case DropOp(sel) => DropPrefix(Run(small, before), Run(large, before), sel);
    }
  }

  // ---------------------------------------------------------------- lookups

  /** The resident entry contains the whole requested range. */
  predicate Serves(k: CacheKey, key: CacheKey)
  {
    k.addr.home == key.addr.home && k.addr.region == key.addr.region &&
    k.addr.offset <= key.addr.offset && key.End() <= k.End()
  }

  ghost function Servers(entries: seq<Entry>, key: CacheKey): set<CacheKey>
  {
    set e | e in entries && Serves(e.key, key) :: e.key
  }

  datatype CacheReply = CacheReply(entries: seq<Entry>, hit: bool, bytes: seq<byte>)

  function Part(p: seq<byte>, k: CacheKey, key: CacheKey): seq<byte>
    requires Serves(k, key)
  {
    var begin := key.addr.offset - k.addr.offset;
    if begin + key.size <= |p| then p[begin..begin + key.size] else []
  }

  /** The exact key if resident, otherwise any entry that contains the range. */
  ghost function ReadCached(entries: seq<Entry>, key: CacheKey, schedule: seq<CacheKey>): CacheReply
  {
    if Has(entries, key) then CacheReply(Touch(entries, key), true, Part(PayloadOf(entries, key), key, key))
    else if Servers(entries, key) == {} then CacheReply(entries, false, [])
    else
      var k := Pick(Servers(entries, key), schedule);
      ServerIsResident(entries, key, k);
      CacheReply(Touch(entries, k), true, Part(PayloadOf(entries, k), k, key))
  }

  /** Whether a lookup hits does not depend on the order the table is walked. */
  lemma HitIsStable(entries: seq<Entry>, key: CacheKey, a: seq<CacheKey>, b: seq<CacheKey>)
    ensures ReadCached(entries, key, a).hit == ReadCached(entries, key, b).hit
  {
  }

  lemma ServerIsResident(entries: seq<Entry>, key: CacheKey, k: CacheKey)
    requires k in Servers(entries, key)
    ensures Has(entries, k) && Serves(k, key)
  {
    var e :| e in entries && Serves(e.key, key) && e.key == k;
    var i :| 0 <= i < |entries| && entries[i] == e;
  }

  /** The key a lookup is served from, if any. */
  ghost function Served(entries: seq<Entry>, key: CacheKey, schedule: seq<CacheKey>): Option<CacheKey>
  {
    if Has(entries, key) then Some(key)
    else if Servers(entries, key) == {} then None
    else Some(Pick(Servers(entries, key), schedule))
  }

  /** A lookup touches the entry it is served from and changes nothing on a miss. */
  lemma LookupTouches(entries: seq<Entry>, key: CacheKey, schedule: seq<CacheKey>)
    ensures var k := Served(entries, key, schedule); var after := ReadCached(entries, key, schedule).entries;
            if k.None? then after == entries else Has(entries, k.value) && Serves(k.value, key) && after == Touch(entries, k.value)
  {
    hide Touch;
    if !Has(entries, key) && Servers(entries, key) != {} {
      ServerIsResident(entries, key, Served(entries, key, schedule).value);
    }
  }

  lemma ServedByPrefix(a: seq<Entry>, key: CacheKey, k: CacheKey, schedule: seq<CacheKey>)
    requires Has(a, k) && Serves(k, key)
    ensures Served(a, key, schedule).Some?
  {
    var i :| 0 <= i < |a| && a[i].key == k;
    assert a[i] in a && k in Servers(a, key);
  }

  /** Touching keeps the prefix iff it is the same entry that is touched. */
  lemma TouchPrefix(a: seq<Entry>, b: seq<Entry>, k: CacheKey, l: CacheKey)
    requires WellFormed(a) && WellFormed(b) && a <= b && Has(a, k) && Has(b, l)
    ensures Touch(a, k) <= Touch(b, l) <==> k == l
  {
    assert Touch(a, k)[0].key == k && Touch(b, l)[0].key == l;
    if k == l {
      DropPrefix(a, b, Exact(k));
      var i :| 0 <= i < |a| && a[i].key == k;
      PayloadAt(a, i);
      PayloadAt(b, i);
    }
  }

  /**
    Lookups are outside the inclusion property. Whatever entries the two caches
    happen to serve a range from, a lookup keeps the smaller list a prefix of
    the larger iff both serve the same key, both miss, or the smaller is empty.
   */
  lemma LookupInclusion(a: seq<Entry>, b: seq<Entry>, key: CacheKey, inA: seq<CacheKey>, inB: seq<CacheKey>)
    requires WellFormed(a) && WellFormed(b) && a <= b
    ensures ReadCached(a, key, inA).entries <= ReadCached(b, key, inB).entries <==>
            Served(a, key, inA) == Served(b, key, inB) || a == []
  {
    hide Touch, ReadCached, Served;
    var x, y := Served(a, key, inA), Served(b, key, inB);
    LookupTouches(a, key, inA);
    LookupTouches(b, key, inB);
    if x.Some? {
      HasPrefix(a, b, x.value);
      ServedByPrefix(b, key, x.value, inB);
      TouchPrefix(a, b, x.value, y.value);
    } else if y.Some? && a != [] {
      if Has(a, y.value) {
        ServedByPrefix(a, key, y.value, inA);
      }
      TouchedFirst(a, b, y.value);
    }
  }

  lemma TouchedFirst(a: seq<Entry>, b: seq<Entry>, k: CacheKey)
    requires a != [] && !Has(a, k) && Has(b, k)
    ensures !(a <= Touch(b, k))
  {
    assert Touch(b, k)[0].key == k && a[0].key != k;
  }
}
