/**
  The per-destination queue of pending remote writes
  (src/memory/cache/cache_manager.cc). A queue means the bytes that replaying
  it, front to back, leaves in home memory. An incoming write is merged into
  the first queued entry it touches, so it can be replayed before entries that
  are older than it; this module says exactly when that is harmless.
 */
module WriteCombining {
  import opened Types

  datatype PendingWrite = PendingWrite(addr: GlobalAddr, payload: seq<byte>, mode: CoherenceMode,
                                       ownerBiased: bool, ownerHandoff: bool)
  {
    function End(): nat {
      addr.offset + |payload|
    }

    function Key(): CacheKey {
      CacheKey(addr, |payload|)
    }

    predicate Covers(node: NodeId, i: int) {
      addr.home == node && addr.offset <= i < End()
    }

    function At(i: int): byte
      requires addr.offset <= i < End()
    {
      payload[i - addr.offset]
    }
  }

  /** The byte at (node, i) after `writes` are replayed in order over `base`. */
  function ByteAfter(writes: seq<PendingWrite>, node: NodeId, i: int, base: byte): byte
  {
    if writes == [] then base
    else
      var last := writes[|writes| - 1];
      if last.Covers(node, i) then last.At(i) else ByteAfter(writes[..|writes| - 1], node, i, base)
  }

  predicate CanMerge(current: PendingWrite, incoming: PendingWrite)
  {
    && current.addr.home == incoming.addr.home
    && current.addr.region == incoming.addr.region
    && (|| !(incoming.End() < current.addr.offset || current.End() < incoming.addr.offset)
        || current.End() == incoming.addr.offset
        || incoming.End() == current.addr.offset)
  }

  /** The hull of both writes, zero-filled, then the older payload, then the newer one. */
  function Merge(current: PendingWrite, incoming: PendingWrite): (m: PendingWrite)
    ensures m.addr.home == current.addr.home && m.addr.region == current.addr.region
    ensures m.addr.offset == Min(current.addr.offset, incoming.addr.offset)
    ensures m.End() == Max(current.End(), incoming.End())
  {
    var begin := Min(current.addr.offset, incoming.addr.offset);
    var end := Max(current.End(), incoming.End());
    var filled := WriteAt(Zeros(end - begin), current.addr.offset - begin, current.payload);
    PendingWrite(current.addr.(offset := begin),
                 WriteAt(filled, incoming.addr.offset - begin, incoming.payload),
                 if incoming.mode.Code() < current.mode.Code() then incoming.mode else current.mode,
                 current.ownerBiased || incoming.ownerBiased,
                 current.ownerHandoff || incoming.ownerHandoff)
  }

  /**
    Merging touching writes covers exactly the union of their footprints, and
    every byte is the newer write's where it reaches and the older one's
    elsewhere: no byte of the zero fill survives.
   */
  lemma MergeIsUnion(current: PendingWrite, incoming: PendingWrite, node: NodeId, i: int)
    requires CanMerge(current, incoming)
    ensures Merge(current, incoming).Covers(node, i) <==> current.Covers(node, i) || incoming.Covers(node, i)
    ensures incoming.Covers(node, i) ==> Merge(current, incoming).At(i) == incoming.At(i)
    ensures current.Covers(node, i) && !incoming.Covers(node, i) ==>
              Merge(current, incoming).At(i) == current.At(i)
  {
    var m := Merge(current, incoming);
    if m.Covers(node, i) {
      assert m.At(i) == m.payload[i - m.addr.offset];
    }
  }

  /** The first queued entry the incoming write touches, or |queue|. */
  function MergeTarget(queue: seq<PendingWrite>, incoming: PendingWrite): (t: nat)
    ensures t <= |queue|
    ensures t < |queue| ==> CanMerge(queue[t], incoming)
    ensures forall k :: 0 <= k < t ==> !CanMerge(queue[k], incoming)
  {
    if queue == [] then 0
    else if CanMerge(queue[0], incoming) then 0
    else
      var t := MergeTarget(queue[1..], incoming);
      assert forall k :: 0 < k < 1 + t ==> queue[k] == queue[1..][k - 1];
      1 + t
  }

  function Enqueue(queue: seq<PendingWrite>, incoming: PendingWrite): seq<PendingWrite>
  {
    var t := MergeTarget(queue, incoming);
    if t < |queue| then queue[t := Merge(queue[t], incoming)] else queue + [incoming]
  }

  predicate CoveredAfter(queue: seq<PendingWrite>, t: nat, node: NodeId, i: int)
  {
    exists k :: t < k < |queue| && queue[k].Covers(node, i)
  }

  /**
    What one QueueRemoteWrite does to every byte: the incoming write takes
    effect except where an entry after the merge target also writes that byte;
    there the older entry still wins.
   */
  lemma EnqueueByte(queue: seq<PendingWrite>, incoming: PendingWrite, node: NodeId, i: int, base: byte)
    ensures ByteAfter(Enqueue(queue, incoming), node, i, base) ==
            if CoveredAfter(queue, MergeTarget(queue, incoming), node, i)
            then ByteAfter(queue, node, i, base)
            else ByteAfter(queue + [incoming], node, i, base)
  {
    var t := MergeTarget(queue, incoming);
    assert (queue + [incoming])[..|queue|] == queue;
    if t < |queue| {
      ReplaceByte(queue, t, incoming, node, i, base);
    }
  }

  lemma {:induction false} ReplaceByte(queue: seq<PendingWrite>, t: nat, incoming: PendingWrite,
                                       node: NodeId, i: int, base: byte)
    requires t < |queue| && CanMerge(queue[t], incoming)
    ensures ByteAfter(queue[t := Merge(queue[t], incoming)], node, i, base) ==
            if CoveredAfter(queue, t, node, i) then ByteAfter(queue, node, i, base)
            else if incoming.Covers(node, i) then incoming.At(i)
            else ByteAfter(queue, node, i, base)
  {
    var n := |queue| - 1;
    var merged := queue[t := Merge(queue[t], incoming)];
    if t == n {
      MergeIsUnion(queue[t], incoming, node, i);
      assert merged[..n] == queue[..n];
    } else {
      assert merged[n] == queue[n];
      if queue[n].Covers(node, i) {
        assert CoveredAfter(queue, t, node, i);
      } else {
        ReplaceByte(queue[..n], t, incoming, node, i, base);
        assert merged[..n] == queue[..n][t := Merge(queue[..n][t], incoming)];
        assert CoveredAfter(queue[..n], t, node, i) <==> CoveredAfter(queue, t, node, i) by {
          if k :| t < k < |queue| && queue[k].Covers(node, i) {
            assert queue[..n][k].Covers(node, i);
          }
          if k :| t < k < n && queue[..n][k].Covers(node, i) {
            assert queue[k].Covers(node, i);
          }
        }
      }
    }
  }

  /** Queueing `incoming` means the same as replaying it after everything queued. */
  ghost predicate PreservesMeaning(queue: seq<PendingWrite>, incoming: PendingWrite)
  {
    forall node: NodeId, i: int, base: byte ::
      ByteAfter(Enqueue(queue, incoming), node, i, base) == ByteAfter(queue + [incoming], node, i, base)
  }

  predicate Overlaps(a: PendingWrite, b: PendingWrite)
  {
    a.addr.home == b.addr.home && a.addr.offset < b.End() && b.addr.offset < a.End() && a.payload != [] && b.payload != []
  }

  /** No entry after the merge target shares a byte with the incoming write. */
  predicate NoLaterOverlap(queue: seq<PendingWrite>, incoming: PendingWrite)
  {
    forall k :: MergeTarget(queue, incoming) < k < |queue| ==> !Overlaps(queue[k], incoming)
  }

  lemma OverlapMeans(a: PendingWrite, b: PendingWrite)
    ensures Overlaps(a, b) <==> exists i :: a.Covers(b.addr.home, i) && b.Covers(b.addr.home, i)
  {
    if Overlaps(a, b) {
      var i := Max(a.addr.offset, b.addr.offset);
      assert a.Covers(b.addr.home, i) && b.Covers(b.addr.home, i);
    }
  }

  /** Merge-step theorem: one queueing step keeps the replayed meaning. */
  lemma MergeStepPreserves(queue: seq<PendingWrite>, incoming: PendingWrite)
    requires NoLaterOverlap(queue, incoming)
    ensures PreservesMeaning(queue, incoming)
  {
    var t := MergeTarget(queue, incoming);
    forall node: NodeId, i: int, base: byte
      ensures ByteAfter(Enqueue(queue, incoming), node, i, base) == ByteAfter(queue + [incoming], node, i, base)
    {
      EnqueueByte(queue, incoming, node, i, base);
      assert (queue + [incoming])[..|queue|] == queue;
      assert forall k :: t < k < |queue| && incoming.Covers(node, i) ==>
          !Overlaps(queue[k], incoming) && !queue[k].Covers(node, i);
    }
  }

  /** Where a later entry also writes a byte of `incoming`, the queue already leaves that very byte. */
  ghost predicate LaterEntriesAgree(queue: seq<PendingWrite>, incoming: PendingWrite)
  {
    forall i: int, base: byte ::
      incoming.Covers(incoming.addr.home, i) &&
      CoveredAfter(queue, MergeTarget(queue, incoming), incoming.addr.home, i) ==>
        ByteAfter(queue, incoming.addr.home, i, base) == incoming.At(i)
  }

  /** The exact condition on one write: queueing it keeps the meaning iff the later entries agree with it. */
  lemma MergeStepExact(queue: seq<PendingWrite>, incoming: PendingWrite)
    ensures PreservesMeaning(queue, incoming) <==> LaterEntriesAgree(queue, incoming)
  {
    forall node: NodeId, i: int, base: byte
      ensures ByteAfter(Enqueue(queue, incoming), node, i, base) == ByteAfter(queue + [incoming], node, i, base) <==>
              (incoming.Covers(node, i) && CoveredAfter(queue, MergeTarget(queue, incoming), node, i) ==>
                 ByteAfter(queue, node, i, base) == incoming.At(i))
    {
      EnqueueByte(queue, incoming, node, i, base);
      assert (queue + [incoming])[..|queue|] == queue;
    }
  }

  /**
    Tightness, for every queue and every footprint: all payloads of this
    footprint can be queued safely iff no entry after the merge target
    overlaps the footprint.
   */
  lemma MergeStepTight(queue: seq<PendingWrite>, incoming: PendingWrite)
    ensures NoLaterOverlap(queue, incoming) <==>
            forall payload: seq<byte> :: |payload| == |incoming.payload| ==>
              PreservesMeaning(queue, incoming.(payload := payload))
  {
    var t := MergeTarget(queue, incoming);
    if NoLaterOverlap(queue, incoming) {
      forall payload: seq<byte> | |payload| == |incoming.payload|
        ensures PreservesMeaning(queue, incoming.(payload := payload))
      {
        SameFootprint(queue, incoming, incoming.(payload := payload));
        MergeStepPreserves(queue, incoming.(payload := payload));
      }
    } else {
      var k :| t < k < |queue| && Overlaps(queue[k], incoming);
      OverlapMeans(queue[k], incoming);
      var home := incoming.addr.home;
      var i :| queue[k].Covers(home, i) && incoming.Covers(home, i);
      var was := ByteAfter(queue, home, i, 0);
      var other: byte := if was == 0 then 1 else 0;
      var payload := seq(|incoming.payload|, _ => other);
      var w := incoming.(payload := payload);
      SameFootprint(queue, incoming, w);
      assert CoveredAfter(queue, t, home, i);
      assert w.Covers(home, i) && w.At(i) == other;
      MergeStepExact(queue, w);
      assert ByteAfter(queue, home, i, 0) != w.At(i);
    }
  }

  lemma {:induction false} SameFootprint(queue: seq<PendingWrite>, a: PendingWrite, b: PendingWrite)
    requires a.addr == b.addr && |a.payload| == |b.payload|
    ensures MergeTarget(queue, a) == MergeTarget(queue, b)
    ensures NoLaterOverlap(queue, a) <==> NoLaterOverlap(queue, b)
  {
    if queue != [] && !CanMerge(queue[0], a) {
      SameFootprint(queue[1..], a, b);
    }
    assert forall k :: 0 <= k < |queue| ==> (Overlaps(queue[k], a) <==> Overlaps(queue[k], b));
  }

  /** The two entries apart from each other by at least one byte, or at different homes. */
  predicate Apart(a: CacheKey, b: CacheKey)
  {
    a.addr.home != b.addr.home || a.End() < b.addr.offset || b.End() < a.addr.offset
  }

  predicate Separated(queue: seq<PendingWrite>)
  {
    forall j, k :: 0 <= j < k < |queue| ==> Apart(queue[j].Key(), queue[k].Key())
  }

  lemma ApartFromBoth(other: PendingWrite, current: PendingWrite, incoming: PendingWrite)
    requires CanMerge(current, incoming)
    requires Apart(other.Key(), current.Key()) || Apart(current.Key(), other.Key())
    requires Apart(other.Key(), incoming.Key())
    ensures var merged := Merge(current, incoming);
            Apart(other.Key(), merged.Key()) && Apart(merged.Key(), other.Key())
  {
  }

  /** A separated queue stays separated when the write touches at most one of its entries. */
  lemma SeparatedStays(queue: seq<PendingWrite>, incoming: PendingWrite)
    requires Separated(queue)
    requires forall k :: 0 <= k < |queue| && k != MergeTarget(queue, incoming) ==>
                           Apart(queue[k].Key(), incoming.Key())
    ensures Separated(Enqueue(queue, incoming))
    ensures NoLaterOverlap(queue, incoming)
  {
    var t := MergeTarget(queue, incoming);
    if t < |queue| {
      var merged := Merge(queue[t], incoming);
      forall k | 0 <= k < |queue| && k != t
        ensures Apart(queue[k].Key(), merged.Key()) && Apart(merged.Key(), queue[k].Key())
      {
        ApartFromBoth(queue[k], queue[t], incoming);
      }
    }
  }

  /** A queue of at most one entry never has a later entry to overlap. */
  lemma ShortQueueIsSafe(queue: seq<PendingWrite>, incoming: PendingWrite)
    requires |queue| <= 1
    ensures PreservesMeaning(queue, incoming)
  {
    MergeStepPreserves(queue, incoming);
  }

  /**
    Two entries [0,8) and [16,24), then a write [4,20): it is merged into the
    first entry, and replay then restores the second entry's old bytes.
   */
  lemma MergeReordersWitness() returns (queue: seq<PendingWrite>, incoming: PendingWrite)
    ensures |queue| == 2 && Separated(queue)
    ensures queue[0].addr == GlobalAddr(1, 0, 0) && queue[0].End() == 8
    ensures queue[1].addr == GlobalAddr(1, 0, 16) && queue[1].End() == 24
    ensures incoming.addr == GlobalAddr(1, 0, 4) && incoming.End() == 20
    ensures ByteAfter(Enqueue(queue, incoming), 1, 16, 0) != ByteAfter(queue + [incoming], 1, 16, 0)
  {
    var a := PendingWrite(GlobalAddr(1, 0, 0), Zeros(8), SI, false, false);
    var b := PendingWrite(GlobalAddr(1, 0, 16), Zeros(8), SI, false, false);
    incoming := PendingWrite(GlobalAddr(1, 0, 4), seq(16, _ => 3), SI, false, false);
    queue := [a, b];
    assert queue[1].Covers(1, 16) && CoveredAfter(queue, MergeTarget(queue, incoming), 1, 16);
    EnqueueByte(queue, incoming, 1, 16, 0);
    LastCovers(queue, 1, 16);
    LastCovers(queue + [incoming], 1, 16);
  }

  function EnqueueAll(writes: seq<PendingWrite>): seq<PendingWrite>
  {
    if writes == [] then [] else Enqueue(EnqueueAll(writes[..|writes| - 1]), writes[|writes| - 1])
  }

  predicate SameOrDisjoint(writes: seq<PendingWrite>)
  {
    forall j, k :: 0 <= j < k < |writes| ==> writes[j].Key() == writes[k].Key() || !Overlaps(writes[j], writes[k])
  }

  /** A one-byte write at home 1. */
  function OneByte(offset: nat, b: byte): PendingWrite
  {
    PendingWrite(GlobalAddr(1, 0, offset), [b], SI, false, false)
  }

  lemma EnqueueInto(queue: seq<PendingWrite>, w: PendingWrite, t: nat)
    requires t <= |queue| && (forall k :: 0 <= k < t ==> !CanMerge(queue[k], w))
    requires t < |queue| ==> CanMerge(queue[t], w)
    ensures Enqueue(queue, w) == if t < |queue| then queue[t := Merge(queue[t], w)] else queue + [w]
  {
    hide Merge, CanMerge;
  }

  lemma ThreeWritesLeaveTwo(a: PendingWrite, b: PendingWrite, c: PendingWrite)
    requires a == OneByte(0, 7) && b == OneByte(2, 7) && c == OneByte(1, 7)
    ensures EnqueueAll([a, b]) == [a, b] && EnqueueAll([a, b, c]) == [Merge(a, c), b]
  {
    hide Merge, Enqueue;
    EnqueueInto([], a, 0);
    EnqueueInto([a], b, 1);
    EnqueueInto([a, b], c, 0);
    EnqueueLast([], a);
    EnqueueLast([a], b);
    EnqueueLast([a, b], c);
    assert [] + [a] == [a] && [a] + [b] == [a, b] && [a, b] + [c] == [a, b, c];
    assert [a, b][0 := Merge(a, c)] == [Merge(a, c), b];
  }

  lemma EnqueueLast(writes: seq<PendingWrite>, w: PendingWrite)
    ensures EnqueueAll(writes + [w]) == Enqueue(EnqueueAll(writes), w)
  {
    hide Enqueue;
    assert (writes + [w])[..|writes|] == writes;
  }

  lemma FourWritesLeaveTwo(a: PendingWrite, b: PendingWrite, c: PendingWrite, d: PendingWrite)
    requires a == OneByte(0, 7) && b == OneByte(2, 7) && c == OneByte(1, 7) && d == OneByte(2, 8)
    ensures EnqueueAll([a, b, c, d]) == [Merge(Merge(a, c), d), b]
  {
    hide Merge, Enqueue, EnqueueAll;
    var m := Merge(a, c);
    ThreeWritesLeaveTwo(a, b, c);
    EnqueueLast([a, b, c], d);
    assert [a, b, c] + [d] == [a, b, c, d];
    EnqueueInto([m, b], d, 0);
    assert [m, b][0 := Merge(m, d)] == [Merge(m, d), b];
  }

  lemma LastCovers(writes: seq<PendingWrite>, node: NodeId, i: int)
    requires writes != [] && writes[|writes| - 1].Covers(node, i)
    ensures ByteAfter(writes, node, i, 0) == writes[|writes| - 1].At(i)
  {
  }

  /**
    With three or more entries allowed, even writes that are pairwise equal or
    disjoint can be reordered: bytes 0, 2, 1 and then 2 again. The third write
    makes the first entry touch byte 2, so the last write joins it and replay
    then restores the old byte 2.
   */
  lemma AdjacentRewriteWitness() returns (writes: seq<PendingWrite>)
    ensures SameOrDisjoint(writes) && |EnqueueAll(writes)| == 2
    ensures ByteAfter(EnqueueAll(writes), 1, 2, 0) != ByteAfter(writes, 1, 2, 0)
  {
    var a, b, c, d := OneByte(0, 7), OneByte(2, 7), OneByte(1, 7), OneByte(2, 8);
    writes := [a, b, c, d];
    FourWritesLeaveTwo(a, b, c, d);
    LastCovers(writes, 1, 2);
    LastCovers([Merge(Merge(a, c), d), b], 1, 2);
    DisjointBytes(a, b, c, d);
  }

  lemma DisjointBytes(a: PendingWrite, b: PendingWrite, c: PendingWrite, d: PendingWrite)
    requires a.Key() != b.Key() && a.Key() != c.Key() && b.Key() != c.Key() && d.Key() == b.Key()
    requires |a.payload| == |b.payload| == |c.payload| == 1
    requires a.addr.(offset := 0) == b.addr.(offset := 0) == c.addr.(offset := 0)
    ensures SameOrDisjoint([a, b, c, d])
  {
  }

  // -------------------------------------------------- what an entry was merged from

  /** Write i went into entry k. */
  predicate WentInto(into: seq<nat>, i: int, k: int)
  {
    0 <= i < |into| && into[i] == k
  }

  /** Write i is the last of entry k that covers the byte. */
  ghost predicate Latest(writes: seq<PendingWrite>, into: seq<nat>, k: nat, node: NodeId, b: int, i: int)
    requires |into| == |writes|
  {
    && WentInto(into, i, k) && writes[i].Covers(node, b)
    && forall j :: i < j < |writes| && WentInto(into, j, k) ==> !writes[j].Covers(node, b)
  }

  /** The entry is owner-biased or handed off iff one of its writes is, and its mode is the least of theirs. */
  ghost predicate FlagsOfMerge(e: PendingWrite, writes: seq<PendingWrite>, into: seq<nat>, k: nat)
    requires |into| == |writes|
  {
    && (e.ownerBiased <==> exists i :: WentInto(into, i, k) && writes[i].ownerBiased)
    && (e.ownerHandoff <==> exists i :: WentInto(into, i, k) && writes[i].ownerHandoff)
    && (forall i :: WentInto(into, i, k) ==> e.mode.Code() <= writes[i].mode.Code())
    && (exists i :: WentInto(into, i, k) && writes[i].mode == e.mode)
  }

  /** The entry covers what one of its writes covers, and each byte is that of the latest one. */
  ghost predicate BytesOfMerge(e: PendingWrite, writes: seq<PendingWrite>, into: seq<nat>, k: nat)
    requires |into| == |writes|
  {
    && (forall node: NodeId, b: int :: e.Covers(node, b) <==> exists i :: WentInto(into, i, k) && writes[i].Covers(node, b))
    && (forall node: NodeId, b: int, i :: Latest(writes, into, k, node, b, i) ==>
          e.Covers(node, b) && e.At(b) == writes[i].At(b))
  }

  ghost predicate MergeOf(e: PendingWrite, writes: seq<PendingWrite>, into: seq<nat>, k: nat)
    requires |into| == |writes|
  {
    FlagsOfMerge(e, writes, into, k) && BytesOfMerge(e, writes, into, k)
  }

  /** Which writes went into entry k, once one more write went into entry t. */
  lemma WentMore(into: seq<nat>, t: nat)
    ensures forall i, k :: WentInto(into + [t], i, k) <==> WentInto(into, i, k) || (i == |into| && k == t)
  {
  }

  lemma MergeOfOne(writes: seq<PendingWrite>, into: seq<nat>, w: PendingWrite, t: nat)
    requires |into| == |writes| && forall i :: !WentInto(into, i, t)
    ensures MergeOf(w, writes + [w], into + [t], t)
  {
    var all, n := writes + [w], |writes|;
    WentMore(into, t);
    assert all[n] == w && WentInto(into + [t], n, t);
    assert forall i :: WentInto(into + [t], i, t) ==> i == n;
  }

  lemma MergeOfKept(e: PendingWrite, writes: seq<PendingWrite>, into: seq<nat>, k: nat, w: PendingWrite, t: nat)
    requires |into| == |writes| && MergeOf(e, writes, into, k) && k != t
    ensures MergeOf(e, writes + [w], into + [t], k)
  {
    var all, more := writes + [w], into + [t];
    WentMore(into, t);
    assert forall i :: WentInto(into, i, k) ==> all[i] == writes[i];
    forall node: NodeId, b: int, i | Latest(all, more, k, node, b, i)
      ensures e.Covers(node, b) && e.At(b) == all[i].At(b)
    {
      assert Latest(writes, into, k, node, b, i);
    }
  }

  lemma MergeKeepsFlags(e: PendingWrite, writes: seq<PendingWrite>, into: seq<nat>, t: nat, w: PendingWrite)
    requires |into| == |writes| && FlagsOfMerge(e, writes, into, t)
    ensures FlagsOfMerge(Merge(e, w), writes + [w], into + [t], t)
  {
    hide WriteAt;
    var all, n, more := writes + [w], |writes|, into + [t];
    WentMore(into, t);
    assert all[n] == w && WentInto(more, n, t);
    WentBefore(into, t);
    assert forall i :: WentInto(into, i, t) ==> WentInto(more, i, t) && all[i] == writes[i];
    var i :| WentInto(into, i, t) && writes[i].mode == e.mode;
    assert WentInto(more, i, t) && all[i].mode == e.mode;
  }

  lemma WentBefore(into: seq<nat>, t: nat)
    ensures forall i :: WentInto(into, i, t) ==> 0 <= i < |into|
  {
  }

  lemma MergeKeepsBytes(e: PendingWrite, writes: seq<PendingWrite>, into: seq<nat>, t: nat, w: PendingWrite)
    requires |into| == |writes| && BytesOfMerge(e, writes, into, t) && CanMerge(e, w)
    ensures BytesOfMerge(Merge(e, w), writes + [w], into + [t], t)
  {
    hide Merge;
    var all, n, more, m := writes + [w], |writes|, into + [t], Merge(e, w);
    WentMore(into, t);
    assert all[n] == w && WentInto(more, n, t);
    assert forall i :: WentInto(into, i, t) ==> all[i] == writes[i];
    forall node: NodeId, b: int
      ensures m.Covers(node, b) <==> exists i :: WentInto(more, i, t) && all[i].Covers(node, b)
    {
      MergeIsUnion(e, w, node, b);
      if i :| WentInto(into, i, t) && writes[i].Covers(node, b) {
        assert WentInto(more, i, t) && all[i].Covers(node, b);
      }
    }
    forall node: NodeId, b: int, i | Latest(all, more, t, node, b, i)
      ensures m.Covers(node, b) && m.At(b) == all[i].At(b)
    {
      MergeIsUnion(e, w, node, b);
      if i != n {
        assert WentInto(more, n, t) && !all[n].Covers(node, b);
        assert forall j :: i < j < n && WentInto(into, j, t) ==> WentInto(more, j, t) && !writes[j].Covers(node, b);
        assert Latest(writes, into, t, node, b, i);
      }
    }
  }

  /**
    Every queue is a partition of the writes that built it: each write went into
    exactly one entry, and each entry is exactly the merge of its writes.
   */
  lemma {:induction false} QueueIsPartition(writes: seq<PendingWrite>) returns (into: seq<nat>)
    ensures |into| == |writes| && forall i :: 0 <= i < |into| ==> into[i] < |EnqueueAll(writes)|
    ensures forall k :: 0 <= k < |EnqueueAll(writes)| ==> MergeOf(EnqueueAll(writes)[k], writes, into, k)
  {
    hide MergeOf, Merge, CanMerge;
    into := [];
    if writes != [] {
      var n := |writes| - 1;
      var before, w := writes[..n], writes[n];
      assert before + [w] == writes;
      var was := QueueIsPartition(before);
      var queue := EnqueueAll(before);
      var t := MergeTarget(queue, w);
      into := was + [t];
      forall k | 0 <= k < |queue| && k != t
        ensures MergeOf(queue[k], writes, into, k)
      {
        MergeOfKept(queue[k], before, was, k, w, t);
      }
      if t < |queue| {
        MergeOfMore(queue[t], before, was, t, w);
      } else {
        assert forall i :: !WentInto(was, i, t);
        MergeOfOne(before, was, w, t);
      }
    }
  }

  lemma MergeOfMore(e: PendingWrite, writes: seq<PendingWrite>, into: seq<nat>, t: nat, w: PendingWrite)
    requires |into| == |writes| && MergeOf(e, writes, into, t) && CanMerge(e, w)
    ensures MergeOf(Merge(e, w), writes + [w], into + [t], t)
  {
    hide Merge, CanMerge, FlagsOfMerge, BytesOfMerge;
    MergeKeepsFlags(e, writes, into, t, w);
    MergeKeepsBytes(e, writes, into, t, w);
  }
}
