/**
  The local bump allocator (src/memory/global/dsm_allocator.cc). Allocations
  live in an ordered map keyed by offset, modelled as the list of its entries
  in key order; looking up a range takes the entry before the upper bound.
 */
module Allocator {
  import opened Types
  import opened Arithmetic
  import opened BlockRanges

  datatype Allocation = Allocation(offset: nat, size: nat) {
    function End(): nat {
      offset + size
    }
  }

  datatype Heap = Heap(region: seq<byte>, next: nat, allocations: seq<Allocation>)

  function EmptyHeap(cfg: Config): Heap {
    Heap(Zeros(cfg.localRegionSize), 0, [])
  }

  function AlignUp(value: nat, alignment: nat): nat {
    if alignment == 0 then value else (value + alignment - 1) / alignment * alignment
  }

  lemma AlignUpIsLeast(value: nat, alignment: nat, multiple: nat)
    requires alignment > 0
    ensures AlignUp(value, alignment) % alignment == 0 && value <= AlignUp(value, alignment) < value + alignment
    ensures value <= multiple * alignment ==> AlignUp(value, alignment) <= multiple * alignment
  {
    var q := (value + alignment - 1) / alignment;
    DivLower(value + alignment - 1, alignment);
    assert AlignUp(value, alignment) == q * alignment;
    DivModUnique(q * alignment, alignment, q, 0);
    var d := q - multiple;
    assert d * alignment == q * alignment - multiple * alignment;
    if d >= 1 {
      ProductAtLeast(d, alignment);
    } else if d < 0 {
      ProductAtLeast(-d, alignment);
    }
  }

  /** The number of entries with key at most `x`: the position of upper_bound(x). */
  function UpperBound(allocations: seq<Allocation>, x: nat): (n: nat)
    ensures n <= |allocations|
  {
    if allocations == [] || allocations[0].offset > x then 0 else 1 + UpperBound(allocations[1..], x)
  }

  predicate Accepts(cfg: Config, heap: Heap, addr: GlobalAddr, size: nat)
  {
    && addr.IsValid() && size != 0
    && addr.home == cfg.nodeId
    && cfg.blockSize != 0
    && var n := UpperBound(heap.allocations, addr.offset);
       && n != 0
       && var a := heap.allocations[n - 1];
          && addr.offset >= a.offset
          && addr.offset - a.offset + size <= a.size
          && addr.offset + size <= |heap.region|
  }

  function Allocate(cfg: Config, heap: Heap, size: nat): (r: (Heap, GlobalAddr))
  {
    var aligned := AlignUp(size, cfg.blockSize);
    if size == 0 || cfg.blockSize == 0 || heap.next + aligned > |heap.region| then (heap, INVALID_ADDR)
    else (heap.(next := heap.next + aligned, allocations := heap.allocations + [Allocation(heap.next, aligned)]),
          GlobalAddr(cfg.nodeId, 0, heap.next))
  }

  /** Some number of whole blocks holds `size` bytes and still fits behind what is allocated. */
  ghost predicate RoomFor(cfg: Config, heap: Heap, size: nat)
  {
    size > 0 && cfg.blockSize > 0 && exists k: nat :: size <= k * cfg.blockSize && heap.next + k * cfg.blockSize <= |heap.region|
  }

  /**
    An allocation is granted iff there is room for it. It then starts where the
    previous ones end and takes the fewest blocks that hold it; a refused one
    changes nothing.
   */
  lemma AllocateIff(cfg: Config, heap: Heap, size: nat)
    ensures var (after, addr) := Allocate(cfg, heap, size);
            if !RoomFor(cfg, heap, size) then after == heap && addr == INVALID_ADDR
            else
              && addr == GlobalAddr(cfg.nodeId, 0, heap.next)
              && after.region == heap.region && after.allocations == heap.allocations + [Allocation(heap.next, after.next - heap.next)]
              && (after.next - heap.next) % cfg.blockSize == 0 && size <= after.next - heap.next < size + cfg.blockSize
  {
    if size > 0 && cfg.blockSize > 0 {
      var aligned, q := AlignUp(size, cfg.blockSize), (size + cfg.blockSize - 1) / cfg.blockSize;
      AlignUpIsLeast(size, cfg.blockSize, q);
      assert aligned == q * cfg.blockSize;
      if k: nat :| size <= k * cfg.blockSize && heap.next + k * cfg.blockSize <= |heap.region| {
        AlignUpIsLeast(size, cfg.blockSize, k);
      }
      if heap.next + aligned <= |heap.region| {
        assert RoomFor(cfg, heap, size);
      }
    }
  }

  /** The allocations are consecutive, block-aligned and together fill [0, next). */
  predicate Tiles(blockSize: nat, allocations: seq<Allocation>, next: nat)
  {
    if allocations == [] then next == 0
    else
      var last := allocations[|allocations| - 1];
      && last.End() == next && last.size > 0
      && (blockSize > 0 ==> last.size % blockSize == 0 && last.offset % blockSize == 0)
      && Tiles(blockSize, allocations[..|allocations| - 1], last.offset)
  }

  predicate HeapOk(cfg: Config, heap: Heap)
  {
    var ok :=
      && |heap.region| == cfg.localRegionSize
      && heap.next <= |heap.region|
      && Tiles(cfg.blockSize, heap.allocations, heap.next)
      && (cfg.blockSize > 0 ==> heap.next % cfg.blockSize == 0);
    ok
  }

  lemma AllocateKeepsTiling(cfg: Config, heap: Heap, size: nat)
    requires HeapOk(cfg, heap)
    ensures HeapOk(cfg, Allocate(cfg, heap, size).0)
  {
    var (after, addr) := Allocate(cfg, heap, size);
    if after != heap {
      var bs := cfg.blockSize;
      AlignUpIsLeast(size, bs, 0);
      assert after.allocations[..|heap.allocations|] == heap.allocations;
      MultiplesAdd(heap.next, AlignUp(size, bs), bs);
    }
  }

  /** Where each allocation lies within a tiling. */
  lemma {:induction false} TilesOrdered(blockSize: nat, allocations: seq<Allocation>, next: nat, i: nat)
    requires Tiles(blockSize, allocations, next) && i < |allocations|
    ensures allocations[i].size > 0 && allocations[i].End() <= next
    ensures blockSize > 0 ==> allocations[i].size % blockSize == 0 && allocations[i].offset % blockSize == 0
    ensures forall j :: 0 <= j < i ==> allocations[j].End() <= allocations[i].offset
  {
    var n := |allocations| - 1;
    var front := allocations[..n];
    if i < n {
      TilesOrdered(blockSize, front, allocations[n].offset, i);
    } else {
      forall j | 0 <= j < i
        ensures allocations[j].End() <= allocations[i].offset
      {
        TilesOrdered(blockSize, front, allocations[n].offset, j);
      }
    }
  }

  lemma {:induction false} UpperBoundSplits(allocations: seq<Allocation>, x: nat)
    ensures var n := UpperBound(allocations, x);
            && (forall i :: 0 <= i < n ==> allocations[i].offset <= x)
            && (n < |allocations| ==> allocations[n].offset > x)
  {
    if allocations != [] && allocations[0].offset <= x {
      UpperBoundSplits(allocations[1..], x);
      assert forall i :: 0 < i < |allocations| ==> allocations[i] == allocations[1..][i - 1];
    }
  }

  predicate Inside(a: Allocation, addr: GlobalAddr, size: nat) {
    a.offset <= addr.offset && addr.offset + size <= a.End()
  }

  /** A linear search finds an allocation of this node that contains the range. */
  predicate InsideSome(cfg: Config, heap: Heap, addr: GlobalAddr, size: nat)
  {
    && addr.IsValid() && size != 0 && addr.home == cfg.nodeId && cfg.blockSize != 0
    && exists i :: 0 <= i < |heap.allocations| && Inside(heap.allocations[i], addr, size)
  }

  /** The ordered-map lookup accepts a range iff it lies inside one allocation: it refines a linear search. */
  lemma LookupRefinesSearch(cfg: Config, heap: Heap, addr: GlobalAddr, size: nat)
    requires HeapOk(cfg, heap)
    ensures Accepts(cfg, heap, addr, size) <==> InsideSome(cfg, heap, addr, size)
  {
    var allocs := heap.allocations;
    var n := UpperBound(allocs, addr.offset);
    UpperBoundSplits(allocs, addr.offset);
    if Accepts(cfg, heap, addr, size) {
      assert Inside(allocs[n - 1], addr, size);
    }
    if size != 0 {
      forall i | 0 <= i < |allocs| && Inside(allocs[i], addr, size)
        ensures i + 1 == n && allocs[i].End() <= heap.next
      {
        TilesOrdered(cfg.blockSize, allocs, heap.next, i);
        if i < n - 1 {
          TilesOrdered(cfg.blockSize, allocs, heap.next, n - 1);
        }
      }
    }
  }

  /** The address of a fresh allocation always resolves, so lm_malloc never returns invalid after allocating. */
  lemma AllocationResolves(cfg: Config, heap: Heap, size: nat)
    requires HeapOk(cfg, heap) && Allocate(cfg, heap, size).1.IsValid()
    ensures var (after, addr) := Allocate(cfg, heap, size); Accepts(cfg, after, addr, size)
  {
    var (after, addr) := Allocate(cfg, heap, size);
    AllocateKeepsTiling(cfg, heap, size);
    AlignUpIsLeast(size, cfg.blockSize, 0);
    LookupRefinesSearch(cfg, after, addr, size);
    assert Inside(after.allocations[|heap.allocations|], addr, size);
  }

  /** Ranges accepted from different allocations never share a block index. */
  lemma DifferentAllocationsShareNoBlock(cfg: Config, heap: Heap, i: nat, j: nat,
                                         a: GlobalAddr, m: nat, b: GlobalAddr, n: nat)
    requires HeapOk(cfg, heap) && cfg.blockSize > 0 && i < j < |heap.allocations| && m > 0 && n > 0
    requires Inside(heap.allocations[i], a, m) && Inside(heap.allocations[j], b, n)
    ensures Resolve(cfg.blockSize, a, m).last.index < Resolve(cfg.blockSize, b, n).first.index
  {
    var bs := cfg.blockSize;
    var y := heap.allocations[j];
    TilesOrdered(bs, heap.allocations, heap.next, j);
    assert a.offset + m - 1 < y.offset <= b.offset;
    var q := y.offset / bs;
    assert y.offset == bs * q + y.offset % bs;
    DivMonotone(y.offset, b.offset, bs);
    DivMonotone(a.offset + m - 1, y.offset - 1, bs);
    assert y.offset - 1 == (q - 1) * bs + (bs - 1);
    DivModUnique(y.offset - 1, bs, q - 1, bs - 1);
  }

  /** The allocator object. */
  class DsmAllocator {
    const cfg: Config
    var region: seq<byte>
    var nextOffset: nat
    var allocations: seq<Allocation>

    function View(): Heap
      reads this
    {
      Heap(region, nextOffset, allocations)
    }

    constructor (cfg: Config)
      ensures this.cfg == cfg && View() == EmptyHeap(cfg) && HeapOk(cfg, View())
    {
      this.cfg := cfg;
      region := Zeros(cfg.localRegionSize);
      nextOffset := 0;
      allocations := [];
      new;
      if cfg.blockSize > 0 {
        DivModUnique(0, cfg.blockSize, 0, 0);
      }
    }

    method AllocateBlocks(size: nat) returns (addr: GlobalAddr)
      modifies this`nextOffset, this`allocations
      ensures (View(), addr) == Allocate(cfg, old(View()), size)
      ensures addr == if RoomFor(cfg, old(View()), size) then GlobalAddr(cfg.nodeId, 0, old(nextOffset)) else INVALID_ADDR
    {
      AllocateIff(cfg, View(), size);
      if size == 0 || cfg.blockSize == 0 {
        return INVALID_ADDR;
      }
      var alignedSize := AlignUp(size, cfg.blockSize);
      if nextOffset + alignedSize > |region| {
        return INVALID_ADDR;
      }
      addr := GlobalAddr(cfg.nodeId, 0, nextOffset);
      allocations := allocations + [Allocation(addr.offset, alignedSize)];
      nextOffset := nextOffset + alignedSize;
    }

    /** The walk to the first allocation that starts beyond the offset, then one step back. */
    method ValidateRange(addr: GlobalAddr, size: nat) returns (accepted: bool)
      ensures accepted == Accepts(cfg, View(), addr, size)
      ensures HeapOk(cfg, View()) ==> (accepted <==> InsideSome(cfg, View(), addr, size))
    {
      if HeapOk(cfg, View()) {
        LookupRefinesSearch(cfg, View(), addr, size);
      }
      if !addr.IsValid() || size == 0 || addr.home != cfg.nodeId || cfg.blockSize == 0 {
        return false;
      }
      var it := 0;
      while it < |allocations| && allocations[it].offset <= addr.offset
        invariant it <= |allocations|
        invariant it + UpperBound(allocations[it..], addr.offset) == UpperBound(allocations, addr.offset)
      {
        assert allocations[it..][1..] == allocations[it + 1..];
        it := it + 1;
      }
      if it == 0 {
        return false;
      }
      var alloc := allocations[it - 1];
      if addr.offset < alloc.offset {
        return false;
      }
      var relative := addr.offset - alloc.offset;
      if relative + size > alloc.size || addr.offset + size > |region| {
        return false;
      }
      return true;
    }

    /**
      The block range of an accepted byte range: on a tiled heap there is one iff
      the bytes lie inside one allocation, and its blocks are the least cover.
     */
    method ResolveBlockRange(addr: GlobalAddr, size: nat) returns (range: Option<BlockRange>)
      ensures range.Some? <==> Accepts(cfg, View(), addr, size)
      ensures HeapOk(cfg, View()) ==> (range.Some? <==> InsideSome(cfg, View(), addr, size))
      ensures range.Some? ==> range.value == Resolve(cfg.blockSize, addr, size)
      ensures range.Some? ==> var c := Cover(cfg.blockSize, range.value, addr.home);
                              c.addr.offset <= addr.offset && addr.offset + size <= c.End()
    {
      var accepted := ValidateRange(addr, size);
      if !accepted {
        return None;
      }
      CoverBounds(cfg.blockSize, addr, size);
      DivMonotone(addr.offset, addr.offset + size - 1, cfg.blockSize);
      var first, last := addr.offset / cfg.blockSize, (addr.offset + size - 1) / cfg.blockSize;
      return Some(BlockRange(BlockId(addr.region, first), BlockId(addr.region, last), last - first + 1));
    }
  }
}
