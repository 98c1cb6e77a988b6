/**
  From byte ranges to block ranges and back
  (src/api/access_api.cc, ResolveBlockRange, BlockRangeBaseAddr and BlockRangeSize).
 */
module BlockRanges {
  import opened Types
  import opened Arithmetic
  import opened LruCache

  datatype BlockRange = BlockRange(first: BlockId, last: BlockId, count: nat)

  function Resolve(blockSize: nat, addr: GlobalAddr, size: nat): (r: BlockRange)
    requires blockSize > 0 && size > 0
    ensures r.first.index <= r.last.index && r.count == r.last.index - r.first.index + 1
  {
    var first := addr.offset / blockSize;
    var last := (addr.offset + size - 1) / blockSize;
    DivMonotone(addr.offset, addr.offset + size - 1, blockSize);
    BlockRange(BlockId(addr.region, first), BlockId(addr.region, last), last - first + 1)
  }

  function BaseAddr(blockSize: nat, range: BlockRange, home: NodeId): GlobalAddr
  {
    GlobalAddr(home, range.first.region, range.first.index * blockSize)
  }

  function Span(blockSize: nat, range: BlockRange): nat
  {
    range.count * blockSize
  }

  /** The blocks of a range in ascending order. */
  function Ids(range: BlockRange): (ids: seq<BlockId>)
    ensures |ids| == range.count
    ensures forall i :: 0 <= i < |ids| ==> ids[i] == BlockId(range.first.region, range.first.index + i)
  {
    seq(range.count, i requires i >= 0 => BlockId(range.first.region, range.first.index + i))
  }

  /** The range rebuilt from a control message's first and last block. */
  function Rebuilt(first: BlockId, last: BlockId): BlockRange
  {
    BlockRange(first, last, if first.index <= last.index then last.index - first.index + 1 else 0)
  }

  /** The bytes the rebuilt range stands for. */
  function Cover(blockSize: nat, range: BlockRange, home: NodeId): CacheKey
  {
    CacheKey(BaseAddr(blockSize, range, home), Span(blockSize, range))
  }

  lemma SpanIsDifference(first: nat, last: nat, w: nat)
    ensures first * w == w * first
    ensures (last - first + 1) * w == w * last - w * first + w
  {
  }

  lemma CoverBounds(blockSize: nat, addr: GlobalAddr, size: nat)
    requires blockSize > 0 && size > 0
    ensures var r := Resolve(blockSize, addr, size); var c := Cover(blockSize, r, addr.home);
            && c.addr.offset == blockSize * r.first.index
            && c.End() == blockSize * r.last.index + blockSize
            && c.addr.offset <= addr.offset < c.addr.offset + blockSize
            && c.End() - blockSize <= addr.offset + size - 1 < c.End()
  {
    var r := Resolve(blockSize, addr, size);
    DivLower(addr.offset, blockSize);
    DivLower(addr.offset + size - 1, blockSize);
    SpanIsDifference(r.first.index, r.last.index, blockSize);
  }

  /**
    Reconstruction: resolving a byte range to blocks and rebuilding base and
    span gives the least block-aligned cover of the bytes.
   */
  lemma LeastAlignedCover(blockSize: nat, addr: GlobalAddr, size: nat, begin: nat, end: nat)
    requires blockSize > 0 && size > 0
    requires blockSize * begin <= addr.offset && addr.offset + size <= blockSize * end
    ensures var c := Cover(blockSize, Resolve(blockSize, addr, size), addr.home);
            blockSize * begin <= c.addr.offset && c.End() <= blockSize * end
  {
    var r := Resolve(blockSize, addr, size);
    CoverBounds(blockSize, addr, size);
    var low, high := begin - r.first.index, r.last.index + 1 - end;
    assert low * blockSize == blockSize * begin - blockSize * r.first.index;
    assert high * blockSize == blockSize * r.last.index + blockSize - blockSize * end;
    if low >= 1 {
      ProductAtLeast(low, blockSize);
    }
    if high >= 1 {
      ProductAtLeast(high, blockSize);
    }
    if low < 0 {
      ProductAtLeast(-low, blockSize);
    }
    if high < 0 {
      ProductAtLeast(-high, blockSize);
    }
  }

  /** The rebuilt cover resolves back to the same block range. */
  lemma CoverResolvesBack(blockSize: nat, addr: GlobalAddr, size: nat)
    requires blockSize > 0 && size > 0
    ensures var r := Resolve(blockSize, addr, size); var c := Cover(blockSize, r, addr.home);
            c.size > 0 && Resolve(blockSize, c.addr, c.size) == r
    ensures var r := Resolve(blockSize, addr, size); Rebuilt(r.first, r.last) == r
  {
    var r := Resolve(blockSize, addr, size);
    var c := Cover(blockSize, r, addr.home);
    CoverBounds(blockSize, addr, size);
    DivModUnique(c.addr.offset, blockSize, r.first.index, 0);
    DivModUnique(c.End() - 1, blockSize, r.last.index, blockSize - 1);
  }

  /**
    Whatever the byte-exact range invalidation removes, the invalidation of
    the rebuilt block range removes too.
   */
  lemma RebuiltInvalidatesAtLeast(blockSize: nat, addr: GlobalAddr, size: nat, entries: seq<Entry>)
    requires blockSize > 0 && size > 0
    ensures var c := Cover(blockSize, Resolve(blockSize, addr, size), addr.home);
            forall e :: e in Drop(entries, Overlapping(c)) ==> e in Drop(entries, Overlapping(CacheKey(addr, size)))
  {
    CoverBounds(blockSize, addr, size);
  }

  predicate Touches(blockSize: nat, key: CacheKey, id: BlockId)
    requires blockSize > 0
  {
    key.size > 0 && id in Ids(Resolve(blockSize, key.addr, key.size))
  }
}
