/**
  Shared vocabulary: addresses, blocks, coherence modes, statuses and the
  configuration record. Offsets, sizes and counters are natural numbers, so
  64-bit sums never wrap here.
 */
module Types {

  newtype byte = i: int | 0 <= i < 256

  type NodeId = nat

  const INVALID_NODE: NodeId := 0xFFFF

  datatype Option<+T> = None | Some(value: T)

  datatype Status =
    | Ok | InvalidArg | NotInitialized | AlreadyInitialized | NoMemory
    | NotFound | OutOfRange | TimedOut | Unimplemented | InternalError

  datatype AccessType = ReadAccess | WriteAccess

  datatype BlockState = Invalid | Shared | Owner | Home | Transient

  datatype CoherenceMode = WI | SI | Adaptive {
    /** The numeric value of the enumerator. */
    function Code(): nat {
      match this
      case WI => 0
      case SI => 1
      case Adaptive => 2
    }
  }

  datatype GlobalAddr = GlobalAddr(home: NodeId, region: nat, offset: nat) {
    predicate IsValid() {
      home != INVALID_NODE
    }
  }

  const INVALID_ADDR := GlobalAddr(INVALID_NODE, 0, 0)

  /** A block is identified without its home node. */
  datatype BlockId = BlockId(region: nat, index: nat)

  /** The footprint of one access: `size` bytes starting at `addr`. */
  datatype CacheKey = CacheKey(addr: GlobalAddr, size: nat) {
    function End(): nat {
      addr.offset + size
    }

    predicate Covers(node: NodeId, i: int) {
      addr.home == node && addr.offset <= i < End()
    }
  }

  datatype Config = Config(
    nodeId: NodeId,
    blockSize: nat,
    localRegionSize: nat,
    enableCache: bool,
    enableWriteBatching: bool,
    modeOverride: int,
    admissionPolicy: int,
    ackTimeoutPolls: nat,
    ackMaxRetries: nat,
    windowSize: nat,
    cacheCapacity: nat,
    minReads: nat,
    maxWrites: nat,
    maxSharers: nat,
    maxReuseDistance: nat,
    minReadRatio: real,
    maxPhaseChangeRatio: real,
    batchThreshold: nat,
    sharerPromote: nat,
    invalidationPromote: nat,
    writeDominantRatio: real,
    phasePromoteRatio: real,
    adaptiveBatchThreshold: nat)

  function AtLeastOne(n: nat): nat {
    if n == 0 then 1 else n
  }

  function Min(a: nat, b: nat): nat {
    if a < b then a else b
  }

  function Max(a: nat, b: nat): nat {
    if a < b then b else a
  }

  /** A zero-initialised region. */
  function Zeros(n: nat): (z: seq<byte>)
    ensures |z| == n
  {
    seq(n, _ => 0)
  }

  /** `data` copied over `mem` starting at `at`. */
  function WriteAt(mem: seq<byte>, at: nat, data: seq<byte>): (r: seq<byte>)
    requires at + |data| <= |mem|
    ensures |r| == |mem|
    ensures forall i :: 0 <= i < |mem| ==>
                          r[i] == if at <= i < at + |data| then data[i - at] else mem[i]
  {
    mem[..at] + data + mem[at + |data|..]
  }

  /**
    The next element taken from `todo` when a hash table is walked: the order
    is arbitrary, so a schedule proposes it and any other order is allowed.
   */
  ghost function Pick<T(!new)>(todo: set<T>, schedule: seq<T>): (t: T)
    requires todo != {}
    ensures t in todo
  {
    if schedule != [] && schedule[0] in todo then schedule[0] else var t :| t in todo; t
  }

  function Rest<T>(schedule: seq<T>): seq<T> {
    if schedule == [] then [] else schedule[1..]
  }
}
