/** The statistics record (src/stats/counters.cc). */
module Counters {
  import opened Types

  datatype Stats = Stats(
    allocs: nat, localReads: nat, remoteReads: nat, localWrites: nat, remoteWrites: nat,
    hits: nat, misses: nat, admissions: nat, rejections: nat,
    queued: nat, merged: nat, flushedWrites: nat, flushedBytes: nat, flushedBatches: nat,
    switches: nat, modeWI: nat, modeSI: nat, modeAdaptive: nat,
    preciseInvalidations: nat, rangeInvalidations: nat, ownerBiasedWrites: nat, ownerHandoffs: nat)
  {
    function Read(local: bool): Stats {
      if local then this.(localReads := localReads + 1) else this.(remoteReads := remoteReads + 1)
    }

    function Write(local: bool): Stats {
      if local then this.(localWrites := localWrites + 1) else this.(remoteWrites := remoteWrites + 1)
    }

    function Admission(admitted: bool): Stats {
      if admitted then this.(admissions := admissions + 1) else this.(rejections := rejections + 1)
    }

    function Mode(mode: CoherenceMode, switched: bool): Stats {
      var s := if switched then this.(switches := switches + 1) else this;
      match mode
      case WI => s.(modeWI := modeWI + 1)
      case SI => s.(modeSI := modeSI + 1)
      case Adaptive => s.(modeAdaptive := modeAdaptive + 1)
    }

    function Queued(wasMerged: bool): Stats {
      this.(queued := queued + 1, merged := if wasMerged then merged + 1 else merged)
    }

    function Invalidated(range: bool, count: nat): Stats {
      if range then this.(rangeInvalidations := rangeInvalidations + count)
      else this.(preciseInvalidations := preciseInvalidations + count)
    }

    function Flushed(writes: nat, bytes: nat): Stats {
      this.(flushedBatches := flushedBatches + 1, flushedWrites := flushedWrites + writes,
      flushedBytes := flushedBytes + bytes)
    }
  }

  const NO_STATS := Stats(0, 0, 0, 0, 0, 0, 0, 0, 0, 0, 0, 0, 0, 0, 0, 0, 0, 0, 0, 0, 0, 0)
}
