/**
  Per-block profiling and the coherence-mode decision
  (src/memory/cache/cache_manager.cc, ObserveAccess, DecideCoherenceMode and
  ShouldCache). All blocks share one access epoch, cut into windows.
 */
module Profiling {
  import opened Types
  import opened Arithmetic
  import opened MapSums

  datatype Meta = Meta(
    owner: NodeId, version: nat, state: BlockState, mode: CoherenceMode,
    lastEpoch: nat, readCount: nat, writeCount: nat, remoteMisses: nat,
    invalidationCost: nat, sharers: nat,
    windowId: nat, windowReads: nat, windowWrites: nat, phaseChanges: nat,
    reuseDistance: nat, lastType: AccessType, switches: nat,
    ownerEpoch: nat, lastValidated: nat, admitted: bool)
  {
    function WindowTotal(): nat {
      windowReads + windowWrites
    }
  }

  const FRESH := Meta(INVALID_NODE, 0, Home, WI, 0, 0, 0, 0, 0, 0, 0, 0, 0, 0, 0, ReadAccess, 0, 0, 0, false)

  type Blocks = map<BlockId, Meta>

  function Lookup(blocks: Blocks, id: BlockId): Meta {
    if id in blocks then blocks[id] else FRESH
  }

  predicate Overridden(cfg: Config) {
    0 <= cfg.modeOverride <= 2
  }

  function OverrideMode(cfg: Config): CoherenceMode {
    if cfg.modeOverride == 0 then WI else if cfg.modeOverride == 1 then SI else Adaptive
  }

  predicate PastPromotion(cfg: Config, m: Meta) {
    m.sharers >= cfg.sharerPromote || m.invalidationCost >= cfg.invalidationPromote
  }

  predicate AtLeast(part: nat, total: nat, ratio: real)
    requires total > 0
  {
    part as real / total as real >= ratio
  }

  function Decide(cfg: Config, m: Meta): CoherenceMode
  {
    if Overridden(cfg) then OverrideMode(cfg)
    else if m.WindowTotal() == 0 then WI
    else if AtLeast(m.windowWrites, m.WindowTotal(), cfg.writeDominantRatio) ||
            AtLeast(m.phaseChanges, m.WindowTotal(), cfg.phasePromoteRatio) then WI
    else if PastPromotion(cfg, m) then Adaptive
    else SI
  }

  function WindowOf(cfg: Config, epoch: nat): nat
    requires epoch > 0
  {
    (epoch - 1) / AtLeastOne(cfg.windowSize)
  }

  /** The window roll-over, before the access is counted. */
  function Rolled(cfg: Config, m: Meta, epoch: nat): Meta
    requires epoch > 0
  {
    if m.windowId != WindowOf(cfg, epoch)
    then m.(windowId := WindowOf(cfg, epoch), windowReads := 0, windowWrites := 0, phaseChanges := 0)
    else m
  }

  /** The counters after one access at `epoch`, before the mode is decided. */
  function Counted(cfg: Config, m0: Meta, epoch: nat, access: AccessType, local: bool): Meta
    requires epoch > 0
  {
    var r := Rolled(cfg, m0, epoch);
    var m := r.(lastEpoch := epoch, lastType := access,
             reuseDistance := if m0.lastEpoch != 0 && m0.lastEpoch <= epoch then epoch - m0.lastEpoch
                              else r.reuseDistance,
             phaseChanges := if m0.lastEpoch != 0 && m0.lastType != access then r.phaseChanges + 1
                             else r.phaseChanges);
    match access
    case ReadAccess =>
      m.(readCount := m.readCount + 1, windowReads := m.windowReads + 1,
      sharers := if local then m.sharers else m.sharers + 1)
    case WriteAccess =>
      m.(writeCount := m.writeCount + 1, windowWrites := m.windowWrites + 1,
      invalidationCost := if local then m.invalidationCost else m.invalidationCost + 1)
  }

  function Observe(cfg: Config, m: Meta, epoch: nat, access: AccessType, local: bool): Meta
    requires epoch > 0
  {
    var c := Counted(cfg, m, epoch, access, local);
    var next := Decide(cfg, c);
    c.(mode := next, switches := if next != c.mode then c.switches + 1 else c.switches)
  }

  predicate ShouldCache(cfg: Config, m: Meta)
  {
    if !cfg.enableCache then false
    else if cfg.admissionPolicy == 1 then true
    else if cfg.admissionPolicy == 2 then false
    else if m.WindowTotal() == 0 then false
    else
      && m.readCount >= cfg.minReads
      && m.writeCount <= cfg.maxWrites
      && m.sharers <= cfg.maxSharers
      && m.reuseDistance <= cfg.maxReuseDistance
      && AtLeast(m.windowReads, m.WindowTotal(), cfg.minReadRatio)
      && m.phaseChanges as real / m.WindowTotal() as real <= cfg.maxPhaseChangeRatio
      && m.mode != WI
      && m.invalidationCost <= m.writeCount + 1
  }

  // ------------------------------------------------------- per-block bounds

  /** What holds of every block at every moment. */
  predicate Bounded(cfg: Config, m: Meta)
  {
    match m
    case Meta(_, _, _, mode, lastEpoch, readCount, writeCount, _, invalidationCost, sharers,
              _, windowReads, windowWrites, phaseChanges, _, _, _, _, _, _) =>
      && phaseChanges <= windowReads + windowWrites
      && invalidationCost <= writeCount
      && sharers <= readCount
      && (lastEpoch == 0 <==> readCount + writeCount == 0)
      && (lastEpoch != 0 ==> windowReads + windowWrites > 0)
      && (lastEpoch == 0 ==> mode == WI)
      && (!Overridden(cfg) && lastEpoch != 0 && PastPromotion(cfg, m) ==> mode != SI)
  }

  lemma ObserveBounded(cfg: Config, m: Meta, epoch: nat, access: AccessType, local: bool)
    requires epoch > 0 && Bounded(cfg, m)
    ensures Bounded(cfg, Observe(cfg, m, epoch, access, local))
  {
  }

  /** `after` is `m` with one more access counted, at `epoch`. */
  predicate Advances(cfg: Config, m: Meta, after: Meta, epoch: nat)
    requires epoch > 0
  {
    && after.windowId == WindowOf(cfg, epoch)
    && after.readCount + after.writeCount == m.readCount + m.writeCount + 1
    && after.WindowTotal() == 1 + (if m.windowId == WindowOf(cfg, epoch) then m.WindowTotal() else 0)
  }

  lemma ObserveAdvances(cfg: Config, m: Meta, epoch: nat, access: AccessType, local: bool)
    requires epoch > 0
    ensures Advances(cfg, m, Observe(cfg, m, epoch, access, local), epoch)
  {
  }

  /** The mode decision without its zero-total test. */
  function DecideByRatios(cfg: Config, m: Meta): CoherenceMode
    requires m.WindowTotal() > 0
  {
    if Overridden(cfg) then OverrideMode(cfg)
    else if AtLeast(m.windowWrites, m.WindowTotal(), cfg.writeDominantRatio) ||
            AtLeast(m.phaseChanges, m.WindowTotal(), cfg.phasePromoteRatio) then WI
    else if PastPromotion(cfg, m) then Adaptive
    else SI
  }

  /** The profiled admission test without its empty-window guard and its last conjunct. */
  predicate AdmitByProfile(cfg: Config, m: Meta)
    requires m.WindowTotal() > 0
  {
    && m.readCount >= cfg.minReads && m.writeCount <= cfg.maxWrites && m.sharers <= cfg.maxSharers
    && m.reuseDistance <= cfg.maxReuseDistance && m.mode != WI
    && AtLeast(m.windowReads, m.WindowTotal(), cfg.minReadRatio)
    && m.phaseChanges as real / m.WindowTotal() as real <= cfg.maxPhaseChangeRatio
  }

  /** On a block that has been accessed, the zero-total tests and the last conjunct of the admission test never decide. */
  lemma DeadTests(cfg: Config, m: Meta)
    requires Bounded(cfg, m) && m.lastEpoch != 0
    ensures m.WindowTotal() > 0 && Decide(cfg, m) == DecideByRatios(cfg, m)
    ensures cfg.enableCache && cfg.admissionPolicy !in {1, 2} ==> (ShouldCache(cfg, m) <==> AdmitByProfile(cfg, m))
  {
  }

  /** Once promoted, a block's next decision is never SI: the promoting counters only grow. */
  lemma PromotionIsIrreversible(cfg: Config, m: Meta, epoch: nat, access: AccessType, local: bool)
    requires epoch > 0 && !Overridden(cfg) && PastPromotion(cfg, m)
    ensures PastPromotion(cfg, Observe(cfg, m, epoch, access, local))
    ensures Observe(cfg, m, epoch, access, local).mode != SI
  {
  }

  // ----------------------------------------------------- sums over a table

  /** What is summed: all accesses of a block, or those of one window. */
  datatype Measure = Accesses | InWindow(id: nat) {
    function Of(m: Meta): nat {
      match this
      case Accesses => m.readCount + m.writeCount
      case InWindow(id) => if m.windowId == id then m.WindowTotal() else 0
    }
  }

  ghost function Total(blocks: Blocks, w: Measure): nat
  {
    Sum(blocks, (m: Meta) => w.Of(m))
  }

  lemma TotalUpdate(blocks: Blocks, id: BlockId, m: Meta, w: Measure)
    ensures Total(blocks[id := m], w) ==
            Total(blocks, w) + w.Of(m) - (if id in blocks then w.Of(blocks[id]) else 0)
  {
    SumUpdate(blocks, (m: Meta) => w.Of(m), id, m);
  }

  lemma TotalZero(blocks: Blocks, w: Measure)
    requires forall id :: id in blocks ==> w.Of(blocks[id]) == 0
    ensures Total(blocks, w) == 0
  {
    SumZero(blocks, (m: Meta) => w.Of(m));
  }

  /** The window the latest access fell in. */
  function Current(cfg: Config, epoch: nat): nat {
    if epoch == 0 then 0 else WindowOf(cfg, epoch)
  }

  /** Accesses so far in the current window. */
  function InCurrent(cfg: Config, epoch: nat): nat {
    if epoch == 0 then 0 else (epoch - 1) % AtLeastOne(cfg.windowSize) + 1
  }

  predicate NotAhead(blocks: Blocks, window: nat)
  {
    forall id :: id in blocks ==> blocks[id].windowId <= window
  }

  /**
    Conservation: every access is counted by exactly one block, the blocks of
    the current window account for exactly the accesses of that window, and no
    block is ahead of it.
   */
  ghost predicate Conserved(cfg: Config, blocks: Blocks, epoch: nat)
  {
    var ok :=
      && Total(blocks, Accesses) == epoch
      && Total(blocks, InWindow(Current(cfg, epoch))) == InCurrent(cfg, epoch)
      && NotAhead(blocks, Current(cfg, epoch));
    ok
  }

  lemma WindowsAdvance(cfg: Config, epoch: nat)
    ensures Current(cfg, epoch) <= Current(cfg, epoch + 1)
    ensures InCurrent(cfg, epoch + 1) == 1 + if Current(cfg, epoch + 1) == Current(cfg, epoch) then InCurrent(cfg, epoch) else 0
  {
    if epoch > 0 {
      DivisionStep(epoch, AtLeastOne(cfg.windowSize));
    }
  }

  /** Counting an access in window `now`, when the last one was in window `was`. */
  lemma CountInWindow(blocks: Blocks, id: BlockId, m: Meta, was: nat, now: nat)
    requires NotAhead(blocks, was) && was <= now && m.windowId == now
    requires m.WindowTotal() == 1 + (if Lookup(blocks, id).windowId == now then Lookup(blocks, id).WindowTotal() else 0)
    ensures NotAhead(blocks[id := m], now)
    ensures Total(blocks[id := m], InWindow(now)) == 1 + if now == was then Total(blocks, InWindow(was)) else 0
  {
    if was < now {
      TotalZero(blocks, InWindow(now));
    }
    TotalUpdate(blocks, id, m, InWindow(now));
  }

  /** One counted access keeps the conservation laws. */
  lemma AdvanceConserves(cfg: Config, blocks: Blocks, epoch: nat, id: BlockId, m: Meta)
    requires Conserved(cfg, blocks, epoch) && Advances(cfg, Lookup(blocks, id), m, epoch + 1)
    ensures Conserved(cfg, blocks[id := m], epoch + 1)
  {
    hide Total;
    WindowsAdvance(cfg, epoch);
    CountInWindow(blocks, id, m, Current(cfg, epoch), Current(cfg, epoch + 1));
    TotalUpdate(blocks, id, m, Accesses);
  }

  /** Two records that agree on everything profiling looks at. */
  predicate SameProfile(a: Meta, b: Meta) {
    b.(owner := a.owner, version := a.version, state := a.state, remoteMisses := a.remoteMisses,
    ownerEpoch := a.ownerEpoch, lastValidated := a.lastValidated, admitted := a.admitted) == a
  }

  lemma SameProfileConserves(cfg: Config, blocks: Blocks, epoch: nat, id: BlockId, m: Meta)
    requires Conserved(cfg, blocks, epoch) && SameProfile(Lookup(blocks, id), m)
    ensures Conserved(cfg, blocks[id := m], epoch)
  {
    TotalUpdate(blocks, id, m, Accesses);
    TotalUpdate(blocks, id, m, InWindow(Current(cfg, epoch)));
  }
}
