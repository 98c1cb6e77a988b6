/**
  What a fence does in every run, failed or not (src/api/sync_api.cc,
  src/api/access_api.cc): which destinations it empties, which bytes reach their
  homes, and when it succeeds.
 */
module Fences {
  import opened Types
  import opened WriteCombining
  import opened StubNet
  import opened Access
  import opened Frames
  import opened StubControl
  import opened QueueRuns
  import opened Batching
  import opened AllocationRuns

  // ------------------------------------------------------ where entries wait

  /** Every queued write waits at its own home, and none at this node. */
  predicate HomedQueue(cfg: Config, queue: seq<PendingWrite>, n: NodeId)
  {
    (forall k :: 0 <= k < |queue| ==> queue[k].addr.home == n) && (n == cfg.nodeId ==> queue == [])
  }

  ghost predicate Homed(cfg: Config, queues: Queues)
  {
    forall n: NodeId :: HomedQueue(cfg, Queue(queues, n), n)
  }

  lemma EnqueueHomed(cfg: Config, queue: seq<PendingWrite>, w: PendingWrite)
    requires HomedQueue(cfg, queue, w.addr.home) && w.addr.home != cfg.nodeId
    ensures HomedQueue(cfg, Enqueue(queue, w), w.addr.home)
  {
    hide Merge;
  }

  lemma {:induction false} AlwaysHomed(cfg: Config, calls: seq<Call>)
    ensures Homed(cfg, After(cfg, calls).queues)
  {
    hide Exec, Enqueue;
    if calls != [] {
      var before, call := calls[..|calls| - 1], calls[|calls| - 1];
      var s := After(cfg, before);
      AlwaysHomed(cfg, before);
      AlwaysSettled(cfg, before);
      forall n: NodeId
        ensures HomedQueue(cfg, Queue(After(cfg, calls).queues, n), n)
      {
        assert HomedQueue(cfg, Queue(s.queues, n), n);
        var w := CallStep(cfg, s, call, n);
        if RemoteWriteCall(cfg, call) && n == w.addr.home {
          EnqueueHomed(cfg, Queue(s.queues, n), w);
        }
      }
    }
  }

  // ----------------------------------------------------------- one destination

  /** No request of the queue is past the region. */
  predicate Fits(cfg: Config, queue: seq<PendingWrite>)
  {
    FirstBeyond(cfg, queue) == |queue|
  }

  /** The bank at n is the old one with exactly the requests before the first one out of range replayed, in order. */
  ghost predicate PrefixReplayed(cfg: Config, before: Node, after: Memory, n: NodeId)
  {
    var queue := Queue(before.queues, n);
    && |Bank(cfg, before.mem, n)| == |Bank(cfg, after, n)| == cfg.localRegionSize
    && forall i :: 0 <= i < cfg.localRegionSize ==>
         Bank(cfg, after, n)[i] == ByteAfter(queue[..FirstBeyond(cfg, queue)], n, i, Bank(cfg, before.mem, n)[i])
  }

  ghost predicate Emptied(cfg: Config, before: Node, after: Node, n: NodeId)
  {
    Queue(after.queues, n) == [] && PrefixReplayed(cfg, before, after.mem, n)
  }

  ghost predicate Untouched(cfg: Config, before: Node, after: Node, n: NodeId)
  {
    Queue(after.queues, n) == Queue(before.queues, n) && Bank(cfg, after.mem, n) == Bank(cfg, before.mem, n)
  }

  /** One flush empties its destination, succeeds iff the queue fits and touches no other. */
  lemma FlushDelivers(cfg: Config, s: Node, node: NodeId)
    requires MemOk(cfg, s.mem) && Homed(cfg, s.queues)
    ensures var r := Flush(cfg, s, node);
            && r.status == (if Fits(cfg, Queue(s.queues, node)) then Ok else OutOfRange)
            && MemOk(cfg, r.s.mem) && Homed(cfg, r.s.queues) && Emptied(cfg, s, r.s, node)
            && forall n: NodeId :: n != node ==> Untouched(cfg, s, r.s, n)
  {
    hide BatchWrite, CountFlags, PayloadBytes, MemOk, ByteAfter, Bank;
    var queue := Queue(s.queues, node);
    assert HomedQueue(cfg, queue, node);
    FlushFrame(cfg, s, node);
    if node == cfg.nodeId {
      EmptyBatch(cfg, s.mem);
      NothingReplayed(node);
    } else {
      BatchDeliversPrefix(cfg, s.mem, queue, node);
    }
    BankSize(cfg, s.mem, node);
    BankSize(cfg, Flush(cfg, s, node).s.mem, node);
  }

  lemma EmptyBatch(cfg: Config, mem: Memory)
    ensures BatchWrite(cfg, mem, []) == Written(mem, Ok)
  {
  }

  // ------------------------------------------------------- all destinations

  /** Exactly one destination that does not fit is emptied; the others that do not fit are untouched. */
  ghost predicate StoppedAt(cfg: Config, before: Node, after: Node, todo: set<NodeId>, bad: NodeId)
  {
    && bad in todo && !Fits(cfg, Queue(before.queues, bad)) && Emptied(cfg, before, after, bad)
    && forall n :: n in todo && n != bad && !Fits(cfg, Queue(before.queues, n)) ==> Untouched(cfg, before, after, n)
  }

  /** The outcome of flushing `todo`. */
  ghost predicate Delivered(cfg: Config, before: Node, after: Node, status: Status, todo: set<NodeId>)
  {
    && status in {Ok, OutOfRange}
    && (status == Ok <==> forall n :: n in todo ==> Fits(cfg, Queue(before.queues, n)))
    && (forall n: NodeId :: n !in todo ==> Untouched(cfg, before, after, n))
    && (forall n :: n in todo ==>
          Emptied(cfg, before, after, n) || (status != Ok && Untouched(cfg, before, after, n)))
    && (status != Ok ==> exists bad :: StoppedAt(cfg, before, after, todo, bad))
  }

  /** What happens to another destination after `node` is flushed is what happens to it in all. */
  lemma ThenLater(cfg: Config, s: Node, mid: Node, after: Node, n: NodeId)
    requires Untouched(cfg, s, mid, n)
    ensures Queue(mid.queues, n) == Queue(s.queues, n)
    ensures Untouched(cfg, mid, after, n) ==> Untouched(cfg, s, after, n)
    ensures Emptied(cfg, mid, after, n) ==> Emptied(cfg, s, after, n)
  {
    hide ByteAfter, FirstBeyond, Bank;
  }

  /** An emptied destination that is left alone stays emptied. */
  lemma ThenNothing(cfg: Config, s: Node, mid: Node, after: Node, n: NodeId)
    requires Emptied(cfg, s, mid, n) && Untouched(cfg, mid, after, n)
    ensures Emptied(cfg, s, after, n)
  {
    hide ByteAfter, FirstBeyond, Bank;
  }

  lemma {:induction false} FlushAllDelivers(cfg: Config, s: Node, todo: set<NodeId>, schedule: seq<NodeId>)
    requires MemOk(cfg, s.mem) && Homed(cfg, s.queues)
    ensures var r := FlushAll(cfg, s, todo, schedule); Delivered(cfg, s, r.s, r.status, todo)
    decreases |todo|
  {
    hide Flush, MemOk, Homed, Emptied, Untouched, Fits, Delivered, Queue;
    if todo == {} {
      NothingDelivered(cfg, s);
    } else {
      var node := Pick(todo, schedule);
      var mid := Flush(cfg, s, node);
      FlushDelivers(cfg, s, node);
      if mid.status == Ok {
        var rest := todo - {node};
        FlushAllDelivers(cfg, mid.s, rest, Rest(schedule));
        var r := FlushAll(cfg, mid.s, rest, Rest(schedule));
        DeliveredMore(cfg, s, mid.s, r.s, r.status, node, rest);
        assert rest + {node} == todo;
      } else {
        FailedAt(cfg, s, mid.s, todo, node);
      }
    }
  }

  lemma NothingDelivered(cfg: Config, s: Node)
    ensures Delivered(cfg, s, s, Ok, {})
  {
    hide Bank, Queue;
  }

  lemma FailedAt(cfg: Config, s: Node, after: Node, todo: set<NodeId>, node: NodeId)
    requires node in todo && !Fits(cfg, Queue(s.queues, node)) && Emptied(cfg, s, after, node)
    requires forall n: NodeId :: n != node ==> Untouched(cfg, s, after, n)
    ensures Delivered(cfg, s, after, OutOfRange, todo)
  {
    hide Emptied, Untouched, Fits, Queue;
    assert StoppedAt(cfg, s, after, todo, node);
  }

  lemma DeliveredMore(cfg: Config, s: Node, mid: Node, after: Node, status: Status, node: NodeId, rest: set<NodeId>)
    requires node !in rest && Fits(cfg, Queue(s.queues, node)) && Emptied(cfg, s, mid, node)
    requires forall n: NodeId :: n != node ==> Untouched(cfg, s, mid, n)
    requires Delivered(cfg, mid, after, status, rest)
    ensures Delivered(cfg, s, after, status, rest + {node})
  {
    hide Emptied, Untouched, Fits, Queue;
    forall n: NodeId | n != node
      ensures Queue(mid.queues, n) == Queue(s.queues, n)
      ensures Untouched(cfg, mid, after, n) ==> Untouched(cfg, s, after, n)
      ensures Emptied(cfg, mid, after, n) ==> Emptied(cfg, s, after, n)
    {
      ThenLater(cfg, s, mid, after, n);
    }
    ThenNothing(cfg, s, mid, after, node);
    if status != Ok {
      var bad :| StoppedAt(cfg, mid, after, rest, bad);
      assert StoppedAt(cfg, s, after, rest + {node}, bad);
    }
  }

  /**
    What a fence delivers. In every run, whatever the writes: the fence succeeds
    iff every pending queue fits its home region. Each destination is emptied,
    with exactly its requests before the first one out of range replayed into its
    bank; only a failed fence can leave others, queue and bank untouched, and of
    the queues that do not fit it empties exactly one.
   */
  lemma FenceDelivers(cfg: Config, calls: seq<Call>, sched: Schedule)
    ensures var s := After(cfg, calls); var r := Exec(cfg, s, CallFence(sched));
            && r.status in {Ok, OutOfRange}
            && (r.status == Ok <==> forall n: NodeId :: Fits(cfg, Queue(s.queues, n)))
            && (forall n: NodeId :: Emptied(cfg, s, r.s, n) || (r.status != Ok && Untouched(cfg, s, r.s, n)))
            && (r.status != Ok ==> exists bad :: StoppedAt(cfg, s, r.s, PendingDestinations(s.queues), bad))
  {
    hide After, Access.Fence, FlushAll, MemOk, Homed, StoppedAt, Settled;
    var s := After(cfg, calls);
    AlwaysSettled(cfg, calls);
    AlwaysHomed(cfg, calls);
    MemoryKeepsShape(cfg, calls);
    FenceReduces(cfg, s, sched);
    var todo, q := PendingDestinations(s.queues), Quiet(cfg, s);
    FlushAllDelivers(cfg, q, todo, sched.destinations);
    var r := Fence(cfg, s, sched);
    FromQuiet(cfg, s, r.s, r.status, todo);
    forall n: NodeId | n !in todo
      ensures Fits(cfg, Queue(s.queues, n)) && Emptied(cfg, s, r.s, n)
    {
      NothingPending(cfg, s, r.s, n);
    }
  }

  lemma FromQuiet(cfg: Config, s: Node, after: Node, status: Status, todo: set<NodeId>)
    requires Delivered(cfg, Quiet(cfg, s), after, status, todo)
    ensures Delivered(cfg, s, after, status, todo)
  {
    hide FirstBeyond, Bank, Fits, ByteAfter;
    var q := Quiet(cfg, s);
    assert forall n: NodeId :: Emptied(cfg, q, after, n) <==> Emptied(cfg, s, after, n);
    assert forall n: NodeId :: Untouched(cfg, q, after, n) <==> Untouched(cfg, s, after, n);
    hide Emptied, Untouched;
    if status != Ok {
      var bad :| StoppedAt(cfg, q, after, todo, bad);
      assert StoppedAt(cfg, s, after, todo, bad);
    }
  }

  lemma NothingPending(cfg: Config, s: Node, after: Node, n: NodeId)
    requires MemOk(cfg, s.mem) && n !in PendingDestinations(s.queues) && Untouched(cfg, s, after, n)
    ensures Fits(cfg, Queue(s.queues, n)) && Emptied(cfg, s, after, n)
  {
    assert Queue(s.queues, n) == [];
    BankSize(cfg, s.mem, n);
    NothingReplayed(n);
  }
}
