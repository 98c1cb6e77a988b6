/**
  The control path over the stub transport. Every request is acknowledged in
  the sender's own inbox before the call returns, so the next call clears the
  table before it ages it: no run of calls ever times out.
 */
module StubControl {
  import opened Types
  import opened ControlAcks
  import opened BlockRanges
  import opened StubNet
  import opened Access
  import opened Frames

  /** The non-zero request ids a list of messages acknowledges. */
  function AckIds(ms: seq<ControlMessage>): set<nat>
  {
    set m | m in ms && m.id != 0 :: m.id
  }

  predicate OnlyAcks(ms: seq<ControlMessage>)
  {
    forall m :: m in ms ==> m.opcode.IsAck()
  }

  /** Between calls: at most two messages wait, all of them acks, and every pending id is among them. */
  predicate Settled(cfg: Config, s: Node)
  {
    var ok :=
      var inbox := Inbox(s.inboxes, cfg.nodeId);
      && |inbox| <= 2
      && OnlyAcks(inbox)
      && s.pending.Keys <= AckIds(inbox);
    ok
  }

  /** The same state with an empty inbox and nothing pending. */
  function Quiet(cfg: Config, s: Node): Node
  {
    s.(inboxes := s.inboxes[cfg.nodeId := []], pending := map[])
  }

  lemma {:induction false} HandleAcks(cfg: Config, s: Node, ms: seq<ControlMessage>, inFence: bool)
    requires OnlyAcks(ms)
    ensures HandleAll(cfg, s, ms, inFence) == s.(pending := s.pending - AckIds(ms))
    decreases |ms|
  {
    if ms == [] {
      assert s.pending - AckIds(ms) == s.pending;
    } else {
      var next := Handle(cfg, s, ms[0], inFence);
      HandleAcks(cfg, next, ms[1..], inFence);
      var first := if ms[0].id == 0 then {} else {ms[0].id};
      assert next.pending == s.pending - first;
      assert AckIds(ms) == first + AckIds(ms[1..]) by {
        assert forall m :: m in ms <==> m == ms[0] || m in ms[1..];
      }
      assert s.pending - first - AckIds(ms[1..]) == s.pending - AckIds(ms);
    }
  }

  /** With only acks that cover what is pending, draining leaves an empty inbox and handling an empty table. */
  lemma AcksClear(cfg: Config, s: Node, inFence: bool)
    requires Settled(cfg, s)
    ensures Undrained(s.inboxes, cfg.nodeId) == s.inboxes[cfg.nodeId := []]
    ensures var drained := s.(inboxes := Undrained(s.inboxes, cfg.nodeId));
            HandleAll(cfg, drained, Drained(s.inboxes, cfg.nodeId), inFence) == Quiet(cfg, s)
  {
    hide HandleAll;
    var inbox := Inbox(s.inboxes, cfg.nodeId);
    var drained := s.(inboxes := Undrained(s.inboxes, cfg.nodeId));
    assert Drained(s.inboxes, cfg.nodeId) == inbox && inbox[|inbox|..] == [];
    HandleAcks(cfg, drained, inbox, inFence);
    assert s.pending - AckIds(inbox) == map[];
  }

  lemma NothingToPost(self: NodeId, inboxes: Inboxes)
    ensures PostAll(self, inboxes, []) == inboxes
  {
  }

  /** In a settled state the control phase only clears the inbox and the table. */
  lemma ControlPhaseClears(cfg: Config, s: Node, inFence: bool, schedule: seq<nat>)
    requires Settled(cfg, s)
    ensures ControlPhase(cfg, s, inFence, schedule) == Controlled(Quiet(cfg, s), Ok)
  {
    hide HandleAll, Poll, PostAll, Settled, Drained, Undrained;
    AcksClear(cfg, s, inFence);
    PollNothing(cfg, map[], schedule);
    var q := Quiet(cfg, s);
    NothingToPost(cfg.nodeId, q.inboxes);
    assert q.pending.Keys == {};
  }

  /** In a settled state a well-formed access is served at once, from the quiet state. */
  lemma ReadReduces(cfg: Config, s: Node, key: CacheKey, sched: Schedule)
    requires Settled(cfg, s)
    ensures Read(cfg, s, key, sched) ==
            if !key.addr.IsValid() || key.size == 0 then Reply(s, InvalidArg, [])
            else ServeRead(cfg, Quiet(cfg, s), key, sched)
  {
    ControlPhaseClears(cfg, s, false, sched.polls);
  }

  lemma WriteReduces(cfg: Config, s: Node, addr: GlobalAddr, data: seq<byte>, sched: Schedule)
    requires Settled(cfg, s)
    ensures Access.Write(cfg, s, addr, data, sched) ==
            if !addr.IsValid() || data == [] then Reply(s, InvalidArg, [])
            else ServeWrite(cfg, Quiet(cfg, s), addr, data)
  {
    ControlPhaseClears(cfg, s, false, sched.polls);
  }

  lemma QuietIsSettled(cfg: Config, s: Node)
    ensures Settled(cfg, Quiet(cfg, s))
  {
  }

  /** A request to another node puts its own ack into the sender's inbox. */
  lemma RequestAcksItself(cfg: Config, s: Node, m: ControlMessage, n: nat)
    requires m.target != cfg.nodeId && m.source == cfg.nodeId && !m.opcode.IsAck()
    requires OnlyAcks(Inbox(s.inboxes, cfg.nodeId)) && s.pending.Keys <= AckIds(Inbox(s.inboxes, cfg.nodeId))
    requires |Inbox(s.inboxes, cfg.nodeId)| <= n
    ensures var s' := Request(cfg, s, m);
            && |Inbox(s'.inboxes, cfg.nodeId)| <= n + 1
            && OnlyAcks(Inbox(s'.inboxes, cfg.nodeId))
            && s'.pending.Keys <= AckIds(Inbox(s'.inboxes, cfg.nodeId))
  {
    var before := Inbox(s.inboxes, cfg.nodeId);
    var after := Inbox(Request(cfg, s, m).inboxes, cfg.nodeId);
    assert after == before + [m.Ack(m.target)];
    assert m.Ack(m.target) in after;
    assert forall id :: id in AckIds(before) ==> id in AckIds(after);
  }

  lemma WriteRequestsSettled(cfg: Config, s: Node, key: CacheKey, range: BlockRange, f: WriteFlags)
    requires key.addr.home != cfg.nodeId
    requires Inbox(s.inboxes, cfg.nodeId) == [] && s.pending == map[]
    ensures Settled(cfg, WriteRequests(cfg, s, key, range, f))
  {
    var version := MaxVersion(s.blocks, Ids(range));
    if WI in f.modes {
      var m := Message(cfg, s, key.addr, range, WI, InvalidateRange, version);
      RequestAcksItself(cfg, s, m, 0);
    }
    var s1 := if WI in f.modes
              then Request(cfg, s, Message(cfg, s, key.addr, range, WI, InvalidateRange, version)) else s;
    if f.handoff {
      RequestAcksItself(cfg, s1, Message(cfg, s1, key.addr, range, Adaptive, OwnerTransfer, version), 1);
    }
  }

  /** Two states with the same inboxes and pending requests. */
  predicate SameControl(a: Node, b: Node)
  {
    var ok :=
      a.inboxes == b.inboxes && a.pending == b.pending;
    ok
  }

  lemma {:induction false} FlushAllControl(cfg: Config, s: Node, todo: set<NodeId>, schedule: seq<NodeId>)
    ensures SameControl(FlushAll(cfg, s, todo, schedule).s, s)
    ensures FlushAll(cfg, s, todo, schedule).status != TimedOut
    decreases |todo|
  {
    if todo != {} {
      var node := Pick(todo, schedule);
      FlushFrame(cfg, s, node);
      var r := Flush(cfg, s, node);
      if r.status == Ok {
        FlushAllControl(cfg, r.s, todo - {node}, Rest(schedule));
      }
    }
  }

  lemma ReadControl(cfg: Config, s: Node, key: CacheKey, sched: Schedule)
    requires Settled(cfg, s)
    ensures Settled(cfg, Read(cfg, s, key, sched).s) && Read(cfg, s, key, sched).status != TimedOut
  {
    ReadReduces(cfg, s, key, sched);
    QuietIsSettled(cfg, s);
    if key.addr.IsValid() && key.size != 0 {
      var q := Quiet(cfg, s);
      var v := Validate(cfg, q.mem.heap, key);
      if v.Resolved? {
        if key.addr.home == cfg.nodeId {
          assert SameControl(LocalRead(cfg, q, key, Ids(v.range)).s, q);
        } else {
          RemoteReadFrame(cfg, q, key, Ids(v.range), sched);
        }
      }
    }
  }

  lemma RemoteWriteControl(cfg: Config, s: Node, addr: GlobalAddr, data: seq<byte>, range: BlockRange)
    requires addr.home != cfg.nodeId
    requires Inbox(s.inboxes, cfg.nodeId) == [] && s.pending == map[]
    ensures Settled(cfg, RemoteWrite(cfg, s, addr, data, range).s)
    ensures RemoteWrite(cfg, s, addr, data, range).status != TimedOut
  {
    var key := CacheKey(addr, |data|);
    var (s1, f) := WriteMetadata(cfg, s, key, Ids(range));
    WriteRequestsSettled(cfg, s1, key, range, f);
    AnnouncedFrame(cfg, s, key, range);
    RemoteWriteFrame(cfg, s, addr, data, range);
  }

  lemma WriteControl(cfg: Config, s: Node, addr: GlobalAddr, data: seq<byte>, sched: Schedule)
    requires Settled(cfg, s)
    ensures Settled(cfg, Access.Write(cfg, s, addr, data, sched).s)
    ensures Access.Write(cfg, s, addr, data, sched).status != TimedOut
  {
    WriteReduces(cfg, s, addr, data, sched);
    QuietIsSettled(cfg, s);
    if addr.IsValid() && data != [] {
      var q := Quiet(cfg, s);
      var v := Validate(cfg, q.mem.heap, CacheKey(addr, |data|));
      if v.Resolved? {
        if addr.home == cfg.nodeId {
          assert SameControl(LocalWrite(cfg, q, addr, data, Ids(v.range)).s, q);
        } else {
          RemoteWriteControl(cfg, q, addr, data, v.range);
        }
      }
    }
  }

  /** In a settled state a fence is exactly the flush of every pending destination. */
  lemma FenceReduces(cfg: Config, s: Node, sched: Schedule)
    requires Settled(cfg, s)
    ensures Fence(cfg, s, sched) ==
            FlushAll(cfg, Quiet(cfg, s), PendingDestinations(s.queues), sched.destinations)
  {
    ControlPhaseClears(cfg, s, true, sched.polls);
    QuietIsSettled(cfg, s);
    var q := Quiet(cfg, s);
    FlushAllControl(cfg, q, PendingDestinations(q.queues), sched.destinations);
    var flushed := FlushAll(cfg, q, PendingDestinations(q.queues), sched.destinations);
    ControlPhaseClears(cfg, flushed.s, true, sched.finalPolls);
    assert flushed.s.inboxes[cfg.nodeId := []] == flushed.s.inboxes;
  }

  /** With nothing pending, a control phase over acks takes the oldest 64 of them and does nothing else. */
  lemma TakesAcks(cfg: Config, s: Node, inFence: bool, schedule: seq<nat>)
    requires OnlyAcks(Inbox(s.inboxes, cfg.nodeId)) && s.pending == map[]
    ensures ControlPhase(cfg, s, inFence, schedule) == Controlled(s.(inboxes := Undrained(s.inboxes, cfg.nodeId)), Ok)
  {
    hide HandleAll, Poll, PostAll;
    var drained := s.(inboxes := Undrained(s.inboxes, cfg.nodeId));
    var taken := Drained(s.inboxes, cfg.nodeId);
    assert forall m :: m in taken ==> m in Inbox(s.inboxes, cfg.nodeId);
    HandleAcks(cfg, drained, taken, inFence);
    assert s.pending - AckIds(taken) == map[];
    PollNothing(cfg, map[], schedule);
    assert drained.pending.Keys == {};
    NothingToPost(cfg.nodeId, drained.inboxes);
  }

  /** A fence drains before and after it flushes: when it succeeds, up to 128 waiting acks are gone. */
  lemma FenceDrainsTwice(cfg: Config, s: Node, sched: Schedule)
    requires OnlyAcks(Inbox(s.inboxes, cfg.nodeId)) && s.pending == map[] && Fence(cfg, s, sched).status == Ok
    ensures var inbox := Inbox(s.inboxes, cfg.nodeId);
            Inbox(Fence(cfg, s, sched).s.inboxes, cfg.nodeId) == if |inbox| <= 128 then [] else inbox[128..]
  {
    hide ControlPhase, FlushAll, OnlyAcks;
    var inbox := Inbox(s.inboxes, cfg.nodeId);
    var first := s.(inboxes := Undrained(s.inboxes, cfg.nodeId));
    TakesAcks(cfg, s, true, sched.polls);
    var todo := PendingDestinations(first.queues);
    FlushAllControl(cfg, first, todo, sched.destinations);
    var flushed := FlushAll(cfg, first, todo, sched.destinations);
    LaterAcks(inbox, 64);
    TakesAcks(cfg, flushed.s, true, sched.finalPolls);
  }

  lemma LaterAcks(ms: seq<ControlMessage>, n: nat)
    requires OnlyAcks(ms)
    ensures OnlyAcks(ms[Min(n, |ms|)..])
  {
    assert forall m :: m in ms[Min(n, |ms|)..] ==> m in ms;
  }

  lemma FenceControl(cfg: Config, s: Node, sched: Schedule)
    requires Settled(cfg, s)
    ensures Settled(cfg, Fence(cfg, s, sched).s) && Fence(cfg, s, sched).status != TimedOut
  {
    FenceReduces(cfg, s, sched);
    QuietIsSettled(cfg, s);
    FlushAllControl(cfg, Quiet(cfg, s), PendingDestinations(s.queues), sched.destinations);
  }

  /** One call keeps the control path settled and does not time out. */
  lemma CallStaysSettled(cfg: Config, s: Node, call: Call)
    requires Settled(cfg, s)
    ensures Settled(cfg, Exec(cfg, s, call).s) && Exec(cfg, s, call).status != TimedOut
  {
    match call
    case CallMalloc(size) => assert SameControl(Malloc(cfg, s, size).0, s);
    case CallRead(key, sched) => ReadControl(cfg, s, key, sched);
    case CallWrite(addr, data, sched) => WriteControl(cfg, s, addr, data, sched);
    case CallFence(sched) => FenceControl(cfg, s, sched);
    case CallRestart =>
  }

  lemma {:induction false} AlwaysSettled(cfg: Config, calls: seq<Call>)
    ensures Settled(cfg, After(cfg, calls))
  {
    if calls != [] {
      AlwaysSettled(cfg, calls[..|calls| - 1]);
      CallStaysSettled(cfg, After(cfg, calls[..|calls| - 1]), calls[|calls| - 1]);
    }
  }

  /**
    Over the stub no call of any run, restarts included, returns TimedOut, for
    every configuration: even with no polls and no retries allowed.
   */
  lemma NeverTimesOut(cfg: Config, calls: seq<Call>, call: Call)
    ensures Exec(cfg, After(cfg, calls), call).status != TimedOut
  {
    AlwaysSettled(cfg, calls);
    CallStaysSettled(cfg, After(cfg, calls), call);
  }
}
