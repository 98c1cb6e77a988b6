/**
  The control-request protocol between nodes (src/api/access_api.cc,
  src/api/sync_api.cc, src/runtime/context.cc) over a mailbox that may lose,
  duplicate and reorder: `sent` only grows, and a node may at any time drain
  any sequence of sent messages addressed to it, any number of times.
 */
module AckProtocol {
  import opened Types
  import opened ControlAcks

  /** A node's ack table, with the history of what it has tracked (since Init) and handled. */
  datatype Peer = Peer(nextId: nat, pending: Pending, tracked: set<ControlMessage>, handled: set<ControlMessage>)

  const NEW_PEER := Peer(1, map[], {}, {})

  datatype World = World(peers: map<NodeId, Peer>, sent: set<ControlMessage>)
  {
    function At(node: NodeId): Peer {
      if node in peers then peers[node] else NEW_PEER
    }

    function With(node: NodeId, p: Peer, posted: set<ControlMessage>): (w: World)
      ensures w.At(node) == p && (forall n: NodeId :: n != node ==> w.At(n) == At(n))
      ensures w.sent == sent + posted
    {
      World(peers[node := p], sent + posted)
    }
  }

  const START := World(map[], {})

  datatype Step =
    | Request(node: NodeId, target: NodeId, transfer: bool, first: BlockId, last: BlockId, version: nat,
              mode: CoherenceMode, posted: bool)
    | Drain(node: NodeId, batch: seq<ControlMessage>, acks: nat, schedule: seq<nat>)
    | Restart(node: NodeId)

  /** The message a request step makes; it takes the sender's next id. */
  function Made(w: World, s: Step): ControlMessage
    requires s.Request?
  {
    ControlMessage(if s.transfer then OwnerTransfer else InvalidateRange, s.node, s.target, w.At(s.node).nextId,
                   s.first, s.last, s.version, s.mode)
  }

  /** One drained message: an ack completes its request, a request is handled and, if `answers`, acknowledged. */
  ghost function Take(cfg: Config, w: World, node: NodeId, m: ControlMessage, answers: bool): World
  {
    var p := w.At(node);
    if m.opcode.IsAck() then w.With(node, p.(pending := StepTable(cfg, p.pending, Complete(m.id))), {})
    else w.With(node, p.(handled := p.handled + {m}), if answers then {m.Ack(node)} else {})
  }

  /**
    The drain loop; messages that were never sent to this node cannot arrive.
    The loop is left early when an acknowledgement cannot be posted, which
    happens after `acks` successful ones.
   */
  ghost function TakeAll(cfg: Config, w: World, node: NodeId, batch: seq<ControlMessage>, acks: nat): (World, bool)
    decreases |batch|
  {
    if batch == [] then (w, true)
    else
      var m := batch[0];
      if m !in w.sent || m.target != node then TakeAll(cfg, w, node, batch[1..], acks)
      else if m.opcode.IsAck() then TakeAll(cfg, Take(cfg, w, node, m, true), node, batch[1..], acks)
      else if acks == 0 then (Take(cfg, w, node, m, false), false)
      else TakeAll(cfg, Take(cfg, w, node, m, true), node, batch[1..], acks - 1)
  }

  /** Age the pending requests; due ones are posted again unless the poll times out. */
  ghost function Age(cfg: Config, w: World, node: NodeId, schedule: seq<nat>): World
  {
    var p := w.At(node);
    var r := Poll(cfg, p.pending, p.pending.Keys, schedule);
    w.With(node, p.(pending := r.pending), if r.status == Ok then set m | m in r.retries else {})
  }

  ghost function Apply(cfgs: NodeId -> Config, w: World, s: Step): World
  {
    var p := w.At(s.node);
    match s
    case Request(node, _, _, _, _, _, _, posted) =>
      var m := Made(w, s);
      if posted then
        w.With(node, p.(nextId := p.nextId + 1, pending := StepTable(cfgs(node), p.pending, Track(m)),
               tracked := p.tracked + {m}), {m})
      else w.With(node, p.(nextId := p.nextId + 1), {})
    case Drain(node, batch, acks, schedule) =>
      var (w1, done) := TakeAll(cfgs(node), w, node, batch, acks);
      if done then Age(cfgs(node), w1, node, schedule) else w1
    case Restart(node) => w.With(node, Peer(1, map[], {}, p.handled), {})
  }

  /** The world after further steps. */
  ghost function From(cfgs: NodeId -> Config, w: World, steps: seq<Step>): World
  {
    if steps == [] then w else Apply(cfgs, From(cfgs, w, steps[..|steps| - 1]), steps[|steps| - 1])
  }

  ghost function Reached(cfgs: NodeId -> Config, steps: seq<Step>): World
  {
    From(cfgs, START, steps)
  }

  predicate Done(w: World, t: ControlMessage)
  {
    t in w.At(t.target).handled
  }

  /** Ack safety of one node: each request it tracked and that is no longer pending was handled at its target. */
  ghost predicate AckSafe(w: World, n: NodeId)
  {
    forall t :: t in w.At(n).tracked && t.id !in w.At(n).pending ==> Done(w, t)
  }

  // -------------------------------------- what holds whatever happens, restarts too

  /** Every acknowledgement in the mailbox was posted by a node that handled its request. */
  ghost predicate Answered(w: World)
  {
    forall a :: a in w.sent && a.opcode.IsAck() ==> exists r :: r in w.At(a.source).handled && r.Ack(a.source) == a
  }

  ghost predicate HandledOk(w: World)
  {
    forall n: NodeId, r :: r in w.At(n).handled ==> r in w.sent && r.target == n && !r.opcode.IsAck()
  }

  /** Ids are positive, and what a node waits for was sent. */
  ghost predicate Numbered(w: World)
  {
    && (forall n: NodeId :: w.At(n).nextId > 0)
    && (forall m :: m in w.sent && !m.opcode.IsAck() ==> m.id > 0)
    && (forall n: NodeId, id :: id in w.At(n).pending ==> w.At(n).pending[id].message in w.sent)
  }

  ghost predicate Sound(w: World)
  {
    var ok := Answered(w) && HandledOk(w) && Numbered(w);
    ok
  }

  lemma AnsweredStays(w: World, w': World)
    requires Answered(w)
    requires forall n: NodeId :: w.At(n).handled <= w'.At(n).handled
    requires forall a :: a in w'.sent && a.opcode.IsAck() ==> a in w.sent
    ensures Answered(w')
  {
    forall a | a in w'.sent && a.opcode.IsAck()
      ensures exists r :: r in w'.At(a.source).handled && r.Ack(a.source) == a
    {
      var r :| r in w.At(a.source).handled && r.Ack(a.source) == a;
      assert r in w'.At(a.source).handled;
    }
  }

  lemma TakeSound(cfg: Config, w: World, node: NodeId, m: ControlMessage, answers: bool)
    requires Sound(w) && m in w.sent && m.target == node
    ensures Sound(Take(cfg, w, node, m, answers))
  {
    if m.opcode.IsAck() {
      AnsweredStays(w, Take(cfg, w, node, m, answers));
    } else {
      TakeRequestSound(cfg, w, node, m, answers);
    }
  }

  lemma TakeRequestSound(cfg: Config, w: World, node: NodeId, m: ControlMessage, answers: bool)
    requires Sound(w) && m in w.sent && m.target == node && !m.opcode.IsAck()
    ensures Sound(Take(cfg, w, node, m, answers))
  {
    var w' := Take(cfg, w, node, m, answers);
    forall a | a in w'.sent && a.opcode.IsAck()
      ensures exists r :: r in w'.At(a.source).handled && r.Ack(a.source) == a
    {
      if a in w.sent {
        var r :| r in w.At(a.source).handled && r.Ack(a.source) == a;
        assert r in w'.At(a.source).handled;
      } else {
        assert m in w'.At(a.source).handled && m.Ack(a.source) == a;
      }
    }
  }

  lemma {:induction false} TakeAllSound(cfg: Config, w: World, node: NodeId, batch: seq<ControlMessage>, acks: nat)
    requires Sound(w)
    ensures Sound(TakeAll(cfg, w, node, batch, acks).0)
    decreases |batch|
  {
    hide Sound, Take;
    if batch != [] {
      var m := batch[0];
      if m !in w.sent || m.target != node {
        TakeAllSound(cfg, w, node, batch[1..], acks);
      } else if m.opcode.IsAck() {
        TakeSound(cfg, w, node, m, true);
        TakeAllSound(cfg, Take(cfg, w, node, m, true), node, batch[1..], acks);
      } else if acks == 0 {
        TakeSound(cfg, w, node, m, false);
      } else {
        TakeSound(cfg, w, node, m, true);
        TakeAllSound(cfg, Take(cfg, w, node, m, true), node, batch[1..], acks - 1);
      }
    }
  }

  lemma {:induction false} PollKeepsMessages(cfg: Config, pending: Pending, todo: set<nat>, schedule: seq<nat>)
    requires todo <= pending.Keys
    ensures var r := Poll(cfg, pending, todo, schedule);
            && r.pending.Keys == pending.Keys
            && (forall id :: id in pending ==> r.pending[id].message == pending[id].message)
            && (forall m :: m in r.retries ==> exists id :: id in pending && pending[id].message == m)
    decreases |todo|
  {
    if todo != {} {
      var id := Pick(todo, schedule);
      var e := pending[id];
      if e.polls > 0 {
        PollKeepsMessages(cfg, pending[id := e.(polls := e.polls - 1)], todo - {id}, Rest(schedule));
      } else if e.retries > 0 {
        PollKeepsMessages(cfg, pending[id := PendingAck(e.message, cfg.ackTimeoutPolls, e.retries - 1)], todo - {id}, Rest(schedule));
      }
    }
  }

  /** The nodes differ at most in how long their pending requests have waited. */
  ghost predicate SameButAges(w: World, w': World)
  {
    && w'.sent == w.sent
    && (forall n: NodeId :: w'.At(n).handled == w.At(n).handled && w'.At(n).tracked == w.At(n).tracked)
    && (forall n: NodeId :: w'.At(n).pending.Keys == w.At(n).pending.Keys && w'.At(n).nextId == w.At(n).nextId)
    && (forall n: NodeId, id :: id in w.At(n).pending ==> w'.At(n).pending[id].message == w.At(n).pending[id].message)
  }

  /** Retransmissions are of messages already sent, so the mailbox gains nothing new. */
  lemma AgeChangesAges(cfg: Config, w: World, node: NodeId, schedule: seq<nat>)
    requires Sound(w)
    ensures SameButAges(w, Age(cfg, w, node, schedule))
  {
    hide Poll, Answered, HandledOk;
    PollKeepsMessages(cfg, w.At(node).pending, w.At(node).pending.Keys, schedule);
    assert Age(cfg, w, node, schedule).sent == w.sent;
  }

  lemma SameButAgesSound(w: World, w': World)
    requires Sound(w) && SameButAges(w, w')
    ensures Sound(w')
  {
    AnsweredStays(w, w');
  }

  /** Answered, handled and numbered messages in every run, restarts included. */
  lemma StepSound(cfgs: NodeId -> Config, w: World, s: Step)
    requires Sound(w)
    ensures Sound(Apply(cfgs, w, s))
  {
    match s
    case Request(_, _, _, _, _, _, _, _) => RequestSound(cfgs, w, s);
    case Drain(node, batch, acks, schedule) => DrainSound(cfgs, w, node, batch, acks, schedule);
    case Restart(_) => AnsweredStays(w, Apply(cfgs, w, s));
  }

  lemma RequestSound(cfgs: NodeId -> Config, w: World, s: Step)
    requires Sound(w) && s.Request?
    ensures Sound(Apply(cfgs, w, s))
  {
    AnsweredStays(w, Apply(cfgs, w, s));
  }

  lemma DrainSound(cfgs: NodeId -> Config, w: World, node: NodeId, batch: seq<ControlMessage>, acks: nat, schedule: seq<nat>)
    requires Sound(w)
    ensures Sound(Apply(cfgs, w, Drain(node, batch, acks, schedule)))
  {
    hide Sound, TakeAll, Age, SameButAges;
    TakeAllSound(cfgs(node), w, node, batch, acks);
    var w1 := TakeAll(cfgs(node), w, node, batch, acks).0;
    AgeChangesAges(cfgs(node), w1, node, schedule);
    SameButAgesSound(w1, Age(cfgs(node), w1, node, schedule));
  }

  lemma {:induction false} FromSound(cfgs: NodeId -> Config, w: World, steps: seq<Step>)
    requires Sound(w)
    ensures Sound(From(cfgs, w, steps))
  {
    hide Sound, Apply;
    if steps != [] {
      FromSound(cfgs, w, steps[..|steps| - 1]);
      StepSound(cfgs, From(cfgs, w, steps[..|steps| - 1]), steps[|steps| - 1]);
    }
  }

  // ------------------------------------------------------- one node's requests

  predicate SameRequest(a: ControlMessage, b: ControlMessage)
  {
    !a.opcode.IsAck() && !b.opcode.IsAck() && a.source == b.source && a.id == b.id
  }

  /** The node's requests differ in their ids; each one it tracks is pending or done. */
  ghost predicate NodeInv(w: World, n: NodeId)
  {
    && (forall a, b :: a in w.sent && b in w.sent && SameRequest(a, b) && a.source == n ==> a == b)
    && (forall t :: t in w.At(n).tracked ==>
                      && t in w.sent && t.source == n && !t.opcode.IsAck()
                      && (t.id in w.At(n).pending || Done(w, t)))
    && (forall id :: id in w.At(n).pending ==>
                       w.At(n).pending[id].message in w.At(n).tracked && w.At(n).pending[id].message.id == id)
  }

  /** If this step is a request of the node, it reuses no id of an earlier one. */
  ghost predicate FreshFor(w: World, s: Step, n: NodeId)
  {
    s.Request? && s.node == n ==> forall m :: m in w.sent ==> !SameRequest(m, Made(w, s))
  }

  lemma RequestKeeps(cfgs: NodeId -> Config, w: World, s: Step, n: NodeId)
    requires Sound(w) && NodeInv(w, n) && s.Request? && FreshFor(w, s, n)
    ensures NodeInv(Apply(cfgs, w, s), n)
  {
    hide Answered, HandledOk;
    var w' := Apply(cfgs, w, s);
    assert forall k: NodeId :: w'.At(k).handled == w.At(k).handled;
    assert w.At(s.node).nextId > 0;
  }

  /** An ack that arrives is for a request its sender handled, so completing it is safe. */
  lemma TakeKeeps(cfg: Config, w: World, node: NodeId, m: ControlMessage, answers: bool, n: NodeId)
    requires Sound(w) && NodeInv(w, n) && m in w.sent && m.target == node
    ensures NodeInv(Take(cfg, w, node, m, answers), n)
  {
    var w' := Take(cfg, w, node, m, answers);
    assert forall k: NodeId :: w.At(k).handled <= w'.At(k).handled;
    forall t | t in w'.At(n).tracked
      ensures t.id in w'.At(n).pending || Done(w', t)
    {
      assert t.id in w.At(n).pending || Done(w, t);
      if m.opcode.IsAck() && n == node && t.id == m.id {
        var r :| r in w.At(m.source).handled && r.Ack(m.source) == m;
        assert SameRequest(t, r);
      }
    }
  }

  lemma {:induction false} TakeAllKeeps(cfg: Config, w: World, node: NodeId, batch: seq<ControlMessage>, acks: nat, n: NodeId)
    requires Sound(w) && NodeInv(w, n)
    ensures NodeInv(TakeAll(cfg, w, node, batch, acks).0, n)
    decreases |batch|
  {
    hide Sound, NodeInv, Take;
    if batch != [] {
      var m := batch[0];
      if m !in w.sent || m.target != node {
        TakeAllKeeps(cfg, w, node, batch[1..], acks, n);
      } else if m.opcode.IsAck() || acks > 0 {
        TakeSound(cfg, w, node, m, true);
        TakeKeeps(cfg, w, node, m, true, n);
        TakeAllKeeps(cfg, Take(cfg, w, node, m, true), node, batch[1..], if m.opcode.IsAck() then acks else acks - 1, n);
      } else {
        TakeKeeps(cfg, w, node, m, false, n);
      }
    }
  }

  lemma SameButAgesKeeps(w: World, w': World, n: NodeId)
    requires NodeInv(w, n) && SameButAges(w, w')
    ensures NodeInv(w', n)
  {
    forall t | t in w'.At(n).tracked
      ensures t.id in w'.At(n).pending || Done(w', t)
    {
      assert t.id in w.At(n).pending || Done(w, t);
    }
  }

  lemma StepKeeps(cfgs: NodeId -> Config, w: World, s: Step, n: NodeId)
    requires Sound(w) && NodeInv(w, n) && FreshFor(w, s, n)
    ensures NodeInv(Apply(cfgs, w, s), n)
  {
    match s
    case Request(_, _, _, _, _, _, _, _) => RequestKeeps(cfgs, w, s, n);
    case Drain(node, batch, acks, schedule) => DrainKeeps(cfgs, w, node, batch, acks, schedule, n);
    case Restart(node) => RestartKeeps(cfgs, w, node, n);
  }

  lemma DrainKeeps(cfgs: NodeId -> Config, w: World, node: NodeId, batch: seq<ControlMessage>, acks: nat, schedule: seq<nat>,
                   n: NodeId)
    requires Sound(w) && NodeInv(w, n)
    ensures NodeInv(Apply(cfgs, w, Drain(node, batch, acks, schedule)), n)
  {
    hide Sound, NodeInv, TakeAll, Age, SameButAges;
    TakeAllSound(cfgs(node), w, node, batch, acks);
    TakeAllKeeps(cfgs(node), w, node, batch, acks, n);
    var w1 := TakeAll(cfgs(node), w, node, batch, acks).0;
    AgeChangesAges(cfgs(node), w1, node, schedule);
    SameButAgesKeeps(w1, Age(cfgs(node), w1, node, schedule), n);
  }

  lemma RestartKeeps(cfgs: NodeId -> Config, w: World, node: NodeId, n: NodeId)
    requires NodeInv(w, n)
    ensures NodeInv(Apply(cfgs, w, Restart(node)), n)
  {
    var w' := Apply(cfgs, w, Restart(node));
    forall t | t in w'.At(n).tracked
      ensures t.id in w'.At(n).pending || Done(w', t)
    {
      assert t.id in w.At(n).pending || Done(w, t);
    }
  }

  // ----------------------------------------------------------------- safety

  /** No request of the node in these steps reuses an id it has used before. */
  ghost predicate FreshIds(cfgs: NodeId -> Config, w: World, steps: seq<Step>, n: NodeId)
  {
    forall k :: 0 <= k < |steps| ==> FreshFor(From(cfgs, w, steps[..k]), steps[k], n)
  }

  lemma FreshPrefix(cfgs: NodeId -> Config, w: World, steps: seq<Step>, n: NodeId, k: nat)
    requires FreshIds(cfgs, w, steps, n) && k <= |steps|
    ensures FreshIds(cfgs, w, steps[..k], n)
  {
    hide FreshFor, From;
    forall j | 0 <= j < k
      ensures FreshFor(From(cfgs, w, steps[..k][..j]), steps[..k][j], n)
    {
      assert steps[..k][..j] == steps[..j];
    }
  }

  lemma {:induction false} FromKeeps(cfgs: NodeId -> Config, w: World, steps: seq<Step>, n: NodeId)
    requires Sound(w) && NodeInv(w, n) && FreshIds(cfgs, w, steps, n)
    ensures NodeInv(From(cfgs, w, steps), n)
  {
    hide Sound, NodeInv, Apply, FreshFor;
    if steps != [] {
      var k := |steps| - 1;
      FreshPrefix(cfgs, w, steps, n, k);
      FromSound(cfgs, w, steps[..k]);
      FromKeeps(cfgs, w, steps[..k], n);
      assert FreshFor(From(cfgs, w, steps[..k]), steps[k], n);
      StepKeeps(cfgs, From(cfgs, w, steps[..k]), steps[k], n);
    }
  }

  /**
    Ack safety. Over a mailbox that loses, duplicates and reorders, in every
    run in which a node's requests reuse no id, whatever the other nodes do and
    however often anyone restarts: a request the node tracked and that is no
    longer pending was handled at its target.
   */
  lemma CompletedMeansHandled(cfgs: NodeId -> Config, steps: seq<Step>, n: NodeId)
    requires FreshIds(cfgs, START, steps, n)
    ensures AckSafe(Reached(cfgs, steps), n)
  {
    hide From;
    FromKeeps(cfgs, START, steps, n);
  }

  /** The node's ids in the mailbox are below its counter. */
  ghost predicate Below(w: World, n: NodeId)
  {
    forall m :: m in w.sent && !m.opcode.IsAck() && m.source == n ==> m.id < w.At(n).nextId
  }

  lemma {:induction false} TakeAllBelow(cfg: Config, w: World, node: NodeId, batch: seq<ControlMessage>, acks: nat, n: NodeId)
    requires Below(w, n)
    ensures Below(TakeAll(cfg, w, node, batch, acks).0, n)
    decreases |batch|
  {
    if batch != [] {
      var m := batch[0];
      if m !in w.sent || m.target != node {
        TakeAllBelow(cfg, w, node, batch[1..], acks, n);
      } else if m.opcode.IsAck() {
        TakeAllBelow(cfg, Take(cfg, w, node, m, true), node, batch[1..], acks, n);
      } else if acks > 0 {
        TakeAllBelow(cfg, Take(cfg, w, node, m, true), node, batch[1..], acks - 1, n);
      }
    }
  }

  lemma StepBelow(cfgs: NodeId -> Config, w: World, s: Step, n: NodeId)
    requires Sound(w) && Below(w, n) && s != Restart(n)
    ensures Below(Apply(cfgs, w, s), n) && FreshFor(w, s, n)
  {
    hide Answered, HandledOk, Poll;
    match s
    case Request(_, _, _, _, _, _, _, _) =>
    case Drain(node, batch, acks, schedule) =>
      TakeAllBelow(cfgs(node), w, node, batch, acks, n);
      TakeAllSound(cfgs(node), w, node, batch, acks);
      AgeChangesAges(cfgs(node), TakeAll(cfgs(node), w, node, batch, acks).0, node, schedule);
    case Restart(node) =>
  }

  predicate NeverRestarts(steps: seq<Step>, n: NodeId)
  {
    forall k :: 0 <= k < |steps| ==> steps[k] != Restart(n)
  }

  /** From a world whose ids are below the node's counter, the node reuses none until it restarts. */
  lemma {:induction false} BelowIsFresh(cfgs: NodeId -> Config, w: World, steps: seq<Step>, n: NodeId)
    requires Sound(w) && Below(w, n) && NeverRestarts(steps, n)
    ensures FreshIds(cfgs, w, steps, n) && Below(From(cfgs, w, steps), n)
  {
    hide Sound, Apply, FreshFor, Below;
    if steps != [] {
      var k := |steps| - 1;
      BelowIsFresh(cfgs, w, steps[..k], n);
      FromSound(cfgs, w, steps[..k]);
      StepBelow(cfgs, From(cfgs, w, steps[..k]), steps[k], n);
      forall j | 0 <= j < |steps|
        ensures FreshFor(From(cfgs, w, steps[..j]), steps[j], n)
      {
        if j < k {
          assert FreshFor(From(cfgs, w, steps[..k][..j]), steps[..k][j], n);
          assert steps[..k][..j] == steps[..j];
        }
      }
    }
  }

  lemma StartIsClean(n: NodeId)
    ensures Sound(START) && NodeInv(START, n) && Below(START, n)
  {
  }

  /** Ack safety within one Init: a node that never restarts is safe, whatever restarts around it. */
  lemma SafeWithinOneInit(cfgs: NodeId -> Config, steps: seq<Step>, n: NodeId)
    requires NeverRestarts(steps, n)
    ensures AckSafe(Reached(cfgs, steps), n)
  {
    hide Sound, NodeInv, Below, From, AckSafe;
    StartIsClean(n);
    BelowIsFresh(cfgs, START, steps, n);
    CompletedMeansHandled(cfgs, steps, n);
  }

  // -------------------------------------------------- exactly when restarts are safe

  /** Whatever happens until the node's next restart, its requests are ack-safe. */
  ghost predicate SafeLife(cfgs: NodeId -> Config, w: World, n: NodeId)
  {
    forall more :: NeverRestarts(more, n) ==> AckSafe(From(cfgs, w, more), n)
  }

  /** The mailbox holds no request of this node. */
  ghost predicate NothingSentBy(w: World, n: NodeId)
  {
    forall m :: m in w.sent ==> m.opcode.IsAck() || m.source != n
  }

  lemma CleanRestartIsSafe(cfgs: NodeId -> Config, w: World, n: NodeId, more: seq<Step>)
    requires Sound(w) && NothingSentBy(w, n) && w.At(n).tracked == {} && w.At(n).pending == map[]
    requires NeverRestarts(more, n)
    ensures AckSafe(From(cfgs, w, more), n)
  {
    hide Sound, From;
    BelowIsFresh(cfgs, w, more, n);
    FromKeeps(cfgs, w, more, n);
  }

  lemma {:induction false} FromConcat(cfgs: NodeId -> Config, w: World, a: seq<Step>, b: seq<Step>)
    ensures From(cfgs, w, a + b) == From(cfgs, From(cfgs, w, a), b)
  {
    hide Apply;
    if b == [] {
      assert a + b == a;
    } else {
      var k := |b| - 1;
      assert (a + b)[..|a| + k] == a + b[..k];
      FromConcat(cfgs, w, a, b[..k]);
    }
  }

  lemma FromOne(cfgs: NodeId -> Config, w: World, s: Step)
    ensures From(cfgs, w, [s]) == Apply(cfgs, w, s)
  {
    hide Apply;
    assert [s][..0] == [];
    assert From(cfgs, w, []) == w;
  }

  /** A request whose post fails: only the counter moves. */
  function Failed(n: NodeId): Step
  {
    Request(n, n, false, BlockId(0, 0), BlockId(0, 0), 0, WI, false)
  }

  lemma {:induction false} CountUp(cfgs: NodeId -> Config, w: World, n: NodeId, k: nat)
    ensures var w' := From(cfgs, w, seq(k, _ => Failed(n)));
            && w'.sent == w.sent && w'.At(n) == w.At(n).(nextId := w.At(n).nextId + k)
            && (forall x: NodeId :: x != n ==> w'.At(x) == w.At(x))
  {
    if k > 0 {
      CountUp(cfgs, w, n, k - 1);
      assert seq(k, _ => Failed(n))[..k - 1] == seq(k - 1, _ => Failed(n));
    }
  }

  lemma {:induction false} UnusedVersion(messages: set<ControlMessage>) returns (v: nat)
    ensures forall m :: m in messages ==> m.version < v
  {
    v := 0;
    if messages != {} {
      var m :| m in messages;
      v := UnusedVersion(messages - {m});
      v := Max(v, m.version + 1);
      assert forall x :: x in messages ==> x == m || x in messages - {m};
    }
  }

  /** One message that arrives is taken, and nothing else happens when nothing is pending. */
  lemma DrainOne(cfgs: NodeId -> Config, w: World, node: NodeId, m: ControlMessage)
    requires Sound(w) && m in w.sent && m.target == node
    ensures SameButAges(Take(cfgs(node), w, node, m, true), Apply(cfgs, w, Drain(node, [m], 1, [])))
  {
    hide Sound, Take, Age, SameButAges;
    assert [m][1..] == [];
    assert TakeAll(cfgs(node), w, node, [m], 1) == (Take(cfgs(node), w, node, m, true), true);
    TakeSound(cfgs(node), w, node, m, true);
    AgeChangesAges(cfgs(node), Take(cfgs(node), w, node, m, true), node, []);
  }

  /**
    A request left over from an earlier life breaks the next one: its target
    handles it, the node reaches the same id with a request nobody handles, and
    then the old ack arrives.
   */
  lemma StaleAckBreaks(cfgs: NodeId -> Config, w: World, n: NodeId, stale: ControlMessage) returns (more: seq<Step>)
    requires Sound(w) && stale in w.sent && !stale.opcode.IsAck() && stale.source == n
    requires w.At(n).nextId == 1 && w.At(n).tracked == {} && w.At(n).pending == map[]
    ensures NeverRestarts(more, n) && !AckSafe(From(cfgs, w, more), n)
  {
    hide From, Apply, Sound;
    var target, ack := stale.target, stale.Ack(stale.target);
    var v := UnusedVersion(w.At(target).handled + {stale});
    HandleOld(cfgs, w, stale);
    var s0, skips := Drain(target, [stale], 1, []), seq(stale.id - 1, _ => Failed(n));
    var s1 := Request(n, target, false, stale.first, stale.last, v, WI, true);
    var s2 := Drain(n, [ack], 1, []);
    more := [s0] + skips + [s1] + [s2];
    var w1 := Apply(cfgs, w, s0);
    var w2 := From(cfgs, w1, skips);
    CountUp(cfgs, w1, n, stale.id - 1);
    FromSound(cfgs, w1, skips);
    var w3 := Apply(cfgs, w2, s1);
    StepSound(cfgs, w2, s1);
    var t := ControlMessage(InvalidateRange, n, target, stale.id, stale.first, stale.last, v, WI);
    TrackNew(cfgs, w2, s1, t);
    FourStages(cfgs, w, s0, skips, s1, s2);
    CompleteStale(cfgs, w3, n, ack, t);
  }

  lemma HandleOld(cfgs: NodeId -> Config, w: World, stale: ControlMessage)
    requires Sound(w) && stale in w.sent && !stale.opcode.IsAck()
    ensures var n, target := stale.source, stale.target; var w1 := Apply(cfgs, w, Drain(target, [stale], 1, []));
            && Sound(w1) && stale.Ack(target) in w1.sent && stale.id > 0
            && w1.At(target).handled == w.At(target).handled + {stale}
            && w1.At(n).nextId == w.At(n).nextId && w1.At(n).tracked == w.At(n).tracked
            && w1.At(n).pending.Keys == w.At(n).pending.Keys
  {
    hide Apply, Answered, HandledOk;
    DrainOne(cfgs, w, stale.target, stale);
    StepSound(cfgs, w, Drain(stale.target, [stale], 1, []));
  }

  lemma TrackNew(cfgs: NodeId -> Config, w: World, s: Step, t: ControlMessage)
    requires s.Request? && s.posted && Made(w, s) == t && t.id > 0
    requires w.At(s.node).tracked == {} && w.At(s.node).pending.Keys == {}
    ensures var w' := Apply(cfgs, w, s);
            && w'.At(s.node).tracked == {t} && w'.At(s.node).pending.Keys == {t.id} && w'.sent == w.sent + {t}
            && (forall x: NodeId :: w'.At(x).handled == w.At(x).handled)
  {
  }

  lemma FourStages(cfgs: NodeId -> Config, w: World, s0: Step, skips: seq<Step>, s1: Step, s2: Step)
    ensures From(cfgs, w, [s0] + skips + [s1] + [s2]) ==
            Apply(cfgs, Apply(cfgs, From(cfgs, Apply(cfgs, w, s0), skips), s1), s2)
  {
    hide Apply, From;
    FromOne(cfgs, w, s0);
    FromConcat(cfgs, w, [s0], skips);
    FromConcat(cfgs, w, [s0] + skips, [s1]);
    FromOne(cfgs, From(cfgs, w, [s0] + skips), s1);
    FromConcat(cfgs, w, [s0] + skips + [s1], [s2]);
    FromOne(cfgs, From(cfgs, w, [s0] + skips + [s1]), s2);
  }

  lemma CompleteStale(cfgs: NodeId -> Config, w: World, n: NodeId, ack: ControlMessage, t: ControlMessage)
    requires Sound(w) && ack in w.sent && ack.target == n && ack.opcode.IsAck() && ack.id == t.id > 0
    requires w.At(n).tracked == {t} && !Done(w, t)
    ensures !AckSafe(Apply(cfgs, w, Drain(n, [ack], 1, [])), n)
  {
    hide Apply, Sound;
    DrainOne(cfgs, w, n, ack);
    var w' := Apply(cfgs, w, Drain(n, [ack], 1, []));
    assert t in w'.At(n).tracked && t.id !in w'.At(n).pending && !Done(w', t);
  }

  /**
    Exactly when a restart is safe. In every run that ends with a restart of a
    node, every continuation up to its next restart is ack-safe for it iff the
    mailbox holds no request the node sent before.
   */
  lemma RestartSafeIff(cfgs: NodeId -> Config, steps: seq<Step>, n: NodeId)
    ensures var w := Reached(cfgs, steps + [Restart(n)]); SafeLife(cfgs, w, n) <==> NothingSentBy(w, n)
  {
    hide From, Sound, AckSafe;
    var w := Reached(cfgs, steps + [Restart(n)]);
    StartIsClean(n);
    FromSound(cfgs, START, steps + [Restart(n)]);
    FromConcat(cfgs, START, steps, [Restart(n)]);
    FromOne(cfgs, Reached(cfgs, steps), Restart(n));
    if NothingSentBy(w, n) {
      forall more | NeverRestarts(more, n)
        ensures AckSafe(From(cfgs, w, more), n)
      {
        CleanRestartIsSafe(cfgs, w, n, more);
      }
    } else {
      var m :| m in w.sent && !m.opcode.IsAck() && m.source == n;
      var more := StaleAckBreaks(cfgs, w, n, m);
      assert NeverRestarts(more, n) && !AckSafe(From(cfgs, w, more), n);
    }
  }

  /**
    Ids restart at 1 with Init: send one request, restart, and some continuation
    completes the next request without anybody handling it.
   */
  lemma StaleAckAfterRestart(cfgs: NodeId -> Config) returns (steps: seq<Step>)
    ensures steps != [] && steps[0] == Request(1, 2, false, BlockId(0, 0), BlockId(0, 0), 1, WI, true)
    ensures |steps| > 1 && steps[1] == Restart(1) && NeverRestarts(steps[2..], 1)
    ensures !AckSafe(Reached(cfgs, steps), 1)
  {
    hide Sound, AckSafe;
    var ask, again := Request(1, 2, false, BlockId(0, 0), BlockId(0, 0), 1, WI, true), Restart(1);
    var w := Apply(cfgs, Apply(cfgs, START, ask), again);
    StartIsClean(1);
    StepSound(cfgs, START, ask);
    StepSound(cfgs, Apply(cfgs, START, ask), again);
    assert Made(START, ask) in w.sent;
    var more := StaleAckBreaks(cfgs, w, 1, Made(START, ask));
    steps := [ask, again] + more;
    FromOne(cfgs, START, ask);
    FromOne(cfgs, Apply(cfgs, START, ask), again);
    FromConcat(cfgs, START, [ask], [again]);
    assert [ask] + [again] == [ask, again];
    FromConcat(cfgs, START, [ask, again], more);
    assert steps[2..] == more;
  }
}
