/**
  Control messages and the table of requests awaiting an acknowledgement
  (src/runtime/context.cc). Each poll ages every pending request; a request
  that has run out of polls is retransmitted, and one that has also run out of
  retries times out. The table is a hash table, so a poll may visit it in any
  order and stops at the first timeout.
 */
module ControlAcks {
  import opened Types
  import opened Arithmetic

  datatype Opcode = InvalidateRange | OwnerTransfer | InvalidateAck | OwnerTransferAck {
    predicate IsAck() {
      InvalidateAck? || OwnerTransferAck?
    }

    function AckFor(): Opcode {
      match this
      case InvalidateRange => InvalidateAck
      case OwnerTransfer => OwnerTransferAck
      case InvalidateAck => InvalidateAck
      case OwnerTransferAck => OwnerTransferAck
    }
  }

  datatype ControlMessage = ControlMessage(
    opcode: Opcode, source: NodeId, target: NodeId, id: nat,
    first: BlockId, last: BlockId, version: nat, mode: CoherenceMode)
  {
    /** The acknowledgement `self` sends back for this message. */
    function Ack(self: NodeId): ControlMessage {
      this.(opcode := opcode.AckFor(), source := self, target := source)
    }
  }

  datatype PendingAck = PendingAck(message: ControlMessage, polls: nat, retries: nat)

  type Pending = map<nat, PendingAck>

  datatype PollResult = PollResult(pending: Pending, status: Status, retries: seq<ControlMessage>)

  /** One poll over the entries in `todo`, visited in the scheduled order. */
  ghost function Poll(cfg: Config, pending: Pending, todo: set<nat>, schedule: seq<nat>): PollResult
    requires todo <= pending.Keys
    decreases |todo|
  {
    if todo == {} then PollResult(pending, Ok, [])
    else
      var id := Pick(todo, schedule);
      var e := pending[id];
      if e.polls > 0 then
        Poll(cfg, pending[id := e.(polls := e.polls - 1)], todo - {id}, Rest(schedule))
      else if e.retries == 0 then PollResult(pending, TimedOut, [])
      else
        var r := Poll(cfg, pending[id := PendingAck(e.message, cfg.ackTimeoutPolls, e.retries - 1)],
                      todo - {id}, Rest(schedule));
        r.(retries := [e.message] + r.retries)
  }

  /** Polls this request can still survive. */
  function Potential(cfg: Config, e: PendingAck): nat {
    e.polls + e.retries * (cfg.ackTimeoutPolls + 1)
  }

  /** One poll of one entry that is not exhausted: the potential drops by exactly one. */
  lemma AgingCostsOne(cfg: Config, e: PendingAck)
    ensures e.polls > 0 ==> Potential(cfg, e.(polls := e.polls - 1)) == Potential(cfg, e) - 1
    ensures e.polls == 0 && e.retries > 0 ==>
              Potential(cfg, PendingAck(e.message, cfg.ackTimeoutPolls, e.retries - 1)) == Potential(cfg, e) - 1
    ensures Potential(cfg, e) == 0 <==> e.polls == 0 && e.retries == 0
  {
    var p := cfg.ackTimeoutPolls + 1;
    assert (e.retries - 1) * p == e.retries * p - p;
    if e.retries > 0 {
      ProductAtLeast(e.retries, p);
    }
  }

  /** `b` is `a` unchanged, or aged by one poll. */
  predicate AtMostOneOlder(cfg: Config, a: PendingAck, b: PendingAck) {
    b == a || (b.message == a.message && Potential(cfg, b) == Potential(cfg, a) - 1)
  }

  predicate OneOlder(cfg: Config, a: PendingAck, b: PendingAck) {
    b.message == a.message && Potential(cfg, b) == Potential(cfg, a) - 1
  }

  /**
    Timeout potential. For every visiting order: a poll returns TimedOut iff
    some entry is exhausted; an OK poll costs every entry exactly one unit; a
    timed-out poll costs each entry at most one and leaves exhausted entries
    exhausted; and the messages retransmitted are those out of polls.
   */
  lemma {:induction false} PollSpec(cfg: Config, pending: Pending, todo: set<nat>, schedule: seq<nat>)
    requires todo <= pending.Keys
    ensures var r := Poll(cfg, pending, todo, schedule);
            && r.pending.Keys == pending.Keys
            && (r.status == Ok || r.status == TimedOut)
            && (r.status == TimedOut <==> exists id :: id in todo && Potential(cfg, pending[id]) == 0)
            && (forall id :: id in pending && id !in todo ==> r.pending[id] == pending[id])
            && (forall id :: id in todo ==> AtMostOneOlder(cfg, pending[id], r.pending[id]))
            && (forall id :: id in todo && Potential(cfg, pending[id]) == 0 ==> r.pending[id] == pending[id])
            && (r.status == Ok ==> forall id :: id in todo ==> OneOlder(cfg, pending[id], r.pending[id]))
    decreases |todo|
  {
    if todo != {} {
      var id := Pick(todo, schedule);
      var e := pending[id];
      AgingCostsOne(cfg, e);
      if e.polls > 0 {
        PollSpec(cfg, pending[id := e.(polls := e.polls - 1)], todo - {id}, Rest(schedule));
      } else if e.retries > 0 {
        PollSpec(cfg, pending[id := PendingAck(e.message, cfg.ackTimeoutPolls, e.retries - 1)],
                 todo - {id}, Rest(schedule));
      }
    }
  }

  /** The visited requests that have no polls left. */
  function Due(pending: Pending, todo: set<nat>): set<nat>
    requires todo <= pending.Keys
  {
    set id | id in todo && pending[id].polls == 0
  }

  /** On an OK poll exactly the requests that had no polls left are sent again, once each. */
  lemma {:induction false} PollRetransmits(cfg: Config, pending: Pending, todo: set<nat>, schedule: seq<nat>)
    requires todo <= pending.Keys
    requires Poll(cfg, pending, todo, schedule).status == Ok
    ensures |Poll(cfg, pending, todo, schedule).retries| == |Due(pending, todo)|
    ensures forall m :: m in Poll(cfg, pending, todo, schedule).retries <==>
                        exists id :: id in Due(pending, todo) && pending[id].message == m
    decreases |todo|
  {
    if todo != {} {
      var id := Pick(todo, schedule);
      var e, rest := pending[id], todo - {id};
      if e.polls > 0 {
        var next := pending[id := e.(polls := e.polls - 1)];
        PollRetransmits(cfg, next, rest, Rest(schedule));
        assert Due(pending, todo) == Due(next, rest);
        assert forall i :: i in Due(next, rest) ==> pending[i] == next[i];
      } else {
        var next := pending[id := PendingAck(e.message, cfg.ackTimeoutPolls, e.retries - 1)];
        PollRetransmits(cfg, next, rest, Rest(schedule));
        assert Due(pending, todo) == Due(next, rest) + {id};
        assert forall i :: i in Due(next, rest) ==> pending[i] == next[i];
      }
    }
  }

  // ------------------------------------------------ whole runs of the table

  datatype AckEvent = Track(message: ControlMessage) | Complete(id: nat) | PollAll(schedule: seq<nat>)

  function Tracked(cfg: Config, m: ControlMessage): PendingAck {
    PendingAck(m, cfg.ackTimeoutPolls, cfg.ackMaxRetries)
  }

  ghost function StepTable(cfg: Config, pending: Pending, e: AckEvent): Pending
  {
    match e
    case Track(m) => if m.id == 0 then pending else pending[m.id := Tracked(cfg, m)]
    case Complete(id) => if id == 0 then pending else pending - {id}
    case PollAll(schedule) => Poll(cfg, pending, pending.Keys, schedule).pending
  }

  ghost function TableAfter(cfg: Config, events: seq<AckEvent>): Pending
  {
    if events == [] then map[]
    else StepTable(cfg, TableAfter(cfg, events[..|events| - 1]), events[|events| - 1])
  }

  /** The status of event k, when it is a poll. */
  ghost predicate TimesOutAt(cfg: Config, events: seq<AckEvent>, k: nat)
    requires k < |events|
  {
    && events[k].PollAll?
    && var before := TableAfter(cfg, events[..k]);
       Poll(cfg, before, before.Keys, events[k].schedule).status == TimedOut
  }

  ghost predicate NoTimeoutYet(cfg: Config, events: seq<AckEvent>)
  {
    forall k :: 0 <= k < |events| ==> !TimesOutAt(cfg, events, k)
  }

  /** Polls since request `id` was last tracked. */
  function Age(events: seq<AckEvent>, id: nat): nat
  {
    if events == [] then 0
    else
      var e := events[|events| - 1];
      if e.Track? && e.message.id == id && id != 0 then 0
      else Age(events[..|events| - 1], id) + if e.PollAll? then 1 else 0
  }

  /** A request is allowed one poll fewer than (R + 1) * (P + 1). */
  function Budget(cfg: Config): nat {
    cfg.ackTimeoutPolls + cfg.ackMaxRetries * (cfg.ackTimeoutPolls + 1)
  }

  /** Until the first timeout, every pending request's potential is its budget less its age. */
  lemma {:induction false} AgeIsExact(cfg: Config, events: seq<AckEvent>, id: nat)
    requires NoTimeoutYet(cfg, events) && id in TableAfter(cfg, events)
    ensures Potential(cfg, TableAfter(cfg, events)[id]) + Age(events, id) == Budget(cfg)
  {
    var n := |events| - 1;
    var e, before := events[n], events[..n];
    if !(e.Track? && e.message.id == id && id != 0) {
      assert forall k :: 0 <= k < n ==> before[..k] == events[..k];
      assert NoTimeoutYet(cfg, before) by {
        forall k | 0 <= k < n
          ensures !TimesOutAt(cfg, before, k)
        {
          assert !TimesOutAt(cfg, events, k);
        }
      }
      var table := TableAfter(cfg, before);
      if e.PollAll? {
        PollSpec(cfg, table, table.Keys, e.schedule);
        assert !TimesOutAt(cfg, events, n);
      }
      AgeIsExact(cfg, before, id);
    }
  }

  lemma BudgetIsProduct(cfg: Config)
    ensures Budget(cfg) + 1 == (cfg.ackMaxRetries + 1) * (cfg.ackTimeoutPolls + 1)
  {
    var p, r := cfg.ackTimeoutPolls + 1, cfg.ackMaxRetries;
    assert (r + 1) * p == r * p + p;
  }

  /**
    The first timeout, over every run and every visiting order: as long as no
    poll has timed out, the next poll times out iff some pending request has
    already survived (R + 1) * (P + 1) - 1 polls, that is, on exactly its
    (R + 1) * (P + 1)-th poll.
   */
  lemma FirstTimeout(cfg: Config, events: seq<AckEvent>, schedule: seq<nat>)
    requires NoTimeoutYet(cfg, events)
    ensures Budget(cfg) + 1 == (cfg.ackMaxRetries + 1) * (cfg.ackTimeoutPolls + 1)
    ensures var table := TableAfter(cfg, events);
            Poll(cfg, table, table.Keys, schedule).status == TimedOut <==>
            exists id :: id in table && Age(events, id) == Budget(cfg)
  {
    hide Poll, TableAfter, Potential, Age, Budget;
    BudgetIsProduct(cfg);
    var table := TableAfter(cfg, events);
    PollSpec(cfg, table, table.Keys, schedule);
    forall id | id in table
      ensures Potential(cfg, table[id]) + Age(events, id) == Budget(cfg)
    {
      AgeIsExact(cfg, events, id);
    }
  }

  /** Polls and retries left never exceed what tracking granted. */
  ghost predicate InBudget(cfg: Config, pending: Pending) {
    forall id :: id in pending ==> pending[id].polls <= cfg.ackTimeoutPolls && pending[id].retries <= cfg.ackMaxRetries
  }

  lemma {:induction false} PollInBudget(cfg: Config, pending: Pending, todo: set<nat>, schedule: seq<nat>)
    requires todo <= pending.Keys && InBudget(cfg, pending)
    ensures InBudget(cfg, Poll(cfg, pending, todo, schedule).pending)
    decreases |todo|
  {
    if todo != {} {
      var id := Pick(todo, schedule);
      var e := pending[id];
      if e.polls > 0 {
        PollInBudget(cfg, pending[id := e.(polls := e.polls - 1)], todo - {id}, Rest(schedule));
      } else if e.retries > 0 {
        PollInBudget(cfg, pending[id := PendingAck(e.message, cfg.ackTimeoutPolls, e.retries - 1)],
                     todo - {id}, Rest(schedule));
      }
    }
  }

  lemma {:induction false} RunInBudget(cfg: Config, events: seq<AckEvent>)
    ensures InBudget(cfg, TableAfter(cfg, events))
  {
    if events != [] {
      var before := events[..|events| - 1];
      RunInBudget(cfg, before);
      var e := events[|events| - 1];
      if e.PollAll? {
        PollInBudget(cfg, TableAfter(cfg, before), TableAfter(cfg, before).Keys, e.schedule);
      }
    }
  }

  lemma SplitAge(p: nat, maxRetries: nat, polls: nat, retries: nat, age: nat)
    requires polls <= p && retries <= maxRetries
    requires polls + retries * (p + 1) + age == p + maxRetries * (p + 1)
    ensures maxRetries - retries == age / (p + 1) && p - polls == age % (p + 1)
  {
    assert (maxRetries - retries) * (p + 1) == maxRetries * (p + 1) - retries * (p + 1);
    DivModUnique(age, p + 1, maxRetries - retries, p - polls);
  }

  /**
    Before the first timeout a pending request has been retransmitted exactly
    once per (P + 1) polls, so at most R times.
   */
  lemma RetransmissionCount(cfg: Config, events: seq<AckEvent>, id: nat)
    requires NoTimeoutYet(cfg, events) && id in TableAfter(cfg, events)
    ensures var e := TableAfter(cfg, events)[id];
            && cfg.ackMaxRetries - e.retries == Age(events, id) / (cfg.ackTimeoutPolls + 1)
            && cfg.ackTimeoutPolls - e.polls == Age(events, id) % (cfg.ackTimeoutPolls + 1)
  {
    AgeIsExact(cfg, events, id);
    RunInBudget(cfg, events);
    var e := TableAfter(cfg, events)[id];
    SplitAge(cfg.ackTimeoutPolls, cfg.ackMaxRetries, e.polls, e.retries, Age(events, id));
  }

  /** A timeout persists: an exhausted request stays exhausted until it is acknowledged or tracked anew. */
  lemma TimeoutPersists(cfg: Config, pending: Pending, id: nat, e: AckEvent)
    requires id in pending && Potential(cfg, pending[id]) == 0
    requires e != Complete(id) && !(e.Track? && e.message.id == id)
    ensures id in StepTable(cfg, pending, e) && Potential(cfg, StepTable(cfg, pending, e)[id]) == 0
    ensures e.PollAll? ==> Poll(cfg, pending, pending.Keys, e.schedule).status == TimedOut
  {
    if e.PollAll? {
      PollSpec(cfg, pending, pending.Keys, e.schedule);
    }
  }

  /** Unfolds one visit of a poll that is scheduled to start with `id`. */
  lemma PollVisit(cfg: Config, pending: Pending, todo: set<nat>, id: nat, later: seq<nat>)
    requires todo <= pending.Keys && id in todo
    ensures var e, r := pending[id], Poll(cfg, pending, todo, [id] + later);
            if e.polls > 0 then r == Poll(cfg, pending[id := e.(polls := e.polls - 1)], todo - {id}, later)
            else if e.retries == 0 then r == PollResult(pending, TimedOut, [])
            else
              var next := Poll(cfg, pending[id := PendingAck(e.message, cfg.ackTimeoutPolls, e.retries - 1)],
                               todo - {id}, later);
              r == next.(retries := [e.message] + next.retries)
  {
    assert Pick(todo, [id] + later) == id && Rest([id] + later) == later;
  }

  lemma PollNothing(cfg: Config, pending: Pending, schedule: seq<nat>)
    ensures Poll(cfg, pending, {}, schedule) == PollResult(pending, Ok, [])
  {
  }

  function Sending(sent: seq<ControlMessage>, r: PollResult): PollResult {
    r.(retries := sent + r.retries)
  }

  /** A poll of `start` that has taken `schedule` so far has `todo` left to visit and has sent `sent`. */
  ghost predicate Resumes(cfg: Config, start: Pending, schedule: seq<nat>, pending: Pending, todo: set<nat>,
                          sent: seq<ControlMessage>)
    requires todo <= pending.Keys
  {
    forall later: seq<nat> {:trigger schedule + later} ::
      Poll(cfg, start, start.Keys, schedule + later) == Sending(sent, Poll(cfg, pending, todo, later))
  }

  lemma SendOneMore(sent: seq<ControlMessage>, m: ControlMessage, r: PollResult)
    ensures Sending(sent, r.(retries := [m] + r.retries)) == Sending(sent + [m], r)
  {
    assert sent + ([m] + r.retries) == sent + [m] + r.retries;
  }

  lemma VisitOne(cfg: Config, start: Pending, schedule: seq<nat>, pending: Pending, todo: set<nat>,
                 sent: seq<ControlMessage>, id: nat, later: seq<nat>)
    requires todo <= pending.Keys && id in todo
    requires Resumes(cfg, start, schedule, pending, todo, sent)
    ensures var e, r := pending[id], Poll(cfg, start, start.Keys, schedule + [id] + later);
            if e.polls > 0 then
              r == Sending(sent, Poll(cfg, pending[id := e.(polls := e.polls - 1)], todo - {id}, later))
            else if e.retries == 0 then r == PollResult(pending, TimedOut, sent)
            else
              r == Sending(sent + [e.message],
                           Poll(cfg, pending[id := PendingAck(e.message, cfg.ackTimeoutPolls, e.retries - 1)],
                                todo - {id}, later))
  {
    hide Poll;
    assert schedule + [id] + later == schedule + ([id] + later);
    var e := pending[id];
    var visit := Poll(cfg, pending, todo, [id] + later);
    assert Poll(cfg, start, start.Keys, schedule + ([id] + later)) == Sending(sent, visit);
    PollVisit(cfg, pending, todo, id, later);
    if e.polls == 0 && e.retries > 0 {
      SendOneMore(sent, e.message, Poll(cfg, pending[id := PendingAck(e.message, cfg.ackTimeoutPolls, e.retries - 1)],
                                        todo - {id}, later));
    }
  }

  lemma ResumesAtStart(cfg: Config, pending: Pending)
    ensures Resumes(cfg, pending, [], pending, pending.Keys, [])
  {
    forall later: seq<nat>
      ensures Poll(cfg, pending, pending.Keys, [] + later) == Sending([], Poll(cfg, pending, pending.Keys, later))
    {
      assert [] + later == later;
      var r := Poll(cfg, pending, pending.Keys, later);
      assert [] + r.retries == r.retries;
    }
  }

  /** The loop body of one visit, when the poll goes on. */
  lemma VisitResumes(cfg: Config, start: Pending, schedule: seq<nat>, pending: Pending, todo: set<nat>,
                     sent: seq<ControlMessage>, id: nat)
    requires todo <= pending.Keys && id in todo
    requires Resumes(cfg, start, schedule, pending, todo, sent)
    ensures var e := pending[id];
            && (e.polls > 0 ==>
                  Resumes(cfg, start, schedule + [id], pending[id := e.(polls := e.polls - 1)], todo - {id}, sent))
            && (e.polls == 0 && e.retries > 0 ==>
                  Resumes(cfg, start, schedule + [id],
                          pending[id := PendingAck(e.message, cfg.ackTimeoutPolls, e.retries - 1)],
                          todo - {id}, sent + [e.message]))
  {
    hide Poll;
    var e := pending[id];
    if e.polls > 0 {
      forall later: seq<nat> {
        VisitOne(cfg, start, schedule, pending, todo, sent, id, later);
      }
    } else if e.retries > 0 {
      forall later: seq<nat> {
        VisitOne(cfg, start, schedule, pending, todo, sent, id, later);
      }
    }
  }

  // -------------------------------------------------- the mutable ack table

  /** The control part of RuntimeContext. */
  class AckTable {
    const cfg: Config
    var nextId: nat
    var pending: Pending

    constructor (cfg: Config)
      ensures this.cfg == cfg && nextId == 1 && pending == map[]
    {
      this.cfg := cfg;
      nextId := 1;
      pending := map[];
    }

    method NextControlRequestId() returns (id: nat)
      modifies this`nextId
      ensures id == old(nextId) && nextId == old(nextId) + 1
    {
      id := nextId;
      nextId := nextId + 1;
    }

    method TrackPendingControlAck(m: ControlMessage)
      modifies this`pending
      ensures pending == StepTable(cfg, old(pending), Track(m))
    {
      if m.id == 0 {
        return;
      }
      pending := pending[m.id := PendingAck(m, cfg.ackTimeoutPolls, cfg.ackMaxRetries)];
    }

    method CompleteControlAck(id: nat)
      modifies this`pending
      ensures pending == StepTable(cfg, old(pending), Complete(id))
    {
      if id == 0 {
        return;
      }
      pending := pending - {id};
    }

    method AdvanceControlAckTimeouts() returns (status: Status, retries: seq<ControlMessage>, ghost schedule: seq<nat>)
      modifies this`pending
      ensures PollResult(pending, status, retries) == Poll(cfg, old(pending), old(pending).Keys, schedule)
    {
      hide Poll;
      retries := [];
      schedule := [];
      var todo := pending.Keys;
      ResumesAtStart(cfg, pending);
      while todo != {}
        invariant todo <= pending.Keys && old(pending).Keys == pending.Keys
        invariant Resumes(cfg, old(pending), schedule, pending, todo, retries)
        decreases |todo|
      {
        var id :| id in todo;
        var e := pending[id];
        VisitResumes(cfg, old(pending), schedule, pending, todo, retries, id);
        if e.polls > 0 {
          pending := pending[id := e.(polls := e.polls - 1)];
        } else if e.retries == 0 {
          VisitOne(cfg, old(pending), schedule, pending, todo, retries, id, []);
          schedule := schedule + [id];
          assert schedule + [] == schedule;
          status := TimedOut;
          return;
        } else {
          retries := retries + [e.message];
          pending := pending[id := PendingAck(e.message, cfg.ackTimeoutPolls, e.retries - 1)];
        }
        schedule := schedule + [id];
        todo := todo - {id};
      }
      assert schedule + [] == schedule && retries + [] == retries;
      PollNothing(cfg, pending, []);
      status := Ok;
    }
  }
}
