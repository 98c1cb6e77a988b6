/**
  What an arriving control message does to the node that handles it
  (src/api/access_api.cc, ProcessPendingControlMessages; src/api/sync_api.cc,
  DrainControl): which cached entries survive, what each record becomes, which
  request is completed and which ack is posted.
 */
module Handlers {
  import opened Types
  import opened Profiling
  import opened ControlAcks
  import opened BlockRanges
  import opened Access
  import opened Records

  /** The message names the block. */
  predicate Names(m: ControlMessage, id: BlockId)
  {
    id.region == m.first.region && m.first.index <= id.index <= m.last.index
  }

  lemma NamedIds(m: ControlMessage, id: BlockId)
    ensures Names(m, id) <==> id in Ids(Rebuilt(m.first, m.last))
  {
    if Names(m, id) {
      assert Ids(Rebuilt(m.first, m.last))[id.index - m.first.index] == id;
    }
  }

  /** The cached range has a byte in the named blocks of the sender's memory. */
  predicate Reached(cfg: Config, m: ControlMessage, key: CacheKey)
  {
    var base := m.first.index * cfg.blockSize;
    var span := (if m.first.index <= m.last.index then m.last.index - m.first.index + 1 else 0) * cfg.blockSize;
    && key.addr.home == m.source && key.addr.region == m.first.region
    && key.addr.offset < base + span && base < key.End()
  }

  /** Exactly one ack is posted, to the sender; no other inbox changes. */
  predicate Answers(cfg: Config, before: Node, after: Node, m: ControlMessage)
  {
    var ack := ControlMessage(if m.opcode.InvalidateRange? then InvalidateAck else OwnerTransferAck, cfg.nodeId, m.source, m.id,
                              m.first, m.last, m.version, m.mode);
    after.inboxes == before.inboxes[m.source := (if m.source in before.inboxes then before.inboxes[m.source] else []) + [ack]]
  }

  /** Besides cache, records, inboxes and table nothing changes. */
  predicate OnlyControl(before: Node, after: Node)
  {
    after == before.(entries := after.entries, blocks := after.blocks, inboxes := after.inboxes, pending := after.pending)
  }

  /**
    An invalidation drops exactly the entries it reaches and, outside a fence,
    makes every named record invalid at the sender's version and mode.
   */
  lemma InvalidateHandled(cfg: Config, s: Node, m: ControlMessage, inFence: bool, id: BlockId)
    requires m.opcode.InvalidateRange?
    ensures var after := Handle(cfg, s, m, inFence);
            && OnlyControl(s, after) && after.pending == s.pending && Answers(cfg, s, after, m)
            && (forall e :: e in after.entries <==> e in s.entries && !Reached(cfg, m, e.key))
            && Lookup(after.blocks, id) ==
               (if Names(m, id) && !inFence then Lookup(s.blocks, id).(version := m.version, state := Invalid, mode := m.mode)
                else Lookup(s.blocks, id))
  {
    hide UpdateAll, Ids;
    NamedIds(m, id);
    UpdateAt(cfg, s.blocks, Rebuilt(m.first, m.last), RemoteInvalidate(m), id);
  }

  /** A transfer makes the sender the owner of every named record; outside a fence the record is also marked owned. */
  lemma TransferHandled(cfg: Config, s: Node, m: ControlMessage, inFence: bool, id: BlockId)
    requires m.opcode.OwnerTransfer?
    ensures var after, was := Handle(cfg, s, m, inFence), Lookup(s.blocks, id);
            && OnlyControl(s, after) && after.pending == s.pending && Answers(cfg, s, after, m) && after.entries == s.entries
            && Lookup(after.blocks, id) ==
               (if Names(m, id)
                then was.(owner := m.source, version := m.version, mode := m.mode, state := if inFence then was.state else Owner)
                else was)
  {
    hide UpdateAll, Ids;
    NamedIds(m, id);
    UpdateAt(cfg, s.blocks, Rebuilt(m.first, m.last), RemoteTransfer(m, !inFence), id);
  }

  /** An ack completes exactly the request it names, if any, and does nothing else. */
  lemma AckHandled(cfg: Config, s: Node, m: ControlMessage, inFence: bool)
    requires m.opcode.IsAck()
    ensures var after := Handle(cfg, s, m, inFence);
            && after == s.(pending := after.pending)
            && (forall id :: id in after.pending <==> id in s.pending && (id != m.id || m.id == 0))
            && (forall id :: id in after.pending ==> after.pending[id] == s.pending[id])
  {
  }
}
