/**
 Arrival of one delivery: it enters the ledger, then waits for its turn, or is settled on
 the spot when it can never fit the byte budget.
 */
module Receiving {
  import opened Options
  import opened Deliveries
  import opened Lanes
  import opened Dispatching
  import opened DispatchProofs

  // The next delivery of the channel reaches the actor and is claimed in the ledger.
  function Receive(l: Lane): Lane
    requires l.env.broker.transit != []
  {
    var d := l.env.broker.transit[0];
    Lane(
      l.ch.(ledger := l.ch.ledger.(pending := l.ch.ledger.pending[d.tag := Entry(Pending, None)])),
      Env(l.env.broker.(transit := l.env.broker.transit[1..]),
          l.env.past.(arrived := l.env.past.arrived + [d], arrivedTop := d.tag)))
  }

  // Counted before it is released, so that the budget ends where it was.
  function SettleOversized(l: Lane, d: TransportDelivery): Lane {
    SettlePoison(
      l.(ch := l.ch.(intake := l.ch.intake.(bufferedBytes := SatAdd(l.ch.intake.bufferedBytes, d.bytes)))),
      d.tag, d.bytes)
  }

  function ReceiveOversized(l: Lane): Lane
    requires l.env.broker.transit != []
  {
    SettleOversized(Receive(l), l.env.broker.transit[0])
  }

  lemma OrderedReceive(past: History, waiting: seq<TransportDelivery>, transit: seq<TransportDelivery>, after: History)
    requires Ordered(past, waiting, transit) && transit != []
    requires after == past.(arrived := past.arrived + [transit[0]], arrivedTop := transit[0].tag, gone := after.gone)
    ensures Ordered(after, waiting + [transit[0]], transit[1..])
    ensures Ordered(after, waiting, transit[1..])
  {
    assert transit[0] in transit;
    AscendingRest(transit);
    AscendingAppend(waiting, transit[0]);
  }

  lemma FifoReceive(
      cfg: Config, arrived: seq<TransportDelivery>, handed: seq<TransportDelivery>,
      waiting: seq<TransportDelivery>, d: TransportDelivery)
    requires Fifo(cfg, arrived, handed, waiting)
    ensures Oversized(cfg, d) ==> Fifo(cfg, arrived + [d], handed, waiting)
    ensures !Oversized(cfg, d) ==> Fifo(cfg, arrived + [d], handed, waiting + [d])
  {
    assert (arrived + [d])[..|arrived|] == arrived;
    assert (waiting + [d])[..|waiting|] == waiting;
  }

  lemma ConservedReceive(
      cfg: Config, keys: set<nat>, past: History, waiting: seq<TransportDelivery>, d: TransportDelivery,
      after: History)
    requires Conserved(cfg, keys, past, waiting)
    requires d.tag !in TagSet(past.arrived)
    requires after == past.(arrived := past.arrived + [d], arrivedTop := after.arrivedTop)
    ensures Conserved(cfg, keys + {d.tag}, after, waiting + [d])
  {
    TagSetAppend(past.arrived, d);
    TagSetAppend(waiting, d);
  }

  lemma ConservedOversized(
      cfg: Config, keys: set<nat>, past: History, waiting: seq<TransportDelivery>, d: TransportDelivery,
      after: History)
    requires Conserved(cfg, keys, past, waiting)
    requires d.tag !in TagSet(past.arrived)
    requires after == past.(arrived := past.arrived + [d], arrivedTop := after.arrivedTop,
                            gone := past.gone + {d.tag})
    ensures Conserved(cfg, keys, after, waiting)
  {
    TagSetAppend(past.arrived, d);
  }

  lemma Fresh(past: History, waiting: seq<TransportDelivery>, transit: seq<TransportDelivery>)
    requires Ordered(past, waiting, transit) && transit != []
    ensures transit[0].tag !in TagSet(past.arrived)
  {
    assert transit[0] in transit;
    if transit[0].tag in TagSet(past.arrived) {
      var e := TagSetFind(past.arrived, transit[0].tag);
    }
  }

  lemma UntouchedReceive(
      cfg: Config, buffer: seq<TransportDelivery>, waiting: seq<TransportDelivery>, past: History, broker: Broker)
    requires Ordered(past, waiting, broker.transit) && broker.transit != []
    requires Untouched(cfg, buffer, waiting, past.arrived, broker)
    ensures var d := broker.transit[0];
            Untouched(cfg, buffer, waiting + [d], past.arrived + [d], broker.(transit := broker.transit[1..]))
  {
    var d := broker.transit[0];
    Fresh(past, waiting, broker.transit);
    assert d in broker.transit;
    AscendingRest(broker.transit);
    TagSetAppend(past.arrived, d);
  }

  lemma EntriesReceive(
      cfg: Config, pending: map<nat, Entry>, cells: map<Token, Cell>, handed: seq<TransportDelivery>, t: nat)
    requires Entries(cfg, pending, cells, handed)
    requires forall d :: d in handed ==> d.tag != t
    ensures Entries(cfg, pending[t := Entry(Pending, None)], cells, handed)
  {
  }

  lemma ReceiveLined(l: Lane, waiting: seq<TransportDelivery>)
    requires Lined(l, waiting) && l.env.broker.transit != []
    requires !Oversized(l.ch.cfg, l.env.broker.transit[0])
    ensures Lined(Receive(l), waiting + [l.env.broker.transit[0]])
  {
    OrderedReceive(l.env.past, waiting, l.env.broker.transit, Receive(l).env.past);
    FifoReceive(l.ch.cfg, l.env.past.arrived, l.env.past.handed, waiting, l.env.broker.transit[0]);
  }

  lemma ReceiveBooked(l: Lane, waiting: seq<TransportDelivery>)
    requires Lined(l, waiting) && Booked(l, waiting) && l.env.broker.transit != []
    ensures Booked(Receive(l), waiting + [l.env.broker.transit[0]])
  {
    var d, past, keys := l.env.broker.transit[0], l.env.past, l.ch.ledger.pending.Keys;
    assert d in l.env.broker.transit;
    Fresh(past, waiting, l.env.broker.transit);
    ConservedReceive(l.ch.cfg, keys, past, waiting, d, Receive(l).env.past);
    EntriesReceive(l.ch.cfg, l.ch.ledger.pending, l.ch.cells, past.handed, d.tag);
    assert Receive(l).ch.ledger.pending.Keys == keys + {d.tag};
  }

  lemma ReceiveKeeps(l: Lane, waiting: seq<TransportDelivery>)
    requires Core(l, waiting) && l.env.broker.transit != []
    requires !Oversized(l.ch.cfg, l.env.broker.transit[0])
    ensures Core(Receive(l), waiting + [l.env.broker.transit[0]])
  {
    ReceiveLined(l, waiting);
    ReceiveBooked(l, waiting);
    UntouchedReceive(l.ch.cfg, l.ch.intake.buffer, waiting, l.env.past, l.env.broker);
  }

  // ---------------------------------------------------------------- oversized

  // What the broker knows after an oversized delivery has been settled.
  function OversizedBroker(cfg: Config, broker: Broker): Broker
    requires broker.transit != []
  {
    var rest := broker.(transit := broker.transit[1..]);
    if cfg.noAck then rest else BrokerApply(rest, PoisonOp(cfg, broker.transit[0].tag))
  }

  lemma OversizedUnsettled(
      cfg: Config, buffer: seq<TransportDelivery>, waiting: seq<TransportDelivery>, past: History, broker: Broker)
    requires broker.transit != [] && Untouched(cfg, buffer, waiting, past.arrived, broker)
    ensures var after := OversizedBroker(cfg, broker);
            && after == broker.(transit := broker.transit[1..], wire := after.wire, unsettled := after.unsettled)
            && after.wire == broker.wire + (if cfg.noAck then [] else [PoisonOp(cfg, broker.transit[0].tag)])
            && (broker.alive && !cfg.noAck ==>
                  after.unsettled == broker.unsettled - {broker.transit[0].tag})
  {
    assert broker.transit[0] in broker.transit;
  }

  lemma OversizedUntouched(
      cfg: Config, buffer: seq<TransportDelivery>, waiting: seq<TransportDelivery>, past: History, broker: Broker)
    requires broker.transit != [] && Ordered(past, waiting, broker.transit)
    requires Untouched(cfg, buffer, waiting, past.arrived, broker)
    ensures Untouched(cfg, buffer, waiting, past.arrived + [broker.transit[0]], OversizedBroker(cfg, broker))
  {
    var d, after := broker.transit[0], OversizedBroker(cfg, broker);
    OversizedUnsettled(cfg, buffer, waiting, past, broker);
    assert d in broker.transit;
    AscendingRest(broker.transit);
    TagSetAppend(past.arrived, d);
    WireTagsAppend(broker.wire, PoisonOp(cfg, d.tag));
    assert WireTags(after.wire) <= WireTags(broker.wire) + {d.tag};
  }

  // No operation of the wire log names a tag twice, and the next one names a new tag.
  lemma WireGrows(wire: seq<WireOp>, op: WireOp)
    requires forall i, j :: 0 <= i < j < |wire| ==> wire[i].tag != wire[j].tag
    requires op.tag !in WireTags(wire)
    ensures forall i, j :: 0 <= i < j < |wire + [op]| ==> (wire + [op])[i].tag != (wire + [op])[j].tag
  {
    forall i | 0 <= i < |wire| ensures wire[i].tag != op.tag {
      WireTagsHas(wire, i);
    }
  }

  lemma OversizedEarlyOnce(
      cfg: Config, intake: Intake, waiting: seq<TransportDelivery>, past: History, broker: Broker)
    requires broker.transit != [] && Ordered(past, waiting, broker.transit) && intake.buffer <= waiting
    requires Untouched(cfg, intake.buffer, waiting, past.arrived, broker)
    requires EarlyOnce(cfg, intake, past.handed, broker)
    ensures EarlyOnce(cfg, intake, past.handed, OversizedBroker(cfg, broker))
  {
    var d := broker.transit[0];
    OversizedUnsettled(cfg, intake.buffer, waiting, past, broker);
    Fresh(past, waiting, broker.transit);
    assert d in broker.transit;
    if cfg.earlyAck {
      WireTagsAppend(broker.wire, PoisonOp(cfg, d.tag));
      WireGrows(broker.wire, PoisonOp(cfg, d.tag));
      if intake.buffer != [] {
        assert intake.buffer[0] == waiting[0] && waiting[0] in waiting;
      }
    }
  }

  // The operation sent for an oversized delivery names a tag nothing has named before.
  lemma WiredOversized(l: Lane, waiting: seq<TransportDelivery>)
    requires Lined(l, waiting) && Wired(l, waiting) && l.env.broker.transit != []
    ensures Wired(ReceiveOversized(l), waiting)
    ensures var m := ReceiveOversized(l);
            && m.env.broker == l.env.broker.(
                 transit := l.env.broker.transit[1..], wire := m.env.broker.wire,
                 unsettled := m.env.broker.unsettled)
            && (l.env.broker.alive && !l.ch.cfg.noAck ==>
                  m.env.broker.unsettled == l.env.broker.unsettled - {l.env.broker.transit[0].tag})
  {
    OversizedUnsettled(l.ch.cfg, l.ch.intake.buffer, waiting, l.env.past, l.env.broker);
    OversizedUntouched(l.ch.cfg, l.ch.intake.buffer, waiting, l.env.past, l.env.broker);
    OversizedEarlyOnce(l.ch.cfg, l.ch.intake, waiting, l.env.past, l.env.broker);
  }

  lemma OversizedLined(l: Lane, waiting: seq<TransportDelivery>)
    requires Lined(l, waiting) && l.env.broker.transit != []
    requires Oversized(l.ch.cfg, l.env.broker.transit[0])
    requires ReceiveOversized(l).env.broker.transit == l.env.broker.transit[1..]
    ensures Lined(ReceiveOversized(l), waiting)
  {
    OrderedReceive(l.env.past, waiting, l.env.broker.transit, ReceiveOversized(l).env.past);
    FifoReceive(l.ch.cfg, l.env.past.arrived, l.env.past.handed, waiting, l.env.broker.transit[0]);
  }

  lemma OversizedBooked(l: Lane, waiting: seq<TransportDelivery>)
    requires Lined(l, waiting) && Booked(l, waiting) && l.env.broker.transit != []
    requires Oversized(l.ch.cfg, l.env.broker.transit[0])
    ensures Booked(ReceiveOversized(l), waiting)
    ensures ReceiveOversized(l).ch.intake == l.ch.intake
    ensures ReceiveOversized(l).ch.ledger.pending == l.ch.ledger.pending - {l.env.broker.transit[0].tag}
  {
    var d, past, keys := l.env.broker.transit[0], l.env.past, l.ch.ledger.pending.Keys;
    assert d in l.env.broker.transit;
    Fresh(past, waiting, l.env.broker.transit);
    ConservedOversized(l.ch.cfg, keys, past, waiting, d, ReceiveOversized(l).env.past);
    OutstandingFrame(past.handed, past.gone, past.gone + {d.tag});
    assert (l.ch.ledger.pending[d.tag := Entry(Pending, None)]) - {d.tag} == l.ch.ledger.pending - {d.tag};
  }

  lemma ReceiveOversizedKeeps(l: Lane, waiting: seq<TransportDelivery>)
    requires Core(l, waiting) && l.env.broker.transit != []
    requires Oversized(l.ch.cfg, l.env.broker.transit[0])
    ensures Core(ReceiveOversized(l), waiting)
  {
    WiredOversized(l, waiting);
    OversizedLined(l, waiting);
    OversizedBooked(l, waiting);
  }
}
