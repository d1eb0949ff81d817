/**
 Every dispatch step keeps the core invariant of its lane and is a `Dispatched` step.
 */
module DispatchProofs {
  import opened Deliveries
  import opened Lanes
  import opened Dispatching

  lemma OrderedDrop(past: History, waiting: seq<TransportDelivery>, transit: seq<TransportDelivery>)
    requires Ordered(past, waiting, transit) && waiting != []
    ensures Ordered(past, waiting[1..], transit)
  {
    AscendingRest(waiting);
  }

  lemma OrderedTake(
      past: History, waiting: seq<TransportDelivery>, transit: seq<TransportDelivery>, after: History)
    requires Ordered(past, waiting, transit) && waiting != []
    requires after == past.(handed := past.handed + [waiting[0]], handedTop := waiting[0].tag)
    ensures Ordered(after, waiting[1..], transit)
  {
    AscendingRest(waiting);
    assert waiting[0] in waiting;
    AscendingAppend(past.handed, waiting[0]);
  }

  // Taking the front of the line keeps the order, whether it is handed over or dropped as poison.
  lemma {:induction false} FifoTake(
      cfg: Config, arrived: seq<TransportDelivery>, handed: seq<TransportDelivery>,
      waiting: seq<TransportDelivery>)
    requires Fifo(cfg, arrived, handed, waiting) && waiting != []
    ensures Fifo(cfg, arrived, if Poison(cfg, waiting[0]) then handed else handed + [waiting[0]], waiting[1..])
  {
    var n, k := |arrived| - 1, |waiting| - 1;
    if Oversized(cfg, arrived[n]) {
      FifoTake(cfg, arrived[..n], handed, waiting);
    } else if k > 0 {
      FifoTake(cfg, arrived[..n], handed, waiting[..k]);
      assert waiting[1..][..k - 1] == waiting[..k][1..];
    } else {
      assert waiting[..k] == [] && waiting[1..] == [];
      assert (handed + [waiting[0]])[..|handed|] == handed;
    }
  }

  lemma WireTagsAppend(wire: seq<WireOp>, op: WireOp)
    ensures WireTags(wire + [op]) == WireTags(wire) + {op.tag}
  {
    assert (wire + [op])[..|wire|] == wire;
  }

  lemma ConservedPoison(cfg: Config, keys: set<nat>, past: History, waiting: seq<TransportDelivery>, after: History)
    requires Conserved(cfg, keys, past, waiting)
    requires waiting != [] && Ascending(waiting)
    requires after == past.(gone := past.gone + {waiting[0].tag})
    ensures Conserved(cfg, keys - {waiting[0].tag}, after, waiting[1..])
  {
    AscendingRest(waiting);
  }

  lemma BudgetedPoison(cfg: Config, intake: Intake, past: History, after: History)
    requires Budgeted(cfg, intake, past) && intake.buffer != []
    requires forall e :: e in past.handed ==> e.tag != intake.buffer[0].tag
    requires after == past.(gone := past.gone + {intake.buffer[0].tag})
    ensures Budgeted(cfg, intake.(buffer := intake.buffer[1..],
                                  bufferedBytes := SatSub(intake.bufferedBytes, intake.buffer[0].bytes)), after)
  {
    OutstandingFrame(past.handed, past.gone, after.gone);
  }

  // A poison settlement names an unsettled tag, so the broker accepts it.
  lemma UntouchedPoison(
      cfg: Config, buffer: seq<TransportDelivery>, waiting: seq<TransportDelivery>, past: History, broker: Broker)
    requires buffer != [] && buffer <= waiting && !cfg.earlyAck && !cfg.noAck
    requires Untouched(cfg, buffer, waiting, past.arrived, broker)
    requires Ordered(past, waiting, broker.transit)
    requires waiting[0].tag in TagSet(past.arrived)
    ensures var after := BrokerApply(broker, PoisonOp(cfg, waiting[0].tag));
            && Untouched(cfg, buffer[1..], waiting[1..], past.arrived, after)
            && after == broker.(wire := after.wire, unsettled := after.unsettled)
            && (broker.alive ==> after.unsettled == broker.unsettled - {waiting[0].tag})
  {
    AscendingRest(waiting);
    assert waiting[0] in waiting;
    WireTagsAppend(broker.wire, PoisonOp(cfg, waiting[0].tag));
  }

  lemma PoisonFrontDispatched(l: Lane, waiting: seq<TransportDelivery>)
    requires Core(l, waiting)
    requires l.ch.intake.buffer != [] && Poison(l.ch.cfg, l.ch.intake.buffer[0])
    ensures Dispatched(l, PoisonFront(l))
  {
    assert waiting[0] in waiting;
    UntouchedPoison(l.ch.cfg, l.ch.intake.buffer, waiting, l.env.past, l.env.broker);
  }

  lemma PoisonFrontKeeps(l: Lane, waiting: seq<TransportDelivery>)
    requires Core(l, waiting)
    requires l.ch.intake.buffer != [] && Poison(l.ch.cfg, l.ch.intake.buffer[0])
    ensures Core(PoisonFront(l), waiting[1..])
  {
    var m, past := PoisonFront(l), l.env.past;
    assert waiting[0] in waiting;
    OrderedDrop(past, waiting, l.env.broker.transit);
    FifoTake(l.ch.cfg, past.arrived, past.handed, waiting);
    ConservedPoison(l.ch.cfg, l.ch.ledger.pending.Keys, past, waiting, m.env.past);
    BudgetedPoison(l.ch.cfg, l.ch.intake, past, m.env.past);
    UntouchedPoison(l.ch.cfg, l.ch.intake.buffer, waiting, past, l.env.broker);
    assert m.ch.ledger.pending.Keys == l.ch.ledger.pending.Keys - {waiting[0].tag};
  }

  // ---------------------------------------------------------------- hand-off

  lemma ConservedTake(cfg: Config, keys: set<nat>, past: History, waiting: seq<TransportDelivery>, after: History)
    requires Conserved(cfg, keys, past, waiting)
    requires waiting != [] && Ascending(waiting)
    requires after == past.(handed := past.handed + [waiting[0]], handedTop := after.handedTop)
    ensures Conserved(cfg, keys, after, waiting[1..])
  {
    AscendingRest(waiting);
    TagSetAppend(past.handed, waiting[0]);
  }

  lemma BudgetedTake(
      cfg: Config, keys: set<nat>, intake: Intake, past: History, waiting: seq<TransportDelivery>,
      after: History, rest: Intake)
    requires Budgeted(cfg, intake, past) && Conserved(cfg, keys, past, waiting)
    requires intake.buffer != [] && intake.buffer <= waiting && Ascending(waiting)
    requires after == past.(handed := past.handed + [waiting[0]], handedTop := after.handedTop)
    requires rest.buffer == intake.buffer[1..]
    requires rest.bufferedBytes
          == if cfg.earlyAck then SatSub(intake.bufferedBytes, waiting[0].bytes) else intake.bufferedBytes
    ensures Budgeted(cfg, rest, after)
  {
    AscendingRest(waiting);
    OutstandingAppend(past.handed, waiting[0], past.gone);
  }

  lemma UntouchedTake(
      cfg: Config, buffer: seq<TransportDelivery>, waiting: seq<TransportDelivery>, past: History, broker: Broker)
    requires buffer != [] && buffer <= waiting && Ascending(waiting)
    requires Untouched(cfg, buffer, waiting, past.arrived, broker)
    ensures Untouched(cfg, buffer[1..], waiting[1..], past.arrived, broker)
  {
    AscendingRest(waiting);
  }

  lemma EntriesAnnounce(
      ch: Channel, handed: seq<TransportDelivery>, d: TransportDelivery, after: seq<TransportDelivery>)
    requires !ch.cfg.earlyAck
    requires Entries(ch.cfg, ch.ledger.pending, ch.cells, handed)
    requires forall e :: e in handed ==> e.tag != d.tag
    requires after == handed || after == handed + [d]
    ensures Entries(ch.cfg, Announce(ch, d).ledger.pending, Announce(ch, d).cells, after)
    ensures Announce(ch, d).ledger.pending.Keys == ch.ledger.pending.Keys
  {
  }

  lemma HandOverDispatched(l: Lane, waiting: seq<TransportDelivery>)
    requires l.ch.intake.buffer != [] && l.ch.intake.buffer <= waiting && !l.ch.cfg.earlyAck
    requires Entries(l.ch.cfg, l.ch.ledger.pending, l.ch.cells, l.env.past.handed)
    requires Ordered(l.env.past, waiting, l.env.broker.transit)
    requires waiting[0].tag !in l.env.past.gone
    ensures Dispatched(l, HandOver(l))
    ensures Dispatched(l, HandOverFailed(l))
  {
    assert waiting[0] in waiting;
    EntriesAnnounce(l.ch, l.env.past.handed, waiting[0], l.env.past.handed);
  }

  lemma HandOverKeeps(l: Lane, waiting: seq<TransportDelivery>)
    requires Core(l, waiting)
    requires l.ch.intake.buffer != [] && !l.ch.cfg.earlyAck && !Poison(l.ch.cfg, l.ch.intake.buffer[0])
    ensures Core(HandOver(l), waiting[1..])
  {
    var m, past := HandOver(l), l.env.past;
    assert waiting[0] in waiting;
    EntriesAnnounce(l.ch, past.handed, waiting[0], m.env.past.handed);
    OrderedTake(past, waiting, l.env.broker.transit, m.env.past);
    FifoTake(l.ch.cfg, past.arrived, past.handed, waiting);
    ConservedTake(l.ch.cfg, l.ch.ledger.pending.Keys, past, waiting, m.env.past);
    BudgetedTake(l.ch.cfg, l.ch.ledger.pending.Keys, l.ch.intake, past, waiting, m.env.past, m.ch.intake);
    UntouchedTake(l.ch.cfg, l.ch.intake.buffer, waiting, past, l.env.broker);
  }

  lemma HandOverFailedKeeps(l: Lane, waiting: seq<TransportDelivery>)
    requires Core(l, waiting)
    requires l.ch.intake.buffer != [] && !l.ch.cfg.earlyAck
    ensures Core(HandOverFailed(l), waiting)
  {
    assert waiting[0] in waiting;
    EntriesAnnounce(l.ch, l.env.past.handed, waiting[0], l.env.past.handed);
  }

  // ---------------------------------------------------------------- best-effort hand-off

  // The ring answers exactly what the unbounded set of acknowledged tags would.
  lemma RingExact(cfg: Config, intake: Intake, handed: seq<TransportDelivery>, broker: Broker)
    requires EarlyOnce(cfg, intake, handed, broker) && cfg.earlyAck && intake.buffer != []
    ensures intake.buffer[0].tag in intake.earlyAcked <==> intake.buffer[0].tag in WireTags(broker.wire)
  {
  }

  lemma {:induction false} WireTagsHas(wire: seq<WireOp>, i: nat)
    requires i < |wire|
    ensures wire[i].tag in WireTags(wire)
  {
    var n := |wire| - 1;
    if i < n {
      WireTagsHas(wire[..n], i);
    }
  }

  // The operation a best-effort hand-off sends.
  lemma EarlyAckSends(
      cfg: Config, intake: Intake, waiting: seq<TransportDelivery>, past: History, broker: Broker,
      capacity: nat)
    requires cfg.earlyAck && !cfg.noAck && intake.buffer != [] && intake.buffer <= waiting
    requires EarlyOnce(cfg, intake, past.handed, broker)
    requires Untouched(cfg, intake.buffer, waiting, past.arrived, broker)
    requires Ordered(past, waiting, broker.transit)
    requires waiting[0].tag in TagSet(past.arrived) && waiting[0].tag !in intake.earlyAcked
    ensures var after := BrokerApply(broker, WireAck(waiting[0].tag, false));
            && after == broker.(wire := after.wire, unsettled := after.unsettled)
            && WireTags(after.wire) == WireTags(broker.wire) + {waiting[0].tag}
            && Untouched(cfg, intake.buffer, waiting, past.arrived, after)
            && EarlyOnce(cfg, intake.(earlyAcked := Remember(intake.earlyAcked, waiting[0].tag, capacity)),
                         past.handed, after)
  {
    var op := WireAck(waiting[0].tag, false);
    RingExact(cfg, intake, past.handed, broker);
    WireTagsAppend(broker.wire, op);
    assert waiting[0] in waiting;
    forall i | 0 <= i < |broker.wire| ensures broker.wire[i].tag != op.tag {
      WireTagsHas(broker.wire, i);
    }
  }

  lemma EarlyAckKeeps(l: Lane, waiting: seq<TransportDelivery>, capacity: nat)
    requires Core(l, waiting)
    requires l.ch.cfg.earlyAck && l.ch.intake.buffer != []
    ensures Core(EarlyAckFront(l, capacity), waiting)
    ensures var m := EarlyAckFront(l, capacity);
            && !l.ch.cfg.noAck ==> l.ch.intake.buffer[0].tag in WireTags(m.env.broker.wire)
  {
    if !l.ch.cfg.noAck {
      RingExact(l.ch.cfg, l.ch.intake, l.env.past.handed, l.env.broker);
      if l.ch.intake.buffer[0].tag !in l.ch.intake.earlyAcked {
          EarlyAckSends(l.ch.cfg, l.ch.intake, waiting, l.env.past, l.env.broker, capacity);
      }
    }
  }

  lemma EarlyOnceTake(
      cfg: Config, intake: Intake, waiting: seq<TransportDelivery>, past: History, broker: Broker, rest: Intake)
    requires cfg.earlyAck && intake.buffer != [] && intake.buffer <= waiting && Ascending(waiting)
    requires EarlyOnce(cfg, intake, past.handed, broker)
    requires Untouched(cfg, intake.buffer, waiting, past.arrived, broker)
    requires !cfg.noAck ==> waiting[0].tag in WireTags(broker.wire)
    requires rest.buffer == intake.buffer[1..] && rest.earlyAcked == intake.earlyAcked
    ensures EarlyOnce(cfg, rest, past.handed + [waiting[0]], broker)
    ensures Untouched(cfg, rest.buffer, waiting[1..], past.arrived, broker)
  {
    AscendingRest(waiting);
    TagSetAppend(past.handed, waiting[0]);
    if rest.buffer != [] {
      assert rest.buffer[0] == waiting[1..][0];
      assert rest.buffer[0] in waiting[1..];
    }
  }

  lemma EntriesAutoAcked(
      cfg: Config, pending: map<nat, Entry>, cells: map<Token, Cell>, handed: seq<TransportDelivery>,
      d: TransportDelivery)
    requires Entries(cfg, pending, cells, handed) && cfg.earlyAck
    ensures Entries(cfg, pending, cells[OwnToken(cfg, d) := Cell(AutoAcked, false)], handed + [d])
  {
  }

  lemma TakeAutoAckedKeeps(l: Lane, waiting: seq<TransportDelivery>)
    requires Core(l, waiting)
    requires l.ch.cfg.earlyAck && l.ch.intake.buffer != []
    requires !l.ch.cfg.noAck ==> l.ch.intake.buffer[0].tag in WireTags(l.env.broker.wire)
    ensures Core(TakeAutoAcked(l), waiting[1..])
  {
    var m, past := TakeAutoAcked(l), l.env.past;
    EntriesAutoAcked(l.ch.cfg, l.ch.ledger.pending, l.ch.cells, past.handed, waiting[0]);
    OrderedTake(past, waiting, l.env.broker.transit, m.env.past);
    FifoTake(l.ch.cfg, past.arrived, past.handed, waiting);
    ConservedTake(l.ch.cfg, l.ch.ledger.pending.Keys, past, waiting, m.env.past);
    BudgetedTake(l.ch.cfg, l.ch.ledger.pending.Keys, l.ch.intake, past, waiting, m.env.past, m.ch.intake);
    EarlyOnceTake(l.ch.cfg, l.ch.intake, waiting, past, l.env.broker, m.ch.intake);
  }

  lemma HandOverEarlyKeeps(l: Lane, waiting: seq<TransportDelivery>, capacity: nat)
    requires Core(l, waiting)
    requires l.ch.cfg.earlyAck && l.ch.intake.buffer != []
    ensures Core(HandOverEarly(l, capacity), waiting[1..])
  {
    EarlyAckKeeps(l, waiting, capacity);
    TakeAutoAckedKeeps(EarlyAckFront(l, capacity), waiting);
  }

  lemma EarlyAckDispatched(l: Lane, waiting: seq<TransportDelivery>, capacity: nat)
    requires Core(l, waiting)
    requires l.ch.cfg.earlyAck && l.ch.intake.buffer != []
    ensures Dispatched(l, EarlyAckFront(l, capacity))
  {
    assert waiting[0] in waiting;
    if !l.ch.cfg.noAck && l.ch.intake.buffer[0].tag !in l.ch.intake.earlyAcked {
      EarlyAckSends(l.ch.cfg, l.ch.intake, waiting, l.env.past, l.env.broker, capacity);
    }
  }

  lemma TakeAutoAckedDispatched(l: Lane, waiting: seq<TransportDelivery>)
    requires l.ch.cfg.earlyAck && l.ch.intake.buffer != [] && l.ch.intake.buffer <= waiting
    requires Ordered(l.env.past, waiting, l.env.broker.transit)
    ensures Dispatched(l, TakeAutoAcked(l))
  {
    assert waiting[0] in waiting;
  }

  lemma HandOverEarlyDispatched(l: Lane, waiting: seq<TransportDelivery>, capacity: nat)
    requires Core(l, waiting)
    requires l.ch.cfg.earlyAck && l.ch.intake.buffer != []
    ensures Dispatched(l, HandOverEarly(l, capacity))
    ensures Dispatched(l, HandOverEarlyFailed(l, capacity))
  {
    EarlyAckDispatched(l, waiting, capacity);
    var e := EarlyAckFront(l, capacity);
    TakeAutoAckedDispatched(e, waiting);
    DispatchedTrans(l, e, TakeAutoAcked(e));
  }

  lemma HandOverEarlyFailedKeeps(l: Lane, waiting: seq<TransportDelivery>, capacity: nat)
    requires Core(l, waiting)
    requires l.ch.cfg.earlyAck && l.ch.intake.buffer != []
    ensures Core(HandOverEarlyFailed(l, capacity), waiting)
  {
    EarlyAckKeeps(l, waiting, capacity);
  }

  // ---------------------------------------------------------------- admission

  lemma BudgetedAdmit(cfg: Config, intake: Intake, past: History, d: TransportDelivery, after: Intake)
    requires Configured(cfg) && Budgeted(cfg, intake, past)
    requires SatAdd(intake.bufferedBytes, d.bytes) <= cfg.maxBufferedBytes
    requires after.buffer == intake.buffer + [d]
    requires after.bufferedBytes == SatAdd(intake.bufferedBytes, d.bytes)
    ensures Budgeted(cfg, after, past)
  {
    BytesAppend(intake.buffer, d);
  }

  lemma AdmitKeeps(l: Lane, waiting: seq<TransportDelivery>, d: TransportDelivery)
    requires Core(l, waiting)
    requires l.ch.intake.buffer + [d] <= waiting
    requires !OverBudget(l.ch, d)
    ensures Core(Admit(l, d), waiting)
    ensures Dispatched(l, Admit(l, d))
  {
    BudgetedAdmit(l.ch.cfg, l.ch.intake, l.env.past, d, Admit(l, d).ch.intake);
    assert d in l.ch.intake.buffer + [d];
    assert d in waiting;
  }
}
