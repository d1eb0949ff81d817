/**
 The lane steps of a dispatch pass: admitting parked deliveries under the byte budget,
 settling poison, and handing the buffer front to the embedder.
 */
module Dispatching {
  import opened Options
  import opened Deliveries
  import opened Lanes

  function PoisonOp(cfg: Config, tag: nat): WireOp {
    if cfg.hasDeadLetter then WireReject(tag, false) else WireAck(tag, false)
  }

  // Terminal settlement of a delivery that will never be dispatched.
  function SettlePoison(l: Lane, tag: nat, bytes: nat): Lane {
    Lane(
      l.ch.(intake := l.ch.intake.(bufferedBytes := SatSub(l.ch.intake.bufferedBytes, bytes)),
            ledger := l.ch.ledger.(pending := l.ch.ledger.pending - {tag})),
      Env(if l.ch.cfg.noAck then l.env.broker else BrokerApply(l.env.broker, PoisonOp(l.ch.cfg, tag)),
          l.env.past.(gone := l.env.past.gone + {tag})))
  }

  function DropFront(l: Lane): Lane
    requires l.ch.intake.buffer != []
  {
    l.(ch := l.ch.(intake := l.ch.intake.(buffer := l.ch.intake.buffer[1..])))
  }

  function PoisonFront(l: Lane): Lane
    requires l.ch.intake.buffer != []
  {
    SettlePoison(DropFront(l), l.ch.intake.buffer[0].tag, l.ch.intake.buffer[0].bytes)
  }

  // The new token enters its cells and, if the tag is in the ledger, the ledger entry.
  function Announce(ch: Channel, d: TransportDelivery): Channel {
    var token := OwnToken(ch.cfg, d);
    var pending := ch.ledger.pending;
    ch.(cells := ch.cells[token := Cell(Pending, false)],
        ledger := ch.ledger.(pending :=
          if d.tag in pending then pending[d.tag := pending[d.tag].(token := Some(token))] else pending))
  }

  function TakeFront(l: Lane): Lane
    requires l.ch.intake.buffer != []
  {
    var d, rest := l.ch.intake.buffer[0], DropFront(l);
    Lane(
      rest.ch.(intake := rest.ch.intake.(ready := l.ch.intake.ready && rest.ch.intake.buffer != [])),
      rest.env.(past := rest.env.past.(handed := l.env.past.handed + [d], handedTop := d.tag)))
  }

  function HandOver(l: Lane): Lane
    requires l.ch.intake.buffer != []
  {
    TakeFront(l.(ch := Announce(l.ch, l.ch.intake.buffer[0])))
  }

  // The hand-off channel is full: the delivery goes back to the buffer front.
  function HandOverFailed(l: Lane): Lane
    requires l.ch.intake.buffer != []
  {
    var ch := Announce(l.ch, l.ch.intake.buffer[0]);
    l.(ch := ch.(intake := ch.intake.(ready := true)))
  }

  // The ring keeps its newest entry even at capacity zero.
  function RingBound(capacity: nat): nat {
    if capacity == 0 then 1 else capacity
  }

  function Remember(ring: seq<nat>, tag: nat, capacity: nat): (r: seq<nat>)
    ensures r != [] && r[|r| - 1] == tag
    ensures |ring| <= RingBound(capacity) ==> |r| <= RingBound(capacity)
    ensures forall t :: t in r ==> t == tag || t in ring
  {
    (if |ring| >= capacity && ring != [] then ring[1..] else ring) + [tag]
  }

  // At most one early acknowledgement per tag: the ring decides.
  function EarlyAckFront(l: Lane, capacity: nat): Lane
    requires l.ch.intake.buffer != []
  {
    var intake := l.ch.intake;
    var tag := intake.buffer[0].tag;
    if l.ch.cfg.noAck || tag in intake.earlyAcked then l
    else
      Lane(l.ch.(intake := intake.(earlyAcked := Remember(intake.earlyAcked, tag, capacity))),
           l.env.(broker := BrokerApply(l.env.broker, WireAck(tag, false))))
  }

  function TakeAutoAcked(l: Lane): Lane
    requires l.ch.intake.buffer != []
  {
    var d := l.ch.intake.buffer[0];
    TakeFront(l.(ch := l.ch.(
      cells := l.ch.cells[OwnToken(l.ch.cfg, d) := Cell(AutoAcked, false)],
      intake := l.ch.intake.(bufferedBytes := SatSub(l.ch.intake.bufferedBytes, d.bytes)))))
  }

  function HandOverEarly(l: Lane, capacity: nat): Lane
    requires l.ch.intake.buffer != []
  {
    TakeAutoAcked(EarlyAckFront(l, capacity))
  }

  function HandOverEarlyFailed(l: Lane, capacity: nat): Lane
    requires l.ch.intake.buffer != []
  {
    var e := EarlyAckFront(l, capacity);
    e.(ch := e.ch.(intake := e.ch.intake.(ready := true)))
  }

  predicate OverBudget(ch: Channel, d: TransportDelivery) {
    SatAdd(ch.intake.bufferedBytes, d.bytes) > ch.cfg.maxBufferedBytes
  }

  function AdmitTo(ch: Channel, d: TransportDelivery): Channel {
    ch.(intake := ch.intake.(
      buffer := ch.intake.buffer + [d], ready := true, bufferedBytes := SatAdd(ch.intake.bufferedBytes, d.bytes)))
  }

  function Admit(l: Lane, d: TransportDelivery): Lane {
    l.(ch := AdmitTo(l.ch, d))
  }

  // Deliveries are handed over or settled for good, and leave ledger and broker accordingly.
  ghost predicate BooksMoved(l: Lane, m: Lane) {
    var a, b := l.env.past, m.env.past;
    var dropped := b.gone - a.gone;
    && m.ch.cfg == l.ch.cfg && m.ch.stages == l.ch.stages
    && m.ch.ledger.ackedPrefix == l.ch.ledger.ackedPrefix
    && m.env.broker == l.env.broker.(unsettled := m.env.broker.unsettled, wire := m.env.broker.wire)
    && b == a.(handed := b.handed, handedTop := b.handedTop, gone := b.gone)
    && a.handed <= b.handed
    && a.gone <= b.gone
    && (forall d :: d in a.handed ==> d.tag !in dropped)
    && dropped <= TagSet(a.arrived)
    && (!l.ch.cfg.earlyAck ==>
          && m.ch.ledger.pending.Keys == l.ch.ledger.pending.Keys - dropped
          && (l.env.broker.alive ==> m.env.broker.unsettled == l.env.broker.unsettled - dropped))
  }

  // The tokens of deliveries handed over before `a` keep their cells; those handed over since are pending.
  ghost predicate CellsMoved(
      cfg: Config, a: History, b: History, cells: map<Token, Cell>, after: map<Token, Cell>)
  {
    && cells.Keys <= after.Keys
    && (forall d :: d in a.handed && OwnToken(cfg, d) in cells ==>
          OwnToken(cfg, d) in after && after[OwnToken(cfg, d)] == cells[OwnToken(cfg, d)])
    && (forall d :: d in b.handed && d !in a.handed && !cfg.earlyAck ==>
          d.tag !in b.gone && OwnToken(cfg, d) in after && after[OwnToken(cfg, d)] == Cell(Pending, false))
  }

  /** What a dispatch pass may do to a lane: hand deliveries over, in which case their tokens are
      new and pending, and settle undelivered ones for good. Settlement work is untouched. */
  ghost predicate Dispatched(l: Lane, m: Lane) {
    BooksMoved(l, m) && CellsMoved(l.ch.cfg, l.env.past, m.env.past, l.ch.cells, m.ch.cells)
  }

  lemma DispatchedSame(l: Lane)
    ensures Dispatched(l, l)
  {
  }

  lemma DispatchedTrans(l: Lane, m: Lane, n: Lane)
    requires Dispatched(l, m) && Dispatched(m, n)
    ensures Dispatched(l, n)
  {
    var a, b, c := l.env.past, m.env.past, n.env.past;
    forall d | d in a.handed && OwnToken(l.ch.cfg, d) in l.ch.cells
      ensures OwnToken(l.ch.cfg, d) in n.ch.cells
           && n.ch.cells[OwnToken(l.ch.cfg, d)] == l.ch.cells[OwnToken(l.ch.cfg, d)]
    {
      assert d in b.handed;
    }
  }
}
