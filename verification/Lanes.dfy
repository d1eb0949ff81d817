/**
 One lane of the consumer actor: everything the actor keeps for one subscription's
 channel (`Channel`), next to everything the outside world has seen of it (`Env`).

 A subscription has exactly one channel key for the whole life of an actor, so the
 actor's per-key maps are the fields of one record here.
 */
module Lanes {
  import opened Options
  import opened Deliveries
  import Attempts

  datatype Config = Config(
    id: SubscriptionId,
    identity: Identity,
    earlyAck: bool,
    noAck: bool,
    maxAttempts: Option<nat>,
    hasDeadLetter: bool,
    maxBufferedBytes: nat)

  predicate Configured(cfg: Config) {
    cfg.maxBufferedBytes <= U64_MAX && (cfg.noAck ==> cfg.earlyAck)
  }

  predicate Oversized(cfg: Config, d: TransportDelivery) {
    d.bytes > cfg.maxBufferedBytes
  }

  // Best-effort subscriptions dispatch above the cap instead of settling.
  predicate Poison(cfg: Config, d: TransportDelivery) {
    !cfg.earlyAck && Attempts.AboveCap(cfg.maxAttempts, d.attempts)
  }

  // Only here can the front of a buffer be dropped as poison.
  predicate Capped(cfg: Config) {
    cfg.maxAttempts.Some? && !cfg.earlyAck
  }

  function OwnToken(cfg: Config, d: TransportDelivery): Token {
    Token(cfg.id, cfg.identity, d.tag, d.bytes, d.attempts)
  }

  datatype Entry = Entry(state: DeliveryState, token: Option<Token>)

  datatype Ledger = Ledger(pending: map<nat, Entry>, ackedPrefix: nat)

  // Deliveries on their way to the embedder.
  datatype Intake = Intake(
    buffer: seq<TransportDelivery>, bufferedBytes: nat, earlyAcked: seq<nat>, ready: bool)

  datatype Work = Work(token: Token, settlement: Settlement)

  datatype Through = Through(token: Token, affected: seq<Token>)

  datatype Command =
    | Settle(token: Token, settlement: Settlement)
    | SettleThrough(token: Token)

  // Settlements on their way to the broker, in the order a settlement passes them.
  datatype Stages = Stages(
    mail: seq<Command>,
    batch: map<nat, Token>,
    queue: seq<Work>,
    throughQueue: seq<Through>,
    inFlight: bool,
    settlements: seq<Work>,
    throughs: seq<Through>)

  datatype Channel = Channel(
    cfg: Config, intake: Intake, ledger: Ledger, stages: Stages, cells: map<Token, Cell>)

  datatype WireOp =
    | WireAck(tag: nat, multiple: bool)
    | WireReject(tag: nat, requeue: bool)

  // `transit`: sent, not yet seen by the actor. `unsettled`: what the broker still waits for.
  // `applied`: the settlement in flight has reached the broker.
  datatype Broker = Broker(
    alive: bool, violated: bool, transit: seq<TransportDelivery>, unsettled: set<nat>,
    wire: seq<WireOp>, applied: bool)

  // A settlement call of the embedder that got through.
  datatype Ask = Ask(tag: nat, settlement: Settlement)

  /** What has happened on a channel.
      - `arrived`, `handed`: the arrival order and the hand-off order, with the highest tag of either
      - `gone`: tags settled terminally; `leaving`: those whose ledger entry is about to be removed
      - `requested`: the last settlement the embedder asked for, by tag; `asks`: all it ever asked for
      - `through`: the highest target of an embedder's own settle-through that was accepted
      - `explicit`: an embedder's own settle-through was accepted at some point
      - `crossed`: one was accepted for a token that a staged cumulative settlement lists
      - `overlapped`: a token came to be on its way to the broker twice, because a settle-through that
        lists it was accepted, or a rejection or release of it claimed, while another settlement had it
      - `stray`: a rejection or release was claimed for a token that is not in the ledger any more, or
        that the cumulative settlement in flight lists */
  datatype History = History(
    arrived: seq<TransportDelivery>,
    arrivedTop: nat,
    handed: seq<TransportDelivery>,
    handedTop: nat,
    gone: set<nat>,
    leaving: set<nat>,
    requested: map<nat, Settlement>,
    asks: set<Ask>,
    through: nat,
    explicit: bool,
    crossed: bool,
    overlapped: bool,
    stray: bool)

  // No settlement can reach the broker for a tag it has settled already.
  predicate Peaceful(past: History) {
    !past.crossed && !past.stray
  }

  // No delivery is on its way to the broker twice.
  predicate Clean(past: History) {
    !past.overlapped && !past.stray
  }

  datatype Env = Env(broker: Broker, past: History)

  datatype Lane = Lane(ch: Channel, env: Env)

  // ---------------------------------------------------------------- broker

  /** The broker's side of `basic.ack` and `basic.reject`: an operation that does not name an
      unsettled tag is a protocol violation, which closes the channel. */
  function BrokerApply(broker: Broker, op: WireOp): Broker {
    var sent := broker.(wire := broker.wire + [op]);
    if !broker.alive then sent
    else if op.tag !in broker.unsettled then sent.(violated := true, alive := false)
    else if op.WireAck? && op.multiple then
      sent.(unsettled := set t | t in broker.unsettled && t > op.tag)
    else sent.(unsettled := broker.unsettled - {op.tag})
  }

  function WireTags(wire: seq<WireOp>): set<nat> {
    if wire == [] then {} else WireTags(wire[..|wire| - 1]) + {wire[|wire| - 1].tag}
  }

  // ---------------------------------------------------------------- filters

  // What a subscription's embedder should be handed of a line of arrivals, in order.
  function Deliverable(cfg: Config, xs: seq<TransportDelivery>): seq<TransportDelivery> {
    if xs == [] then [] else
      var last := xs[|xs| - 1];
      Deliverable(cfg, xs[..|xs| - 1]) + if Oversized(cfg, last) || Poison(cfg, last) then [] else [last]
  }

  function WorkTags(ws: seq<Work>): set<nat> {
    if ws == [] then {} else WorkTags(ws[..|ws| - 1]) + {ws[|ws| - 1].token.tag}
  }

  function ThroughTags(ths: seq<Through>): set<nat> {
    if ths == [] then {} else ThroughTags(ths[..|ths| - 1]) + TokenTags(ths[|ths| - 1].affected)
  }

  // ---------------------------------------------------------------- core invariant
  // `waiting` is what a lane holds undelivered, oldest first: its buffer, then its parked deliveries.

  ghost predicate Ordered(past: History, waiting: seq<TransportDelivery>, transit: seq<TransportDelivery>) {
    && Ascending(past.handed) && Ascending(waiting) && Ascending(transit)
    && past.handedTop <= past.arrivedTop
    && (forall d :: d in past.handed ==> d.tag <= past.handedTop)
    && (forall d :: d in waiting ==> past.handedTop < d.tag <= past.arrivedTop)
    && (forall d :: d in past.arrived ==> d.tag <= past.arrivedTop)
    && (forall d :: d in transit ==> past.arrivedTop < d.tag)
  }

  /** First in, first out, read from the newest arrival back: an oversized delivery was dropped on
      arrival; the others are still waiting, or were handed over, or dropped as poison on their turn. */
  ghost predicate Fifo(
      cfg: Config, arrived: seq<TransportDelivery>, handed: seq<TransportDelivery>,
      waiting: seq<TransportDelivery>)
  {
    if arrived == [] then handed == [] && waiting == [] else
      var n := |arrived| - 1;
      var last := arrived[n];
      if Oversized(cfg, last) then Fifo(cfg, arrived[..n], handed, waiting)
      else if waiting != [] then
        last == waiting[|waiting| - 1] && Fifo(cfg, arrived[..n], handed, waiting[..|waiting| - 1])
      else if Poison(cfg, last) then Fifo(cfg, arrived[..n], handed, [])
      else
        handed != [] && last == handed[|handed| - 1]
        && Fifo(cfg, arrived[..n], handed[..|handed| - 1], [])
  }

  // The ledger is what arrived minus what was terminally settled, and every entry of it is either
  // in the embedder's hands or still undelivered.
  ghost predicate Conserved(cfg: Config, keys: set<nat>, past: History, waiting: seq<TransportDelivery>) {
    && (forall d :: d in past.handed ==> d.tag in TagSet(past.arrived))
    && (forall d :: d in waiting ==> d.tag in TagSet(past.arrived) && d.tag !in past.gone)
    && past.gone <= TagSet(past.arrived)
    && past.leaving <= past.gone
    && (!cfg.earlyAck ==>
          && keys == TagSet(past.arrived) - past.gone + past.leaving
          && (forall t :: t in TagSet(past.arrived) && t !in past.gone ==>
                t in TagSet(past.handed) || t in TagSet(waiting)))
  }

  ghost predicate Entries(
      cfg: Config, pending: map<nat, Entry>, cells: map<Token, Cell>, handed: seq<TransportDelivery>)
  {
    && (forall t :: t in pending ==> pending[t].state == Pending)
    && (forall d :: d in handed && d.tag in pending && !cfg.earlyAck ==>
          pending[d.tag].token == Some(OwnToken(cfg, d)))
    && (forall d :: d in handed ==>
          OwnToken(cfg, d) in cells && (cfg.earlyAck ==> cells[OwnToken(cfg, d)].state == AutoAcked))
  }

  ghost predicate Recorded(l: Lane) {
    Entries(l.ch.cfg, l.ch.ledger.pending, l.ch.cells, l.env.past.handed)
  }

  // Payload bytes a lane really holds: best-effort deliveries stop counting at the hand-off.
  function Held(cfg: Config, buffer: seq<TransportDelivery>, past: History): nat {
    Bytes(buffer) + if cfg.earlyAck then 0 else Outstanding(past.handed, past.gone)
  }

  ghost predicate Budgeted(cfg: Config, intake: Intake, past: History) {
    && intake.bufferedBytes <= cfg.maxBufferedBytes
    && intake.bufferedBytes <= Held(cfg, intake.buffer, past)
    && (Clean(past) && cfg.maxBufferedBytes < U64_MAX ==>
          intake.bufferedBytes == Held(cfg, intake.buffer, past))
  }

  ghost predicate Watermarked(ledger: Ledger, arrivedTop: nat) {
    (forall t :: t in ledger.pending ==> ledger.ackedPrefix < t) && ledger.ackedPrefix <= arrivedTop
  }

  // A delivery nobody has been handed is still owed to the broker, and no operation has named it,
  // except the early acknowledgement of a buffer front whose hand-off failed.
  ghost predicate Untouched(
      cfg: Config, buffer: seq<TransportDelivery>, waiting: seq<TransportDelivery>,
      arrived: seq<TransportDelivery>, broker: Broker)
  {
    && WireTags(broker.wire) <= TagSet(arrived)
    && (forall d :: d in waiting && d.tag in WireTags(broker.wire) ==>
          cfg.earlyAck && buffer != [] && d.tag == buffer[0].tag)
    && (broker.alive && !cfg.noAck ==>
          && (forall d :: d in waiting && d.tag !in WireTags(broker.wire) ==> d.tag in broker.unsettled)
          && (forall d :: d in broker.transit ==> d.tag in broker.unsettled))
  }

  /** Best-effort channels: every operation names a different tag, every handed-off delivery was
      acknowledged, and an acknowledged delivery still in the buffer is the newest of the ring. */
  ghost predicate EarlyOnce(
      cfg: Config, intake: Intake, handed: seq<TransportDelivery>, broker: Broker)
  {
    cfg.earlyAck ==>
      && (cfg.noAck ==> broker.wire == [])
      && (forall i, j :: 0 <= i < j < |broker.wire| ==> broker.wire[i].tag != broker.wire[j].tag)
      && (!cfg.noAck ==> TagSet(handed) <= WireTags(broker.wire))
      && (forall t :: t in intake.earlyAcked ==> t in WireTags(broker.wire))
      && (intake.buffer != [] && intake.buffer[0].tag in WireTags(broker.wire) ==>
            intake.earlyAcked != []
            && intake.earlyAcked[|intake.earlyAcked| - 1] == intake.buffer[0].tag)
      && !broker.violated
  }

  ghost predicate Lined(l: Lane, waiting: seq<TransportDelivery>) {
    var intake, past := l.ch.intake, l.env.past;
    && intake.buffer <= waiting
    && (intake.buffer != [] ==> intake.ready)
    && (intake.buffer == [] && intake.ready ==> Capped(l.ch.cfg))
    && Ordered(past, waiting, l.env.broker.transit)
    && Fifo(l.ch.cfg, past.arrived, past.handed, waiting)
    && (forall d :: d in waiting ==> !Oversized(l.ch.cfg, d))
  }

  ghost predicate Booked(l: Lane, waiting: seq<TransportDelivery>) {
    var ch, past := l.ch, l.env.past;
    && Configured(ch.cfg)
    && Conserved(ch.cfg, ch.ledger.pending.Keys, past, waiting)
    && Recorded(l)
    && Budgeted(ch.cfg, ch.intake, past)
    && Watermarked(ch.ledger, past.arrivedTop)
  }

  ghost predicate Wired(l: Lane, waiting: seq<TransportDelivery>) {
    && Untouched(l.ch.cfg, l.ch.intake.buffer, waiting, l.env.past.arrived, l.env.broker)
    && EarlyOnce(l.ch.cfg, l.ch.intake, l.env.past.handed, l.env.broker)
  }

  ghost predicate Core(l: Lane, waiting: seq<TransportDelivery>) {
    Lined(l, waiting) && Booked(l, waiting) && Wired(l, waiting)
  }
}
