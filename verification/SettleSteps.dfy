/**
 The lane steps of a settlement: the embedder's call, the actor's claim, staging and launch,
 the operation reaching the broker, and the completion.
 */
module SettleSteps {
  import opened Deliveries
  import opened Lanes
  import opened Dispatching
  import opened Settling

  // The embedder's call went through: the token is terminal for it, the command is in the mailbox.
  function Post(l: Lane, token: Token, settlement: Settlement): Lane
    requires token in l.ch.cells
  {
    Lane(
      l.ch.(cells := l.ch.cells[token := l.ch.cells[token].(state := TerminalOf(settlement))],
            stages := l.ch.stages.(mail := l.ch.stages.mail + [Settle(token, settlement)])),
      l.env.(past := l.env.past.(
        requested := l.env.past.requested[token.tag := settlement],
        asks := l.env.past.asks + {Ask(token.tag, settlement)})))
  }

  // A settle-through carries no claim on its token; the token may come from another channel.
  function PostThrough(l: Lane, token: Token, cell: Cell): Lane {
    l.(ch := l.ch.(
      cells := if token in l.ch.cells then l.ch.cells else l.ch.cells[token := cell],
      stages := l.ch.stages.(mail := l.ch.stages.mail + [SettleThrough(token)])))
  }

  function PopMail(l: Lane): Lane
    requires l.ch.stages.mail != []
  {
    l.(ch := l.ch.(stages := l.ch.stages.(mail := l.ch.stages.mail[1..])))
  }

  function Claim(l: Lane, token: Token): Lane
    requires token in l.ch.cells
  {
    l.(ch := l.ch.(cells := l.ch.cells[token := l.ch.cells[token].(settling := true)]))
  }

  function Launch(l: Lane, w: Work): Lane {
    Lane(l.ch.(stages := l.ch.stages.(inFlight := true, settlements := l.ch.stages.settlements + [w])),
         l.env.(broker := l.env.broker.(applied := false)))
  }

  function LaunchThrough(l: Lane, th: Through): Lane {
    Lane(l.ch.(stages := l.ch.stages.(inFlight := true, throughs := l.ch.stages.throughs + [th])),
         l.env.(broker := l.env.broker.(applied := false)))
  }

  // Plain acknowledgements are only recorded; everything else is launched or queued.
  function Stage(l: Lane, w: Work): Lane {
    var st := l.ch.stages;
    if w.settlement == Ack then
      l.(ch := l.ch.(stages := st.(batch := st.batch[w.token.tag := w.token])))
    else if st.inFlight then l.(ch := l.ch.(stages := st.(queue := st.queue + [w])))
    else Launch(l, w)
  }

  // A rejection or release that will reach the broker after the delivery has been settled.
  predicate Strays(ch: Channel, w: Work) {
    w.settlement != Ack && (w.token.tag !in ch.ledger.pending || w.token.tag in ThroughTags(ch.stages.throughs))
  }

  // One of a delivery that a cumulative settlement under way settles as well.
  predicate Overlaps(ch: Channel, w: Work) {
    w.settlement != Ack && Listed(ch.stages, w.token.tag)
  }

  function Note(l: Lane, w: Work): Lane {
    var past := l.env.past;
    l.(env := l.env.(past := past.(
      overlapped := past.overlapped || Overlaps(l.ch, w), stray := past.stray || Strays(l.ch, w))))
  }

  function HandleSettle(l: Lane): Lane
    requires l.ch.stages.mail != [] && l.ch.stages.mail[0].Settle?
    requires l.ch.stages.mail[0].token in l.ch.cells
  {
    var c := l.ch.stages.mail[0];
    var popped := PopMail(l);
    if l.ch.cells[c.token].settling then popped
    else
      var w := Work(c.token, c.settlement);
      Stage(Claim(Note(popped, w), c.token), w)
  }

  // The queue of individual settlements goes before the queue of cumulative ones.
  function Drained(st: Stages): Stages {
    if st.queue != [] then
      st.(queue := st.queue[1..], inFlight := true, settlements := st.settlements + [st.queue[0]])
    else if st.throughQueue != [] then
      st.(throughQueue := st.throughQueue[1..], inFlight := true, throughs := st.throughs + [st.throughQueue[0]])
    else st
  }

  function DrainQueue(l: Lane): Lane {
    Lane(l.ch.(stages := Drained(l.ch.stages)), l.env.(broker := l.env.broker.(applied := false)))
  }

  // ---------------------------------------------------------------- acknowledgement flush

  // The highest tag a flush settles cumulatively.
  function Reach(ledger: Ledger, prefix: seq<Token>): nat {
    if prefix == [] then ledger.ackedPrefix else prefix[|prefix| - 1].tag
  }

  // Every ledger entry up to the reach of `prefix` is recorded, and listed once.
  ghost predicate IsRun(ledger: Ledger, batch: map<nat, Token>, prefix: seq<Token>) {
    var reach := Reach(ledger, prefix);
    && (forall a :: a in prefix ==> a.tag in batch && a == batch[a.tag] && a.tag in ledger.pending)
    && (forall i, j :: 0 <= i < j < |prefix| ==> prefix[i].tag < prefix[j].tag)
    && (forall a :: a in prefix ==> ledger.ackedPrefix < a.tag <= reach)
    && (forall t :: t in ledger.pending && ledger.ackedPrefix < t <= reach ==> t in TokenTags(prefix))
  }

  /** The longest run of recorded acknowledgements above the watermark: every ledger entry up to
      its reach is recorded, and the next ledger entry, if any, is not. */
  ghost predicate IsPrefix(ledger: Ledger, batch: map<nat, Token>, prefix: seq<Token>) {
    var reach := Reach(ledger, prefix);
    && IsRun(ledger, batch, prefix)
    && (forall t :: t in ledger.pending && t > reach && t in batch ==>
          exists hole :: hole in ledger.pending && reach < hole < t && hole !in batch)
  }

  // The recorded acknowledgements beyond the run, in tag order; settled ones are left out.
  ghost predicate IsRest(ledger: Ledger, batch: map<nat, Token>, reach: nat, rest: seq<Work>) {
    && (forall w :: w in rest ==>
          && w.settlement == Ack && w.token.tag > reach
          && w.token.tag in batch && w.token == batch[w.token.tag] && w.token.tag in ledger.pending)
    && (forall i, j :: 0 <= i < j < |rest| ==> rest[i].token.tag < rest[j].token.tag)
    && (forall t :: t in batch && t in ledger.pending && t > reach ==> t in WorkTags(rest))
  }

  function Flush(l: Lane, prefix: seq<Token>, rest: seq<Work>): Lane {
    var cleared := l.(ch := l.ch.(stages := l.ch.stages.(batch := map[])));
    if prefix != [] then
      var burst := LaunchThrough(cleared, Through(prefix[|prefix| - 1], prefix));
      burst.(ch := burst.ch.(stages := burst.ch.stages.(queue := burst.ch.stages.queue + rest)))
    else if rest != [] then
      var first := Launch(cleared, rest[0]);
      first.(ch := first.ch.(stages := first.ch.stages.(queue := first.ch.stages.queue + rest[1..])))
    else cleared
  }

  // ---------------------------------------------------------------- the wire

  function WorkOp(w: Work): WireOp {
    match w.settlement
    case Ack => WireAck(w.token.tag, false)
    case Release(delay) => if delay == 0 then WireReject(w.token.tag, true) else WireAck(w.token.tag, false)
    case Reject(requeue) => WireReject(w.token.tag, requeue)
  }

  function FlightOp(st: Stages): WireOp
    requires st.settlements != [] || st.throughs != []
  {
    if st.settlements != [] then WorkOp(st.settlements[0]) else WireAck(st.throughs[0].token.tag, true)
  }

  // The operation of the settlement in flight reaches the broker.
  function Apply(l: Lane): Lane
    requires l.ch.stages.settlements != [] || l.ch.stages.throughs != []
  {
    l.(env := l.env.(broker := BrokerApply(l.env.broker, FlightOp(l.ch.stages)).(applied := true)))
  }

  // Delivery tags of a channel strictly increase.
  predicate NextTag(l: Lane, d: TransportDelivery) {
    d.tag > l.env.past.arrivedTop && forall e :: e in l.env.broker.transit ==> e.tag < d.tag
  }

  // The broker sends one more delivery on a live channel; best-effort `no_ack` ones are settled at once.
  function Send(l: Lane, d: TransportDelivery): Lane {
    var broker := l.env.broker;
    l.(env := l.env.(broker := broker.(
      transit := broker.transit + [d],
      unsettled := if l.ch.cfg.noAck then broker.unsettled else broker.unsettled + {d.tag})))
  }

  function Die(l: Lane): Lane {
    l.(env := l.env.(broker := l.env.broker.(alive := false)))
  }
}
