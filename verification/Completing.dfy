/**
 Completion of the settlement in flight, individual or cumulative. It happens in two parts,
 because the actor puts the freed bytes to use (a dispatch pass) before it closes the books:
 `Begin` frees the bytes, `Finish` removes the ledger entries, marks the tokens and launches
 the channel's next settlement.
 */
module Completing {
  import opened Deliveries
  import opened Lanes
  import opened Dispatching
  import opened Settling
  import opened SettleSteps

  datatype Outcome = Done | Failed(kind: ErrorKind)

  // Outcomes after which the delivery never comes back to the embedder on this channel.
  predicate Terminal(outcome: Outcome) {
    outcome.Done? || outcome.kind in {StaleGeneration, Transport, MaxAttempts, InvalidDelay}
  }

  // Attempts used up, or a delay nothing can honour: the delivery is settled for good.
  predicate Poisoned(outcome: Outcome) {
    outcome.Failed? && outcome.kind in {MaxAttempts, InvalidDelay}
  }

  function FinalState(cfg: Config, w: Work, outcome: Outcome): DeliveryState {
    if outcome.Done? then TerminalOf(w.settlement)
    else if Poisoned(outcome) then if cfg.hasDeadLetter then Rejected else Acked
    else if Terminal(outcome) then Lost
    else Pending
  }

  function FinalThrough(outcome: Outcome): DeliveryState {
    if outcome.Done? then Acked else if Terminal(outcome) then Lost else Pending
  }

  /** What a completion does to the books.
      - `tokens`: the settled tokens, whose state becomes `final`
      - `removed`: the tags leaving the ledger, and `prefix` its new watermark
      - `poison`: the original delivery must still be settled on the wire */
  datatype Landing = Landing(
    terminal: bool, tokens: seq<Token>, removed: set<nat>, prefix: nat, final: DeliveryState, poison: bool)

  // The tags above `low`, up to and including `high`.
  function Between(low: nat, high: nat): set<nat> {
    if high <= low then {} else Between(low, high - 1) + {high}
  }

  lemma {:induction false} BetweenHas(low: nat, high: nat)
    ensures forall t :: t in Between(low, high) <==> low < t <= high
  {
    if high > low {
      BetweenHas(low, high - 1);
    }
  }

  function LandWork(ch: Channel, w: Work, outcome: Outcome): Landing {
    Landing(Terminal(outcome), [w.token], if Terminal(outcome) then {w.token.tag} else {},
            ch.ledger.ackedPrefix, FinalState(ch.cfg, w, outcome), Poisoned(outcome))
  }

  function LandThrough(ch: Channel, th: Through, outcome: Outcome): Landing {
    Landing(Terminal(outcome), th.affected,
            if Terminal(outcome) then Between(ch.ledger.ackedPrefix, th.token.tag) else {},
            if outcome.Done? then th.token.tag else ch.ledger.ackedPrefix, FinalThrough(outcome), false)
  }

  /** What the wire can answer: success only once the operation has reached the broker, a transport
      error only on a dead channel, anything else only for a delayed release that was not published. */
  predicate WorkAnswer(broker: Broker, w: Work, outcome: Outcome) {
    if outcome.Done? then broker.applied
    else if outcome.kind == Transport then !broker.alive
    else
      && outcome.kind in {MissingPublisher, Publish, MaxAttempts, InvalidDelay}
      && !broker.applied && w.settlement.Release? && w.settlement.delay > 0
  }

  predicate ThroughAnswer(broker: Broker, outcome: Outcome) {
    if outcome.Done? then broker.applied else outcome.kind == Transport && !broker.alive
  }

  // The landings a lane's flight can have.
  ghost predicate Lands(l: Lane, landing: Landing) {
    var st := l.ch.stages;
    || (st.settlements != [] && exists outcome ::
          WorkAnswer(l.env.broker, st.settlements[0], outcome)
          && landing == LandWork(l.ch, st.settlements[0], outcome))
    || (st.throughs != [] && exists outcome ::
          ThroughAnswer(l.env.broker, outcome) && landing == LandThrough(l.ch, st.throughs[0], outcome))
  }

  // ---------------------------------------------------------------- steps

  function Landed(st: Stages): Stages {
    st.(inFlight := false,
        settlements := if st.settlements != [] then st.settlements[1..] else [],
        throughs := if st.settlements == [] && st.throughs != [] then st.throughs[1..] else st.throughs)
  }

  predicate Idle(st: Stages) {
    !st.inFlight && st.settlements == [] && st.throughs == []
  }

  function Land(l: Lane): Lane {
    Lane(l.ch.(stages := Landed(l.ch.stages)), l.env.(broker := l.env.broker.(applied := false)))
  }

  // One delivery's bytes return to the budget; its ledger entry is about to leave.
  function FreeBytes(l: Lane, token: Token): Lane {
    var past := l.env.past;
    Lane(
      l.ch.(intake := l.ch.intake.(bufferedBytes := SatSub(l.ch.intake.bufferedBytes, token.bytes))),
      l.env.(past := past.(
        gone := past.gone + {token.tag},
        leaving := if token.tag in l.ch.ledger.pending then past.leaving + {token.tag} else past.leaving)))
  }

  function FreeAll(l: Lane, tokens: seq<Token>): Lane {
    if tokens == [] then l
    else FreeBytes(FreeAll(l, tokens[..|tokens| - 1]), tokens[|tokens| - 1])
  }

  function Begin(l: Lane, landing: Landing): Lane {
    if landing.terminal then FreeAll(Land(l), landing.tokens) else Land(l)
  }

  function Mark(cells: map<Token, Cell>, tokens: seq<Token>, final: DeliveryState): map<Token, Cell> {
    if tokens == [] then cells
    else Mark(cells, tokens[..|tokens| - 1], final)[tokens[|tokens| - 1] := Cell(final, false)]
  }

  lemma {:induction false} MarkAt(cells: map<Token, Cell>, tokens: seq<Token>, final: DeliveryState)
    ensures forall t :: t in Mark(cells, tokens, final) <==> t in cells || t in tokens
    ensures forall t :: t in Mark(cells, tokens, final) ==>
              Mark(cells, tokens, final)[t] == if t in tokens then Cell(final, false) else cells[t]
  {
    if tokens != [] {
      MarkAt(cells, tokens[..|tokens| - 1], final);
    }
  }

  function Strike(l: Lane, removed: set<nat>, prefix: nat): Lane {
    Lane(
      l.ch.(ledger := Ledger(l.ch.ledger.pending - removed, prefix)),
      l.env.(past := l.env.past.(leaving := l.env.past.leaving - removed)))
  }

  // What the broker knows once a poison delivery has been settled for good.
  function Told(cfg: Config, broker: Broker, landing: Landing): Broker {
    if landing.poison && landing.tokens != [] then BrokerApply(broker, PoisonOp(cfg, landing.tokens[0].tag))
    else broker
  }

  function Conclude(l: Lane, landing: Landing): Lane {
    Lane(
      l.ch.(cells := Mark(l.ch.cells, landing.tokens, landing.final)),
      if landing.poison && landing.tokens != [] then
        l.env.(broker := BrokerApply(l.env.broker, PoisonOp(l.ch.cfg, landing.tokens[0].tag)))
      else l.env)
  }

  function Finish(l: Lane, landing: Landing): Lane {
    DrainQueue(Conclude(Strike(l, landing.removed, landing.prefix), landing))
  }
}
