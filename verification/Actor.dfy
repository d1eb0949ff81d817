/**
 The consumer actor: the state `run_actor` owns and the handlers it calls. `world` is not part
 of the actor; it is what happens around it, kept here so that every handler can be read as a
 step of the whole system.
 */
module Actor {
  import opened Options
  import opened Deliveries
  import opened Lanes
  import opened Dispatching
  import opened Receiving
  import opened Settling
  import opened SettleSteps
  import opened Throughs
  import opened Scans
  import opened Completing
  import opened LaneMaps
  import opened Passes
  import opened Handlers

  const SOURCE_ERROR_CAPACITY: nat := 64

  // Everything that can happen, in any order. An event that is not enabled does nothing.
  datatype Event =
    | Sends(id: SubscriptionId, d: TransportDelivery)
    | Dies(id: SubscriptionId)
    | Applies(id: SubscriptionId)
    | Takes
    | Settles(token: Token, settlement: Settlement, room: bool)
    | AsksThrough(token: Token, cell: Cell)
    | Arrives(id: SubscriptionId)
    | SourceFails
    | Notified
    | Handles(id: SubscriptionId)
    | Loops
    | Answers(id: SubscriptionId, outcome: Outcome)

  class ActorState {
    const parkCapacity: nat
    const ringCapacity: nat
    const handoffCapacity: nat
    var channels: Channels
    var parked: seq<Parked>
    var handoff: seq<Item>
    var errorItems: nat
    var sourceErrors: nat
    var world: World
    // How many error items the embedder has taken.
    ghost var taken: nat

    // The hand-off capacity is a `usize`.
    constructor (configs: map<SubscriptionId, Config>, parkCapacity: nat, ringCapacity: nat, handoffCapacity: nat)
      requires forall id :: id in configs ==> configs[id].id == id && Configured(configs[id])
      requires handoffCapacity <= U64_MAX
      ensures Valid()
      ensures this.parkCapacity == parkCapacity && this.ringCapacity == ringCapacity
      ensures this.handoffCapacity == handoffCapacity
      ensures channels == (map id | id in configs :: FreshChannel(configs[id]))
      ensures world == (map id | id in configs :: FreshEnv())
      ensures parked == [] && handoff == [] && errorItems == 0 && sourceErrors == 0 && taken == 0
    {
      this.parkCapacity := parkCapacity;
      this.ringCapacity := ringCapacity;
      this.handoffCapacity := handoffCapacity;
      channels := map id | id in configs :: FreshChannel(configs[id]);
      world := map id | id in configs :: FreshEnv();
      parked, handoff, errorItems, sourceErrors, taken := [], [], 0, 0, 0;
      new;
      AllFresh(configs, channels, world);
    }

    ghost predicate Bounded()
      reads this
    {
      && |parked| <= parkCapacity && |handoff| <= handoffCapacity <= U64_MAX
      && sourceErrors <= SOURCE_ERROR_CAPACITY
      && errorItems == SatAdd(taken, Errors(handoff))
    }

    // Between two commands.
    ghost predicate Valid()
      reads this
    {
      AllInv(channels, world, parked) && Bounded()
    }

    // In the middle of a command.
    ghost predicate Running()
      reads this
    {
      AllCore(channels, world, parked) && Bounded()
    }

    // ---------------------------------------------------------------- dispatch

    function Limit(): Limits {
      Limits(handoffCapacity, ringCapacity)
    }

    function Now(): PassState
      reads this
    {
      PassState(channels, world, handoff, errorItems, sourceErrors)
    }

    method DrainPending()
      requires Running()
      modifies this`channels, this`parked
      ensures Running()
      ensures AllDispatched(old(channels), old(world), channels, world)
      ensures (channels, parked) == Admitted(old(channels), old(parked))
    {
      DispatchedSelf(channels, world);
      while parked != []
        invariant Running() && |parked| <= old(|parked|)
        invariant AllDispatched(old(channels), old(world), channels, world)
        invariant Admitted(channels, parked) == Admitted(old(channels), old(parked))
        decreases |parked|
      {
        AllAdmit(old(channels), old(world), channels, world, parked);
        var p := parked[0];
        var ch := channels[p.id];
        // A delivery larger than its whole budget never gets here: it was settled on arrival.
        if OverBudget(ch, p.delivery) {
          break;
        }
        ghost var m := Admit(LaneOf(channels, world, p.id), p.delivery);
        parked := parked[1..];
        ch := ch.(intake := ch.intake.(buffer := ch.intake.buffer + [p.delivery], ready := true));
        ch := ch.(intake := ch.intake.(bufferedBytes := SatAdd(ch.intake.bufferedBytes, p.delivery.bytes)));
        channels := channels[p.id := ch];
        assert ch == m.ch && world[p.id := m.env] == world;
      }
    }

    // The buffer front can never be dispatched: it is settled for good.
    method TakePoison(id: SubscriptionId)
      requires id in channels && id in world && channels[id].intake.buffer != []
      modifies this`channels, this`world
      ensures var m := PoisonFront(old(LaneOf(channels, world, id)));
              channels == old(channels)[id := m.ch] && world == old(world)[id := m.env]
    {
      var ch := channels[id];
      var d := ch.intake.buffer[0];
      world := world[id := PoisonFront(Lane(ch, world[id])).env];
      ch := ch.(intake := ch.intake.(buffer := ch.intake.buffer[1..]));
      ch := ch.(intake := ch.intake.(bufferedBytes := SatSub(ch.intake.bufferedBytes, d.bytes)));
      ch := ch.(ledger := ch.ledger.(pending := ch.ledger.pending - {d.tag}));
      channels := channels[id := ch];
    }

    // Best-effort subscriptions: acknowledge once, then hand over.
    method TakeEarly(id: SubscriptionId) returns (sent: bool)
      requires id in channels && id in world && channels[id].intake.buffer != []
      modifies this`channels, this`world, this`handoff
      ensures sent == (old(|handoff|) < handoffCapacity)
      ensures var l := old(LaneOf(channels, world, id));
              var m := if sent then HandOverEarly(l, ringCapacity) else HandOverEarlyFailed(l, ringCapacity);
              && channels == old(channels)[id := m.ch] && world == old(world)[id := m.env]
              && handoff == if sent then old(handoff) + [Job(OwnToken(l.ch.cfg, l.ch.intake.buffer[0]))]
                            else old(handoff)
    {
      var ch := channels[id];
      ghost var l := Lane(ch, world[id]);
      var d := ch.intake.buffer[0];
      world := world[id := EarlyAckFront(Lane(ch, world[id]), ringCapacity).env];
      if !ch.cfg.noAck && d.tag !in ch.intake.earlyAcked {
        ch := ch.(intake := ch.intake.(earlyAcked := Remember(ch.intake.earlyAcked, d.tag, ringCapacity)));
      }
      ghost var e := EarlyAckFront(l, ringCapacity);
      assert ch == e.ch && world[id] == e.env;
      ch := ch.(intake := ch.intake.(buffer := ch.intake.buffer[1..]));
      sent := |handoff| < handoffCapacity;
      if !sent {
        ch := ch.(intake := ch.intake.(buffer := [d] + ch.intake.buffer, ready := true));
        assert [d] + l.ch.intake.buffer[1..] == l.ch.intake.buffer;
      } else {
        var token := OwnToken(ch.cfg, d);
        handoff := handoff + [Job(token)];
        var past := world[id].past;
        world := world[id := world[id].(past := past.(handed := past.handed + [d], handedTop := d.tag))];
        ch := ch.(cells := ch.cells[token := Cell(AutoAcked, false)]);
        if ch.intake.buffer == [] {
          ch := ch.(intake := ch.intake.(ready := false));
        }
        ch := ch.(intake := ch.intake.(bufferedBytes := SatSub(ch.intake.bufferedBytes, d.bytes)));
      }
      channels := channels[id := ch];
    }

    // Manual subscriptions: the ledger entry learns its token, then the delivery is handed over.
    method TakeManual(id: SubscriptionId) returns (sent: bool)
      requires id in channels && id in world && channels[id].intake.buffer != []
      modifies this`channels, this`world, this`handoff
      ensures sent == (old(|handoff|) < handoffCapacity)
      ensures var l := old(LaneOf(channels, world, id));
              var m := if sent then HandOver(l) else HandOverFailed(l);
              && channels == old(channels)[id := m.ch] && world == old(world)[id := m.env]
              && handoff == if sent then old(handoff) + [Job(OwnToken(l.ch.cfg, l.ch.intake.buffer[0]))]
                            else old(handoff)
    {
      var ch := channels[id];
      ghost var l := Lane(ch, world[id]);
      var d := ch.intake.buffer[0];
      ch := ch.(intake := ch.intake.(buffer := ch.intake.buffer[1..]));
      var token := OwnToken(ch.cfg, d);
      ch := ch.(cells := ch.cells[token := Cell(Pending, false)]);
      if d.tag in ch.ledger.pending {
        var entry := ch.ledger.pending[d.tag];
        ch := ch.(ledger := ch.ledger.(pending := ch.ledger.pending[d.tag := entry.(token := Some(token))]));
      }
      sent := |handoff| < handoffCapacity;
      if !sent {
        ch := ch.(intake := ch.intake.(buffer := [d] + ch.intake.buffer, ready := true));
        assert [d] + l.ch.intake.buffer[1..] == l.ch.intake.buffer;
      } else {
        handoff := handoff + [Job(token)];
        var past := world[id].past;
        world := world[id := world[id].(past := past.(handed := past.handed + [d], handedTop := d.tag))];
        if ch.intake.buffer == [] {
          ch := ch.(intake := ch.intake.(ready := false));
        }
      }
      channels := channels[id := ch];
    }

    method TakeTurn(id: SubscriptionId) returns (stop: bool)
      requires id in channels && id in world && channels[id].intake.buffer != []
      requires |handoff| <= handoffCapacity
      modifies this`channels, this`world, this`handoff
      ensures var l := old(LaneOf(channels, world, id));
              var m := Turn(l, old(|handoff|) >= handoffCapacity, ringCapacity);
              && channels == old(channels)[id := m.ch] && world == old(world)[id := m.env]
              && stop == (old(|handoff|) >= handoffCapacity && !Poison(l.ch.cfg, l.ch.intake.buffer[0]))
              && handoff == if old(|handoff|) >= handoffCapacity || Poison(l.ch.cfg, l.ch.intake.buffer[0])
                            then old(handoff)
                            else old(handoff) + [Job(OwnToken(l.ch.cfg, l.ch.intake.buffer[0]))]
    {
      var ch := channels[id];
      stop := false;
      if Poison(ch.cfg, ch.intake.buffer[0]) {
        TakePoison(id);
      } else {
        var sent: bool;
        if ch.cfg.earlyAck {
          sent := TakeEarly(id);
        } else {
          sent := TakeManual(id);
        }
        stop := !sent;
      }
    }

    // The chosen subscription's turn, in a pass that started from `before` and `around`.
    method Serve(id: SubscriptionId, ghost before: Channels, ghost around: World) returns (stop: bool)
      requires Running() && id in channels && id in world && channels[id].intake.ready
      requires channels[id].intake.buffer != []
      requires AllDispatched(before, around, channels, world)
      modifies this`channels, this`world, this`handoff
      ensures Running()
      ensures AllDispatched(before, around, channels, world)
      ensures Now() == Pick(old(Now()), id, Limit()) && stop == Stops(old(Now()), id, Limit())
      ensures stop || Stock(channels) < old(Stock(channels))
    {
      ghost var full := |handoff| >= handoffCapacity;
      AllTurn(channels, world, parked, id, full, ringCapacity);
      AllTurnDispatched(before, around, channels, world, parked, id, full, ringCapacity);
      TurnBuffer(LaneOf(channels, world, id), full, ringCapacity);
      ErrorsAppend(handoff, Job(OwnToken(channels[id].cfg, channels[id].intake.buffer[0])));
      stop := TakeTurn(id);
      if !stop {
        StockShrinks(old(channels), id, channels[id]);
      }
    }

    // The scheduler forgets a subscription whose buffer is empty.
    method MarkEmpty(id: SubscriptionId, ghost before: Channels, ghost around: World)
      requires Running() && id in channels && channels[id].intake.buffer == []
      requires AllDispatched(before, around, channels, world)
      modifies this`channels
      ensures Running()
      ensures AllDispatched(before, around, channels, world)
      ensures channels == old(channels)[id := Unready(old(channels)[id])]
    {
      AllMarked(before, around, channels, world, parked, id);
      channels := channels[id := Unready(channels[id])];
    }

    // Retained source errors go first; the rest stay when the hand-off channel is full.
    method PassErrors()
      requires Bounded()
      modifies this`handoff, this`errorItems, this`sourceErrors
      ensures Bounded() && Now() == ErrorsPassed(old(Now()), Limit())
      ensures sourceErrors == 0 || |handoff| >= handoffCapacity
    {
      while sourceErrors > 0 && |handoff| < handoffCapacity
        invariant Bounded() && ErrorsPassed(Now(), Limit()) == ErrorsPassed(old(Now()), Limit())
        decreases sourceErrors
      {
        ErrorsAppend(handoff, SourceError);
        handoff := handoff + [SourceError];
        errorItems := SatAdd(errorItems, 1);
        sourceErrors := sourceErrors - 1;
      }
    }

    method ServeReady(id: SubscriptionId, ghost before: Channels, ghost around: World) returns (stop: bool)
      requires Running() && Pickable(Now(), id)
      requires AllDispatched(before, around, channels, world)
      modifies this`channels, this`world, this`handoff
      ensures Running()
      ensures AllDispatched(before, around, channels, world)
      ensures Now() == Pick(old(Now()), id, Limit()) && stop == Stops(old(Now()), id, Limit())
      ensures stop || Stock(channels) < old(Stock(channels))
    {
      stop := true;
      if channels[id].intake.buffer == [] {
        MarkEmpty(id, before, around);
      } else {
        stop := Serve(id, before, around);
      }
    }

    // The turns of a pass. Which ready subscription goes next is the scheduler's choice: any of them may.
    method TakeTurns(ghost before: Channels, ghost around: World)
      returns (ghost picks: seq<SubscriptionId>, ghost last: Option<SubscriptionId>)
      requires Running() && AllDispatched(before, around, channels, world)
      modifies this`channels, this`world, this`handoff
      ensures Running()
      ensures AllDispatched(before, around, channels, world)
      ensures Ends(old(Now()), picks, last, Now(), Limit())
    {
      picks, last := [], None;
      while true
        invariant Running() && AllDispatched(before, around, channels, world)
        invariant Turned(old(Now()), picks, Limit()) && Now() == After(old(Now()), picks, Limit())
        decreases Stock(channels)
      {
        if id :| id in channels && id in world && channels[id].intake.ready {
          var stop := ServeReady(id, before, around);
          if stop {
            last := Some(id);
            return;
          }
          TurnedAppend(old(Now()), picks, id, Limit());
          picks := picks + [id];
        } else {
          return;
        }
      }
    }

    /** One dispatch pass: admission of parked deliveries, retained source errors, then turns until a pick
        ends it or nothing is ready. Every lane moves along by `Dispatched`. */
    method Dispatch()
      requires Running()
      modifies this
      ensures taken == old(taken)
      ensures Running()
      ensures AllDispatched(old(channels), old(world), channels, world)
      ensures var admitted := Admitted(old(channels), old(parked));
              parked == admitted.1 && IsPass(old(Now()).(channels := admitted.0), Now(), Limit())
    {
      DrainPending();
      PassErrors();
      if sourceErrors == 0 {
        ghost var picks, last := TakeTurns(old(channels), old(world));
      }
    }

    // Admission once more before the pass changes nothing: what is left does not fit.
    method TryDrainPending()
      requires Running()
      modifies this
      ensures taken == old(taken)
      ensures Running()
      ensures AllDispatched(old(channels), old(world), channels, world)
      ensures var admitted := Admitted(old(channels), old(parked));
              parked == admitted.1 && IsPass(old(Now()).(channels := admitted.0), Now(), Limit())
    {
      DrainPending();
      ghost var c, w := channels, world;
      AdmittedTwice(old(channels), old(parked));
      Dispatch();
      DispatchedJoin(old(channels), old(world), c, w, channels, world);
    }

    // ---------------------------------------------------------------- arrivals

    // The delivery enters the ledger.
    method Claim(id: SubscriptionId, d: TransportDelivery)
      requires id in channels && id in world && world[id].broker.transit != [] && d == world[id].broker.transit[0]
      modifies this`channels, this`world
      ensures var m := Receive(old(LaneOf(channels, world, id)));
              channels == old(channels)[id := m.ch] && world == old(world)[id := m.env]
    {
      var ch := channels[id];
      world := world[id := Receive(Lane(ch, world[id])).env];
      channels := channels[id := ch.(ledger := ch.ledger.(pending := ch.ledger.pending[d.tag := Entry(Pending, None)]))];
    }

    method AdmitDirect(id: SubscriptionId, d: TransportDelivery)
      requires id in channels && id in world
      modifies this`channels
      ensures var m := Admit(old(LaneOf(channels, world, id)), d);
              channels == old(channels)[id := m.ch] && world[id := m.env] == world
    {
      var ch := channels[id];
      ch := ch.(intake := ch.intake.(buffer := ch.intake.buffer + [d], ready := true));
      ch := ch.(intake := ch.intake.(bufferedBytes := SatAdd(ch.intake.bufferedBytes, d.bytes)));
      channels := channels[id := ch];
    }

    // A claimed delivery goes to its buffer, or behind the parked ones, and what can move is dispatched.
    method Place(id: SubscriptionId, d: TransportDelivery)
      requires AllInv(channels, world, parked + [Parked(id, d)]) && Bounded() && |parked| < parkCapacity
      requires id in channels && id in world
      modifies this
      ensures taken == old(taken)
      ensures Valid()
      ensures AllDispatched(old(channels), old(world), channels, world)
      ensures Placed(old(Now()), old(parked), id, d, Now(), parked, Limit())
    {
      ghost var c, w, left := channels, world, parked + [Parked(id, d)];
      InvCore(c, w, left);
      DispatchedSelf(c, w);
      if parked == [] && !OverBudget(channels[id], d) {
        AllAdmit(c, w, c, w, left);
        AdmittedOne(channels, id, d);
        AdmitDirect(id, d);
        ghost var c1, w1 := channels, world;
        Dispatch();
        DispatchedJoin(c, w, c1, w1, channels, world);
      } else {
        var fits := !OverBudget(channels[id], d);
        parked := parked + [Parked(id, d)];
        if fits {
          TryDrainPending();
        }
      }
      PassInv(c, w, left, channels, world, parked);
    }

    // A delivery larger than its whole budget is settled on the spot.
    method Refuse(id: SubscriptionId, d: TransportDelivery)
      requires Valid() && id in channels && id in world
      requires world[id].broker.transit != [] && d == world[id].broker.transit[0]
      requires Oversized(channels[id].cfg, d)
      modifies this`channels, this`world
      ensures Valid()
      ensures var m := ReceiveOversized(old(LaneOf(channels, world, id)));
              channels == old(channels)[id := m.ch] && world == old(world)[id := m.env]
    {
      AllOversized(channels, world, parked, id);
      var ch := channels[id];
      world := world[id := ReceiveOversized(Lane(ch, world[id])).env];
      ch := ch.(ledger := ch.ledger.(pending := ch.ledger.pending[d.tag := Entry(Pending, None)]));
      ch := ch.(intake := ch.intake.(bufferedBytes := SatAdd(ch.intake.bufferedBytes, d.bytes)));
      ch := ch.(intake := ch.intake.(bufferedBytes := SatSub(ch.intake.bufferedBytes, d.bytes)));
      ch := ch.(ledger := ch.ledger.(pending := ch.ledger.pending - {d.tag}));
      channels := channels[id := ch];
    }

    /** An arrival. Larger than its whole budget, the delivery is settled and nothing else changes;
        otherwise it is claimed and placed. */
    method HandleIncoming(id: SubscriptionId, d: TransportDelivery)
      requires Valid() && |parked| < parkCapacity && id in channels && id in world
      requires world[id].broker.transit != [] && d == world[id].broker.transit[0]
      modifies this
      ensures taken == old(taken)
      ensures Valid()
      ensures Oversized(old(channels[id].cfg), d) ==>
                var m := ReceiveOversized(old(LaneOf(channels, world, id)));
                && channels == old(channels)[id := m.ch] && world == old(world)[id := m.env]
                && parked == old(parked) && handoff == old(handoff)
      ensures !Oversized(old(channels[id].cfg), d) ==>
                var m := Receive(old(LaneOf(channels, world, id)));
                var c, w := old(channels)[id := m.ch], old(world)[id := m.env];
                && AllDispatched(c, w, channels, world)
                && Placed(old(Now()).(channels := c, world := w), old(parked), id, d, Now(), parked, Limit())
    {
      if Oversized(channels[id].cfg, d) {
        OversizedOver(channels[id], d);
      }
      if OverBudget(channels[id], d) && Oversized(channels[id].cfg, d) {
        Refuse(id, d);
      } else {
        AllArrive(channels, world, parked, id, d);
        Claim(id, d);
        Place(id, d);
      }
    }

    // ---------------------------------------------------------------- settlements

    /** The actor takes a settlement from its mailbox: refused while another one holds the token,
        otherwise claimed and recorded, queued or launched. */
    method HandleSettle(id: SubscriptionId) returns (refused: Option<ErrorKind>)
      requires Valid() && id in channels && id in world
      requires channels[id].stages.mail != [] && channels[id].stages.mail[0].Settle?
      modifies this`channels, this`world
      ensures Valid()
      ensures old(channels[id].stages.mail[0].token in channels[id].cells)
      ensures var l := old(LaneOf(channels, world, id));
              var m := SettleSteps.HandleSettle(l);
              && channels == old(channels)[id := m.ch] && world == old(world)[id := m.env]
              && refused == if l.ch.cells[l.ch.stages.mail[0].token].settling then Some(AlreadySettling) else None
    {
      MailKnown(channels, world, parked, id);
      HandleSettleKeeps(LaneOf(channels, world, id));
      AllSame(Inv, channels, world, parked, id, SettleSteps.HandleSettle(LaneOf(channels, world, id)));
      var ch := channels[id];
      var c := ch.stages.mail[0];
      world := world[id := SettleSteps.HandleSettle(Lane(ch, world[id])).env];
      ch := ch.(stages := ch.stages.(mail := ch.stages.mail[1..]));
      refused := None;
      if ch.cells[c.token].settling {
        refused := Some(AlreadySettling);
      } else {
        ch := ch.(cells := ch.cells[c.token := ch.cells[c.token].(settling := true)]);
        if c.settlement == Ack {
          ch := ch.(stages := ch.stages.(batch := ch.stages.batch[c.token.tag := c.token]));
        } else if ch.stages.inFlight {
          ch := ch.(stages := ch.stages.(queue := ch.stages.queue + [Work(c.token, c.settlement)]));
        } else {
          ch := ch.(stages := ch.stages.(
            inFlight := true, settlements := ch.stages.settlements + [Work(c.token, c.settlement)]));
        }
      }
      channels := channels[id := ch];
    }

    method KeepLive(cfg: Config, tokens: seq<Token>) returns (live: seq<Token>)
      ensures live == LiveOnly(cfg, tokens)
    {
      live := [];
      for i := 0 to |tokens|
        invariant live == LiveOnly(cfg, tokens[..i])
      {
        assert tokens[..i + 1][..i] == tokens[..i];
        if tokens[i].identity == cfg.identity {
          live := live + [tokens[i]];
        }
      }
      assert tokens[..|tokens|] == tokens;
    }

    method FlagAll(cells: map<Token, Cell>, tokens: seq<Token>) returns (flagged: map<Token, Cell>)
      ensures flagged == Flag(cells, tokens)
    {
      flagged := cells;
      for i := 0 to |tokens|
        invariant flagged == Flag(cells, tokens[..i])
      {
        assert tokens[..i + 1][..i] == tokens[..i];
        if tokens[i] in flagged {
          flagged := flagged[tokens[i] := flagged[tokens[i]].(settling := true)];
        }
      }
      assert tokens[..|tokens|] == tokens;
    }

    // The checks of a settle-through, in order; none of them changes anything.
    method Judge(ch: Channel, token: Token) returns (r: Result<seq<Token>>)
      requires token in ch.cells
      ensures r == Verdict(ch, token)
    {
      if ch.cells[token].state != Pending {
        return Err(AlreadySettled);
      }
      if ch.cells[token].settling {
        return Err(AlreadySettling);
      }
      if token.identity != ch.cfg.identity {
        return Err(StaleGeneration);
      }
      if token.tag <= ch.ledger.ackedPrefix {
        return Err(AlreadySettled);
      }
      r := ValidateContiguousPrefix(ch.ledger, token.tag);
      if r.Ok? {
        var live := KeepLive(ch.cfg, r.value);
        r := if live == [] then Err(StaleGeneration) else Ok(live);
      }
    }

    /** The actor takes a settle-through from its mailbox. A refused one changes nothing but the
        mailbox; an accepted one stages the tokens of the whole ledger prefix. */
    method HandleSettleThrough(id: SubscriptionId) returns (refused: Option<ErrorKind>)
      requires Valid() && id in channels && id in world
      requires channels[id].stages.mail != [] && channels[id].stages.mail[0].SettleThrough?
      modifies this`channels, this`world
      ensures Valid()
      ensures old(channels[id].stages.mail[0].token in channels[id].cells)
      ensures var l := old(LaneOf(channels, world, id));
              var m := HandleThrough(l);
              && channels == old(channels)[id := m.ch] && world == old(world)[id := m.env]
              && refused == match Verdict(l.ch, l.ch.stages.mail[0].token)
                            case Err(kind) => Some(kind)
                            case Ok(_) => None
    {
      MailKnown(channels, world, parked, id);
      HandleThroughKeeps(LaneOf(channels, world, id));
      AllSame(Inv, channels, world, parked, id, HandleThrough(LaneOf(channels, world, id)));
      var ch := channels[id];
      var token := ch.stages.mail[0].token;
      var verdict := Judge(ch, token);
      world := world[id := HandleThrough(Lane(ch, world[id])).env];
      ch := ch.(stages := ch.stages.(mail := ch.stages.mail[1..]));
      if verdict.Err? {
        refused := Some(verdict.kind);
      } else {
        refused := None;
        var th := Through(token, verdict.value);
        var cells := FlagAll(ch.cells, [token] + verdict.value);
        ch := ch.(cells := cells);
        if ch.stages.inFlight {
          ch := ch.(stages := ch.stages.(throughQueue := ch.stages.throughQueue + [th]));
        } else {
          ch := ch.(stages := ch.stages.(inFlight := true, throughs := ch.stages.throughs + [th]));
        }
      }
      channels := channels[id := ch];
    }

    // ---------------------------------------------------------------- acknowledgement flush

    method FlushChannel(id: SubscriptionId, prefix: seq<Token>, rest: seq<Work>)
      requires Valid() && id in channels && id in world && !channels[id].stages.inFlight
      requires IsPrefix(channels[id].ledger, channels[id].stages.batch, prefix)
      requires IsRest(channels[id].ledger, channels[id].stages.batch, Reach(channels[id].ledger, prefix), rest)
      modifies this`channels, this`world
      ensures Valid()
      ensures var m := Flush(old(LaneOf(channels, world, id)), prefix, rest);
              channels == old(channels)[id := m.ch] && world == old(world)[id := m.env]
    {
      FlushKeeps(LaneOf(channels, world, id), prefix, rest);
      AllSame(Inv, channels, world, parked, id, Flush(LaneOf(channels, world, id), prefix, rest));
      var ch := channels[id];
      world := world[id := Flush(Lane(ch, world[id]), prefix, rest).env];
      var st := ch.stages.(batch := map[]);
      if prefix != [] {
        st := st.(inFlight := true, throughs := st.throughs + [Through(prefix[|prefix| - 1], prefix)]);
        st := st.(queue := st.queue + rest);
      } else if rest != [] {
        st := st.(inFlight := true, settlements := st.settlements + [rest[0]]);
        st := st.(queue := st.queue + rest[1..]);
      }
      channels := channels[id := ch.(stages := st)];
    }

    // Every channel with recorded acknowledgements and nothing in flight flushes them.
    method FlushAcked()
      requires Valid()
      modifies this`channels, this`world
      ensures Valid()
      ensures Each(FlushedTo, old(channels), old(world), channels, world)
    {
      var left := set id | id in channels && channels[id].stages.batch != map[];
      while left != {}
        invariant Valid() && left <= channels.Keys
        invariant Flushing(old(channels), old(world), channels, world, left)
        decreases left
      {
        var id :| id in left;
        FlushingAt(old(channels), old(world), channels, world, left, id);
        var ch := channels[id];
        if ch.stages.inFlight || ch.stages.batch == map[] {
          FlushingNext(old(channels), old(world), channels, world, left, id, LaneOf(channels, world, id));
          assert channels[id := ch] == channels && world[id := world[id]] == world;
        } else {
          BatchReadable(channels, world, parked, id);
          var prefix := AckedRun(ch.ledger, ch.stages.batch);
          var rest := Stragglers(ch.ledger, ch.stages.batch, Reach(ch.ledger, prefix));
          FlushingNext(old(channels), old(world), channels, world, left, id,
                       Flush(LaneOf(channels, world, id), prefix, rest));
          FlushChannel(id, prefix, rest);
        }
        left := left - {id};
      }
    }

    // ---------------------------------------------------------------- completions

    // The flight lands: the channel is free again, and a terminal outcome returns the bytes.
    method BeginLanding(id: SubscriptionId, landing: Landing)
      requires id in channels && id in world
      modifies this`channels, this`world
      ensures var m := Begin(old(LaneOf(channels, world, id)), landing);
              channels == old(channels)[id := m.ch] && world == old(world)[id := m.env]
    {
      var ch := channels[id];
      ghost var l := Land(Lane(ch, world[id]));
      world := world[id := Begin(Lane(ch, world[id]), landing).env];
      ch := ch.(stages := Landed(ch.stages));
      if landing.terminal {
        for i := 0 to |landing.tokens|
          invariant ch == FreeAll(l, landing.tokens[..i]).ch
        {
          assert landing.tokens[..i + 1][..i] == landing.tokens[..i];
          ch := ch.(intake := ch.intake.(
            bufferedBytes := SatSub(ch.intake.bufferedBytes, landing.tokens[i].bytes)));
        }
        assert landing.tokens[..|landing.tokens|] == landing.tokens;
      }
      channels := channels[id := ch];
    }

    method MarkAll(cells: map<Token, Cell>, tokens: seq<Token>, final: DeliveryState)
      returns (marked: map<Token, Cell>)
      ensures marked == Mark(cells, tokens, final)
    {
      marked := cells;
      for i := 0 to |tokens|
        invariant marked == Mark(cells, tokens[..i], final)
      {
        assert tokens[..i + 1][..i] == tokens[..i];
        marked := marked[tokens[i] := Cell(final, false)];
      }
      assert tokens[..|tokens|] == tokens;
    }

    // The books are closed and the channel's next settlement, if any, is launched.
    method FinishLanding(id: SubscriptionId, landing: Landing)
      requires id in channels && id in world
      modifies this`channels, this`world
      ensures var m := Finish(old(LaneOf(channels, world, id)), landing);
              channels == old(channels)[id := m.ch] && world == old(world)[id := m.env]
    {
      var ch := channels[id];
      world := world[id := Finish(Lane(ch, world[id]), landing).env];
      ch := ch.(ledger := Ledger(ch.ledger.pending - landing.removed, landing.prefix));
      var cells := MarkAll(ch.cells, landing.tokens, landing.final);
      ch := ch.(cells := cells);
      var st := ch.stages;
      if st.queue != [] {
        st := st.(inFlight := true, settlements := st.settlements + [st.queue[0]], queue := st.queue[1..]);
      } else if st.throughQueue != [] {
        st := st.(inFlight := true, throughs := st.throughs + [st.throughQueue[0]],
                  throughQueue := st.throughQueue[1..]);
      }
      channels := channels[id := ch.(stages := st)];
    }

    /** A completion. `mid` and `between` are the maps right after the dispatch pass in its middle;
        an outcome that is not terminal frees no bytes and needs no such pass. */
    method Complete(id: SubscriptionId, landing: Landing) returns (ghost mid: Channels, ghost between: World)
      requires Valid() && id in channels && id in world && Lands(LaneOf(channels, world, id), landing)
      modifies this
      ensures taken == old(taken)
      ensures Valid()
      ensures Completes(old(channels), old(world), id, landing, mid, between, channels, world)
      ensures var m := Begin(old(LaneOf(channels, world, id)), landing);
              var begun := old(Now()).(channels := old(channels)[id := m.ch], world := old(world)[id := m.env]);
              PutToUse(landing.terminal, begun, old(parked), Now().(channels := mid, world := between), parked, Limit())
    {
      ghost var c, w, p := channels, world, parked;
      ghost var m := Begin(LaneOf(c, w, id), landing);
      AllBegin(c, w, p, id, landing);
      BeginLanding(id, landing);
      DispatchedSelf(channels, world);
      if landing.terminal {
        TryDrainPending();
      }
      mid, between := channels, world;
      AllComplete(c, w, p, id, landing, m, mid, between, parked);
      FinishLanding(id, landing);
    }

    // The individual settlement in flight has been answered.
    method CompleteSettlement(id: SubscriptionId, outcome: Outcome)
      returns (ghost mid: Channels, ghost between: World)
      requires Valid() && id in channels && id in world && channels[id].stages.settlements != []
      requires WorkAnswer(world[id].broker, channels[id].stages.settlements[0], outcome)
      modifies this
      ensures taken == old(taken)
      ensures Valid()
      ensures var landing := LandWork(old(channels[id]), old(channels[id].stages.settlements[0]), outcome);
              Completes(old(channels), old(world), id, landing, mid, between, channels, world)
    {
      mid, between := Complete(id, LandWork(channels[id], channels[id].stages.settlements[0], outcome));
    }

    // The cumulative settlement in flight has been answered.
    method CompleteSettleThrough(id: SubscriptionId, outcome: Outcome)
      returns (ghost mid: Channels, ghost between: World)
      requires Valid() && id in channels && id in world && channels[id].stages.throughs != []
      requires ThroughAnswer(world[id].broker, outcome)
      modifies this
      ensures taken == old(taken)
      ensures Valid()
      ensures var landing := LandThrough(old(channels[id]), old(channels[id].stages.throughs[0]), outcome);
              Completes(old(channels), old(world), id, landing, mid, between, channels, world)
    {
      mid, between := Complete(id, LandThrough(channels[id], channels[id].stages.throughs[0], outcome));
    }

    // ---------------------------------------------------------------- the embedder

    /** The embedder settles a token it was handed: at most one call per token gets through, and a
        full mailbox leaves the token as it was. */
    method TrySettle(token: Token, settlement: Settlement, room: bool) returns (error: Option<ErrorKind>)
      requires Valid() && token.subscription in channels && token.subscription in world
      requires Own(channels[token.subscription].cfg, world[token.subscription].past.handed, token)
      modifies this`channels, this`world
      ensures Valid()
      ensures old(token in channels[token.subscription].cells)
      ensures var l := old(LaneOf(channels, world, token.subscription));
              error == if l.ch.cells[token].state != Pending then Some(AlreadySettled)
                       else if !room then Some(ChannelFull) else None
      ensures error.Some? ==> channels == old(channels) && world == old(world)
      ensures error == None ==>
                var m := Post(old(LaneOf(channels, world, token.subscription)), token, settlement);
                && channels == old(channels)[token.subscription := m.ch]
                && world == old(world)[token.subscription := m.env]
    {
      var id := token.subscription;
      OwnKnown(channels, world, parked, id, token);
      var ch := channels[id];
      var cell := ch.cells[token];
      if cell.state != Pending {
        return Some(AlreadySettled);
      }
      if !room {
        return Some(ChannelFull);
      }
      PostKeeps(LaneOf(channels, world, id), token, settlement);
      AllSame(Inv, channels, world, parked, id, Post(LaneOf(channels, world, id), token, settlement));
      world := world[id := Post(Lane(ch, world[id]), token, settlement).env];
      ch := ch.(cells := ch.cells[token := cell.(state := TerminalOf(settlement))]);
      ch := ch.(stages := ch.stages.(mail := ch.stages.mail + [Settle(token, settlement)]));
      channels := channels[id := ch];
      return None;
    }

    // The embedder asks for a settle-through, possibly with a token of an earlier generation.
    method AskThrough(token: Token, cell: Cell)
      requires Valid() && token.subscription in channels && token.subscription in world
      requires var id := token.subscription;
               Live(channels[id].cfg, token) ==> Own(channels[id].cfg, world[id].past.handed, token)
      modifies this`channels
      ensures Valid()
      ensures var m := PostThrough(old(LaneOf(channels, world, token.subscription)), token, cell);
              channels == old(channels)[token.subscription := m.ch]
    {
      var id := token.subscription;
      AllPaired(Inv, channels, world, parked, id);
      PostThroughKeeps(LaneOf(channels, world, id), token, cell);
      AllSame(Inv, channels, world, parked, id, PostThrough(LaneOf(channels, world, id), token, cell));
      assert world[id := world[id]] == world;
      var ch := channels[id];
      if token !in ch.cells {
        ch := ch.(cells := ch.cells[token := cell]);
      }
      ch := ch.(stages := ch.stages.(mail := ch.stages.mail + [SettleThrough(token)]));
      channels := channels[id := ch];
    }

    method Take() returns (item: Option<Item>)
      requires Valid()
      modifies this`handoff, this`taken
      ensures Valid()
      ensures old(handoff) == if item == None then [] else [item.value] + handoff
      ensures taken == old(taken) + if item == Some(SourceError) then 1 else 0
    {
      item := None;
      if handoff != [] {
        ErrorsRest(handoff);
        taken := taken + if handoff[0].SourceError? then 1 else 0;
        item := Some(handoff[0]);
        handoff := handoff[1..];
      }
    }

    /** Nothing seems dispatchable; parked deliveries do not count. The count of error items is never taken
        back, so that as many deliveries in the hand-off channel are overlooked as error items were taken. */
    method DispatchStockDrained() returns (drained: bool)
      requires Bounded()
      ensures drained <==>
                (forall id :: id in channels ==> channels[id].intake.buffer == []) && Jobs(handoff) <= taken
    {
      ItemsSplit(handoff);
      var left := channels.Keys;
      while left != {}
        invariant left <= channels.Keys
        invariant forall id :: id in channels && id !in left ==> channels[id].intake.buffer == []
        decreases left
      {
        var id :| id in left;
        if channels[id].intake.buffer != [] {
          return false;
        }
        left := left - {id};
      }
      return |handoff| <= errorItems;
    }

    method RecordSourceError()
      requires Valid()
      modifies this`sourceErrors
      ensures Valid()
      ensures sourceErrors == if old(sourceErrors) < SOURCE_ERROR_CAPACITY then old(sourceErrors) + 1
                              else old(sourceErrors)
    {
      if sourceErrors < SOURCE_ERROR_CAPACITY {
        sourceErrors := sourceErrors + 1;
      }
    }

    // ---------------------------------------------------------------- whole runs

    method StepWorld(id: SubscriptionId, m: Lane)
      requires Valid() && id in channels && id in world && m.ch == channels[id]
      requires Preserves(Inv, LaneOf(channels, world, id), m)
      modifies this`world
      ensures Valid() && world == old(world)[id := m.env]
    {
      AllSame(Inv, channels, world, parked, id, m);
      assert channels[id := m.ch] == channels;
      world := world[id := m.env];
    }

    // What the broker and the network do.
    method BrokerStep(e: Event)
      requires Valid()
      modifies this`world
      ensures Valid()
    {
      if (e.Sends? || e.Dies? || e.Applies?) && e.id in channels && e.id in world {
        var l := LaneOf(channels, world, e.id);
        if e.Sends? && l.env.broker.alive && NextTag(l, e.d) {
          SendKeeps(l, e.d);
          StepWorld(e.id, Send(l, e.d));
        } else if e.Dies? {
          DieKeeps(l);
          StepWorld(e.id, Die(l));
        } else if e.Applies? && l.env.broker.alive && !l.env.broker.applied
                  && (l.ch.stages.settlements != [] || l.ch.stages.throughs != []) {
          ApplyKeeps(l);
          StepWorld(e.id, Apply(l));
        }
      }
    }

    method EmbedderStep(e: Event)
      requires Valid()
      modifies this
      ensures Valid() && SameConfigs(old(channels), channels)
    {
      if e.Takes? {
        var _ := Take();
      } else if (e.Settles? || e.AsksThrough?) && e.token.subscription in channels && e.token.subscription in world {
        var cfg, handed := channels[e.token.subscription].cfg, world[e.token.subscription].past.handed;
        if e.Settles? && Own(cfg, handed, e.token) {
          var _ := TrySettle(e.token, e.settlement, e.room);
          SameConfigsPosted(old(channels), channels, e.token.subscription);
        } else if e.AsksThrough? && (Live(cfg, e.token) ==> Own(cfg, handed, e.token)) {
          AskThrough(e.token, e.cell);
          SameConfigsPosted(old(channels), channels, e.token.subscription);
        }
      }
    }

    method Redispatch()
      requires Valid()
      modifies this
      ensures taken == old(taken)
      ensures Valid()
      ensures AllDispatched(old(channels), old(world), channels, world)
    {
      InvCore(channels, world, parked);
      Dispatch();
      PassInv(old(channels), old(world), old(parked), channels, world, parked);
    }

    method HandleNext(id: SubscriptionId)
      requires Valid()
      modifies this`channels, this`world
      ensures Valid() && SameConfigs(old(channels), channels)
    {
      if id in channels && id in world && channels[id].stages.mail != [] {
        if channels[id].stages.mail[0].Settle? {
          var _ := HandleSettle(id);
        } else {
          var _ := HandleSettleThrough(id);
        }
        SameConfigsPosted(old(channels), channels, id);
      }
    }

    method AnswerNext(id: SubscriptionId, outcome: Outcome)
      requires Valid()
      modifies this
      ensures taken == old(taken)
      ensures Valid() && SameConfigs(old(channels), channels)
    {
      if id in channels && id in world {
        var ch, broker := channels[id], world[id].broker;
        ghost var c, w := channels, world;
        if ch.stages.settlements != [] && WorkAnswer(broker, ch.stages.settlements[0], outcome) {
          ghost var mid, between := CompleteSettlement(id, outcome);
          ghost var landing := LandWork(ch, ch.stages.settlements[0], outcome);
          SameConfigsCompleted(c, w, id, landing, mid, between, channels, world);
        } else if ch.stages.throughs != [] && ThroughAnswer(broker, outcome) {
          ghost var mid, between := CompleteSettleThrough(id, outcome);
          ghost var landing := LandThrough(ch, ch.stages.throughs[0], outcome);
          SameConfigsCompleted(c, w, id, landing, mid, between, channels, world);
        }
      }
    }

    method Receives(id: SubscriptionId)
      requires Valid() && |parked| < parkCapacity && id in channels && id in world
      requires world[id].broker.transit != []
      modifies this
      ensures taken == old(taken)
      ensures Valid() && SameConfigs(old(channels), channels)
    {
      ghost var c, w := channels, world;
      var d := world[id].broker.transit[0];
      HandleIncoming(id, d);
      if Oversized(c[id].cfg, d) {
        SameConfigsPosted(c, channels, id);
      } else {
        ghost var m := Receive(LaneOf(c, w, id));
        SameConfigsPosted(c, c[id := m.ch], id);
        SameConfigsDispatched(c[id := m.ch], w[id := m.env], channels, world);
        SameConfigsTrans(c, c[id := m.ch], channels);
      }
    }

    method ActorStep(e: Event)
      requires Valid()
      modifies this
      ensures taken == old(taken)
      ensures Valid() && SameConfigs(old(channels), channels)
    {
      match e
      case Arrives(id) =>
        if |parked| < parkCapacity && id in channels && id in world && world[id].broker.transit != [] {
          Receives(id);
        }
      case SourceFails =>
        RecordSourceError();
        Redispatch();
        SameConfigsDispatched(old(channels), old(world), channels, world);
      case Notified =>
        Redispatch();
        SameConfigsDispatched(old(channels), old(world), channels, world);
      case Handles(id) =>
        HandleNext(id);
      case Loops =>
        var drained := DispatchStockDrained();
        if drained {
          FlushAcked();
          SameConfigsFlushed(old(channels), old(world), channels, world);
        }
      case Answers(id, outcome) =>
        AnswerNext(id, outcome);
      case _ =>
    }

    // One event, seen by everybody it concerns.
    method Happen(e: Event)
      requires Valid()
      modifies this
      ensures Valid() && SameConfigs(old(channels), channels)
    {
      BrokerStep(e);
      EmbedderStep(e);
      ghost var c := channels;
      ActorStep(e);
      SameConfigsTrans(old(channels), c, channels);
    }

    // Whatever happens, in whatever order, the invariant of every lane holds afterwards.
    method Run(events: seq<Event>)
      requires Valid()
      modifies this
      ensures Valid() && SameConfigs(old(channels), channels)
    {
      for i := 0 to |events|
        invariant Valid() && SameConfigs(old(channels), channels)
      {
        ghost var c := channels;
        Happen(events[i]);
        SameConfigsTrans(old(channels), c, channels);
      }
    }
  }
}
