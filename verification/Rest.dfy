/**
 The actor at rest: no command, settlement or delivery is under way and the embedder has taken
 everything. What can it still hold?
 */
module Rest {
  import opened Options
  import opened Deliveries
  import opened Lanes
  import opened Dispatching
  import opened Settling
  import opened SettleSteps
  import opened LaneMaps
  import opened Passes
  import opened PassEnds
  import opened BlockedRun
  import opened Handlers
  import opened Actor
  import opened Theorems

  predicate AtRest(s: PassState) {
    && s.handoff == [] && s.sourceErrors == 0
    && forall id :: id in s.channels && id in s.world ==>
         && s.channels[id].stages.mail == [] && !s.channels[id].stages.inFlight
         && s.world[id].broker.transit == []
  }

  // On a lane whose acknowledgements have been flushed, what is in the ledger is the embedder's to settle.
  lemma LaneAtRest(l: Lane, waiting: seq<TransportDelivery>, d: TransportDelivery)
    requires Inv(l, waiting) && FlushedTo(l, l) && l.ch.stages.mail == [] && !l.ch.stages.inFlight
    requires d in l.env.past.handed && d.tag in l.ch.ledger.pending && !l.ch.cfg.earlyAck
    ensures OwnToken(l.ch.cfg, d) in l.ch.cells && l.ch.cells[OwnToken(l.ch.cfg, d)] == Cell(Pending, false)
  {
    assert !Mailed(l.ch.stages, OwnToken(l.ch.cfg, d));
    if Staged(l.ch.stages, d.tag) {
      FlushLaunches(l, l, d.tag);
    }
  }

  /** When the last pass was not blocked and the loop has flushed what it could, an actor at rest has
      nothing buffered and no settlement left to carry out: every ledger entry is parked or waits for the
      embedder to settle it, and a parked head that does not fit waits for such a one. */
  lemma RestOwesNothing(s: PassState, t: PassState, limits: Limits, parked: seq<Parked>)
    requires AllCore(s.channels, s.world, parked) && AllInv(t.channels, t.world, parked)
    requires IsPass(s, t, limits) && limits.handoff > 0 && (forall a, b :: !Blocks(s, a, b, limits))
    requires AtRest(t) && Each(FlushedTo, t.channels, t.world, t.channels, t.world)
    ensures forall id :: id in t.channels ==> BufferOf(t, id) == []
    ensures forall id, d :: id in t.channels && !t.channels[id].cfg.earlyAck
                            && d in t.world[id].past.handed && d.tag in t.channels[id].ledger.pending ==>
              && OwnToken(t.channels[id].cfg, d) in t.channels[id].cells
              && t.channels[id].cells[OwnToken(t.channels[id].cfg, d)] == Cell(Pending, false)
    ensures parked != [] && parked[0].id in t.channels && OverBudget(t.channels[parked[0].id], parked[0].delivery) ==>
              exists d :: d in t.world[parked[0].id].past.handed && d.tag in t.channels[parked[0].id].ledger.pending
  {
    PassDeliversAll(s, t, limits, parked);
    forall id, d | id in t.channels && !t.channels[id].cfg.earlyAck
                   && d in t.world[id].past.handed && d.tag in t.channels[id].ledger.pending
      ensures OwnToken(t.channels[id].cfg, d) in t.channels[id].cells
      ensures t.channels[id].cells[OwnToken(t.channels[id].cfg, d)] == Cell(Pending, false)
    {
      AllAt(Inv, t.channels, t.world, parked, id);
      EachAt(FlushedTo, t.channels, t.world, t.channels, t.world, id);
      LaneAtRest(LaneOf(t.channels, t.world, id), Waiting(t.channels[id], parked, id), d);
    }
    if parked != [] && parked[0].id in t.channels && OverBudget(t.channels[parked[0].id], parked[0].delivery) {
      HeadWaits(t, parked);
    }
  }

  lemma HeadWaits(t: PassState, parked: seq<Parked>)
    requires AllInv(t.channels, t.world, parked) && parked != [] && parked[0].id in t.channels
    requires OverBudget(t.channels[parked[0].id], parked[0].delivery) && BufferOf(t, parked[0].id) == []
    ensures parked[0].id in t.world
    ensures exists d :: d in t.world[parked[0].id].past.handed && d.tag in t.channels[parked[0].id].ledger.pending
  {
    var p := parked[0];
    AllAt(Inv, t.channels, t.world, parked, p.id);
    ShareRest(parked, p.id);
    var l, waiting := LaneOf(t.channels, t.world, p.id), Waiting(t.channels[p.id], parked, p.id);
    assert p.delivery in waiting;
    OverBudgetCounts(l.ch, p.delivery);
    var d := HeldByEmbedder(l, waiting);
  }

  // ---------------------------------------------------------------- held back

  // The embedder acknowledges `d`, and the actor records it.
  function Acknowledged(s: PassState, cfg: Config, d: TransportDelivery): PassState
    requires Holding(s, cfg, d) && cfg.id in s.world
  {
    var m := HandleSettle(Post(LaneOf(s.channels, s.world, cfg.id), OwnToken(cfg, d), Ack));
    s.(channels := s.channels[cfg.id := m.ch], world := s.world[cfg.id := m.env])
  }

  // A pass from `s` that serves `a` first, and the acknowledgement of `d`, leave the actor at rest with `e`
  // buffered and the acknowledgement recorded.
  ghost predicate HoldsBack(
      s: PassState, a: SubscriptionId, b: Config, d: TransportDelivery, e: TransportDelivery, limits: Limits)
  {
    && a in s.channels
    && (var u := ServeOut(s, a, limits);
        && IsPass(s, u, limits) && Holding(u, b, d) && b.id in u.world
        && (var v := Acknowledged(u, b, d);
            && AtRest(v) && b.id in v.channels && BufferOf(v, b.id) == [e]
            && d.tag in v.channels[b.id].stages.batch && d.tag in v.channels[b.id].ledger.pending))
  }

  /** After a blocked pass the actor can be at rest and hold back a delivery for which there is room, and
      with it, because its stock is not drained, an acknowledgement the embedder has given. */
  lemma RestCanHoldBack(
      a: Config, b: Config, p: TransportDelivery, d: TransportDelivery, e: TransportDelivery, limits: Limits)
    requires Scene(a, b, p, d, e, limits)
    ensures exists t ::
              BlockingRun(a, b, p, d, e, t, limits) && HoldsBack(t.(handoff := []), a.id, b, d, e, limits)
  {
    var t := RunToBlocking(a, b, p, d, e, limits);
    ThenHoldsBack(t.(handoff := []), a, b, d, e, limits);
  }

  lemma ThenHoldsBack(s: PassState, a: Config, b: Config, d: TransportDelivery, e: TransportDelivery, limits: Limits)
    requires Pair(s, a, b, 0) && Holding(s, b, d) && Has(s, a.id, [], true) && Has(s, b.id, [e], true)
    requires s.channels[a.id].stages == FreshChannel(a).stages && limits.handoff > 0
    requires s.world[a.id].broker.transit == [] && s.world[b.id].broker.transit == []
    ensures HoldsBack(s, a.id, b, d, e, limits)
  {
    BlockedPass(s, a, b, e, limits);
    HeldBack(ServeOut(s, a.id, limits), a, b, d, e);
  }

  lemma BlockedPass(s: PassState, a: Config, b: Config, e: TransportDelivery, limits: Limits)
    requires Pair(s, a, b, 0) && Has(s, a.id, [], true) && Has(s, b.id, [e], true) && limits.handoff > 0
    ensures var u := ServeOut(s, a.id, limits);
            IsPass(s, u, limits) && u == s.(channels := s.channels[a.id := Unready(s.channels[a.id])])
  {
    assert ErrorsPassed(s, limits) == s;
    PassOf(s, [], Some(a.id), Pick(s, a.id, limits), limits);
  }

  lemma HeldBack(u: PassState, a: Config, b: Config, d: TransportDelivery, e: TransportDelivery)
    requires Pair(u, a, b, 0) && Holding(u, b, d) && Has(u, b.id, [e], true)
    requires u.channels[a.id].stages == FreshChannel(a).stages
    requires u.world[a.id].broker.transit == [] && u.world[b.id].broker.transit == []
    ensures var v := Acknowledged(u, b, d);
            && AtRest(v) && b.id in v.channels && BufferOf(v, b.id) == [e]
            && d.tag in v.channels[b.id].stages.batch && d.tag in v.channels[b.id].ledger.pending
  {
  }

  // ---------------------------------------------------------------- drained too early

  // What the actor takes for a drained stock.
  predicate SeemsDrained(s: PassState) {
    (forall id :: id in s.channels ==> BufferOf(s, id) == []) && |s.handoff| <= s.errorItems
  }

  /** The stock seems drained although a delivery waits in the hand-off channel, if and only if nothing is
      buffered and no more deliveries wait there than error items were ever taken from it. */
  lemma DrainedIsWrongIff(actor: ActorState)
    requires actor.Bounded()
    ensures SeemsDrained(actor.Now()) && Jobs(actor.handoff) > 0
            <==> (forall id :: id in actor.channels ==> actor.channels[id].intake.buffer == [])
                 && 0 < Jobs(actor.handoff) <= actor.taken
  {
    ItemsSplit(actor.handoff);
    var s := actor.Now();
    assert forall id :: id in s.channels ==> BufferOf(s, id) == actor.channels[id].intake.buffer;
  }

  // A source error arrives, and the embedder takes it.
  ghost predicate ErrorTaken(s: PassState, t: PassState, limits: Limits) {
    exists u :: ErrorArrives(s, u, limits) && u.handoff == s.handoff + [SourceError] && t == u.(handoff := s.handoff)
  }

  // `n` source errors arrive and are taken, one after the other, through the states of `run`.
  ghost predicate ErrorsTaken(s: PassState, n: nat, t: PassState, limits: Limits) {
    exists run: seq<PassState> ::
      && |run| == n + 1 && run[0] == s && run[n] == t
      && forall i :: 0 <= i < n ==> ErrorTaken(run[i], run[i + 1], limits)
  }

  // The actor's state after `n` errors have come and gone.
  function Recovered(s: PassState, n: nat): PassState {
    s.(errorItems := SatAdd(n, 0))
  }

  lemma OneMoreTaken(s: PassState, i: nat, limits: Limits)
    requires s.sourceErrors == 0 && s.handoff == [] && limits.handoff > 0 && NoneReady(s)
    ensures ErrorTaken(Recovered(s, i), Recovered(s, i + 1), limits)
  {
    var m := Recovered(s, i);
    assert forall id :: Pickable(m, id) ==> Pickable(s, id);
    ErrorPass(m, limits);
  }

  lemma AllErrorsTaken(s: PassState, n: nat, limits: Limits)
    requires s.sourceErrors == 0 && s.handoff == [] && s.errorItems == 0 && limits.handoff > 0 && NoneReady(s)
    ensures ErrorsTaken(s, n, Recovered(s, n), limits)
  {
    var run := seq(n + 1, i requires 0 <= i < n + 1 => Recovered(s, i));
    forall i | 0 <= i < n ensures ErrorTaken(run[i], run[i + 1], limits) {
      OneMoreTaken(s, i, limits);
    }
    assert run[0] == s;
  }

  /** The count of error items in the hand-off channel only grows: however many of them the embedder has
      taken, one is enough for a delivery that waits for the embedder to pass for it, and for the stock to
      seem drained. */
  lemma DrainedTooEarly(a: Config, b: Config, d: TransportDelivery, n: nat, limits: Limits)
    requires a.id != b.id && !b.earlyAck && !Poison(b, d) && limits.handoff > 0 && n > 0
    requires d.tag > 0 && d.bytes <= b.maxBufferedBytes <= U64_MAX
    ensures exists s, t ::
              && ErrorsTaken(FreshState(a, b), n, s, limits) && s.errorItems == SatAdd(n, 0)
              && Arrival(s, b.id, d, t, limits)
              && t.handoff == [Job(OwnToken(b, d))] && SeemsDrained(t)
  {
    var s0 := FreshState(a, b);
    assert NoneReady(s0);
    AllErrorsTaken(s0, n, limits);
    var t := FirstServed(Recovered(s0, n), a, b, d, limits);
    assert SeemsDrained(t);
  }
}
