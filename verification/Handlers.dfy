/**
 The actor's commands over all lanes: each leads from the invariant to the invariant.
 */
module Handlers {
  import opened Deliveries
  import opened Lanes
  import opened Dispatching
  import opened Receiving
  import opened Settling
  import opened SettleFrames
  import opened SettleSteps
  import opened SettleProofs
  import opened FlushProofs
  import opened WireProofs
  import opened Completing
  import opened CompletionProofs
  import opened Throughs
  import opened LaneMaps

  // ---------------------------------------------------------------- the start

  function FreshChannel(cfg: Config): Channel {
    Channel(cfg, Intake([], 0, [], false), Ledger(map[], 0),
            Stages([], map[], [], [], false, [], []), map[])
  }

  function FreshEnv(): Env {
    Env(Broker(true, false, [], {}, [], false),
        History([], 0, [], 0, {}, {}, map[], {}, 0, false, false, false, false))
  }

  lemma FreshCore(cfg: Config)
    requires Configured(cfg)
    ensures Core(Lane(FreshChannel(cfg), FreshEnv()), [])
  {
  }

  lemma FreshSettled(cfg: Config)
    ensures Recorded(Lane(FreshChannel(cfg), FreshEnv())) && Settled(Lane(FreshChannel(cfg), FreshEnv()))
  {
  }

  lemma FreshInv(cfg: Config)
    requires Configured(cfg)
    ensures Inv(Lane(FreshChannel(cfg), FreshEnv()), [])
  {
    FreshCore(cfg);
    FreshSettled(cfg);
  }

  lemma AllFresh(configs: map<SubscriptionId, Config>, channels: Channels, world: World)
    requires forall id :: id in configs ==> configs[id].id == id && Configured(configs[id])
    requires channels == map id | id in configs :: FreshChannel(configs[id])
    requires world == map id | id in configs :: FreshEnv()
    ensures AllInv(channels, world, [])
  {
    forall id | id in channels ensures Inv(LaneOf(channels, world, id), Waiting(channels[id], [], id)) {
      FreshInv(configs[id]);
      assert Waiting(channels[id], [], id) == [];
    }
  }

  // ---------------------------------------------------------------- arrivals

  lemma ReceiveInv(l: Lane, waiting: seq<TransportDelivery>)
    requires Inv(l, waiting) && l.env.broker.transit != []
    ensures var d := l.env.broker.transit[0];
            if Oversized(l.ch.cfg, d) then Inv(ReceiveOversized(l), waiting)
            else Inv(Receive(l), waiting + [d])
  {
    if Oversized(l.ch.cfg, l.env.broker.transit[0]) {
      ReceiveOversizedKeeps(l, waiting);
      OversizedSettled(l, waiting);
    } else {
      ReceiveKeeps(l, waiting);
      ReceiveSettled(l, waiting);
    }
  }

  lemma AllArrive(channels: Channels, world: World, parked: seq<Parked>, id: SubscriptionId, d: TransportDelivery)
    requires AllInv(channels, world, parked) && id in channels && id in world
    requires world[id].broker.transit != [] && d == world[id].broker.transit[0]
    requires !Oversized(channels[id].cfg, d)
    ensures var m := Receive(LaneOf(channels, world, id));
            AllInv(channels[id := m.ch], world[id := m.env], parked + [Parked(id, d)])
  {
    var l, waiting := LaneOf(channels, world, id), Waiting(channels[id], parked, id);
    if Inv(l, waiting) {
      ReceiveInv(l, waiting);
    }
    AllParked(Inv, channels, world, parked, id, Receive(l), d);
  }

  lemma OversizedKeeps(l: Lane)
    requires l.env.broker.transit != [] && Oversized(l.ch.cfg, l.env.broker.transit[0])
    ensures Preserves(Inv, l, ReceiveOversized(l))
  {
    forall waiting | Inv(l, waiting) ensures Inv(ReceiveOversized(l), waiting) {
      ReceiveInv(l, waiting);
    }
  }

  lemma AllOversized(channels: Channels, world: World, parked: seq<Parked>, id: SubscriptionId)
    requires AllInv(channels, world, parked) && id in channels && id in world
    requires world[id].broker.transit != [] && Oversized(channels[id].cfg, world[id].broker.transit[0])
    ensures var m := ReceiveOversized(LaneOf(channels, world, id));
            AllInv(channels[id := m.ch], world[id := m.env], parked)
  {
    OversizedKeeps(LaneOf(channels, world, id));
    AllSame(Inv, channels, world, parked, id, ReceiveOversized(LaneOf(channels, world, id)));
  }

  // A delivery larger than the whole budget never fits, whatever is already held.
  lemma OversizedOver(ch: Channel, d: TransportDelivery)
    requires Oversized(ch.cfg, d)
    ensures OverBudget(ch, d)
  {
  }

  // ---------------------------------------------------------------- settlements

  // A mailed token is one the actor can look up.
  lemma MailKnown(channels: Channels, world: World, parked: seq<Parked>, id: SubscriptionId)
    requires AllInv(channels, world, parked) && id in channels && channels[id].stages.mail != []
    ensures channels[id].stages.mail[0].token in channels[id].cells
  {
    AllAt(Inv, channels, world, parked, id);
    assert channels[id].stages.mail[0] in channels[id].stages.mail;
  }

  lemma HandleSettleKeeps(l: Lane)
    requires l.ch.stages.mail != [] && l.ch.stages.mail[0].Settle? && l.ch.stages.mail[0].token in l.ch.cells
    ensures Preserves(Inv, l, HandleSettle(l))
  {
    forall waiting | Inv(l, waiting) ensures Inv(HandleSettle(l), waiting) {
      HandleSettleInv(l, waiting);
    }
  }

  lemma HandleThroughKeeps(l: Lane)
    requires l.ch.stages.mail != [] && l.ch.stages.mail[0].SettleThrough?
    requires l.ch.stages.mail[0].token in l.ch.cells
    ensures Preserves(Inv, l, HandleThrough(l))
  {
    forall waiting | Inv(l, waiting) ensures Inv(HandleThrough(l), waiting) {
      HandleThroughInv(l, waiting);
    }
  }

  lemma FlushKeeps(l: Lane, prefix: seq<Token>, rest: seq<Work>)
    requires !l.ch.stages.inFlight
    requires IsPrefix(l.ch.ledger, l.ch.stages.batch, prefix)
    requires IsRest(l.ch.ledger, l.ch.stages.batch, Reach(l.ch.ledger, prefix), rest)
    ensures Preserves(Inv, l, Flush(l, prefix, rest))
  {
    forall waiting | Inv(l, waiting) ensures Inv(Flush(l, prefix, rest), waiting) {
      FlushInv(l, waiting, prefix, rest);
    }
  }

  // What a flush does to a lane: nothing while a settlement is in flight or nothing is recorded.
  ghost predicate FlushedTo(l: Lane, m: Lane) {
    if l.ch.stages.inFlight || l.ch.stages.batch == map[] then m == l
    else exists prefix, rest ::
      && IsPrefix(l.ch.ledger, l.ch.stages.batch, prefix)
      && IsRest(l.ch.ledger, l.ch.stages.batch, Reach(l.ch.ledger, prefix), rest)
      && m == Flush(l, prefix, rest)
  }

  // A flush under way: the lanes of `left` are still to come.
  ghost predicate Flushing(
      before: Channels, around: World, channels: Channels, world: World, left: set<SubscriptionId>)
  {
    && channels.Keys == world.Keys == before.Keys == around.Keys
    && (forall id {:trigger At(id)} :: At(id) && id in channels ==>
          if id in left then LaneOf(channels, world, id) == LaneOf(before, around, id)
          else FlushedTo(LaneOf(before, around, id), LaneOf(channels, world, id)))
  }

  lemma FlushingAt(
      before: Channels, around: World, channels: Channels, world: World, left: set<SubscriptionId>,
      id: SubscriptionId)
    requires Flushing(before, around, channels, world, left) && id in left && id in channels
    ensures LaneOf(channels, world, id) == LaneOf(before, around, id)
  {
    assert At(id);
  }

  lemma FlushingNext(
      before: Channels, around: World, channels: Channels, world: World, left: set<SubscriptionId>,
      id: SubscriptionId, m: Lane)
    requires Flushing(before, around, channels, world, left) && id in left && id in channels
    requires FlushedTo(LaneOf(before, around, id), m)
    ensures Flushing(before, around, channels[id := m.ch], world[id := m.env], left - {id})
  {
    var c, w := channels[id := m.ch], world[id := m.env];
    forall other {:trigger At(other)} | At(other) && other in c
      ensures if other in left - {id} then LaneOf(c, w, other) == LaneOf(before, around, other)
              else FlushedTo(LaneOf(before, around, other), LaneOf(c, w, other))
    {
    }
  }

  // The recorded acknowledgements are keyed by their tags, and ledger entries are all pending.
  lemma BatchReadable(channels: Channels, world: World, parked: seq<Parked>, id: SubscriptionId)
    requires AllInv(channels, world, parked) && id in channels
    ensures forall t :: t in channels[id].stages.batch ==> channels[id].stages.batch[t].tag == t
    ensures forall t :: t in channels[id].ledger.pending ==> channels[id].ledger.pending[t].state == Pending
  {
    AllAt(Inv, channels, world, parked, id);
  }

  // ---------------------------------------------------------------- the embedder and the broker

  // Every token the embedder holds has its cell.
  lemma OwnKnown(channels: Channels, world: World, parked: seq<Parked>, id: SubscriptionId, token: Token)
    requires AllInv(channels, world, parked) && id in channels && id in world
    requires Own(channels[id].cfg, world[id].past.handed, token)
    ensures token in channels[id].cells
  {
    AllAt(Inv, channels, world, parked, id);
    OwnTokenOf(channels[id].cfg, world[id].past.handed, token);
  }

  lemma PostKeeps(l: Lane, token: Token, settlement: Settlement)
    requires Own(l.ch.cfg, l.env.past.handed, token)
    requires token in l.ch.cells && l.ch.cells[token].state == Pending
    ensures Preserves(Inv, l, Post(l, token, settlement))
  {
    forall waiting | Inv(l, waiting) ensures Inv(Post(l, token, settlement), waiting) {
      PostInv(l, waiting, token, settlement);
    }
  }

  lemma PostThroughKeeps(l: Lane, token: Token, cell: Cell)
    requires token.subscription == l.ch.cfg.id
    requires Live(l.ch.cfg, token) ==> Own(l.ch.cfg, l.env.past.handed, token)
    ensures Preserves(Inv, l, PostThrough(l, token, cell))
  {
    forall waiting | Inv(l, waiting) ensures Inv(PostThrough(l, token, cell), waiting) {
      PostThroughInv(l, waiting, token, cell);
    }
  }

  lemma ApplyKeeps(l: Lane)
    requires l.ch.stages.settlements != [] || l.ch.stages.throughs != []
    requires l.env.broker.alive && !l.env.broker.applied
    ensures Preserves(Inv, l, Apply(l))
  {
    forall waiting | Inv(l, waiting) ensures Inv(Apply(l), waiting) {
      ApplyInv(l, waiting);
    }
  }

  lemma SendKeeps(l: Lane, d: TransportDelivery)
    requires l.env.broker.alive && NextTag(l, d)
    ensures Preserves(Inv, l, Send(l, d))
  {
    forall waiting | Inv(l, waiting) ensures Inv(Send(l, d), waiting) {
      SendInv(l, waiting, d);
    }
  }

  lemma DieKeeps(l: Lane)
    ensures Preserves(Inv, l, Die(l))
  {
    forall waiting | Inv(l, waiting) ensures Inv(Die(l), waiting) {
      DieInv(l, waiting);
    }
  }

  // ---------------------------------------------------------------- completions

  // A completion: the flight lands, a dispatch pass leads to `mid` and `between`, the books are closed.
  ghost predicate Completes(
      channels: Channels, world: World, id: SubscriptionId, landing: Landing,
      mid: Channels, between: World, after: Channels, outside: World)
  {
    && id in channels && id in world && id in mid && id in between
    && (var m := Begin(LaneOf(channels, world, id), landing);
        AllDispatched(channels[id := m.ch], world[id := m.env], mid, between))
    && (var n := Finish(LaneOf(mid, between, id), landing);
        after == mid[id := n.ch] && outside == between[id := n.env])
  }

  lemma AllBegin(channels: Channels, world: World, parked: seq<Parked>, id: SubscriptionId, landing: Landing)
    requires AllInv(channels, world, parked) && id in channels && id in world
    requires Lands(LaneOf(channels, world, id), landing)
    ensures var m := Begin(LaneOf(channels, world, id), landing);
            AllCore(channels[id := m.ch], world[id := m.env], parked)
  {
    var l := LaneOf(channels, world, id);
    InvCore(channels, world, parked);
    AllAt(Inv, channels, world, parked, id);
    CompletionBegins(l, Waiting(channels[id], parked, id), landing);
    BeginFrame(l, landing);
    AllUpdate(Core, channels, world, parked, id, Begin(l, landing));
  }

  lemma BeginFrame(l: Lane, landing: Landing)
    ensures Begin(l, landing).ch.cfg == l.ch.cfg
    ensures Begin(l, landing).ch.intake.buffer == l.ch.intake.buffer
  {
    FreeAllShape(Land(l), landing.tokens);
  }

  lemma LaneMoved(
      channels: Channels, world: World, parked: seq<Parked>, mid: Channels, between: World, left: seq<Parked>,
      id: SubscriptionId)
    requires AllInv(channels, world, parked) && AllCore(mid, between, left)
    requires id in channels && id in world && id in mid && id in between
    requires Dispatched(LaneOf(channels, world, id), LaneOf(mid, between, id))
    ensures Inv(LaneOf(mid, between, id), Waiting(mid[id], left, id))
  {
    AllAt(Inv, channels, world, parked, id);
    AllAt(Core, mid, between, left, id);
    DispatchedSettled(LaneOf(channels, world, id), LaneOf(mid, between, id),
                      Waiting(channels[id], parked, id), Waiting(mid[id], left, id));
  }

  lemma LaneCompleted(
      channels: Channels, world: World, parked: seq<Parked>, mid: Channels, between: World, left: seq<Parked>,
      id: SubscriptionId, landing: Landing)
    requires AllInv(channels, world, parked) && AllCore(mid, between, left)
    requires id in channels && id in world && id in mid && id in between
    requires Lands(LaneOf(channels, world, id), landing)
    requires Dispatched(Begin(LaneOf(channels, world, id), landing), LaneOf(mid, between, id))
    ensures Inv(Finish(LaneOf(mid, between, id), landing), Waiting(mid[id], left, id))
  {
    AllAt(Inv, channels, world, parked, id);
    AllAt(Core, mid, between, left, id);
    CompletionInv(LaneOf(channels, world, id), Waiting(channels[id], parked, id), landing,
                  LaneOf(mid, between, id), Waiting(mid[id], left, id));
  }

  lemma OthersMoved(
      channels: Channels, world: World, parked: seq<Parked>, id: SubscriptionId, m: Lane,
      mid: Channels, between: World, left: seq<Parked>)
    requires AllInv(channels, world, parked) && AllCore(mid, between, left) && id in channels
    requires AllDispatched(channels[id := m.ch], world[id := m.env], mid, between)
    ensures AllBut(Inv, mid, between, left, id)
  {
    forall other | other in mid && other != id
      ensures Inv(LaneOf(mid, between, other), Waiting(mid[other], left, other))
    {
      EachAt(Dispatched, channels[id := m.ch], world[id := m.env], mid, between, other);
      LaneMoved(channels, world, parked, mid, between, left, other);
    }
  }

  lemma FinishFrame(l: Lane, landing: Landing)
    ensures Finish(l, landing).ch.cfg == l.ch.cfg && Finish(l, landing).ch.intake == l.ch.intake
  {
  }

  // A completion with the dispatch pass in its middle, seen from all lanes.
  lemma AllComplete(
      channels: Channels, world: World, parked: seq<Parked>, id: SubscriptionId, landing: Landing, m: Lane,
      mid: Channels, between: World, left: seq<Parked>)
    requires AllInv(channels, world, parked) && id in channels && id in world && id in mid && id in between
    requires Lands(LaneOf(channels, world, id), landing) && m == Begin(LaneOf(channels, world, id), landing)
    requires AllDispatched(channels[id := m.ch], world[id := m.env], mid, between)
    requires AllCore(mid, between, left)
    ensures var n := Finish(LaneOf(mid, between, id), landing);
            AllInv(mid[id := n.ch], between[id := n.env], left)
  {
    OthersMoved(channels, world, parked, id, m, mid, between, left);
    EachAt(Dispatched, channels[id := m.ch], world[id := m.env], mid, between, id);
    LaneCompleted(channels, world, parked, mid, between, left, id, landing);
    FinishFrame(LaneOf(mid, between, id), landing);
    AllFill(Inv, mid, between, left, id, Finish(LaneOf(mid, between, id), landing));
  }

  // ---------------------------------------------------------------- configurations stay

  ghost predicate SameConfigs(before: Channels, after: Channels) {
    && before.Keys == after.Keys
    && (forall id {:trigger At(id)} :: At(id) && id in before ==> after[id].cfg == before[id].cfg)
  }

  lemma SameConfigsAt(before: Channels, after: Channels, id: SubscriptionId)
    requires SameConfigs(before, after) && id in before
    ensures id in after && after[id].cfg == before[id].cfg
  {
    assert At(id);
  }

  lemma SameConfigsTrans(before: Channels, middle: Channels, after: Channels)
    requires SameConfigs(before, middle) && SameConfigs(middle, after)
    ensures SameConfigs(before, after)
  {
  }

  lemma SameConfigsPosted(before: Channels, after: Channels, id: SubscriptionId)
    requires id in before && id in after && after == before[id := after[id]] && after[id].cfg == before[id].cfg
    ensures SameConfigs(before, after)
  {
  }

  lemma SameConfigsDispatched(channels: Channels, world: World, after: Channels, outside: World)
    requires AllDispatched(channels, world, after, outside)
    ensures SameConfigs(channels, after)
  {
    forall id | id in channels ensures after[id].cfg == channels[id].cfg {
      EachAt(Dispatched, channels, world, after, outside, id);
    }
  }

  lemma SameConfigsFlushed(channels: Channels, world: World, after: Channels, outside: World)
    requires Each(FlushedTo, channels, world, after, outside)
    ensures SameConfigs(channels, after)
  {
    forall id | id in channels ensures after[id].cfg == channels[id].cfg {
      EachAt(FlushedTo, channels, world, after, outside, id);
    }
  }

  lemma SameConfigsCompleted(
      channels: Channels, world: World, id: SubscriptionId, landing: Landing,
      mid: Channels, between: World, after: Channels, outside: World)
    requires Completes(channels, world, id, landing, mid, between, after, outside)
    ensures SameConfigs(channels, after)
  {
    var l := LaneOf(channels, world, id);
    BeginFrame(l, landing);
    SameConfigsPosted(channels, channels[id := Begin(l, landing).ch], id);
    SameConfigsDispatched(channels[id := Begin(l, landing).ch], world[id := Begin(l, landing).env], mid, between);
    SameConfigsTrans(channels, channels[id := Begin(l, landing).ch], mid);
    FinishFrame(LaneOf(mid, between, id), landing);
    SameConfigsPosted(mid, after, id);
    SameConfigsTrans(channels, mid, after);
  }
}
