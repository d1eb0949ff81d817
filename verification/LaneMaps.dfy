/**
 All lanes of an actor together: one channel per subscription, what surrounds it, and the
 deque of parked deliveries the subscriptions share.
 */
module LaneMaps {
  import opened Deliveries
  import opened Lanes
  import opened Dispatching
  import opened Settling
  import opened SettleFrames

  type Channels = map<SubscriptionId, Channel>
  type World = map<SubscriptionId, Env>

  datatype Parked = Parked(id: SubscriptionId, delivery: TransportDelivery)

  // One subscription's share of the parked deliveries, oldest first.
  function Share(parked: seq<Parked>, id: SubscriptionId): seq<TransportDelivery> {
    if parked == [] then [] else
      var n := |parked| - 1;
      Share(parked[..n], id) + if parked[n].id == id then [parked[n].delivery] else []
  }

  lemma ShareAppend(parked: seq<Parked>, p: Parked, id: SubscriptionId)
    ensures Share(parked + [p], id) == Share(parked, id) + if p.id == id then [p.delivery] else []
  {
    assert (parked + [p])[..|parked|] == parked;
  }

  lemma {:induction false} ShareRest(parked: seq<Parked>, id: SubscriptionId)
    requires parked != []
    ensures Share(parked, id)
         == (if parked[0].id == id then [parked[0].delivery] else []) + Share(parked[1..], id)
  {
    var n := |parked| - 1;
    if n == 0 {
      assert parked[..0] == [] && parked[1..] == [];
    } else {
      ShareRest(parked[..n], id);
      assert parked[..n][1..] == parked[1..][..n - 1];
    }
  }

  function LaneOf(channels: Channels, world: World, id: SubscriptionId): Lane
    requires id in channels && id in world
  {
    Lane(channels[id], world[id])
  }

  // What a lane holds undelivered, oldest first.
  function Waiting(ch: Channel, parked: seq<Parked>, id: SubscriptionId): seq<TransportDelivery> {
    ch.intake.buffer + Share(parked, id)
  }

  ghost predicate Paired(channels: Channels, world: World, parked: seq<Parked>) {
    && channels.Keys == world.Keys
    && (forall id :: id in channels ==> channels[id].cfg.id == id)
    && (forall p :: p in parked ==> p.id in channels)
  }

  // Names a lane whose facts a proof needs: `All` and `Each` are used at such lanes only.
  predicate At(id: SubscriptionId) {
    true
  }

  // Every lane satisfies `good`, together with what it holds undelivered.
  ghost predicate All(
      good: (Lane, seq<TransportDelivery>) -> bool, channels: Channels, world: World, parked: seq<Parked>)
  {
    && Paired(channels, world, parked)
    && (forall id {:trigger At(id)} :: At(id) && id in channels ==>
          good(LaneOf(channels, world, id), Waiting(channels[id], parked, id)))
  }

  // Every lane of the first pair of maps is related to its lane of the second.
  ghost predicate Each(
      related: (Lane, Lane) -> bool, channels: Channels, world: World, after: Channels, outside: World)
  {
    && channels.Keys == world.Keys == after.Keys == outside.Keys
    && (forall id {:trigger At(id)} :: At(id) && id in channels ==>
          related(LaneOf(channels, world, id), LaneOf(after, outside, id)))
  }

  ghost predicate AllCore(channels: Channels, world: World, parked: seq<Parked>) {
    All(Core, channels, world, parked)
  }

  // The invariant of an actor between two commands.
  ghost predicate AllInv(channels: Channels, world: World, parked: seq<Parked>) {
    All(Inv, channels, world, parked)
  }

  // A dispatch pass led from the first pair of maps to the second.
  ghost predicate AllDispatched(channels: Channels, world: World, after: Channels, outside: World) {
    Each(Dispatched, channels, world, after, outside)
  }

  lemma AllAt(
      good: (Lane, seq<TransportDelivery>) -> bool, channels: Channels, world: World, parked: seq<Parked>,
      id: SubscriptionId)
    requires All(good, channels, world, parked) && id in channels
    ensures id in world && channels[id].cfg.id == id
    ensures good(LaneOf(channels, world, id), Waiting(channels[id], parked, id))
  {
    assert At(id);
  }

  lemma AllPaired(
      good: (Lane, seq<TransportDelivery>) -> bool, channels: Channels, world: World, parked: seq<Parked>,
      id: SubscriptionId)
    requires All(good, channels, world, parked) && id in channels
    ensures id in world && channels[id].cfg.id == id
  {
  }

  lemma EachAt(
      related: (Lane, Lane) -> bool, channels: Channels, world: World, after: Channels, outside: World,
      id: SubscriptionId)
    requires Each(related, channels, world, after, outside) && id in channels
    ensures related(LaneOf(channels, world, id), LaneOf(after, outside, id))
  {
    assert At(id);
  }

  // One lane changes, the others and the park deque stay.
  lemma AllUpdate(
      good: (Lane, seq<TransportDelivery>) -> bool, channels: Channels, world: World, parked: seq<Parked>,
      id: SubscriptionId, m: Lane)
    requires All(good, channels, world, parked) && id in channels
    requires m.ch.cfg.id == id && good(m, Waiting(m.ch, parked, id))
    ensures All(good, channels[id := m.ch], world[id := m.env], parked)
  {
    var c, w := channels[id := m.ch], world[id := m.env];
    forall other | other in c ensures good(LaneOf(c, w, other), Waiting(c[other], parked, other)) {
      if other != id {
        AllAt(good, channels, world, parked, other);
      }
    }
  }

  // One more delivery is parked, or the oldest one leaves the deque for its lane.
  lemma AllMoved(
      good: (Lane, seq<TransportDelivery>) -> bool, channels: Channels, world: World, parked: seq<Parked>,
      left: seq<Parked>, id: SubscriptionId, m: Lane)
    requires All(good, channels, world, parked) && id in channels
    requires m.ch.cfg.id == id && good(m, Waiting(m.ch, left, id))
    requires forall p :: p in left ==> p.id in channels
    requires forall other :: other != id ==> Share(left, other) == Share(parked, other)
    ensures All(good, channels[id := m.ch], world[id := m.env], left)
  {
    var c, w := channels[id := m.ch], world[id := m.env];
    forall other | other in c ensures good(LaneOf(c, w, other), Waiting(c[other], left, other)) {
      if other != id {
        AllAt(good, channels, world, parked, other);
      }
    }
  }

  // Every lane but one satisfies `good`.
  ghost predicate AllBut(
      good: (Lane, seq<TransportDelivery>) -> bool, channels: Channels, world: World, parked: seq<Parked>,
      id: SubscriptionId)
  {
    && Paired(channels, world, parked)
    && (forall other {:trigger At(other)} :: At(other) && other in channels && other != id ==>
          good(LaneOf(channels, world, other), Waiting(channels[other], parked, other)))
  }

  lemma AllFill(
      good: (Lane, seq<TransportDelivery>) -> bool, channels: Channels, world: World, parked: seq<Parked>,
      id: SubscriptionId, m: Lane)
    requires AllBut(good, channels, world, parked, id) && id in channels
    requires m.ch.cfg.id == id && good(m, Waiting(m.ch, parked, id))
    ensures All(good, channels[id := m.ch], world[id := m.env], parked)
  {
    var c, w := channels[id := m.ch], world[id := m.env];
    forall other | other in c ensures good(LaneOf(c, w, other), Waiting(c[other], parked, other)) {
      assert At(other);
    }
  }

  // One lane changes, but not what it holds.
  lemma AllSame(
      good: (Lane, seq<TransportDelivery>) -> bool, channels: Channels, world: World, parked: seq<Parked>,
      id: SubscriptionId, m: Lane)
    requires All(good, channels, world, parked) && id in channels && id in world
    requires Preserves(good, LaneOf(channels, world, id), m)
    ensures All(good, channels[id := m.ch], world[id := m.env], parked)
  {
    AllAt(good, channels, world, parked, id);
    AllUpdate(good, channels, world, parked, id, m);
  }

  // One lane takes in one more delivery, which is parked.
  lemma AllParked(
      good: (Lane, seq<TransportDelivery>) -> bool, channels: Channels, world: World, parked: seq<Parked>,
      id: SubscriptionId, m: Lane, d: TransportDelivery)
    requires All(good, channels, world, parked) && id in channels && id in world
    requires m.ch.cfg == channels[id].cfg && m.ch.intake.buffer == channels[id].intake.buffer
    requires var waiting := Waiting(channels[id], parked, id);
             good(LaneOf(channels, world, id), waiting) ==> good(m, waiting + [d])
    ensures All(good, channels[id := m.ch], world[id := m.env], parked + [Parked(id, d)])
  {
    AllAt(good, channels, world, parked, id);
    var left := parked + [Parked(id, d)];
    forall other ensures Share(left, other) == Share(parked, other) + if other == id then [d] else [] {
      ShareAppend(parked, Parked(id, d), other);
    }
    assert Waiting(channels[id], parked, id) + [d] == Waiting(m.ch, left, id);
    AllMoved(good, channels, world, parked, left, id, m);
  }

  lemma EachUpdate(
      related: (Lane, Lane) -> bool, channels: Channels, world: World, after: Channels, outside: World,
      id: SubscriptionId, m: Lane)
    requires Each(related, channels, world, after, outside) && id in after
    requires related(LaneOf(channels, world, id), m)
    ensures Each(related, channels, world, after[id := m.ch], outside[id := m.env])
  {
    var c, w := after[id := m.ch], outside[id := m.env];
    forall other | other in channels ensures related(LaneOf(channels, world, other), LaneOf(c, w, other)) {
      if other != id {
        EachAt(related, channels, world, after, outside, other);
      }
    }
  }

  lemma InvCore(channels: Channels, world: World, parked: seq<Parked>)
    requires AllInv(channels, world, parked)
    ensures AllCore(channels, world, parked)
  {
    forall id | id in channels ensures Core(LaneOf(channels, world, id), Waiting(channels[id], parked, id)) {
      AllAt(Inv, channels, world, parked, id);
    }
  }

  lemma DispatchedSelf(channels: Channels, world: World)
    requires channels.Keys == world.Keys
    ensures AllDispatched(channels, world, channels, world)
  {
    forall id | id in channels ensures Dispatched(LaneOf(channels, world, id), LaneOf(channels, world, id)) {
      DispatchedSame(LaneOf(channels, world, id));
    }
  }

  lemma DispatchedUpdate(
      channels: Channels, world: World, after: Channels, outside: World, id: SubscriptionId, m: Lane)
    requires AllDispatched(channels, world, after, outside) && id in after
    requires Dispatched(LaneOf(after, outside, id), m)
    ensures AllDispatched(channels, world, after[id := m.ch], outside[id := m.env])
  {
    EachAt(Dispatched, channels, world, after, outside, id);
    DispatchedTrans(LaneOf(channels, world, id), LaneOf(after, outside, id), m);
    EachUpdate(Dispatched, channels, world, after, outside, id, m);
  }

  lemma DispatchedJoin(
      channels: Channels, world: World, middle: Channels, between: World, after: Channels, outside: World)
    requires AllDispatched(channels, world, middle, between) && AllDispatched(middle, between, after, outside)
    ensures AllDispatched(channels, world, after, outside)
  {
    forall id | id in channels ensures Dispatched(LaneOf(channels, world, id), LaneOf(after, outside, id)) {
      EachAt(Dispatched, channels, world, middle, between, id);
      EachAt(Dispatched, middle, between, after, outside, id);
      DispatchedTrans(LaneOf(channels, world, id), LaneOf(middle, between, id), LaneOf(after, outside, id));
    }
  }

  // A dispatch pass that starts between two commands keeps the whole invariant.
  lemma PassInv(
      channels: Channels, world: World, parked: seq<Parked>, after: Channels, outside: World, left: seq<Parked>)
    requires AllInv(channels, world, parked) && AllDispatched(channels, world, after, outside)
    requires AllCore(after, outside, left)
    ensures AllInv(after, outside, left)
  {
    forall id | id in after ensures Inv(LaneOf(after, outside, id), Waiting(after[id], left, id)) {
      AllAt(Inv, channels, world, parked, id);
      AllAt(Core, after, outside, left, id);
      EachAt(Dispatched, channels, world, after, outside, id);
      DispatchedSettled(LaneOf(channels, world, id), LaneOf(after, outside, id),
                        Waiting(channels[id], parked, id), Waiting(after[id], left, id));
    }
  }
}
