/**
 Connections are recovered, and every recovery starts a new generation: an actor of its own, with
 channels whose delivery tags start over. The actors of earlier generations are still there, and
 the embedder still holds their tokens.
 */
module Generations {
  import opened Deliveries
  import opened Lanes
  import opened Settling
  import opened SettleSteps
  import opened Throughs
  import opened LaneMaps
  import opened Handlers
  import opened Actor
  import opened Theorems

  datatype Move =
    | Happens(generation: nat, event: Event)
    | Recovers(configs: map<SubscriptionId, Config>, parkCapacity: nat, ringCapacity: nat, handoffCapacity: nat)

  // All channels were opened in this generation.
  ghost predicate Of(generation: nat, channels: Channels) {
    forall id {:trigger At(id)} :: At(id) && id in channels ==> channels[id].cfg.identity.generation == generation
  }

  lemma OfAt(generation: nat, channels: Channels, id: SubscriptionId)
    requires Of(generation, channels) && id in channels
    ensures channels[id].cfg.identity.generation == generation
  {
    assert At(id);
  }

  lemma OfSame(generation: nat, channels: Channels, after: Channels)
    requires Of(generation, channels) && SameConfigs(channels, after)
    ensures Of(generation, after)
  {
    forall id | id in after ensures after[id].cfg.identity.generation == generation {
      SameConfigsAt(channels, after, id);
      OfAt(generation, channels, id);
    }
  }

  predicate Recoverable(move: Move, generation: nat)
    requires move.Recovers?
  {
    && move.handoffCapacity <= U64_MAX
    && forall id :: id in move.configs ==>
         && move.configs[id].id == id && Configured(move.configs[id])
         && move.configs[id].identity.generation == generation
  }

  // A token carries the mailbox of the actor that handed it out: a settlement call goes there.
  function Route(generation: nat, e: Event): nat {
    if e.Settles? then e.token.identity.generation else generation
  }

  class Fleet {
    var actors: seq<ActorState>

    ghost predicate Valid()
      reads this, actors
    {
      && (forall g, h :: 0 <= g < h < |actors| ==> actors[g] != actors[h])
      && (forall g :: 0 <= g < |actors| ==> actors[g].Valid() && Of(g, actors[g].channels))
    }

    constructor ()
      ensures Valid() && actors == []
    {
      actors := [];
    }

    /** An event in one generation; settle-throughs may come with a token of any other. No other generation's
        actor is changed, and a settlement call only ever reaches the actor of its token's generation. */
    method Step(generation: nat, e: Event)
      requires Valid()
      modifies actors
      ensures Valid()
      ensures forall g :: 0 <= g < |actors| && g != Route(generation, e) ==> unchanged(actors[g])
    {
      var at := Route(generation, e);
      if at < |actors| {
        ghost var c := actors[at].channels;
        actors[at].Happen(e);
        OfSame(at, c, actors[at].channels);
      }
    }

    // The connection is recovered: the next generation starts with fresh channels.
    method Recover(move: Move)
      requires Valid() && move.Recovers? && Recoverable(move, |actors|)
      modifies this
      ensures Valid()
      ensures |actors| == |old(actors)| + 1 && actors[..|old(actors)|] == old(actors)
      ensures fresh(actors[|old(actors)|])
    {
      var actor := new ActorState(move.configs, move.parkCapacity, move.ringCapacity, move.handoffCapacity);
      assert Of(|actors|, actor.channels);
      actors := actors + [actor];
    }

    // Whatever happens to the generations, in whatever order, every one of them keeps its invariant.
    method Run(moves: seq<Move>)
      requires Valid()
      modifies this, actors
      ensures Valid()
    {
      for i := 0 to |moves|
        invariant Valid()
        invariant forall g :: 0 <= g < |actors| ==> actors[g] in old(actors) || fresh(actors[g])
      {
        match moves[i]
        case Happens(generation, e) =>
          Step(generation, e);
        case Recovers(_, _, _, _) =>
          if Recoverable(moves[i], |actors|) {
            Recover(moves[i]);
          }
      }
    }
  }

  // Whatever is mailed, recorded or staged to be settled was handed out in this generation.
  ghost predicate Homemade(st: Stages, generation: nat) {
    && (forall c :: c in st.mail && c.Settle? ==> c.token.identity.generation == generation)
    && (forall t :: t in st.batch ==> st.batch[t].identity.generation == generation)
    && (forall w :: Individual(st, w) ==> w.token.identity.generation == generation)
    && (forall th, a :: Cumulative(st, th) && a in th.affected ==> a.identity.generation == generation)
  }

  lemma LaneSettlesItsOwn(l: Lane, waiting: seq<TransportDelivery>)
    requires Inv(l, waiting)
    ensures WireTags(l.env.broker.wire) <= TagSet(l.env.past.arrived)
    ensures Homemade(l.ch.stages, l.ch.cfg.identity.generation)
  {
    GenerationsDoNotMix(l, waiting);
  }

  /** Tags of different generations collide, and still: whatever reaches the broker on a generation's
      channel names a delivery received on that very channel, and whatever is mailed, recorded or staged
      there to be settled was handed out in that generation. */
  lemma EachGenerationSettlesItsOwn(fleet: Fleet, g: nat, id: SubscriptionId)
    requires fleet.Valid() && g < |fleet.actors| && id in fleet.actors[g].channels
    ensures id in fleet.actors[g].world
    ensures WireTags(fleet.actors[g].world[id].broker.wire) <= TagSet(fleet.actors[g].world[id].past.arrived)
    ensures Homemade(fleet.actors[g].channels[id].stages, g)
  {
    var actor := fleet.actors[g];
    AllSettleTheirOwn(actor.channels, actor.world, actor.parked, id);
    OfAt(g, actor.channels, id);
  }

  lemma AllSettleTheirOwn(channels: Channels, world: World, parked: seq<Parked>, id: SubscriptionId)
    requires AllInv(channels, world, parked) && id in channels
    ensures id in world
    ensures WireTags(world[id].broker.wire) <= TagSet(world[id].past.arrived)
    ensures Homemade(channels[id].stages, channels[id].cfg.identity.generation)
  {
    AllAt(Inv, channels, world, parked, id);
    LaneSettlesItsOwn(LaneOf(channels, world, id), Waiting(channels[id], parked, id));
  }
}
