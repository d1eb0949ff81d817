/**
 Dispatch passes over all lanes: every turn a scheduler may choose keeps the deliveries' side
 of every lane, and moves it along by `Dispatched`.
 */
module Passes {
  import opened Options
  import opened Deliveries
  import opened Lanes
  import opened Dispatching
  import opened DispatchProofs
  import opened Settling
  import opened LaneMaps

  // One turn of a dispatch pass for a lane whose buffer is not empty.
  function Turn(l: Lane, full: bool, ringCapacity: nat): Lane
    requires l.ch.intake.buffer != []
  {
    if Poison(l.ch.cfg, l.ch.intake.buffer[0]) then PoisonFront(l)
    else if l.ch.cfg.earlyAck then
      if full then HandOverEarlyFailed(l, ringCapacity) else HandOverEarly(l, ringCapacity)
    else if full then HandOverFailed(l) else HandOver(l)
  }

  lemma TurnDispatched(l: Lane, waiting: seq<TransportDelivery>, full: bool, ringCapacity: nat)
    requires Core(l, waiting) && l.ch.intake.buffer != []
    ensures Dispatched(l, Turn(l, full, ringCapacity))
  {
    if Poison(l.ch.cfg, l.ch.intake.buffer[0]) {
      PoisonFrontDispatched(l, waiting);
    } else if l.ch.cfg.earlyAck {
      HandOverEarlyDispatched(l, waiting, ringCapacity);
    } else {
      assert waiting[0] in waiting;
      HandOverDispatched(l, waiting);
    }
  }

  lemma TurnKeeps(l: Lane, waiting: seq<TransportDelivery>, full: bool, ringCapacity: nat)
    requires Core(l, waiting) && l.ch.intake.buffer != []
    ensures var m := Turn(l, full, ringCapacity);
            Core(m, if m.ch.intake.buffer == l.ch.intake.buffer then waiting else waiting[1..])
  {
    if Poison(l.ch.cfg, l.ch.intake.buffer[0]) {
      PoisonFrontKeeps(l, waiting);
    } else if l.ch.cfg.earlyAck {
      HandOverEarlyKeeps(l, waiting, ringCapacity);
      HandOverEarlyFailedKeeps(l, waiting, ringCapacity);
    } else {
      if full {
        HandOverFailedKeeps(l, waiting);
      } else {
        HandOverKeeps(l, waiting);
      }
    }
  }

  // A turn takes the buffer front, except when the hand-off channel is full.
  lemma TurnBuffer(l: Lane, full: bool, ringCapacity: nat)
    requires l.ch.intake.buffer != []
    ensures var m := Turn(l, full, ringCapacity);
            && m.ch.cfg == l.ch.cfg
            && m.ch.intake.buffer
               == if full && !Poison(l.ch.cfg, l.ch.intake.buffer[0]) then l.ch.intake.buffer
                  else l.ch.intake.buffer[1..]
  {
  }

  lemma FrontMoves(l: Lane, m: Lane, parked: seq<Parked>, waiting: seq<TransportDelivery>, rest: seq<TransportDelivery>)
    requires waiting == Waiting(l.ch, parked, l.ch.cfg.id) && l.ch.intake.buffer != []
    requires rest == if m.ch.intake.buffer == l.ch.intake.buffer then waiting else waiting[1..]
    requires m.ch.intake.buffer == l.ch.intake.buffer || m.ch.intake.buffer == l.ch.intake.buffer[1..]
    ensures rest == Waiting(m.ch, parked, l.ch.cfg.id)
  {
  }

  lemma TurnMoves(l: Lane, parked: seq<Parked>, full: bool, ringCapacity: nat)
    requires l.ch.intake.buffer != []
    requires Core(l, Waiting(l.ch, parked, l.ch.cfg.id))
    ensures var m := Turn(l, full, ringCapacity);
            Core(m, Waiting(m.ch, parked, l.ch.cfg.id))
  {
    var waiting, m := Waiting(l.ch, parked, l.ch.cfg.id), Turn(l, full, ringCapacity);
    TurnKeeps(l, waiting, full, ringCapacity);
    TurnBuffer(l, full, ringCapacity);
    FrontMoves(l, m, parked, waiting, if m.ch.intake.buffer == l.ch.intake.buffer then waiting else waiting[1..]);
  }

  lemma AllTurn(
      channels: Channels, world: World, parked: seq<Parked>, id: SubscriptionId, full: bool, ringCapacity: nat)
    requires AllCore(channels, world, parked) && id in channels && channels[id].intake.buffer != []
    ensures id in world
    ensures var m := Turn(LaneOf(channels, world, id), full, ringCapacity);
            AllCore(channels[id := m.ch], world[id := m.env], parked)
  {
    AllAt(Core, channels, world, parked, id);
    var l := LaneOf(channels, world, id);
    TurnMoves(l, parked, full, ringCapacity);
    TurnBuffer(l, full, ringCapacity);
    AllUpdate(Core, channels, world, parked, id, Turn(l, full, ringCapacity));
  }

  lemma AllTurnDispatched(
      before: Channels, around: World, channels: Channels, world: World, parked: seq<Parked>,
      id: SubscriptionId, full: bool, ringCapacity: nat)
    requires AllDispatched(before, around, channels, world)
    requires AllCore(channels, world, parked) && id in channels && channels[id].intake.buffer != []
    ensures var m := Turn(LaneOf(channels, world, id), full, ringCapacity);
            AllDispatched(before, around, channels[id := m.ch], world[id := m.env])
  {
    AllAt(Core, channels, world, parked, id);
    var l := LaneOf(channels, world, id);
    TurnDispatched(l, Waiting(channels[id], parked, id), full, ringCapacity);
    DispatchedUpdate(before, around, channels, world, id, Turn(l, full, ringCapacity));
  }

  lemma AdmitMoves(l: Lane, parked: seq<Parked>, d: TransportDelivery)
    requires parked != [] && parked[0] == Parked(l.ch.cfg.id, d)
    requires Core(l, Waiting(l.ch, parked, l.ch.cfg.id))
    ensures !Oversized(l.ch.cfg, d)
    ensures !OverBudget(l.ch, d) ==>
              Core(Admit(l, d), Waiting(Admit(l, d).ch, parked[1..], l.ch.cfg.id)) && Dispatched(l, Admit(l, d))
  {
    var waiting := Waiting(l.ch, parked, l.ch.cfg.id);
    ShareRest(parked, l.ch.cfg.id);
    assert waiting == l.ch.intake.buffer + [d] + Share(parked[1..], l.ch.cfg.id);
    assert d in waiting;
    if !OverBudget(l.ch, d) {
      AdmitKeeps(l, waiting, d);
    }
  }

  // The oldest parked delivery moves to its buffer.
  lemma AllAdmit(before: Channels, around: World, channels: Channels, world: World, parked: seq<Parked>)
    requires AllDispatched(before, around, channels, world)
    requires AllCore(channels, world, parked) && parked != []
    ensures parked[0].id in channels && parked[0].id in world
    ensures !Oversized(channels[parked[0].id].cfg, parked[0].delivery)
    ensures !OverBudget(channels[parked[0].id], parked[0].delivery) ==>
              var id := parked[0].id;
              var m := Admit(LaneOf(channels, world, id), parked[0].delivery);
              && AllCore(channels[id := m.ch], world[id := m.env], parked[1..])
              && AllDispatched(before, around, channels[id := m.ch], world[id := m.env])
  {
    var p := parked[0];
    assert p in parked;
    AllAt(Core, channels, world, parked, p.id);
    var l := LaneOf(channels, world, p.id);
    AdmitMoves(l, parked, p.delivery);
    if !OverBudget(l.ch, p.delivery) {
      forall other | other != p.id ensures Share(parked[1..], other) == Share(parked, other) {
        ShareRest(parked, other);
      }
      AllMoved(Core, channels, world, parked, parked[1..], p.id, Admit(l, p.delivery));
      DispatchedUpdate(before, around, channels, world, p.id, Admit(l, p.delivery));
    }
  }

  // The buffered deliveries of all subscriptions, by position.
  ghost function Stock(channels: Channels): set<(SubscriptionId, nat)> {
    set id, i | id in channels && 0 <= i < |channels[id].intake.buffer| :: (id, i)
  }

  lemma StockShrinks(channels: Channels, id: SubscriptionId, ch: Channel)
    requires id in channels && channels[id].intake.buffer != []
    requires ch.intake.buffer == channels[id].intake.buffer[1..]
    ensures Stock(channels[id := ch]) < Stock(channels)
  {
    var n := |channels[id].intake.buffer| - 1;
    assert (id, n) in Stock(channels) && (id, n) !in Stock(channels[id := ch]);
  }

  function Unready(ch: Channel): Channel {
    ch.(intake := ch.intake.(ready := false))
  }

  lemma UnreadyKeeps(l: Lane)
    requires l.ch.intake.buffer == []
    ensures Preserves(Core, l, l.(ch := Unready(l.ch)))
    ensures Dispatched(l, l.(ch := Unready(l.ch)))
  {
  }

  lemma AllMarked(
      before: Channels, around: World, channels: Channels, world: World, parked: seq<Parked>, id: SubscriptionId)
    requires AllDispatched(before, around, channels, world)
    requires AllCore(channels, world, parked) && id in channels && channels[id].intake.buffer == []
    ensures AllCore(channels[id := Unready(channels[id])], world, parked)
    ensures AllDispatched(before, around, channels[id := Unready(channels[id])], world)
  {
    var l := LaneOf(channels, world, id);
    var m := l.(ch := Unready(l.ch));
    assert world[id := m.env] == world;
    UnreadyKeeps(l);
    AllSame(Core, channels, world, parked, id, m);
    DispatchedUpdate(before, around, channels, world, id, m);
  }

  // ---------------------------------------------------------------- what a pass does, exactly

  // What the hand-off channel carries to the embedder.
  datatype Item = Job(token: Token) | SourceError

  // How many source errors, and how many deliveries, are among the items.
  function Errors(items: seq<Item>): nat {
    if items == [] then 0 else Errors(items[..|items| - 1]) + if items[|items| - 1].SourceError? then 1 else 0
  }

  function Jobs(items: seq<Item>): nat {
    if items == [] then 0 else Jobs(items[..|items| - 1]) + if items[|items| - 1].Job? then 1 else 0
  }

  lemma {:induction false} ItemsSplit(items: seq<Item>)
    ensures |items| == Errors(items) + Jobs(items)
  {
    if items != [] {
      ItemsSplit(items[..|items| - 1]);
    }
  }

  lemma ErrorsAppend(items: seq<Item>, item: Item)
    ensures Errors(items + [item]) == Errors(items) + if item.SourceError? then 1 else 0
  {
    assert (items + [item])[..|items|] == items;
  }

  lemma {:induction false} ErrorsRest(items: seq<Item>)
    requires items != []
    ensures Errors(items) == (if items[0].SourceError? then 1 else 0) + Errors(items[1..])
  {
    var n := |items| - 1;
    if n == 0 {
      assert items[..0] == [] && items[1..] == [];
    } else {
      ErrorsRest(items[..n]);
      assert items[..n][1..] == items[1..][..n - 1];
    }
  }

  datatype Limits = Limits(handoff: nat, ring: nat)

  datatype PassState = PassState(
    channels: Channels, world: World, handoff: seq<Item>, errorItems: nat, sourceErrors: nat)

  // Parked deliveries move to their buffers, oldest first, until one does not fit.
  function Admitted(channels: Channels, parked: seq<Parked>): (Channels, seq<Parked>)
    decreases |parked|
  {
    if parked == [] || parked[0].id !in channels || OverBudget(channels[parked[0].id], parked[0].delivery) then
      (channels, parked)
    else
      var p := parked[0];
      Admitted(channels[p.id := AdmitTo(channels[p.id], p.delivery)], parked[1..])
  }

  // What is left does not fit, or there is nothing left.
  lemma {:induction false} AdmittedTwice(channels: Channels, parked: seq<Parked>)
    ensures var admitted := Admitted(channels, parked);
            && Admitted(admitted.0, admitted.1) == admitted
            && |admitted.1| <= |parked|
            && (admitted.1 != [] && admitted.1[0].id in admitted.0 ==>
                  OverBudget(admitted.0[admitted.1[0].id], admitted.1[0].delivery))
    decreases |parked|
  {
    if parked != [] && parked[0].id in channels && !OverBudget(channels[parked[0].id], parked[0].delivery) {
      var p := parked[0];
      AdmittedTwice(channels[p.id := AdmitTo(channels[p.id], p.delivery)], parked[1..]);
    }
  }

  // Retained source errors go first, as far as there is room.
  function ErrorsPassed(s: PassState, limits: Limits): PassState
    decreases s.sourceErrors
  {
    if s.sourceErrors == 0 || |s.handoff| >= limits.handoff then s
    else
      ErrorsPassed(
        s.(handoff := s.handoff + [SourceError], errorItems := SatAdd(s.errorItems, 1),
           sourceErrors := s.sourceErrors - 1),
        limits)
  }

  predicate Pickable(s: PassState, id: SubscriptionId) {
    id in s.channels && id in s.world && s.channels[id].intake.ready
  }

  // The pass ends with this pick: its buffer is empty, or its delivery finds no room.
  predicate Stops(s: PassState, id: SubscriptionId, limits: Limits) {
    Pickable(s, id) ==>
      var ch := s.channels[id];
      ch.intake.buffer == [] || (|s.handoff| >= limits.handoff && !Poison(ch.cfg, ch.intake.buffer[0]))
  }

  // The scheduler picks a subscription.
  function Pick(s: PassState, id: SubscriptionId, limits: Limits): PassState {
    if !Pickable(s, id) then s
    else if s.channels[id].intake.buffer == [] then s.(channels := s.channels[id := Unready(s.channels[id])])
    else
      var l, full := LaneOf(s.channels, s.world, id), |s.handoff| >= limits.handoff;
      var m := Turn(l, full, limits.ring);
      s.(channels := s.channels[id := m.ch], world := s.world[id := m.env],
         handoff := if full || Poison(l.ch.cfg, l.ch.intake.buffer[0]) then s.handoff
                    else s.handoff + [Job(OwnToken(l.ch.cfg, l.ch.intake.buffer[0]))])
  }

  function After(s: PassState, picks: seq<SubscriptionId>, limits: Limits): PassState {
    if picks == [] then s else Pick(After(s, picks[..|picks| - 1], limits), picks[|picks| - 1], limits)
  }

  // Each pick was ready when its turn came, and none of them ended the pass.
  predicate Turned(s: PassState, picks: seq<SubscriptionId>, limits: Limits) {
    picks == [] ||
    (var before, id := picks[..|picks| - 1], picks[|picks| - 1];
     Turned(s, before, limits) && Pickable(After(s, before, limits), id) && !Stops(After(s, before, limits), id, limits))
  }

  lemma TurnedAppend(s: PassState, picks: seq<SubscriptionId>, id: SubscriptionId, limits: Limits)
    requires Turned(s, picks, limits)
    requires Pickable(After(s, picks, limits), id) && !Stops(After(s, picks, limits), id, limits)
    ensures Turned(s, picks + [id], limits)
    ensures After(s, picks + [id], limits) == Pick(After(s, picks, limits), id, limits)
  {
    assert (picks + [id])[..|picks|] == picks;
  }

  // With source errors out of the way, a pass goes on until a pick ends it or nothing is ready.
  ghost predicate Ends(
      s: PassState, picks: seq<SubscriptionId>, last: Option<SubscriptionId>, t: PassState, limits: Limits)
  {
    var reached := After(s, picks, limits);
    && Turned(s, picks, limits)
    && match last
       case None => t == reached && forall id :: !Pickable(t, id)
       case Some(id) => Pickable(reached, id) && Stops(reached, id, limits) && t == Pick(reached, id, limits)
  }

  // A whole pass, for some order of picks.
  ghost predicate IsPass(s: PassState, t: PassState, limits: Limits) {
    var e := ErrorsPassed(s, limits);
    if e.sourceErrors > 0 then t == e else exists picks, last :: Ends(e, picks, last, t, limits)
  }

  lemma AdmittedOne(channels: Channels, id: SubscriptionId, d: TransportDelivery)
    requires id in channels && !OverBudget(channels[id], d)
    ensures Admitted(channels, [Parked(id, d)]) == (channels[id := AdmitTo(channels[id], d)], [])
  {
    assert [Parked(id, d)][1..] == [];
  }

  // A claimed delivery that does not fit is parked; one that fits is queued up, and a pass follows.
  ghost predicate Placed(
      s: PassState, parked: seq<Parked>, id: SubscriptionId, d: TransportDelivery,
      t: PassState, left: seq<Parked>, limits: Limits)
  {
    id in s.channels &&
    if OverBudget(s.channels[id], d) then t == s && left == parked + [Parked(id, d)]
    else
      var admitted := Admitted(s.channels, parked + [Parked(id, d)]);
      left == admitted.1 && IsPass(s.(channels := admitted.0), t, limits)
  }

  // Freed bytes are put to use by a pass; where none were freed nothing happens.
  ghost predicate PutToUse(
      freed: bool, s: PassState, parked: seq<Parked>, t: PassState, left: seq<Parked>, limits: Limits)
  {
    if !freed then t == s && left == parked
    else
      var admitted := Admitted(s.channels, parked);
      left == admitted.1 && IsPass(s.(channels := admitted.0), t, limits)
  }
}
