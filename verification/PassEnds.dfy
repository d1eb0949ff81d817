/**
 How far a dispatch pass gets. It serves whichever ready subscription the scheduler picks, and a
 pick whose buffer is empty ends it. The buffer of a subscription that dropped poison last can be
 empty while the subscription is still marked ready, and then the pass leaves others waiting.
 */
module PassEnds {
  import opened Options
  import opened Deliveries
  import opened Lanes
  import opened Dispatching
  import opened Settling
  import opened LaneMaps
  import opened Passes

  lemma {:induction false} AfterCore(
      s: PassState, picks: seq<SubscriptionId>, limits: Limits, parked: seq<Parked>)
    requires AllCore(s.channels, s.world, parked) && Turned(s, picks, limits)
    ensures AllCore(After(s, picks, limits).channels, After(s, picks, limits).world, parked)
  {
    if picks != [] {
      var before, id := picks[..|picks| - 1], picks[|picks| - 1];
      AfterCore(s, before, limits, parked);
      var a := After(s, before, limits);
      AllTurn(a.channels, a.world, parked, id, |a.handoff| >= limits.handoff, limits.ring);
    }
  }

  lemma {:induction false} AfterKeeps(s: PassState, picks: seq<SubscriptionId>, limits: Limits)
    requires Turned(s, picks, limits)
    ensures After(s, picks, limits).channels.Keys == s.channels.Keys
    ensures forall id :: id in s.channels ==> After(s, picks, limits).channels[id].cfg == s.channels[id].cfg
  {
    if picks != [] {
      var before, id := picks[..|picks| - 1], picks[|picks| - 1];
      AfterKeeps(s, before, limits);
      var a := After(s, before, limits);
      TurnBuffer(LaneOf(a.channels, a.world, id), |a.handoff| >= limits.handoff, limits.ring);
    }
  }

  lemma {:induction false} ErrorsKeep(s: PassState, limits: Limits)
    ensures ErrorsPassed(s, limits).channels == s.channels && ErrorsPassed(s, limits).world == s.world
    ensures ErrorsPassed(s, limits).sourceErrors > 0 ==> |ErrorsPassed(s, limits).handoff| >= limits.handoff
    decreases s.sourceErrors
  {
    if s.sourceErrors > 0 && |s.handoff| < limits.handoff {
      ErrorsKeep(
        s.(handoff := s.handoff + [SourceError], errorItems := SatAdd(s.errorItems, 1),
           sourceErrors := s.sourceErrors - 1),
        limits);
    }
  }

  // Where nothing is ready nothing is buffered.
  lemma UnreadyMeansEmpty(t: PassState, parked: seq<Parked>)
    requires AllCore(t.channels, t.world, parked) && forall id :: !Pickable(t, id)
    ensures forall id :: id in t.channels ==> t.channels[id].intake.buffer == []
  {
    forall id | id in t.channels ensures t.channels[id].intake.buffer == [] {
      AllAt(Core, t.channels, t.world, parked, id);
      assert !Pickable(t, id);
    }
  }

  // ---------------------------------------------------------------- what a pass does to one subscription

  function BufferOf(s: PassState, id: SubscriptionId): seq<TransportDelivery>
    requires id in s.channels
  {
    s.channels[id].intake.buffer
  }

  // The subscription will be marked ready with nothing buffered, if it is served to the end.
  predicate Stale(s: PassState, id: SubscriptionId) {
    && Pickable(s, id)
    && (BufferOf(s, id) == []
        || Poison(s.channels[id].cfg, BufferOf(s, id)[|BufferOf(s, id)| - 1]))
  }

  // A turn with room, or for poison.
  lemma TurnReady(l: Lane, full: bool, ringCapacity: nat)
    requires l.ch.intake.buffer != [] && l.ch.intake.ready
    requires !full || Poison(l.ch.cfg, l.ch.intake.buffer[0])
    ensures var intake := Turn(l, full, ringCapacity).ch.intake;
            && intake.buffer == l.ch.intake.buffer[1..]
            && (intake.ready <==> Poison(l.ch.cfg, l.ch.intake.buffer[0]) || intake.buffer != [])
  {
  }

  // `r` is reached from `e` by turns, `k` of them for `id`.
  ghost predicate Served(e: PassState, r: PassState, id: SubscriptionId, k: nat) {
    && id in e.channels && id in r.channels && id in e.world && id in r.world && k <= |BufferOf(e, id)|
    && r.channels[id].cfg == e.channels[id].cfg
    && BufferOf(r, id) == BufferOf(e, id)[k..]
    && |e.handoff| + |Deliverable(e.channels[id].cfg, BufferOf(e, id)[..k])| <= |r.handoff|
    && (k == 0 ==> r.channels[id].intake.ready == e.channels[id].intake.ready)
    && (k > 0 && BufferOf(r, id) == [] ==>
          (r.channels[id].intake.ready <==> Poison(e.channels[id].cfg, BufferOf(e, id)[k - 1])))
  }

  lemma DeliverableMore(cfg: Config, xs: seq<TransportDelivery>, k: nat)
    requires k < |xs|
    ensures Deliverable(cfg, xs[..k + 1])
         == Deliverable(cfg, xs[..k]) + if Oversized(cfg, xs[k]) || Poison(cfg, xs[k]) then [] else [xs[k]]
  {
    assert xs[..k + 1][..k] == xs[..k];
  }

  // One more turn for the subscription itself.
  lemma ServedAgain(e: PassState, r: PassState, id: SubscriptionId, k: nat, limits: Limits)
    requires Served(e, r, id, k) && Pickable(r, id) && !Stops(r, id, limits)
    ensures Served(e, Pick(r, id, limits), id, k + 1)
  {
    var l, full := LaneOf(r.channels, r.world, id), |r.handoff| >= limits.handoff;
    TurnReady(l, full, limits.ring);
    TurnBuffer(l, full, limits.ring);
    DeliverableMore(e.channels[id].cfg, BufferOf(e, id), k);
    assert BufferOf(e, id)[k..][0] == BufferOf(e, id)[k];
    assert BufferOf(e, id)[k..][1..] == BufferOf(e, id)[k + 1..];
  }

  // A turn for another one.
  lemma ServedOther(e: PassState, r: PassState, id: SubscriptionId, k: nat, other: SubscriptionId, limits: Limits)
    requires Served(e, r, id, k) && Pickable(r, other) && !Stops(r, other, limits) && other != id
    ensures Served(e, Pick(r, other, limits), id, k)
  {
  }

  lemma {:induction false} PassServes(
      e: PassState, picks: seq<SubscriptionId>, id: SubscriptionId, limits: Limits) returns (k: nat)
    requires Turned(e, picks, limits) && id in e.channels && id in e.world
    ensures Served(e, After(e, picks, limits), id, k)
  {
    if picks == [] {
      k := 0;
    } else {
      var before, last := picks[..|picks| - 1], picks[|picks| - 1];
      k := PassServes(e, before, id, limits);
      if last == id {
        ServedAgain(e, After(e, before, limits), id, k, limits);
        k := k + 1;
      } else {
        ServedOther(e, After(e, before, limits), id, k, last, limits);
      }
    }
  }

  // ---------------------------------------------------------------- a pass that ends early

  // Room is left in the hand-off channel, and a delivery in some buffer.
  ghost predicate LeavesOver(t: PassState, limits: Limits) {
    |t.handoff| < limits.handoff && exists id :: id in t.channels && BufferOf(t, id) != []
  }

  /** Serving `a` to the end leaves room, and its empty buffer marked ready, while `b` has something
      buffered. */
  predicate Blocks(s: PassState, a: SubscriptionId, b: SubscriptionId, limits: Limits) {
    && a != b && Stale(s, a) && b in s.channels && BufferOf(s, b) != []
    && |ErrorsPassed(s, limits).handoff| + |Deliverable(s.channels[a].cfg, BufferOf(s, a))| < limits.handoff
  }

  lemma BufferedIsReady(s: PassState, id: SubscriptionId, parked: seq<Parked>)
    requires AllCore(s.channels, s.world, parked) && id in s.channels
    ensures id in s.world && (BufferOf(s, id) != [] ==> s.channels[id].intake.ready)
  {
    AllAt(Core, s.channels, s.world, parked, id);
  }

  // The pick that ends a pass with room left is stale.
  lemma LastIsStale(
      e: PassState, picks: seq<SubscriptionId>, a: SubscriptionId, limits: Limits, parked: seq<Parked>)
    requires AllCore(e.channels, e.world, parked) && Turned(e, picks, limits)
    requires var r := After(e, picks, limits); Pickable(r, a) && Stops(r, a, limits) && |r.handoff| < limits.handoff
    ensures Stale(e, a) && |e.handoff| + |Deliverable(e.channels[a].cfg, BufferOf(e, a))| < limits.handoff
  {
    AfterKeeps(e, picks, limits);
    BufferedIsReady(e, a, parked);
    var k := PassServes(e, picks, a, limits);
    assert k == |BufferOf(e, a)|;
    assert BufferOf(e, a)[..k] == BufferOf(e, a);
  }

  // What is still buffered was buffered before.
  lemma LeftWasThere(e: PassState, picks: seq<SubscriptionId>, b: SubscriptionId, limits: Limits, parked: seq<Parked>)
    requires AllCore(e.channels, e.world, parked) && Turned(e, picks, limits)
    requires b in After(e, picks, limits).channels && BufferOf(After(e, picks, limits), b) != []
    ensures b in e.channels && BufferOf(e, b) != []
  {
    AfterKeeps(e, picks, limits);
    BufferedIsReady(e, b, parked);
    var k := PassServes(e, picks, b, limits);
  }

  lemma EarlyEndBlocks(s: PassState, t: PassState, limits: Limits, parked: seq<Parked>)
    returns (a: SubscriptionId, b: SubscriptionId)
    requires AllCore(s.channels, s.world, parked) && IsPass(s, t, limits) && LeavesOver(t, limits)
    ensures Blocks(s, a, b, limits)
  {
    var e := ErrorsPassed(s, limits);
    ErrorsKeep(s, limits);
    var picks, last :| Ends(e, picks, last, t, limits);
    AfterCore(e, picks, limits, parked);
    b :| b in t.channels && BufferOf(t, b) != [];
    if last == None {
      UnreadyMeansEmpty(t, parked);
      assert false;
    }
    a := last.value;
    LastIsStale(e, picks, a, limits, parked);
    LeftWasThere(e, picks, b, limits, parked);
  }

  // ---------------------------------------------------------------- and one that does

  function Repeated(id: SubscriptionId, n: nat): seq<SubscriptionId> {
    if n == 0 then [] else Repeated(id, n - 1) + [id]
  }

  // `r` is `e` after `k` turns of `id`, none of which found the hand-off channel full.
  ghost predicate DrawnDown(e: PassState, r: PassState, id: SubscriptionId, k: nat) {
    && Served(e, r, id, k)
    && |r.handoff| == |e.handoff| + |Deliverable(e.channels[id].cfg, BufferOf(e, id)[..k])|
    && r.sourceErrors == e.sourceErrors && r.channels.Keys == e.channels.Keys
    && (forall other :: other in e.channels && other != id ==> r.channels[other] == e.channels[other])
    && (k < |BufferOf(e, id)| ==> Pickable(r, id))
  }

  lemma {:induction false} DeliverablePrefix(cfg: Config, xs: seq<TransportDelivery>, k: nat)
    requires k <= |xs|
    ensures |Deliverable(cfg, xs[..k])| <= |Deliverable(cfg, xs)|
  {
    if k == |xs| {
      assert xs[..k] == xs;
    } else {
      var n := |xs| - 1;
      DeliverablePrefix(cfg, xs[..n], k);
      assert xs[..n][..k] == xs[..k];
    }
  }

  lemma DrawnFurther(e: PassState, r: PassState, id: SubscriptionId, k: nat, limits: Limits)
    requires DrawnDown(e, r, id, k) && k < |BufferOf(e, id)| && |r.handoff| < limits.handoff
    requires !Oversized(e.channels[id].cfg, BufferOf(e, id)[k])
    ensures Pickable(r, id) && !Stops(r, id, limits) && DrawnDown(e, Pick(r, id, limits), id, k + 1)
  {
    var l := LaneOf(r.channels, r.world, id);
    assert BufferOf(r, id)[0] == BufferOf(e, id)[k];
    ServedAgain(e, r, id, k, limits);
    TurnReady(l, false, limits.ring);
    DeliverableMore(e.channels[id].cfg, BufferOf(e, id), k);
  }

  lemma {:induction false} DrawAll(e: PassState, id: SubscriptionId, k: nat, limits: Limits)
    requires Pickable(e, id) && k <= |BufferOf(e, id)|
    requires forall d :: d in BufferOf(e, id) ==> !Oversized(e.channels[id].cfg, d)
    requires |e.handoff| + |Deliverable(e.channels[id].cfg, BufferOf(e, id))| < limits.handoff
    ensures Turned(e, Repeated(id, k), limits) && DrawnDown(e, After(e, Repeated(id, k), limits), id, k)
    decreases k
  {
    if k == 0 {
      assert BufferOf(e, id)[0..] == BufferOf(e, id) && BufferOf(e, id)[..0] == [];
    } else {
      DrawAll(e, id, k - 1, limits);
      DeliverablePrefix(e.channels[id].cfg, BufferOf(e, id), k - 1);
      var r := After(e, Repeated(id, k - 1), limits);
      DrawnFurther(e, r, id, k - 1, limits);
      TurnedAppend(e, Repeated(id, k - 1), id, limits);
    }
  }

  // The pass that serves `a` to the end and then picks it once more.
  function ServeOut(s: PassState, a: SubscriptionId, limits: Limits): PassState
    requires a in s.channels
  {
    var e := ErrorsPassed(s, limits);
    Pick(After(e, Repeated(a, |BufferOf(s, a)|), limits), a, limits)
  }

  /** Where a stale subscription blocks another one, some pass ends with room left and something
      buffered: the one that serves the stale subscription to the end. */
  lemma PassCanEndEarly(s: PassState, a: SubscriptionId, b: SubscriptionId, limits: Limits, parked: seq<Parked>)
    requires AllCore(s.channels, s.world, parked) && Blocks(s, a, b, limits)
    ensures var t := ServeOut(s, a, limits);
            IsPass(s, t, limits) && LeavesOver(t, limits) && b in t.channels && BufferOf(t, b) == BufferOf(s, b)
  {
    var e, n := ErrorsPassed(s, limits), |BufferOf(s, a)|;
    ErrorsKeep(s, limits);
    NothingOversized(s, a, parked);
    DrawAll(e, a, n, limits);
    var r := After(e, Repeated(a, n), limits);
    assert BufferOf(s, a)[..n] == BufferOf(s, a);
    assert Pickable(r, a) && BufferOf(r, a) == [];
    assert Ends(e, Repeated(a, n), Some(a), ServeOut(s, a, limits), limits);
    assert BufferOf(ServeOut(s, a, limits), b) == BufferOf(s, b);
  }

  lemma NothingOversized(s: PassState, id: SubscriptionId, parked: seq<Parked>)
    requires AllCore(s.channels, s.world, parked) && id in s.channels
    ensures forall d :: d in BufferOf(s, id) ==> !Oversized(s.channels[id].cfg, d)
  {
    AllAt(Core, s.channels, s.world, parked, id);
    assert forall d :: d in BufferOf(s, id) ==> d in Waiting(s.channels[id], parked, id);
  }

  /** Some pass ends with room left in the hand-off channel and something buffered if and only if a
      stale subscription blocks another one. */
  lemma PassEndsEarlyIff(s: PassState, limits: Limits, parked: seq<Parked>)
    requires AllCore(s.channels, s.world, parked)
    ensures (exists t :: IsPass(s, t, limits) && LeavesOver(t, limits)) <==> (exists a, b :: Blocks(s, a, b, limits))
  {
    if t :| IsPass(s, t, limits) && LeavesOver(t, limits) {
      var a, b := EarlyEndBlocks(s, t, limits, parked);
    }
    if a, b :| Blocks(s, a, b, limits) {
      PassCanEndEarly(s, a, b, limits, parked);
    }
  }

  // A pass that leaves room has handed over everything that was buffered, unless one was blocked.
  lemma PassDeliversAll(s: PassState, t: PassState, limits: Limits, parked: seq<Parked>)
    requires AllCore(s.channels, s.world, parked) && IsPass(s, t, limits) && |t.handoff| < limits.handoff
    requires forall a, b :: !Blocks(s, a, b, limits)
    ensures forall id :: id in t.channels ==> BufferOf(t, id) == []
  {
    if id :| id in t.channels && BufferOf(t, id) != [] {
      var a, b := EarlyEndBlocks(s, t, limits, parked);
    }
  }

  // Only a manual subscription with a cap on attempts can block: without one, a pass always delivers all.
  lemma BlockersAreCapped(s: PassState, a: SubscriptionId, b: SubscriptionId, limits: Limits, parked: seq<Parked>)
    requires AllCore(s.channels, s.world, parked) && Blocks(s, a, b, limits)
    ensures Capped(s.channels[a].cfg)
  {
    AllAt(Core, s.channels, s.world, parked, a);
  }
}
