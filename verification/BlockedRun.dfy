/**
 A run from a fresh actor, whatever room its hand-off channel has, to a state in which one
 subscription blocks another, and on to one in which the actor is at rest and still holds back a
 delivery and an acknowledgement.
 */
module BlockedRun {
  import opened Options
  import opened Deliveries
  import opened Lanes
  import opened Dispatching
  import opened Receiving
  import opened SettleSteps
  import opened LaneMaps
  import opened Passes
  import opened PassEnds
  import opened Handlers

  // The lane after the broker has sent a delivery and the actor has claimed it.
  function Claimed(l: Lane, d: TransportDelivery): Lane {
    Receive(Send(l, d))
  }

  // Nothing is parked or under way; a delivery is sent, claimed and placed, and a pass follows.
  ghost predicate Arrival(s: PassState, id: SubscriptionId, d: TransportDelivery, t: PassState, limits: Limits) {
    && id in s.channels && id in s.world
    && (var l := LaneOf(s.channels, s.world, id);
        && l.env.broker.alive && l.env.broker.transit == [] && NextTag(l, d) && !Oversized(l.ch.cfg, d)
        && Placed(s.(channels := s.channels[id := Claimed(l, d).ch], world := s.world[id := Claimed(l, d).env]),
                  [], id, d, t, [], limits))
  }

  // The state right before the pass of an arrival that fits.
  function Queued(s: PassState, id: SubscriptionId, d: TransportDelivery): PassState
    requires id in s.channels && id in s.world
  {
    var l := Claimed(LaneOf(s.channels, s.world, id), d);
    s.(channels := s.channels[id := AdmitTo(l.ch, d)], world := s.world[id := l.env])
  }

  lemma ArrivalPasses(s: PassState, id: SubscriptionId, d: TransportDelivery, t: PassState, limits: Limits)
    requires id in s.channels && id in s.world && s.world[id].broker.alive && s.world[id].broker.transit == []
    requires NextTag(LaneOf(s.channels, s.world, id), d) && !OverBudget(s.channels[id], d)
    requires !Oversized(s.channels[id].cfg, d) && IsPass(Queued(s, id, d), t, limits)
    ensures Arrival(s, id, d, t, limits)
  {
    var l := Claimed(LaneOf(s.channels, s.world, id), d);
    var c := s.channels[id := l.ch];
    AdmittedOne(c, id, d);
    assert [] + [Parked(id, d)] == [Parked(id, d)];
    assert c[id := AdmitTo(l.ch, d)] == s.channels[id := AdmitTo(l.ch, d)];
  }

  predicate Has(s: PassState, id: SubscriptionId, buffer: seq<TransportDelivery>, ready: bool) {
    && id in s.channels && id in s.world
    && BufferOf(s, id) == buffer && s.channels[id].intake.ready == ready
  }

  lemma PassOf(s: PassState, picks: seq<SubscriptionId>, last: Option<SubscriptionId>, t: PassState, limits: Limits)
    requires s.sourceErrors == 0 && Ends(s, picks, last, t, limits)
    ensures IsPass(s, t, limits)
  {
    assert ErrorsPassed(s, limits) == s;
  }

  // The only delivery there is goes to the embedder.
  lemma HandsOver(s: PassState, b: SubscriptionId, d: TransportDelivery, limits: Limits)
    requires s.sourceErrors == 0 && |s.handoff| < limits.handoff && Has(s, b, [d], true)
    requires !s.channels[b].cfg.earlyAck && !Poison(s.channels[b].cfg, d)
    requires forall id :: Pickable(s, id) ==> id == b
    ensures var t := Pick(s, b, limits);
            && IsPass(s, t, limits) && Has(t, b, [], false) && t.errorItems == s.errorItems
            && t.handoff == s.handoff + [Job(OwnToken(s.channels[b].cfg, d))]
  {
    TurnedAppend(s, [], b, limits);
    assert [] + [b] == [b];
    var t := Pick(s, b, limits);
    forall id ensures !Pickable(t, id) {
      assert id != b ==> Pickable(t, id) == Pickable(s, id);
    }
    PassOf(s, [b], None, t, limits);
  }

  // The hand-off channel is full: the delivery stays.
  lemma StaysBuffered(s: PassState, b: SubscriptionId, d: TransportDelivery, limits: Limits)
    requires s.sourceErrors == 0 && |s.handoff| >= limits.handoff && Has(s, b, [d], true)
    requires !s.channels[b].cfg.earlyAck && !Poison(s.channels[b].cfg, d)
    ensures var t := Pick(s, b, limits);
            IsPass(s, t, limits) && Has(t, b, [d], true) && t.handoff == s.handoff
  {
    PassOf(s, [], Some(b), Pick(s, b, limits), limits);
  }

  // Poison is dropped although the hand-off channel is full; the subscription stays marked ready.
  lemma PoisonPick(s: PassState, a: SubscriptionId, p: TransportDelivery, limits: Limits)
    requires |s.handoff| >= limits.handoff && Has(s, a, [p], true) && Poison(s.channels[a].cfg, p)
    ensures Pickable(s, a) && !Stops(s, a, limits)
    ensures var t := Pick(s, a, limits);
            && Has(t, a, [], true) && t.handoff == s.handoff && t.sourceErrors == s.sourceErrors
            && t.channels == s.channels[a := t.channels[a]] && t.world == s.world[a := t.world[a]]
  {
  }

  // A full hand-off channel ends the pass where the delivery is.
  lemma FullPick(s: PassState, b: SubscriptionId, d: TransportDelivery, limits: Limits)
    requires |s.handoff| >= limits.handoff && Has(s, b, [d], true)
    requires !s.channels[b].cfg.earlyAck && !Poison(s.channels[b].cfg, d)
    ensures Pickable(s, b) && Stops(s, b, limits)
    ensures var t := Pick(s, b, limits);
            && Has(t, b, [d], true) && t.handoff == s.handoff
            && t.channels == s.channels[b := t.channels[b]] && t.world == s.world[b := t.world[b]]
  {
  }

  // Poison is dropped, and then the other subscription ends the pass.
  lemma DropsPoison(
      s: PassState, a: SubscriptionId, p: TransportDelivery, b: SubscriptionId, d: TransportDelivery, limits: Limits)
    requires s.sourceErrors == 0 && |s.handoff| >= limits.handoff && a != b
    requires Has(s, a, [p], true) && Poison(s.channels[a].cfg, p)
    requires Has(s, b, [d], true) && !s.channels[b].cfg.earlyAck && !Poison(s.channels[b].cfg, d)
    ensures var t := Pick(Pick(s, a, limits), b, limits);
            IsPass(s, t, limits) && Has(t, a, [], true) && Has(t, b, [d], true) && t.handoff == s.handoff
  {
    PoisonPick(s, a, p, limits);
    FullPick(Pick(s, a, limits), b, d, limits);
    TurnedAppend(s, [], a, limits);
    assert [] + [a] == [a];
    PassOf(s, [a], Some(b), Pick(Pick(s, a, limits), b, limits), limits);
  }

  // ---------------------------------------------------------------- the steps of the run

  function FreshState(a: Config, b: Config): PassState {
    PassState(map[a.id := FreshChannel(a), b.id := FreshChannel(b)], map[a.id := FreshEnv(), b.id := FreshEnv()],
              [], 0, 0)
  }

  // A subscription that counts `count` bytes and has seen nothing above `top`.
  predicate Open(s: PassState, cfg: Config, count: nat, top: nat) {
    && cfg.id in s.channels && cfg.id in s.world && s.channels[cfg.id].cfg == cfg
    && s.channels[cfg.id].intake.bufferedBytes == count
    && s.world[cfg.id].broker.alive && s.world[cfg.id].broker.transit == []
    && s.world[cfg.id].past.arrivedTop == top
  }

  // The embedder holds `d`, and no settlement is under way.
  predicate Holding(s: PassState, cfg: Config, d: TransportDelivery) {
    && cfg.id in s.channels && s.channels[cfg.id].cfg == cfg
    && s.channels[cfg.id].stages == FreshChannel(cfg).stages
    && d.tag in s.channels[cfg.id].ledger.pending
    && OwnToken(cfg, d) in s.channels[cfg.id].cells
    && s.channels[cfg.id].cells[OwnToken(cfg, d)] == Cell(Pending, false)
  }

  // `a` and `b` alone; `n` items wait for the embedder.
  predicate Pair(s: PassState, a: Config, b: Config, n: nat) {
    && a.id != b.id && s.channels.Keys == s.world.Keys == {a.id, b.id} && s.sourceErrors == 0 && |s.handoff| == n
  }

  lemma QueuedOpen(s: PassState, cfg: Config, other: Config, n: nat, count: nat, top: nat, d: TransportDelivery)
    requires Pair(s, cfg, other, n) || Pair(s, other, cfg, n)
    requires Open(s, cfg, count, top) && d.tag > top && count + d.bytes <= cfg.maxBufferedBytes <= U64_MAX
    ensures var q := Queued(s, cfg.id, d);
            && Open(q, cfg, count + d.bytes, d.tag) && Has(q, cfg.id, BufferOf(s, cfg.id) + [d], true)
            && (Pair(s, cfg, other, n) ==> Pair(q, cfg, other, n))
            && (Pair(s, other, cfg, n) ==> Pair(q, other, cfg, n))
            && q.channels[other.id] == s.channels[other.id] && q.world[other.id] == s.world[other.id]
            && NextTag(LaneOf(s.channels, s.world, cfg.id), d) && !OverBudget(s.channels[cfg.id], d)
            && !Oversized(cfg, d)
  {
  }

  // The first delivery goes straight to the embedder.
  lemma FirstServed(s: PassState, a: Config, b: Config, d: TransportDelivery, limits: Limits)
      returns (t: PassState)
    requires Pair(s, a, b, 0) && limits.handoff > 0 && Open(s, a, 0, 0) && Open(s, b, 0, 0)
    requires Has(s, a.id, [], false) && Has(s, b.id, [], false)
    requires s.channels[b.id].stages == FreshChannel(b).stages
    requires !b.earlyAck && !Poison(b, d) && d.tag > 0 && d.bytes <= b.maxBufferedBytes <= U64_MAX
    ensures Arrival(s, b.id, d, t, limits) && Pair(t, a, b, 1) && Holding(t, b, d)
    ensures Open(t, a, 0, 0) && Open(t, b, d.bytes, d.tag) && Has(t, a.id, [], false) && Has(t, b.id, [], false)
    ensures t.channels[a.id] == s.channels[a.id]
    ensures t.handoff == [Job(OwnToken(b, d))] && t.errorItems == s.errorItems
  {
    QueuedOpen(s, b, a, 0, 0, 0, d);
    var q := Queued(s, b.id, d);
    assert [] + [d] == [d];
    HandsOver(q, b.id, d, limits);
    t := Pick(q, b.id, limits);
    ArrivalPasses(s, b.id, d, t, limits);
  }

  ghost predicate NoneReady(s: PassState) {
    forall id :: !Pickable(s, id)
  }

  // A source error arrives, and a pass follows.
  ghost predicate ErrorArrives(s: PassState, t: PassState, limits: Limits) {
    s.sourceErrors == 0 && IsPass(s.(sourceErrors := 1), t, limits)
  }

  // `n` source errors arrive one after the other, through the states of `run`.
  ghost predicate ErrorsArrive(s: PassState, n: nat, t: PassState, limits: Limits) {
    exists run: seq<PassState> ::
      && |run| == n + 1 && run[0] == s && run[n] == t
      && forall i :: 0 <= i < n ==> ErrorArrives(run[i], run[i + 1], limits)
  }

  // The state with `n` more errors in the hand-off channel.
  function Clogged(s: PassState, n: nat): PassState {
    s.(handoff := s.handoff + seq(n, _ => SourceError), errorItems := SatAdd(s.errorItems, n))
  }

  lemma ErrorPass(s: PassState, limits: Limits)
    requires s.sourceErrors == 0 && |s.handoff| < limits.handoff && NoneReady(s)
    ensures ErrorArrives(s, s.(handoff := s.handoff + [SourceError], errorItems := SatAdd(s.errorItems, 1)), limits)
  {
    var t := s.(handoff := s.handoff + [SourceError], errorItems := SatAdd(s.errorItems, 1));
    assert ErrorsPassed(s.(sourceErrors := 1), limits) == ErrorsPassed(t, limits) == t;
    assert forall id :: Pickable(t, id) ==> Pickable(s, id);
    assert Ends(t, [], None, t, limits);
  }

  lemma ClogOnce(s: PassState, i: nat, limits: Limits)
    requires s.sourceErrors == 0 && s.handoff == [] && i < limits.handoff && NoneReady(s)
    ensures ErrorArrives(Clogged(s, i), Clogged(s, i + 1), limits)
  {
    var m := Clogged(s, i);
    assert forall id :: Pickable(m, id) ==> Pickable(s, id);
    ErrorPass(m, limits);
    assert m.handoff + [SourceError] == Clogged(s, i + 1).handoff;
  }

  lemma Clog(s: PassState, n: nat, limits: Limits)
    requires s.sourceErrors == 0 && s.handoff == [] && n <= limits.handoff && NoneReady(s)
    requires s.errorItems <= U64_MAX
    ensures ErrorsArrive(s, n, Clogged(s, n), limits)
  {
    var run := seq(n + 1, i requires 0 <= i < n + 1 => Clogged(s, i));
    forall i | 0 <= i < n ensures ErrorArrives(run[i], run[i + 1], limits) {
      ClogOnce(s, i, limits);
    }
    assert run[0] == s by {
      assert s.handoff + seq(0, _ => SourceError) == s.handoff;
    }
  }

  // The second delivery finds no room.
  lemma SecondWaits(s: PassState, a: Config, b: Config, d: TransportDelivery, e: TransportDelivery, limits: Limits)
      returns (t: PassState)
    requires Pair(s, a, b, limits.handoff) && Open(s, a, 0, 0) && Open(s, b, d.bytes, d.tag) && Holding(s, b, d)
    requires Has(s, a.id, [], false) && Has(s, b.id, [], false)
    requires !b.earlyAck && !Poison(b, e) && e.tag > d.tag && d.bytes + e.bytes <= b.maxBufferedBytes <= U64_MAX
    ensures Arrival(s, b.id, e, t, limits) && Pair(t, a, b, limits.handoff) && Holding(t, b, d)
    ensures Open(t, a, 0, 0) && Open(t, b, d.bytes + e.bytes, e.tag)
    ensures Has(t, a.id, [], false) && Has(t, b.id, [e], true) && t.channels[a.id] == s.channels[a.id]
  {
    QueuedOpen(s, b, a, limits.handoff, d.bytes, d.tag, e);
    var q := Queued(s, b.id, e);
    assert [] + [e] == [e];
    StaysBuffered(q, b.id, e, limits);
    t := Pick(q, b.id, limits);
    ArrivalPasses(s, b.id, e, t, limits);
  }

  // A delivery without attempts left is dropped, and the other subscription ends the pass.
  lemma PoisonDrops(
      s: PassState, a: Config, b: Config, p: TransportDelivery, d: TransportDelivery, e: TransportDelivery,
      limits: Limits)
      returns (t: PassState)
    requires Pair(s, a, b, limits.handoff) && Open(s, a, 0, 0) && Holding(s, b, d) && e.tag > d.tag
    requires Open(s, b, d.bytes + e.bytes, e.tag) && s.channels[a.id].stages == FreshChannel(a).stages
    requires Has(s, a.id, [], false) && Has(s, b.id, [e], true) && !b.earlyAck && !Poison(b, e)
    requires !a.earlyAck && Poison(a, p) && p.tag > 0 && p.bytes <= a.maxBufferedBytes <= U64_MAX
    ensures Arrival(s, a.id, p, t, limits) && Pair(t, a, b, limits.handoff) && Holding(t, b, d)
    ensures Has(t, a.id, [], true) && Has(t, b.id, [e], true)
    ensures t.channels[a.id].cfg == a && t.channels[a.id].stages == FreshChannel(a).stages
    ensures t.world[a.id].broker.transit == [] && t.world[b.id].broker.transit == []
  {
    QueuedOpen(s, a, b, limits.handoff, 0, 0, p);
    var q := Queued(s, a.id, p);
    assert [] + [p] == [p];
    DropsPoison(q, a.id, p, b.id, e, limits);
    t := Pick(Pick(q, a.id, limits), b.id, limits);
    ArrivalPasses(s, a.id, p, t, limits);
  }

  // ---------------------------------------------------------------- the run

  // A delivery to the embedder, errors until the hand-off channel is full, another delivery, and poison.
  ghost predicate BlockingRun(
      a: Config, b: Config, p: TransportDelivery, d: TransportDelivery, e: TransportDelivery, t: PassState,
      limits: Limits)
  {
    exists s1, s2, s3 ::
      && Arrival(FreshState(a, b), b.id, d, s1, limits)
      && ErrorsArrive(s1.(handoff := []), limits.handoff, s2, limits)
      && Arrival(s2, b.id, e, s3, limits)
      && Arrival(s3, a.id, p, t, limits)
  }

  // Two manual subscriptions and what arrives for them: `p` has used up its attempts, `d` and `e` have not.
  predicate Scene(
      a: Config, b: Config, p: TransportDelivery, d: TransportDelivery, e: TransportDelivery, limits: Limits)
  {
    && a.id != b.id && !a.earlyAck && !b.earlyAck && limits.handoff > 0
    && Poison(a, p) && p.bytes <= a.maxBufferedBytes <= U64_MAX && p.tag > 0
    && !Poison(b, d) && !Poison(b, e) && 0 < d.tag < e.tag
    && d.bytes + e.bytes <= b.maxBufferedBytes <= U64_MAX
  }

  lemma RunToBlocking(
      a: Config, b: Config, p: TransportDelivery, d: TransportDelivery, e: TransportDelivery, limits: Limits)
      returns (t: PassState)
    requires Scene(a, b, p, d, e, limits)
    ensures BlockingRun(a, b, p, d, e, t, limits)
    ensures Pair(t, a, b, limits.handoff) && Holding(t, b, d) && Has(t, a.id, [], true) && Has(t, b.id, [e], true)
    ensures t.channels[a.id].cfg == a && t.channels[a.id].stages == FreshChannel(a).stages
    ensures t.world[a.id].broker.transit == [] && t.world[b.id].broker.transit == []
  {
    var s1 := FirstServed(FreshState(a, b), a, b, d, limits);
    var s2 := Clogged(s1.(handoff := []), limits.handoff);
    assert NoneReady(s1.(handoff := []));
    Clog(s1.(handoff := []), limits.handoff, limits);
    var s3 := SecondWaits(s2, a, b, d, e, limits);
    t := PoisonDrops(s3, a, b, p, d, e, limits);
    assert Arrival(s2, b.id, e, s3, limits) && Arrival(s3, a.id, p, t, limits);
  }

  /** Once the embedder has taken everything there is, `a` blocks `b`: the next pass may end with room left
      and the delivery of `b` where it was. */
  lemma BlockingIsReached(
      a: Config, b: Config, p: TransportDelivery, d: TransportDelivery, e: TransportDelivery, limits: Limits)
    requires Scene(a, b, p, d, e, limits)
    ensures exists t :: BlockingRun(a, b, p, d, e, t, limits) && Blocks(t.(handoff := []), a.id, b.id, limits)
  {
    var t := RunToBlocking(a, b, p, d, e, limits);
    NowBlocks(t.(handoff := []), a, b, e, limits);
  }

  lemma NowBlocks(s: PassState, a: Config, b: Config, e: TransportDelivery, limits: Limits)
    requires Pair(s, a, b, 0) && Has(s, a.id, [], true) && Has(s, b.id, [e], true) && limits.handoff > 0
    ensures Blocks(s, a.id, b.id, limits)
  {
    assert ErrorsPassed(s, limits) == s;
  }
}
