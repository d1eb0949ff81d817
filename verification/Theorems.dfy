/**
 What the invariant of the consumer actor means for its users: results that hold in every state
 a run can reach, stated over one lane or over all of them.
 */
module Theorems {
  import opened Deliveries
  import opened Lanes
  import opened StageTags
  import opened Dispatching
  import opened Settling
  import opened SettleFrames
  import opened SettleProofs
  import opened SettleSteps
  import opened WireProofs
  import opened Completing
  import opened Throughs
  import opened LaneMaps
  import opened Handlers

  // ---------------------------------------------------------------- first in, first out

  lemma {:induction false} DeliverableConcat(cfg: Config, a: seq<TransportDelivery>, b: seq<TransportDelivery>)
    ensures Deliverable(cfg, a + b) == Deliverable(cfg, a) + Deliverable(cfg, b)
  {
    if b == [] {
      assert a + b == a;
    } else {
      var n := |b| - 1;
      assert (a + b)[..|a| + n] == a + b[..n];
      DeliverableConcat(cfg, a, b[..n]);
    }
  }

  /** Whatever the scheduler picked and however often deliveries were parked, admitted or pushed
      back: what was handed over, then what is still waiting, is the arrival order without poison
      and oversized deliveries. */
  lemma {:induction false} HandedInArrivalOrder(
      cfg: Config, arrived: seq<TransportDelivery>, handed: seq<TransportDelivery>, waiting: seq<TransportDelivery>)
    requires Fifo(cfg, arrived, handed, waiting)
    requires forall d :: d in waiting ==> !Oversized(cfg, d)
    ensures handed + Deliverable(cfg, waiting) == Deliverable(cfg, arrived)
  {
    if arrived != [] {
      var n, last := |arrived| - 1, arrived[|arrived| - 1];
      if Oversized(cfg, last) {
        HandedInArrivalOrder(cfg, arrived[..n], handed, waiting);
      } else if waiting != [] {
        HandedInArrivalOrder(cfg, arrived[..n], handed, waiting[..|waiting| - 1]);
      } else if Poison(cfg, last) {
        HandedInArrivalOrder(cfg, arrived[..n], handed, []);
      } else {
        HandedInArrivalOrder(cfg, arrived[..n], handed[..|handed| - 1], []);
        assert handed == handed[..|handed| - 1] + [last];
      }
    }
  }

  lemma LanesAreFifo(l: Lane, waiting: seq<TransportDelivery>)
    requires Core(l, waiting)
    ensures l.env.past.handed + Deliverable(l.ch.cfg, waiting) == Deliverable(l.ch.cfg, l.env.past.arrived)
    ensures l.env.past.handed <= Deliverable(l.ch.cfg, l.env.past.arrived)
  {
    HandedInArrivalOrder(l.ch.cfg, l.env.past.arrived, l.env.past.handed, waiting);
  }

  // ---------------------------------------------------------------- conservation

  // The deliveries the embedder holds and has not settled for good.
  function Unsettled(past: History): set<nat> {
    TagSet(past.handed) - past.gone
  }

  /** On a manual channel the ledger is the disjoint union of what is undelivered (buffered or parked)
      and what the embedder holds: a delivery leaves it by terminal settlement only. */
  lemma LedgerIsConserved(l: Lane, waiting: seq<TransportDelivery>)
    requires Inv(l, waiting) && !l.ch.cfg.earlyAck
    ensures l.ch.ledger.pending.Keys == TagSet(waiting) + Unsettled(l.env.past)
    ensures TagSet(waiting) !! Unsettled(l.env.past)
    ensures l.ch.ledger.pending.Keys == TagSet(l.env.past.arrived) - l.env.past.gone
  {
    var past := l.env.past;
    forall t | t in TagSet(waiting) ensures t in TagSet(past.arrived) && t !in past.gone && t !in TagSet(past.handed) {
      var d := TagSetFind(waiting, t);
      if t in TagSet(past.handed) {
        var e := TagSetFind(past.handed, t);
      }
    }
    forall t | t in TagSet(past.handed) ensures t in TagSet(past.arrived) {
      var e := TagSetFind(past.handed, t);
    }
  }

  // ---------------------------------------------------------------- settlement stages

  function WorkCount(ws: seq<Work>, tag: nat): nat {
    if ws == [] then 0 else
      WorkCount(ws[..|ws| - 1], tag) + if ws[|ws| - 1].token.tag == tag then 1 else 0
  }

  function TokenCount(ts: seq<Token>, tag: nat): nat {
    if ts == [] then 0 else
      TokenCount(ts[..|ts| - 1], tag) + if ts[|ts| - 1].tag == tag then 1 else 0
  }

  function ThroughCount(ths: seq<Through>, tag: nat): nat {
    if ths == [] then 0 else
      ThroughCount(ths[..|ths| - 1], tag) + TokenCount(ths[|ths| - 1].affected, tag)
  }

  // How often a tag is on its way to the broker.
  function Errands(st: Stages, tag: nat): nat {
    WorkCount(st.queue, tag) + WorkCount(st.settlements, tag)
    + ThroughCount(st.throughQueue, tag) + ThroughCount(st.throughs, tag)
  }

  // How often it occurs over all stages between the actor's claim and the completion.
  function Copies(st: Stages, tag: nat): nat {
    (if tag in st.batch then 1 else 0) + Errands(st, tag)
  }

  lemma {:induction false} WorkCountOne(ws: seq<Work>, tag: nat)
    requires forall i, j :: 0 <= i < j < |ws| ==> ws[i].token.tag != ws[j].token.tag
    ensures WorkCount(ws, tag) == if tag in WorkTags(ws) then 1 else 0
  {
    if ws != [] {
      var n := |ws| - 1;
      WorkCountOne(ws[..n], tag);
      if tag in WorkTags(ws[..n]) {
        var w := WorkTagsFind(ws[..n], tag);
      }
    }
  }

  lemma {:induction false} TokenCountOne(ts: seq<Token>, tag: nat)
    requires forall i, j :: 0 <= i < j < |ts| ==> ts[i].tag != ts[j].tag
    ensures TokenCount(ts, tag) == if tag in TokenTags(ts) then 1 else 0
  {
    if ts != [] {
      var n := |ts| - 1;
      TokenCountOne(ts[..n], tag);
      if tag in TokenTags(ts[..n]) {
        var a := TokenTagsFind(ts[..n], tag);
      }
    }
  }

  lemma {:induction false} ThroughCountOne(ths: seq<Through>, tag: nat)
    requires forall th :: th in ths ==> Distinct(th.affected)
    requires forall i, j :: 0 <= i < j < |ths| ==> TokenTags(ths[i].affected) !! TokenTags(ths[j].affected)
    ensures ThroughCount(ths, tag) == if tag in ThroughTags(ths) then 1 else 0
  {
    if ths != [] {
      var n := |ths| - 1;
      ThroughCountOne(ths[..n], tag);
      TokenCountOne(ths[n].affected, tag);
      if tag in ThroughTags(ths[..n]) {
        var th, a := ThroughTagsFind(ths[..n], tag);
        var i :| 0 <= i < n && ths[i] == th;
        TokenTagsHas(th.affected, a);
      }
    }
  }

  // Two stages share no tag when no two of their members do.
  lemma StagesShareNothing(st: Stages, tag: nat)
    requires Serial(st) && Waits(st) && Disjoint(st)
    ensures tag in WorkTags(st.queue) ==> tag !in FlightTags(st) && tag !in ThroughTags(st.throughQueue)
    ensures tag in WorkTags(st.settlements) ==> tag !in ThroughTags(st.throughQueue)
    ensures tag in ThroughTags(st.throughs) ==> tag !in ThroughTags(st.throughQueue)
  {
    if tag in WorkTags(st.queue) {
      var w := WorkTagsFind(st.queue, tag);
      UnlistedAlone(st, w);
      if tag in WorkTags(st.settlements) {
        var v := WorkTagsFind(st.settlements, tag);
      }
    }
    if tag in WorkTags(st.settlements) {
      var w := WorkTagsFind(st.settlements, tag);
      UnlistedAlone(st, w);
    }
    if tag in ThroughTags(st.throughs) && tag in ThroughTags(st.throughQueue) {
      var th, a := ThroughTagsFind(st.throughs, tag);
      var q, b := ThroughTagsFind(st.throughQueue, tag);
      TokenTagsHas(th.affected, a);
      TokenTagsHas(q.affected, b);
    }
  }

  lemma UnlistedAlone(st: Stages, w: Work)
    requires Disjoint(st) && Individual(st, w)
    ensures !Listed(st, w.token.tag)
  {
    if Listed(st, w.token.tag) {
      var th, a := ListedFind(st, w.token.tag);
      TokenTagsHas(th.affected, a);
    }
  }

  lemma OneErrand(st: Stages, keys: set<nat>, cells: map<Token, Cell>, tag: nat)
    requires Serial(st) && Waits(st) && Apart(st, keys, cells)
    ensures Errands(st, tag) == if tag in UnderWay(st) then 1 else 0
  {
    WorkCountOne(st.queue, tag);
    WorkCountOne(st.settlements, tag);
    forall th | th in st.throughs || th in st.throughQueue ensures Distinct(th.affected) {
      assert Cumulative(st, th);
    }
    ThroughCountOne(st.throughs, tag);
    ThroughCountOne(st.throughQueue, tag);
    StagesShareNothing(st, tag);
  }

  // What is on its way to the broker is in the ledger and claimed.
  lemma ErrandBacked(st: Stages, keys: set<nat>, cells: map<Token, Cell>, tag: nat) returns (token: Token)
    requires Backed(st, keys, cells) && Entered(st, keys, cells) && tag in UnderWay(st)
    ensures tag in keys && token.tag == tag && IsHeld(cells, token)
  {
    if tag in WorkTags(st.queue) {
      var w := WorkTagsFind(st.queue, tag);
      assert Individual(st, w);
      token := w.token;
    } else if tag in WorkTags(st.settlements) {
      var w := WorkTagsFind(st.settlements, tag);
      assert Individual(st, w);
      token := w.token;
    } else {
      var th;
      th, token := ListedFind(st, tag);
    }
  }

  lemma FlightCountOne(st: Stages, keys: set<nat>, tag: nat)
    requires Serial(st) && Partitioned(st, keys)
    ensures WorkCount(st.settlements, tag) + ThroughCount(st.throughs, tag)
         == if tag in FlightTags(st) then 1 else 0
  {
    WorkCountOne(st.settlements, tag);
    if st.throughs != [] {
      var th := st.throughs[0];
      assert st.throughs == [th] && th in st.throughs;
      assert [th][..0] == [];
      TokenCountOne(th.affected, tag);
      assert ThroughTags([th]) == ThroughTags([]) + TokenTags(th.affected);
    }
  }

  /** In every run one settlement of a channel is in flight at a time and nothing queues behind
      nothing. Unless settlements overlapped, no delivery is on its way to the broker twice, and none that
      has left the ledger is on its way at all. When the cumulative settlements come from the flush, each
      tag stands in at most one stage, and in exactly one while the actor holds its token. */
  lemma StagesPartitionTheWork(l: Lane, waiting: seq<TransportDelivery>, d: TransportDelivery)
    requires Inv(l, waiting) && d in l.env.past.handed
    ensures |l.ch.stages.settlements| + |l.ch.stages.throughs| <= 1
    ensures l.ch.stages.queue != [] || l.ch.stages.throughQueue != [] ==>
              |l.ch.stages.settlements| + |l.ch.stages.throughs| == 1
    ensures OwnToken(l.ch.cfg, d) in l.ch.cells
    ensures Clean(l.env.past) && !l.ch.cfg.earlyAck ==>
              Errands(l.ch.stages, d.tag) <= if d.tag in l.ch.ledger.pending then 1 else 0
    ensures !l.env.past.explicit && !l.ch.cfg.earlyAck && d.tag in l.ch.ledger.pending ==>
              Copies(l.ch.stages, d.tag) == if l.ch.cells[OwnToken(l.ch.cfg, d)].settling then 1 else 0
    ensures !l.env.past.explicit && !l.ch.cfg.earlyAck && d.tag !in l.ch.ledger.pending ==>
              Copies(l.ch.stages, d.tag) == 0
  {
    if Clean(l.env.past) && !l.ch.cfg.earlyAck {
      CleanErrands(l, d.tag);
    }
    if !l.env.past.explicit && !l.ch.cfg.earlyAck {
      OneStage(l.ch.stages, l.ch.ledger.pending.Keys, d.tag);
    }
  }

  lemma CleanErrands(l: Lane, tag: nat)
    requires Recorded(l) && Tracked(l) && Disciplined(l) && Clean(l.env.past) && !l.ch.cfg.earlyAck
    ensures Errands(l.ch.stages, tag) <= if tag in l.ch.ledger.pending then 1 else 0
  {
    LookAtRules(l);
    OneErrand(l.ch.stages, l.ch.ledger.pending.Keys, l.ch.cells, tag);
    if tag in UnderWay(l.ch.stages) {
      var token := ErrandBacked(l.ch.stages, l.ch.ledger.pending.Keys, l.ch.cells, tag);
    }
  }

  lemma OneStage(st: Stages, keys: set<nat>, tag: nat)
    requires Serial(st) && Partitioned(st, keys)
    ensures Copies(st, tag) == if Staged(st, tag) then 1 else 0
    ensures tag !in keys ==> !Staged(st, tag)
  {
    WorkCountOne(st.queue, tag);
    FlightCountOne(st, keys, tag);
  }

  /** The broker never has reason to object: on a best-effort channel in every run, on a manual one unless
      a settle-through was accepted for a token already listed, or a rejection or release came too late, no
      operation names a tag it has settled before. */
  lemma BrokerNeverObjects(l: Lane, waiting: seq<TransportDelivery>)
    requires Inv(l, waiting) && (l.ch.cfg.earlyAck || Peaceful(l.env.past))
    ensures !l.env.broker.violated
    ensures l.env.broker.alive && !l.ch.cfg.earlyAck && l.ch.stages.inFlight && !l.env.broker.applied ==>
              (l.ch.stages.settlements != [] || l.ch.stages.throughs != [])
              && FlightOp(l.ch.stages).tag in l.env.broker.unsettled
  {
    LookAtRules(l);
    if l.ch.stages.inFlight && !l.ch.cfg.earlyAck {
      FlightOpBacked(l.ch.stages, l.ch.ledger.pending.Keys, l.ch.cells);
    }
  }

  // What an operation does to a delivery, in the embedder's terms.
  predicate Carries(op: WireOp, settlement: Settlement) {
    match settlement
    case Ack => op.WireAck?
    case Reject(requeue) => op.WireReject? && op.requeue == requeue
    case Release(delay) => if delay == 0 then op.WireReject? && op.requeue else op.WireAck?
  }

  // Somebody called for the operation on this tag: a settlement call it carries out, or a settle-through.
  ghost predicate Justified(past: History, op: WireOp, tag: nat) {
    || (exists settlement :: Ask(tag, settlement) in past.asks && Carries(op, settlement))
    || (op.WireAck? && op.multiple && tag <= past.through)
  }

  lemma FlightJustified(st: Stages, past: History, a: Token)
    requires Called(st, past.asks, past.through) && Serial(st) && st.inFlight
    requires if st.settlements != [] then a == st.settlements[0].token else a in st.throughs[0].affected
    ensures Justified(past, FlightOp(st), a.tag)
  {
    if st.settlements != [] {
      assert Individual(st, st.settlements[0]);
      assert Ask(a.tag, st.settlements[0].settlement) in past.asks;
    } else {
      assert Cumulative(st, st.throughs[0]);
      if a.tag > past.through {
        assert Ask(a.tag, Ack) in past.asks && Carries(FlightOp(st), Ack);
      }
    }
  }

  /** In every run, for each token it settles, the operation in flight carries out something the embedder
      has asked for it, or the token is at or below the target of an accepted settle-through. In
      flush-driven runs it carries out what the embedder asked for last, and its success leaves every token
      in the state the settlement call has already reported. */
  lemma SuccessConfirmsTheCall(l: Lane, waiting: seq<TransportDelivery>, landing: Landing, a: Token)
    requires Inv(l, waiting) && a in landing.tokens
    requires
      || (l.ch.stages.settlements != [] && landing == LandWork(l.ch, l.ch.stages.settlements[0], Done))
      || (l.ch.stages.throughs != [] && landing == LandThrough(l.ch, l.ch.stages.throughs[0], Done))
    ensures Justified(l.env.past, FlightOp(l.ch.stages), a.tag)
    ensures !l.env.past.explicit ==>
              && a in l.ch.cells && l.ch.cells[a].state == landing.final
              && a.tag in l.env.past.requested && Carries(FlightOp(l.ch.stages), l.env.past.requested[a.tag])
  {
    LookAtRules(l);
    FlightJustified(l.ch.stages, l.env.past, a);
    if !l.env.past.explicit {
      LastCallConfirmed(l, waiting, landing, a);
    }
  }

  lemma LastCallConfirmed(l: Lane, waiting: seq<TransportDelivery>, landing: Landing, a: Token)
    requires Inv(l, waiting) && !l.env.past.explicit && a in landing.tokens
    requires
      || (l.ch.stages.settlements != [] && landing == LandWork(l.ch, l.ch.stages.settlements[0], Done))
      || (l.ch.stages.throughs != [] && landing == LandThrough(l.ch, l.ch.stages.throughs[0], Done))
    ensures a in l.ch.cells && l.ch.cells[a].state == landing.final
    ensures a.tag in l.env.past.requested && Carries(FlightOp(l.ch.stages), l.env.past.requested[a.tag])
  {
    var st, past := l.ch.stages, l.env.past;
    assert |st.settlements| + |st.throughs| == 1 && !l.ch.cfg.earlyAck;
    if st.settlements != [] {
      assert a == st.settlements[0].token && st.settlements[0] in st.settlements;
      WorkTagsHas(st.settlements, st.settlements[0]);
    } else {
      assert st.throughs[0] in st.throughs;
      ThroughTagsHas(st.throughs, st.throughs[0], a);
    }
    OwnTokenOf(l.ch.cfg, past.handed, a);
    assert DeliveryOf(a) in past.handed && Staged(st, a.tag) && a.tag in l.ch.ledger.pending;
  }

  // ---------------------------------------------------------------- byte budget

  /** Between commands a lane never counts more than its budget, nor more than it holds, and exactly
      what it holds unless a token came to be on its way to the broker twice; and everything it holds
      undelivered fits its budget. */
  lemma BytesWithinBudget(l: Lane, waiting: seq<TransportDelivery>)
    requires Inv(l, waiting)
    ensures l.ch.intake.bufferedBytes <= l.ch.cfg.maxBufferedBytes
    ensures l.ch.intake.bufferedBytes
         <= Bytes(l.ch.intake.buffer)
            + if l.ch.cfg.earlyAck then 0 else Outstanding(l.env.past.handed, l.env.past.gone)
    ensures Clean(l.env.past) && l.ch.cfg.maxBufferedBytes < U64_MAX && !l.ch.cfg.earlyAck ==>
              l.ch.intake.bufferedBytes
              == Bytes(l.ch.intake.buffer) + Outstanding(l.env.past.handed, l.env.past.gone)
    ensures forall d :: d in waiting ==> d.bytes <= l.ch.cfg.maxBufferedBytes
  {
  }

  // ---------------------------------------------------------------- early acknowledgement

  /** Best-effort channels: no tag is acknowledged twice on the wire, however often its hand-off
      fails, although the actor remembers only a bounded ring of tags: for the delivery it is about
      to hand over, the ring answers as the set of all acknowledged tags would. */
  lemma EarlyAckedAtMostOnce(l: Lane, waiting: seq<TransportDelivery>)
    requires Inv(l, waiting) && l.ch.cfg.earlyAck
    ensures forall i, j :: 0 <= i < j < |l.env.broker.wire| ==>
              l.env.broker.wire[i].tag != l.env.broker.wire[j].tag
    ensures !l.env.broker.violated
    ensures l.ch.intake.buffer != [] ==>
              (l.ch.intake.buffer[0].tag in l.ch.intake.earlyAcked
               <==> l.ch.intake.buffer[0].tag in WireTags(l.env.broker.wire))
    ensures forall d :: d in waiting && d.tag in WireTags(l.env.broker.wire) ==>
              l.ch.intake.buffer != [] && d.tag == l.ch.intake.buffer[0].tag
              && l.ch.intake.earlyAcked != []
              && d.tag == l.ch.intake.earlyAcked[|l.ch.intake.earlyAcked| - 1]
  {
  }

  // ---------------------------------------------------------------- generations

  /** Every operation on a channel's wire names a delivery received on that channel, and every token
      mailed to be settled, recorded or staged for one was made for it. A settle-through with a token
      of another generation, even one whose tag collides with a live delivery, changes nothing but the
      mailbox. */
  lemma GenerationsDoNotMix(l: Lane, waiting: seq<TransportDelivery>)
    requires Inv(l, waiting)
    ensures WireTags(l.env.broker.wire) <= TagSet(l.env.past.arrived)
    ensures forall c :: c in l.ch.stages.mail && c.Settle? ==> c.token.identity == l.ch.cfg.identity
    ensures forall t :: t in l.ch.stages.batch ==> l.ch.stages.batch[t].identity == l.ch.cfg.identity
    ensures forall w :: w in l.ch.stages.queue || w in l.ch.stages.settlements ==>
              w.token.identity == l.ch.cfg.identity
    ensures forall th, a :: (th in l.ch.stages.throughQueue || th in l.ch.stages.throughs) && a in th.affected ==>
              a.identity == l.ch.cfg.identity
    ensures l.ch.stages.mail != [] && l.ch.stages.mail[0].SettleThrough?
            && l.ch.stages.mail[0].token.identity != l.ch.cfg.identity ==>
              l.ch.stages.mail[0].token in l.ch.cells && HandleThrough(l) == PopMail(l)
  {
    if l.ch.stages.mail != [] {
      assert l.ch.stages.mail[0] in l.ch.stages.mail;
    }
  }

  // ---------------------------------------------------------------- no deadlock

  // Over budget but not oversized: the lane already counts something.
  lemma OverBudgetCounts(ch: Channel, d: TransportDelivery)
    requires Configured(ch.cfg) && OverBudget(ch, d) && !Oversized(ch.cfg, d)
    ensures ch.intake.bufferedBytes > 0
  {
  }

  // A lane with nothing buffered that still counts bytes has a handed delivery in its ledger.
  lemma HeldByEmbedder(l: Lane, waiting: seq<TransportDelivery>) returns (d: TransportDelivery)
    requires Inv(l, waiting) && l.ch.intake.buffer == [] && l.ch.intake.bufferedBytes > 0
    ensures !l.ch.cfg.earlyAck && d in l.env.past.handed && d.tag in l.ch.ledger.pending
  {
    OutstandingWitness(l.env.past.handed, l.env.past.gone);
    d :| d in l.env.past.handed && d.tag !in l.env.past.gone;
  }

  lemma FlushLaunches(l: Lane, m: Lane, tag: nat)
    requires FlushedTo(l, m) && tag in l.ch.stages.batch && tag in l.ch.ledger.pending
    requires tag > l.ch.ledger.ackedPrefix
    ensures m.ch.stages.inFlight
  {
    if !l.ch.stages.inFlight {
      var prefix, rest :|
        && IsPrefix(l.ch.ledger, l.ch.stages.batch, prefix)
        && IsRest(l.ch.ledger, l.ch.stages.batch, Reach(l.ch.ledger, prefix), rest)
        && m == Flush(l, prefix, rest);
      if prefix == [] {
        assert tag in WorkTags(rest);
      }
    }
  }

  /** Deferred flushing cannot deadlock: when the parked head does not fit, the dispatch stock is
      drained, the embedder has settled everything it was handed and the mailbox is empty, then a
      settlement is in flight after the flush, whose completion will free bytes. */
  lemma LaneNeverStuck(l: Lane, waiting: seq<TransportDelivery>, m: Lane, head: TransportDelivery)
    requires Inv(l, waiting) && FlushedTo(l, m)
    requires head in waiting && OverBudget(l.ch, head) && l.ch.intake.buffer == []
    requires l.ch.stages.mail == []
    requires forall d :: d in l.env.past.handed && d.tag in l.ch.ledger.pending
                         && OwnToken(l.ch.cfg, d) in l.ch.cells ==>
               l.ch.cells[OwnToken(l.ch.cfg, d)].state != Pending
    ensures m.ch.stages.inFlight
  {
    OverBudgetCounts(l.ch, head);
    var d := HeldByEmbedder(l, waiting);
    assert !Mailed(l.ch.stages, OwnToken(l.ch.cfg, d));
    assert Staged(l.ch.stages, d.tag);
    if d.tag in l.ch.stages.batch {
      FlushLaunches(l, m, d.tag);
    }
  }

  lemma ActorNeverStuck(channels: Channels, world: World, parked: seq<Parked>, after: Channels, outside: World)
    requires AllInv(channels, world, parked) && Each(FlushedTo, channels, world, after, outside)
    requires parked != [] && parked[0].id in channels
    requires OverBudget(channels[parked[0].id], parked[0].delivery)
    requires forall id :: id in channels ==> channels[id].intake.buffer == [] && channels[id].stages.mail == []
    requires forall id, d :: id in channels && d in world[id].past.handed && d.tag in channels[id].ledger.pending
                             && OwnToken(channels[id].cfg, d) in channels[id].cells ==>
               channels[id].cells[OwnToken(channels[id].cfg, d)].state != Pending
    ensures after[parked[0].id].stages.inFlight
  {
    var p := parked[0];
    AllAt(Inv, channels, world, parked, p.id);
    EachAt(FlushedTo, channels, world, after, outside, p.id);
    ShareRest(parked, p.id);
    assert p.delivery in Waiting(channels[p.id], parked, p.id);
    LaneNeverStuck(LaneOf(channels, world, p.id), Waiting(channels[p.id], parked, p.id),
                   LaneOf(after, outside, p.id), p.delivery);
  }
}
