/**
 Runs in which settlements do not collide: what else happens to a lane, deliveries coming and
 going above all, keeps `Disciplined`.
 */
module Disciplines {
  import opened Deliveries
  import opened Lanes
  import opened StageTags
  import opened Dispatching
  import opened Receiving
  import opened Settling

  // A staged tag belongs to a delivery the embedder holds.
  lemma StagedHanded(cfg: Config, st: Stages, handed: seq<TransportDelivery>, keys: set<nat>, t: nat)
    returns (d: TransportDelivery)
    requires Owned(cfg, st, handed, keys) && Staged(st, t)
    ensures d in handed && d.tag == t
  {
    var token: Token;
    if t in st.batch {
      token := st.batch[t];
    } else if t in WorkTags(st.queue) {
      var w := WorkTagsFind(st.queue, t);
      token := w.token;
    } else if t in WorkTags(st.settlements) {
      var w := WorkTagsFind(st.settlements, t);
      token := w.token;
    } else if t in ThroughTags(st.throughQueue) {
      var th, a := ThroughTagsFind(st.throughQueue, t);
      token := a;
    } else {
      var th, a := ThroughTagsFind(st.throughs, t);
      token := a;
    }
    d := DeliveryOf(token);
  }

  lemma OwnedMore(
      cfg: Config, st: Stages, handed: seq<TransportDelivery>, keys: set<nat>,
      more: seq<TransportDelivery>, fewer: set<nat>)
    requires Owned(cfg, st, handed, keys) && handed <= more && fewer <= keys
    ensures Owned(cfg, st, more, fewer)
  {
    assert forall d :: d in handed ==> d in more;
  }

  // A newly handed delivery is not staged: its tag is higher than every staged one.
  lemma FreshUnstaged(
      cfg: Config, st: Stages, handed: seq<TransportDelivery>, keys: set<nat>,
      more: seq<TransportDelivery>, d: TransportDelivery)
    requires Owned(cfg, st, handed, keys) && handed <= more && Ascending(more)
    requires d in more && d !in handed
    ensures !Staged(st, d.tag)
  {
    if Staged(st, d.tag) {
      var e := StagedHanded(cfg, st, handed, keys, d.tag);
      assert e in more;
      AscendingUnique(more, d, e);
    }
  }

  // ---------------------------------------------------------------- what a discipline depends on

  // The staged tags are in the ledger as before, and the claimed tokens are still claimed.
  ghost predicate Undisturbed(
      cfg: Config, st: Stages, handed: seq<TransportDelivery>, keys: set<nat>, after: set<nat>,
      cells: map<Token, Cell>, more: map<Token, Cell>)
  {
    && (forall t :: Staged(st, t) ==> (t in keys <==> t in after))
    && (forall token :: Own(cfg, handed, token) && IsHeld(cells, token) ==> IsHeld(more, token))
  }

  lemma ClimbsFrame(low: nat, st: Stages, next: Stages)
    requires Climbs(low, st) && next == st.(mail := next.mail, batch := next.batch)
    ensures Climbs(low, next)
  {
    assert forall th :: Cumulative(next, th) ==> Cumulative(st, th);
  }

  lemma IndividualStaged(st: Stages, w: Work)
    requires Individual(st, w)
    ensures Staged(st, w.token.tag)
  {
    if w in st.queue {
      WorkTagsHas(st.queue, w);
    } else {
      WorkTagsHas(st.settlements, w);
    }
  }

  lemma CumulativeStaged(st: Stages, th: Through, a: Token)
    requires Cumulative(st, th) && a in th.affected
    ensures Staged(st, a.tag) && Listed(st, a.tag)
  {
    if th in st.throughs {
      ThroughTagsHas(st.throughs, th, a);
    } else {
      ThroughTagsHas(st.throughQueue, th, a);
    }
  }

  lemma OrderlyFrame(
      cfg: Config, st: Stages, next: Stages, handed: seq<TransportDelivery>, keys: set<nat>, after: set<nat>,
      cells: map<Token, Cell>, more: map<Token, Cell>)
    requires Orderly(st, keys, cells) && Owned(cfg, st, handed, keys)
    requires next == st.(mail := next.mail)
    requires Undisturbed(cfg, st, handed, keys, after, cells, more)
    ensures Orderly(next, after, more)
  {
    forall w | Individual(next, w) ensures w.token.tag in after && IsHeld(more, w.token) {
      assert Individual(st, w);
      IndividualStaged(st, w);
    }
    forall th | Cumulative(next, th) ensures th.token.tag in after && IsHeld(more, th.token) {
      assert Cumulative(st, th) && th.token in th.affected;
      CumulativeStaged(st, th, th.token);
    }
    forall th, w | Cumulative(next, th) && Individual(next, w) ensures w.token.tag != th.token.tag {
      assert Cumulative(st, th) && Individual(st, w);
    }
    forall t, w | t in next.batch && t in after && Individual(next, w) ensures w.token.tag != t {
      assert Staged(st, t) && Individual(st, w);
    }
    forall t | t in next.batch && t in after ensures IsHeld(more, next.batch[t]) {
      assert Staged(st, t);
    }
  }

  lemma ApartFrame(
      cfg: Config, st: Stages, next: Stages, handed: seq<TransportDelivery>, keys: set<nat>, after: set<nat>,
      cells: map<Token, Cell>, more: map<Token, Cell>)
    requires Apart(st, keys, cells) && Owned(cfg, st, handed, keys)
    requires next == st.(mail := next.mail)
    requires Undisturbed(cfg, st, handed, keys, after, cells, more)
    ensures Apart(next, after, more)
  {
    forall th, a | Cumulative(next, th) && a in th.affected ensures a.tag in after && IsHeld(more, a) {
      assert Cumulative(st, th);
      CumulativeStaged(st, th, a);
    }
    forall th, w | Cumulative(next, th) && Individual(next, w) ensures w.token.tag !in TokenTags(th.affected) {
      assert Cumulative(st, th) && Individual(st, w);
    }
    forall th | Cumulative(next, th) ensures Distinct(th.affected) {
      assert Cumulative(st, th);
    }
  }

  // What keeps the stages, the claims and the broker's books keeps the rules.
  lemma RulesFrame(l: Lane, m: Lane)
    requires Rules(l) && Owned(l.ch.cfg, l.ch.stages, l.env.past.handed, l.ch.ledger.pending.Keys)
    requires m.ch.cfg == l.ch.cfg && m.ch.stages == l.ch.stages.(mail := m.ch.stages.mail)
    requires m.ch.ledger.ackedPrefix == l.ch.ledger.ackedPrefix
    requires m.env.past.explicit == l.env.past.explicit && m.env.past.crossed == l.env.past.crossed
    requires m.env.past.overlapped == l.env.past.overlapped && m.env.past.stray == l.env.past.stray
    requires Called(m.ch.stages, m.env.past.asks, m.env.past.through)
    requires !l.ch.cfg.earlyAck ==>
               Undisturbed(l.ch.cfg, l.ch.stages, l.env.past.handed, l.ch.ledger.pending.Keys,
                           m.ch.ledger.pending.Keys, l.ch.cells, m.ch.cells)
    requires Peaceful(l.env.past) && !l.ch.cfg.earlyAck ==>
               Faithful(m.ch.stages, m.ch.ledger.pending.Keys, m.env.broker)
    ensures Rules(m)
  {
    if !l.env.past.crossed {
      ClimbsFrame(l.ch.ledger.ackedPrefix, l.ch.stages, m.ch.stages);
    }
    if Peaceful(l.env.past) && !l.ch.cfg.earlyAck {
      OrderlyFrame(l.ch.cfg, l.ch.stages, m.ch.stages, l.env.past.handed, l.ch.ledger.pending.Keys,
                   m.ch.ledger.pending.Keys, l.ch.cells, m.ch.cells);
    }
    if Clean(l.env.past) && !l.ch.cfg.earlyAck {
      ApartFrame(l.ch.cfg, l.ch.stages, m.ch.stages, l.env.past.handed, l.ch.ledger.pending.Keys,
                 m.ch.ledger.pending.Keys, l.ch.cells, m.ch.cells);
    }
  }

  lemma RulesMakeDiscipline(l: Lane)
    requires Rules(l)
    ensures Disciplined(l)
  {
  }

  // ---------------------------------------------------------------- dispatch

  lemma StagedStay(
      cfg: Config, st: Stages, handed: seq<TransportDelivery>, keys: set<nat>, fewer: set<nat>)
    requires Owned(cfg, st, handed, keys) && fewer <= keys
    requires forall d :: d in handed && d.tag in keys ==> d.tag in fewer
    ensures forall t :: Staged(st, t) ==> (t in keys <==> t in fewer)
  {
    forall t | Staged(st, t) && t in keys ensures t in fewer {
      var d := StagedHanded(cfg, st, handed, keys, t);
    }
  }

  lemma DispatchedFaithful(l: Lane, m: Lane, waiting: seq<TransportDelivery>)
    requires Dispatched(l, m) && !l.ch.cfg.earlyAck
    requires Ordered(l.env.past, waiting, l.env.broker.transit)
    requires Faithful(l.ch.stages, l.ch.ledger.pending.Keys, l.env.broker)
    ensures Faithful(m.ch.stages, m.ch.ledger.pending.Keys, m.env.broker)
  {
    var dropped := m.env.past.gone - l.env.past.gone;
    forall t | t in dropped ensures t !in TagSet(l.env.broker.transit) {
      var e := TagSetFind(l.env.past.arrived, t);
      if t in TagSet(l.env.broker.transit) {
        var d := TagSetFind(l.env.broker.transit, t);
      }
    }
  }

  lemma DispatchedUndisturbed(l: Lane, m: Lane)
    requires Dispatched(l, m) && !l.ch.cfg.earlyAck
    requires Owned(l.ch.cfg, l.ch.stages, l.env.past.handed, l.ch.ledger.pending.Keys)
    ensures Undisturbed(l.ch.cfg, l.ch.stages, l.env.past.handed, l.ch.ledger.pending.Keys,
                        m.ch.ledger.pending.Keys, l.ch.cells, m.ch.cells)
  {
    StagedStay(l.ch.cfg, l.ch.stages, l.env.past.handed, l.ch.ledger.pending.Keys, m.ch.ledger.pending.Keys);
    forall token | Own(l.ch.cfg, l.env.past.handed, token) && IsHeld(l.ch.cells, token)
      ensures IsHeld(m.ch.cells, token)
    {
      assert token == OwnToken(l.ch.cfg, DeliveryOf(token));
    }
  }

  lemma DispatchedDisciplined(l: Lane, m: Lane, waiting: seq<TransportDelivery>)
    requires Dispatched(l, m) && Disciplined(l)
    requires Ordered(l.env.past, waiting, l.env.broker.transit)
    requires Owned(l.ch.cfg, l.ch.stages, l.env.past.handed, l.ch.ledger.pending.Keys)
    ensures Disciplined(m)
  {
    LookAtRules(l);
    if !l.ch.cfg.earlyAck {
      DispatchedUndisturbed(l, m);
      if Peaceful(l.env.past) {
        DispatchedFaithful(l, m, waiting);
      }
    }
    RulesFrame(l, m);
    RulesMakeDiscipline(m);
  }

  // ---------------------------------------------------------------- arrivals

  // A tag above every arrival moves from the transit to the ledger, or disappears from both sides.
  lemma ArrivalFaithful(st: Stages, keys: set<nat>, broker: Broker, after: Broker)
    requires Faithful(st, keys, broker) && broker.transit != [] && Ascending(broker.transit)
    requires broker.transit[0].tag !in FlightTags(st) && broker.transit[0].tag !in keys
    requires after == broker.(transit := broker.transit[1..], wire := after.wire, unsettled := after.unsettled)
    ensures after.unsettled == broker.unsettled ==> Faithful(st, keys + {broker.transit[0].tag}, after)
    ensures (broker.alive ==> after.unsettled == broker.unsettled - {broker.transit[0].tag}) ==>
              Faithful(st, keys, after)
  {
    AscendingRest(broker.transit);
  }

  // A delivery still under way to the actor is not in the ledger, and nothing staged names it.
  lemma ArrivalUnknown(l: Lane, waiting: seq<TransportDelivery>)
    requires Core(l, waiting) && l.env.broker.transit != [] && !l.ch.cfg.earlyAck
    ensures l.env.broker.transit[0].tag !in l.ch.ledger.pending
    ensures forall d :: d in l.env.past.handed ==> d.tag < l.env.broker.transit[0].tag
  {
    var d := l.env.broker.transit[0];
    assert d in l.env.broker.transit;
    if d.tag in l.ch.ledger.pending {
      var e := TagSetFind(l.env.past.arrived, d.tag);
    }
  }

  lemma ArrivalUnstaged(l: Lane, waiting: seq<TransportDelivery>, t: nat)
    requires Core(l, waiting) && t > l.env.past.arrivedTop
    requires Owned(l.ch.cfg, l.ch.stages, l.env.past.handed, l.ch.ledger.pending.Keys)
    ensures !Staged(l.ch.stages, t) && t !in FlightTags(l.ch.stages)
  {
    if Staged(l.ch.stages, t) {
      var d := StagedHanded(l.ch.cfg, l.ch.stages, l.env.past.handed, l.ch.ledger.pending.Keys, t);
    }
  }

  lemma ReceiveDisciplined(l: Lane, waiting: seq<TransportDelivery>)
    requires Core(l, waiting) && l.env.broker.transit != [] && Disciplined(l)
    requires Owned(l.ch.cfg, l.ch.stages, l.env.past.handed, l.ch.ledger.pending.Keys)
    ensures Disciplined(Receive(l))
  {
    var d, keys, m := l.env.broker.transit[0], l.ch.ledger.pending.Keys, Receive(l);
    LookAtRules(l);
    assert d in l.env.broker.transit;
    if !l.ch.cfg.earlyAck {
      ArrivalUnknown(l, waiting);
      ArrivalUnstaged(l, waiting, d.tag);
      assert m.ch.ledger.pending.Keys == keys + {d.tag};
      if Peaceful(l.env.past) {
        ArrivalFaithful(l.ch.stages, keys, l.env.broker, m.env.broker);
      }
    }
    RulesFrame(l, m);
    RulesMakeDiscipline(m);
  }

  lemma OversizedFaithful(l: Lane, waiting: seq<TransportDelivery>)
    requires Core(l, waiting) && l.env.broker.transit != [] && !l.ch.cfg.earlyAck
    requires Oversized(l.ch.cfg, l.env.broker.transit[0])
    requires Owned(l.ch.cfg, l.ch.stages, l.env.past.handed, l.ch.ledger.pending.Keys)
    requires Faithful(l.ch.stages, l.ch.ledger.pending.Keys, l.env.broker)
    ensures Faithful(l.ch.stages, l.ch.ledger.pending.Keys, ReceiveOversized(l).env.broker)
  {
    assert l.env.broker.transit[0] in l.env.broker.transit;
    ArrivalUnknown(l, waiting);
    ArrivalUnstaged(l, waiting, l.env.broker.transit[0].tag);
    WiredOversized(l, waiting);
    ArrivalFaithful(l.ch.stages, l.ch.ledger.pending.Keys, l.env.broker, ReceiveOversized(l).env.broker);
  }

  // An oversized arrival is gone again before anybody knows it.
  lemma OversizedLedger(l: Lane, waiting: seq<TransportDelivery>)
    requires Core(l, waiting) && l.env.broker.transit != [] && !l.ch.cfg.earlyAck
    requires Oversized(l.ch.cfg, l.env.broker.transit[0])
    ensures ReceiveOversized(l).ch == l.ch
  {
    ArrivalUnknown(l, waiting);
    OversizedBooked(l, waiting);
    assert l.ch.ledger.pending - {l.env.broker.transit[0].tag} == l.ch.ledger.pending;
  }

  lemma OversizedDisciplined(l: Lane, waiting: seq<TransportDelivery>)
    requires Core(l, waiting) && l.env.broker.transit != [] && Disciplined(l)
    requires Oversized(l.ch.cfg, l.env.broker.transit[0])
    requires Owned(l.ch.cfg, l.ch.stages, l.env.past.handed, l.ch.ledger.pending.Keys)
    ensures Disciplined(ReceiveOversized(l))
  {
    var m := ReceiveOversized(l);
    LookAtRules(l);
    if !l.ch.cfg.earlyAck {
      OversizedLedger(l, waiting);
      if Peaceful(l.env.past) {
        OversizedFaithful(l, waiting);
      }
    }
    RulesFrame(l, m);
    RulesMakeDiscipline(m);
  }
}
