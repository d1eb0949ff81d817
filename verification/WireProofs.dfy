/**
 Operations reaching the broker: a cumulative acknowledgement settles exactly what it lists,
 no operation ever names a settled tag, and undelivered messages are never touched.
 */
module WireProofs {
  import opened Deliveries
  import opened Lanes
  import opened StageTags
  import opened Dispatching
  import opened DispatchProofs
  import opened Settling
  import opened SettleFrames
  import opened SettleSteps
  import opened SettleProofs
  import opened Disciplines

  // The tags the broker still waits for, up to and including `tag`.
  function UnsettledUpTo(broker: Broker, tag: nat): set<nat> {
    set t | t in broker.unsettled && t <= tag
  }

  lemma FlightThrough(st: Stages, th: Through)
    requires Serial(st) && st.throughs == [th]
    ensures st.settlements == [] && FlightTags(st) == TokenTags(th.affected)
  {
    assert [th][..0] == [] && [th][0] == th;
    assert ThroughTags([th]) == ThroughTags([]) + TokenTags(th.affected);
  }

  lemma FlightWork(st: Stages, w: Work)
    requires Serial(st) && st.settlements == [w]
    ensures st.throughs == [] && FlightTags(st) == {w.token.tag}
  {
    assert [w][..0] == [] && [w][0] == w;
    assert WorkTags([w]) == WorkTags([]) + {w.token.tag};
  }

  // The ledger entries up to the target are listed, and everything unseen is above it.
  lemma CoveredExactly(
      cfg: Config, handed: seq<TransportDelivery>, handedTop: nat, keys: set<nat>, st: Stages, broker: Broker,
      th: Through)
    requires Serial(st) && st.throughs == [th] && Covers(cfg, handed, keys, th) && th.token.tag in keys
    requires Faithful(st, keys, broker) && broker.alive && !broker.applied
    requires forall d :: d in handed ==> d.tag <= handedTop
    requires forall d :: d in broker.transit ==> d.tag > handedTop
    ensures UnsettledUpTo(broker, th.token.tag) == TokenTags(th.affected) * keys
    ensures th.token.tag in broker.unsettled
    ensures forall t :: t in TagSet(broker.transit) ==> t > th.token.tag
    ensures forall t :: t in TokenTags(th.affected) ==> t <= th.token.tag
  {
    assert th.token in th.affected;
    TokenTagsHas(th.affected, th.token);
    forall t | t in TagSet(broker.transit) ensures t > th.token.tag {
      var d := TagSetFind(broker.transit, t);
    }
    forall t | t in TokenTags(th.affected) ensures t <= th.token.tag {
      var a := TokenTagsFind(th.affected, t);
    }
  }

  lemma TargetBacked(st: Stages, keys: set<nat>, cells: map<Token, Cell>, th: Through)
    requires Orderly(st, keys, cells) && Serial(st) && th in st.throughs
    ensures st.throughs == [th] && th.token.tag in keys
    ensures forall w :: w in st.queue ==> w.token.tag !in TokenTags(th.affected)
  {
    assert Cumulative(st, th);
  }

  // What a cumulative settlement in flight rests on.
  lemma FlightBacked(l: Lane, th: Through)
    requires Recorded(l) && Tracked(l) && Disciplined(l)
    requires !l.ch.cfg.earlyAck && Peaceful(l.env.past) && th in l.ch.stages.throughs
    ensures l.ch.stages.throughs == [th]
    ensures Covers(l.ch.cfg, l.env.past.handed, l.ch.ledger.pending.Keys, th)
    ensures th.token.tag in l.ch.ledger.pending.Keys
    ensures Faithful(l.ch.stages, l.ch.ledger.pending.Keys, l.env.broker)
    ensures forall w :: w in l.ch.stages.queue ==> w.token.tag !in TokenTags(th.affected)
  {
    LookAtRules(l);
    TargetBacked(l.ch.stages, l.ch.ledger.pending.Keys, l.ch.cells, th);
  }

  /** A cumulative acknowledgement about to be sent settles exactly the deliveries listed for it that
      are not settled yet: the broker's unsettled tags up to its target are theirs, and no queued
      settlement, buffered, parked or unseen delivery is covered. When it comes from the flush, all it
      lists is unsettled and was acknowledged by the embedder, and no recorded acknowledgement is covered. */
  lemma CumulativeAckIsFaithful(l: Lane, waiting: seq<TransportDelivery>, th: Through)
    requires Inv(l, waiting) && !l.ch.cfg.earlyAck && Peaceful(l.env.past)
    requires l.env.broker.alive && !l.env.broker.applied && th in l.ch.stages.throughs
    ensures th.token.tag in l.env.broker.unsettled
    ensures UnsettledUpTo(l.env.broker, th.token.tag) == TokenTags(th.affected) * l.ch.ledger.pending.Keys
    ensures forall d :: d in waiting || d in l.env.broker.transit ==> d.tag > th.token.tag
    ensures forall w :: w in l.ch.stages.queue ==> w.token.tag !in UnsettledUpTo(l.env.broker, th.token.tag)
    ensures !l.env.past.explicit ==>
              && UnsettledUpTo(l.env.broker, th.token.tag) == TokenTags(th.affected)
              && (forall a :: a in th.affected ==> Asked(l.env.past.requested, a.tag, Ack))
              && (forall t :: t in l.ch.stages.batch ==> t !in UnsettledUpTo(l.env.broker, th.token.tag))
  {
    FlightBacked(l, th);
    assert th.token in th.affected;
    CoveredExactly(l.ch.cfg, l.env.past.handed, l.env.past.handedTop, l.ch.ledger.pending.Keys, l.ch.stages,
                   l.env.broker, th);
    FlightThrough(l.ch.stages, th);
  }

  // The target of whatever is in flight has been handed to the embedder.
  lemma FlightHanded(l: Lane, waiting: seq<TransportDelivery>)
    requires Core(l, waiting) && Tracked(l)
    requires l.ch.stages.settlements != [] || l.ch.stages.throughs != []
    ensures FlightOp(l.ch.stages).tag <= l.env.past.handedTop
    ensures FlightOp(l.ch.stages).tag in TagSet(l.env.past.arrived)
  {
    if l.ch.stages.settlements != [] {
      assert l.ch.stages.settlements[0] in l.ch.stages.settlements;
    } else {
      var th := l.ch.stages.throughs[0];
      assert th in l.ch.stages.throughs && th.token in th.affected;
    }
  }

  // An operation on a handed-off tag leaves undelivered messages alone, whether accepted or not.
  lemma UntouchedApply(
      cfg: Config, buffer: seq<TransportDelivery>, waiting: seq<TransportDelivery>,
      arrived: seq<TransportDelivery>, broker: Broker, op: WireOp, after: Broker)
    requires Untouched(cfg, buffer, waiting, arrived, broker)
    requires op.tag in TagSet(arrived)
    requires forall d :: d in waiting || d in broker.transit ==> d.tag > op.tag
    requires after == BrokerApply(broker, op).(applied := after.applied)
    ensures Untouched(cfg, buffer, waiting, arrived, after)
  {
    WireTagsAppend(broker.wire, op);
    assert WireTags(after.wire) == WireTags(broker.wire) + {op.tag};
    assert after.alive ==> forall t :: t > op.tag && t in broker.unsettled ==> t in after.unsettled;
  }

  lemma ApplyCore(l: Lane, waiting: seq<TransportDelivery>)
    requires Core(l, waiting) && Tracked(l)
    requires l.ch.stages.settlements != [] || l.ch.stages.throughs != []
    ensures Core(Apply(l), waiting)
  {
    FlightHanded(l, waiting);
    UntouchedApply(l.ch.cfg, l.ch.intake.buffer, waiting, l.env.past.arrived, l.env.broker,
                   FlightOp(l.ch.stages), Apply(l).env.broker);
  }

  lemma ApplyFaithful(
      cfg: Config, handed: seq<TransportDelivery>, handedTop: nat, keys: set<nat>, st: Stages, broker: Broker)
    requires Serial(st) && st.inFlight && FlightOp(st).tag in keys
    requires forall th :: th in st.throughs ==> Covers(cfg, handed, keys, th)
    requires Faithful(st, keys, broker) && broker.alive && !broker.applied
    requires forall d :: d in handed ==> d.tag <= handedTop
    requires forall w :: w in st.settlements ==> w.token.tag <= handedTop
    requires forall d :: d in broker.transit ==> d.tag > handedTop
    ensures Faithful(st, keys, BrokerApply(broker, FlightOp(st)).(applied := true))
  {
    if st.settlements != [] {
      assert st.settlements == [st.settlements[0]];
      FlightWork(st, st.settlements[0]);
    } else {
      var th := st.throughs[0];
      assert st.throughs == [th];
      FlightThrough(st, th);
      CoveredExactly(cfg, handed, handedTop, keys, st, broker, th);
      var after := BrokerApply(broker, FlightOp(st)).unsettled;
      assert after == broker.unsettled - UnsettledUpTo(broker, th.token.tag);
    }
  }

  lemma FlightOpBacked(st: Stages, keys: set<nat>, cells: map<Token, Cell>)
    requires Serial(st) && st.inFlight && Backed(st, keys, cells)
    ensures FlightOp(st).tag in keys
  {
    if st.settlements != [] {
      assert Individual(st, st.settlements[0]);
    } else {
      assert Cumulative(st, st.throughs[0]);
    }
  }

  lemma ApplyDisciplined(l: Lane, waiting: seq<TransportDelivery>)
    requires Core(l, waiting) && Tracked(l) && Disciplined(l)
    requires l.ch.stages.inFlight && l.env.broker.alive && !l.env.broker.applied
    requires !l.ch.cfg.earlyAck && Peaceful(l.env.past)
    ensures Faithful(l.ch.stages, l.ch.ledger.pending.Keys, Apply(l).env.broker)
  {
    LookAtRules(l);
    FlightOpBacked(l.ch.stages, l.ch.ledger.pending.Keys, l.ch.cells);
    ApplyFaithful(l.ch.cfg, l.env.past.handed, l.env.past.handedTop, l.ch.ledger.pending.Keys, l.ch.stages,
                  l.env.broker);
  }

  // The operation in flight reaches the broker, which accepts it when settlements do not collide.
  lemma ApplyInv(l: Lane, waiting: seq<TransportDelivery>)
    requires Inv(l, waiting) && l.ch.stages.inFlight && l.env.broker.alive && !l.env.broker.applied
    ensures Inv(Apply(l), waiting)
  {
    ApplyCore(l, waiting);
    if Peaceful(l.env.past) && !l.ch.cfg.earlyAck {
      ApplyDisciplined(l, waiting);
    }
    BrokerOnly(l, Apply(l));
  }

  // ---------------------------------------------------------------- the broker's own steps

  lemma BrokerOnly(l: Lane, m: Lane)
    requires Recorded(l) && Settled(l)
    requires m.ch == l.ch && m.env.past == l.env.past && (m.env.broker.applied ==> l.ch.stages.inFlight)
    requires Peaceful(l.env.past) && !l.ch.cfg.earlyAck ==>
               Faithful(l.ch.stages, l.ch.ledger.pending.Keys, m.env.broker)
    ensures Settled(m)
  {
    LookAtRules(l);
    RulesFrame(l, m);
    RulesMakeDiscipline(m);
  }

  lemma SendOrdered(
      past: History, waiting: seq<TransportDelivery>, transit: seq<TransportDelivery>, d: TransportDelivery)
    requires Ordered(past, waiting, transit) && d.tag > past.arrivedTop
    requires forall e :: e in transit ==> e.tag < d.tag
    ensures Ordered(past, waiting, transit + [d])
  {
    AscendingAppend(transit, d);
  }

  lemma SendUntouched(
      cfg: Config, buffer: seq<TransportDelivery>, waiting: seq<TransportDelivery>,
      arrived: seq<TransportDelivery>, broker: Broker, d: TransportDelivery, after: Broker)
    requires Untouched(cfg, buffer, waiting, arrived, broker)
    requires after == broker.(transit := broker.transit + [d], unsettled := after.unsettled)
    requires after.unsettled == if cfg.noAck then broker.unsettled else broker.unsettled + {d.tag}
    ensures Untouched(cfg, buffer, waiting, arrived, after)
  {
  }

  lemma SendCore(l: Lane, waiting: seq<TransportDelivery>, d: TransportDelivery)
    requires Core(l, waiting) && l.env.broker.alive && NextTag(l, d)
    ensures Core(Send(l, d), waiting)
  {
    SendOrdered(l.env.past, waiting, l.env.broker.transit, d);
    SendUntouched(l.ch.cfg, l.ch.intake.buffer, waiting, l.env.past.arrived, l.env.broker, d, Send(l, d).env.broker);
  }

  lemma SendFaithful(st: Stages, keys: set<nat>, broker: Broker, d: TransportDelivery)
    requires Faithful(st, keys, broker) && d.tag !in FlightTags(st)
    ensures Faithful(st, keys, broker.(transit := broker.transit + [d], unsettled := broker.unsettled + {d.tag}))
  {
    TagSetAppend(broker.transit, d);
  }

  lemma SendInv(l: Lane, waiting: seq<TransportDelivery>, d: TransportDelivery)
    requires Inv(l, waiting) && l.env.broker.alive && NextTag(l, d)
    ensures Inv(Send(l, d), waiting)
  {
    SendCore(l, waiting, d);
    if Peaceful(l.env.past) && !l.ch.cfg.earlyAck {
      LookAtRules(l);
      ArrivalUnstaged(l, waiting, d.tag);
      SendFaithful(l.ch.stages, l.ch.ledger.pending.Keys, l.env.broker, d);
    }
    BrokerOnly(l, Send(l, d));
  }

  // A dead channel tells nothing and is told nothing.
  lemma DieCore(l: Lane, waiting: seq<TransportDelivery>)
    requires Core(l, waiting)
    ensures Core(Die(l), waiting)
  {
  }

  lemma DieSettled(l: Lane)
    requires Recorded(l) && Settled(l)
    ensures Settled(Die(l))
  {
    LookAtRules(l);
    BrokerOnly(l, Die(l));
  }

  lemma DieInv(l: Lane, waiting: seq<TransportDelivery>)
    requires Inv(l, waiting)
    ensures Inv(Die(l), waiting)
  {
    DieCore(l, waiting);
    DieSettled(l);
  }
}
