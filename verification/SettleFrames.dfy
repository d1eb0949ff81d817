/**
 Deliveries coming and going leave the settlement side of a lane intact: dispatch passes
 and arrivals keep `Settled`.
 */
module SettleFrames {
  import opened Deliveries
  import opened Lanes
  import opened StageTags
  import opened Dispatching
  import opened Receiving
  import opened Settling
  import opened Disciplines

  lemma DispatchedTracked(l: Lane, m: Lane)
    requires Recorded(l)
    requires Recorded(m)
    requires Dispatched(l, m) && Tracked(l) 
    ensures Tracked(m)
  {
    if !l.ch.cfg.earlyAck {
      OwnedMore(l.ch.cfg, l.ch.stages, l.env.past.handed, l.ch.ledger.pending.Keys,
                m.env.past.handed, m.ch.ledger.pending.Keys);
    } else {
      assert l.ch.stages.throughs == [] && l.ch.stages.throughQueue == [];
    }
  }

  lemma PartitionedFewer(
      cfg: Config, st: Stages, handed: seq<TransportDelivery>, keys: set<nat>, fewer: set<nat>)
    requires Partitioned(st, keys) && Owned(cfg, st, handed, keys)
    requires forall d :: d in handed && d.tag in keys ==> d.tag in fewer
    ensures Partitioned(st, fewer)
  {
    forall t | Staged(st, t) && t in keys ensures t in fewer {
      var d := StagedHanded(cfg, st, handed, keys, t);
    }
    assert forall t :: t in st.batch.Keys || t in WorkTags(st.queue) || t in FlightTags(st) ==> Staged(st, t);
  }

  lemma DispatchedExact(l: Lane, m: Lane, waiting: seq<TransportDelivery>, rest: seq<TransportDelivery>)
    requires Core(l, waiting) && Core(m, rest) && Dispatched(l, m)
    requires Tracked(l) && Exact(l) && !l.ch.cfg.earlyAck
    ensures Exact(m)
  {
    var a, b, st := l.env.past, m.env.past, l.ch.stages;
    var keys, fewer := l.ch.ledger.pending.Keys, m.ch.ledger.pending.Keys;
    PartitionedFewer(l.ch.cfg, st, a.handed, keys, fewer);
    assert MailOnce(st, fewer, m.ch.cells, b.requested) by {
      forall c | c in st.mail && c.Settle?
        ensures c.token.tag in fewer && c.token in m.ch.cells && m.ch.cells[c.token] == l.ch.cells[c.token]
      {
        assert c.token == OwnToken(l.ch.cfg, DeliveryOf(c.token));
      }
    }
    DispatchedFlagged(l, m, waiting, rest);
  }

  lemma DispatchedFlagged(l: Lane, m: Lane, waiting: seq<TransportDelivery>, rest: seq<TransportDelivery>)
    requires Core(l, waiting) && Core(m, rest) && Dispatched(l, m) && !l.ch.cfg.earlyAck
    requires Owned(l.ch.cfg, l.ch.stages, l.env.past.handed, l.ch.ledger.pending.Keys)
    requires Flagged(l.ch.cfg, l.ch.stages, l.ch.ledger.pending.Keys, l.ch.cells, l.env.past.handed,
                     l.env.past.requested)
    ensures Flagged(m.ch.cfg, m.ch.stages, m.ch.ledger.pending.Keys, m.ch.cells, m.env.past.handed,
                    m.env.past.requested)
  {
    forall d | d in m.env.past.handed && d !in l.env.past.handed
      ensures d.tag in m.ch.ledger.pending.Keys && !Staged(l.ch.stages, d.tag)
    {
      FreshUnstaged(l.ch.cfg, l.ch.stages, l.env.past.handed, l.ch.ledger.pending.Keys,
                    m.env.past.handed, d);
    }
  }

  // A dispatch pass leaves the settlement side of a lane intact.
  lemma DispatchedSettled(l: Lane, m: Lane, waiting: seq<TransportDelivery>, rest: seq<TransportDelivery>)
    requires Core(l, waiting) && Core(m, rest) && Dispatched(l, m) && Settled(l)
    ensures Settled(m)
  {
    DispatchedTracked(l, m);
    DispatchedDisciplined(l, m, waiting);
    if !l.env.past.explicit && !l.ch.cfg.earlyAck {
      DispatchedExact(l, m, waiting, rest);
    }
  }

  // ---------------------------------------------------------------- arrivals

  lemma CoversFrame(
      cfg: Config, handed: seq<TransportDelivery>, handedTop: nat, keys: set<nat>, th: Through, t: nat)
    requires Covers(cfg, handed, keys, th) && t > handedTop
    requires forall d :: d in handed ==> d.tag <= handedTop
    ensures Covers(cfg, handed, keys + {t}, th)
  {
    assert th.token in th.affected;
  }

  lemma ReceiveTracked(l: Lane, waiting: seq<TransportDelivery>)
    requires Core(l, waiting) && l.env.broker.transit != [] && Tracked(l)
    requires Core(Receive(l), waiting + [l.env.broker.transit[0]])
    ensures Tracked(Receive(l))
  {
    var d, past, st, keys := l.env.broker.transit[0], l.env.past, l.ch.stages, l.ch.ledger.pending.Keys;
    assert d in l.env.broker.transit;
    assert Receive(l).ch.ledger.pending.Keys == keys + {d.tag};
    assert Owned(l.ch.cfg, st, past.handed, keys + {d.tag}) by {
      forall th | th in st.throughQueue || th in st.throughs ensures Covers(l.ch.cfg, past.handed, keys + {d.tag}, th) {
        CoversFrame(l.ch.cfg, past.handed, past.handedTop, keys, th, d.tag);
      }
    }
  }

  lemma ReceiveExact(l: Lane, waiting: seq<TransportDelivery>)
    requires Core(l, waiting) && l.env.broker.transit != [] && !l.ch.cfg.earlyAck && Exact(l)
    requires Core(Receive(l), waiting + [l.env.broker.transit[0]])
    ensures Exact(Receive(l))
  {
    var d, keys, m := l.env.broker.transit[0], l.ch.ledger.pending.Keys, Receive(l);
    assert d in l.env.broker.transit;
    assert m.ch.ledger.pending.Keys == keys + {d.tag};
    assert Flagged(l.ch.cfg, l.ch.stages, keys + {d.tag}, l.ch.cells, l.env.past.handed, l.env.past.requested);
  }

  lemma ReceiveSettled(l: Lane, waiting: seq<TransportDelivery>)
    requires Core(l, waiting) && l.env.broker.transit != [] && Settled(l)
    requires Core(Receive(l), waiting + [l.env.broker.transit[0]])
    ensures Settled(Receive(l))
  {
    ReceiveTracked(l, waiting);
    ReceiveDisciplined(l, waiting);
    if !l.env.past.explicit && !l.ch.cfg.earlyAck {
      ReceiveExact(l, waiting);
    }
  }

  lemma OversizedExact(l: Lane, waiting: seq<TransportDelivery>)
    requires Core(l, waiting) && l.env.broker.transit != [] && !l.ch.cfg.earlyAck && Exact(l)
    requires Oversized(l.ch.cfg, l.env.broker.transit[0])
    requires Recorded(ReceiveOversized(l))
    ensures Exact(ReceiveOversized(l))
  {
    OversizedLedger(l, waiting);
  }

  lemma OversizedTracked(l: Lane, waiting: seq<TransportDelivery>)
    requires Core(l, waiting) && l.env.broker.transit != [] && Tracked(l)
    requires Oversized(l.ch.cfg, l.env.broker.transit[0])
    requires Recorded(ReceiveOversized(l))
    ensures Tracked(ReceiveOversized(l))
  {
    var d := l.env.broker.transit[0];
    WiredOversized(l, waiting);
    OversizedBooked(l, waiting);
    OwnedMore(l.ch.cfg, l.ch.stages, l.env.past.handed, l.ch.ledger.pending.Keys,
              l.env.past.handed, l.ch.ledger.pending.Keys - {d.tag});
    assert (l.ch.ledger.pending - {d.tag}).Keys == l.ch.ledger.pending.Keys - {d.tag};
  }

  lemma OversizedSettled(l: Lane, waiting: seq<TransportDelivery>)
    requires Core(l, waiting) && l.env.broker.transit != [] && Settled(l)
    requires Oversized(l.ch.cfg, l.env.broker.transit[0])
    requires Core(ReceiveOversized(l), waiting)
    ensures Settled(ReceiveOversized(l))
  {
    OversizedTracked(l, waiting);
    OversizedDisciplined(l, waiting);
    if !l.env.past.explicit && !l.ch.cfg.earlyAck {
      OversizedExact(l, waiting);
    }
  }
}
