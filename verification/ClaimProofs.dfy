/**
 The actor claims a settlement: unless the settlement strays or overlaps, it collides with nothing staged.
 */
module ClaimProofs {
  import opened Deliveries
  import opened Lanes
  import opened StageTags
  import opened Settling
  import opened Disciplines
  import opened SettleSteps

  // Whatever is staged under the token's tag is this token.
  ghost predicate Sole(st: Stages, token: Token) {
    && (forall w :: Individual(st, w) && w.token.tag == token.tag ==> w.token == token)
    && (forall th, a :: Cumulative(st, th) && a in th.affected && a.tag == token.tag ==> a == token)
    && (token.tag in st.batch ==> st.batch[token.tag] == token)
  }

  lemma OwnIsSole(cfg: Config, st: Stages, handed: seq<TransportDelivery>, keys: set<nat>, token: Token)
    requires Owned(cfg, st, handed, keys) && Ascending(handed) && Own(cfg, handed, token)
    ensures Sole(st, token)
  {
    forall a | Own(cfg, handed, a) && a != token ensures a.tag != token.tag {
      OwnTagsDiffer(cfg, handed, a, token);
    }
  }

  // An own token is determined by its tag.
  lemma OwnTagsDiffer(cfg: Config, handed: seq<TransportDelivery>, a: Token, b: Token)
    requires Ascending(handed) && Own(cfg, handed, a) && Own(cfg, handed, b) && a != b
    ensures a.tag != b.tag
  {
    if a.tag == b.tag {
      AscendingUnique(handed, DeliveryOf(a), DeliveryOf(b));
    }
  }

  // A token nobody holds is neither staged by itself nor a target, and if recorded then settled.
  lemma Unclaimed(st: Stages, keys: set<nat>, cells: map<Token, Cell>, token: Token)
    requires Orderly(st, keys, cells) && Sole(st, token) && !IsHeld(cells, token)
    requires forall th :: Cumulative(st, th) ==> th.token in th.affected
    ensures forall w :: Individual(st, w) ==> w.token.tag != token.tag
    ensures forall th :: Cumulative(st, th) ==> th.token.tag != token.tag
    ensures token.tag in st.batch ==> token.tag !in keys
  {
  }

  function Flagging(cells: map<Token, Cell>, token: Token): map<Token, Cell>
    requires token in cells
  {
    cells[token := cells[token].(settling := true)]
  }

  lemma RecordOrderly(st: Stages, next: Stages, keys: set<nat>, cells: map<Token, Cell>, token: Token)
    requires Orderly(st, keys, cells) && Sole(st, token) && token in cells && !IsHeld(cells, token)
    requires forall th :: Cumulative(st, th) ==> th.token in th.affected
    requires next == st.(mail := next.mail, batch := st.batch[token.tag := token])
    ensures Orderly(next, keys, Flagging(cells, token))
  {
    Unclaimed(st, keys, cells, token);
    assert forall w :: Individual(next, w) ==> Individual(st, w);
    assert forall th :: Cumulative(next, th) ==> Cumulative(st, th);
  }

  lemma RecordApart(st: Stages, next: Stages, keys: set<nat>, cells: map<Token, Cell>, token: Token)
    requires Apart(st, keys, cells) && token in cells
    requires next == st.(mail := next.mail, batch := st.batch[token.tag := token])
    ensures Apart(next, keys, Flagging(cells, token))
  {
    assert forall w :: Individual(next, w) ==> Individual(st, w);
    assert forall th :: Cumulative(next, th) ==> Cumulative(st, th);
  }

  // One more individual settlement, queued or launched.
  ghost predicate Joins(st: Stages, next: Stages, w: Work) {
    && next == st.(mail := next.mail, queue := next.queue, settlements := next.settlements, inFlight := true)
    && if st.inFlight then next.queue == st.queue + [w] && next.settlements == st.settlements
       else next.queue == st.queue == [] && st.settlements == [] && next.settlements == [w]
            && st.throughs == [] && st.throughQueue == []
  }

  lemma JoinedIndividuals(st: Stages, next: Stages, w: Work)
    requires Joins(st, next, w)
    ensures forall v :: Individual(next, v) <==> Individual(st, v) || v == w
    ensures forall th :: Cumulative(next, th) <==> Cumulative(st, th)
  {
  }

  // A tag that the cumulative settlement in flight does not list can wait in the queue.
  lemma JoinWaits(st: Stages, next: Stages, w: Work)
    requires Joins(st, next, w) && w.token.tag !in ThroughTags(st.throughs)
    requires forall v :: Individual(st, v) ==> v.token.tag != w.token.tag
    requires Waits(st)
    ensures Waits(next)
  {
    forall th | th in st.throughs ensures w.token.tag !in TokenTags(th.affected) {
      if w.token.tag in TokenTags(th.affected) {
        var a := TokenTagsFind(th.affected, w.token.tag);
        ThroughTagsHas(st.throughs, th, a);
      }
    }
    forall v | v in st.queue || v in st.settlements ensures v.token.tag != w.token.tag {
      assert Individual(st, v);
    }
    forall i | 0 <= i < |st.queue| ensures st.queue[i].token.tag != w.token.tag {
      assert st.queue[i] in st.queue;
    }
  }

  lemma JoinSingle(st: Stages, next: Stages, keys: set<nat>, w: Work)
    requires Joins(st, next, w) && Single(st, keys)
    requires forall th :: Cumulative(st, th) ==> th.token.tag != w.token.tag
    requires w.token.tag in st.batch ==> w.token.tag !in keys
    ensures Single(next, keys)
  {
    JoinedIndividuals(st, next, w);
  }

  lemma JoinBacked(st: Stages, next: Stages, keys: set<nat>, cells: map<Token, Cell>, w: Work)
    requires Backed(st, keys, cells) && w.token in cells && Joins(st, next, w) && w.token.tag in keys
    ensures Backed(next, keys, Flagging(cells, w.token))
  {
    JoinedIndividuals(st, next, w);
  }

  lemma JoinOrderly(st: Stages, next: Stages, keys: set<nat>, cells: map<Token, Cell>, w: Work)
    requires Orderly(st, keys, cells) && Sole(st, w.token) && w.token in cells && !IsHeld(cells, w.token)
    requires forall th :: Cumulative(st, th) ==> th.token in th.affected
    requires Joins(st, next, w) && w.token.tag in keys && w.token.tag !in ThroughTags(st.throughs)
    ensures Orderly(next, keys, Flagging(cells, w.token))
  {
    Unclaimed(st, keys, cells, w.token);
    JoinWaits(st, next, w);
    JoinSingle(st, next, keys, w);
    JoinBacked(st, next, keys, cells, w);
  }

  lemma JoinApart(st: Stages, next: Stages, keys: set<nat>, cells: map<Token, Cell>, w: Work)
    requires Apart(st, keys, cells) && w.token in cells
    requires Joins(st, next, w) && !Listed(st, w.token.tag)
    ensures Apart(next, keys, Flagging(cells, w.token))
  {
    JoinedIndividuals(st, next, w);
    forall th | Cumulative(st, th) ensures w.token.tag !in TokenTags(th.affected) {
      if w.token.tag in TokenTags(th.affected) {
        var a := TokenTagsFind(th.affected, w.token.tag);
        CumulativeStaged(st, th, a);
      }
    }
  }

  lemma JoinClimbs(low: nat, st: Stages, next: Stages, w: Work)
    requires Climbs(low, st) && Joins(st, next, w)
    ensures Climbs(low, next)
  {
    JoinedIndividuals(st, next, w);
  }

  // `m` is `l` after a free token has been claimed for `w` and staged.
  ghost predicate TakenOn(l: Lane, m: Lane, w: Work) {
    && w.token in l.ch.cells && !IsHeld(l.ch.cells, w.token)
    && m.ch == l.ch.(stages := m.ch.stages, cells := Flagging(l.ch.cells, w.token))
    && m.ch.stages.mail == l.ch.stages.mail
    && m.env == Env(l.env.broker.(applied := m.env.broker.applied), Note(l, w).env.past)
    && (m.env.broker.applied == (l.env.broker.applied && l.ch.stages.inFlight))
    && if w.settlement == Ack then
         m.ch.stages == l.ch.stages.(mail := m.ch.stages.mail, batch := l.ch.stages.batch[w.token.tag := w.token])
       else Joins(l.ch.stages, m.ch.stages, w)
  }

  lemma TakenOnCalled(st: Stages, next: Stages, asks: set<Ask>, through: nat, w: Work)
    requires Called(st, asks, through) && Ask(w.token.tag, w.settlement) in asks && next.mail == st.mail
    requires if w.settlement == Ack then next == st.(mail := next.mail, batch := st.batch[w.token.tag := w.token])
             else Joins(st, next, w)
    ensures Called(next, asks, through)
  {
    if w.settlement == Ack {
      assert forall v :: Individual(next, v) ==> Individual(st, v);
      assert forall th :: Cumulative(next, th) ==> Cumulative(st, th);
    } else {
      JoinedIndividuals(st, next, w);
    }
  }

  lemma TakenOnClimbs(low: nat, l: Lane, m: Lane, w: Work)
    requires Climbs(low, l.ch.stages) && TakenOn(l, m, w)
    ensures Climbs(low, m.ch.stages)
  {
    if w.settlement == Ack {
      ClimbsFrame(low, l.ch.stages, m.ch.stages);
    } else {
      JoinClimbs(low, l.ch.stages, m.ch.stages, w);
    }
  }

  lemma TakenOnRules(l: Lane, m: Lane, w: Work)
    requires Rules(l) && TakenOn(l, m, w) && Serial(l.ch.stages)
    requires Owned(l.ch.cfg, l.ch.stages, l.env.past.handed, l.ch.ledger.pending.Keys)
    requires Ascending(l.env.past.handed) && Own(l.ch.cfg, l.env.past.handed, w.token)
    requires Strays(l.ch, w) || Overlaps(l.ch, w) ==> l.env.past.explicit
    requires Ask(w.token.tag, w.settlement) in l.env.past.asks
    requires l.env.broker.applied ==> l.ch.stages.inFlight
    ensures Rules(m)
  {
    var st, next, keys, cells := l.ch.stages, m.ch.stages, l.ch.ledger.pending.Keys, l.ch.cells;
    TakenOnCalled(st, next, l.env.past.asks, l.env.past.through, w);
    if !m.env.past.crossed {
      TakenOnClimbs(l.ch.ledger.ackedPrefix, l, m, w);
    }
    if Peaceful(m.env.past) && !l.ch.cfg.earlyAck {
      TakenOnOrderly(l, m, w);
    }
    if Clean(m.env.past) && !l.ch.cfg.earlyAck {
      TakenOnApart(l, m, w);
    }
  }

  lemma TakenOnApart(l: Lane, m: Lane, w: Work)
    requires Apart(l.ch.stages, l.ch.ledger.pending.Keys, l.ch.cells) && TakenOn(l, m, w) && !Overlaps(l.ch, w)
    ensures Apart(m.ch.stages, l.ch.ledger.pending.Keys, m.ch.cells)
  {
    if w.settlement == Ack {
      RecordApart(l.ch.stages, m.ch.stages, l.ch.ledger.pending.Keys, l.ch.cells, w.token);
    } else {
      JoinApart(l.ch.stages, m.ch.stages, l.ch.ledger.pending.Keys, l.ch.cells, w);
    }
  }

  lemma TakenOnOrderly(l: Lane, m: Lane, w: Work)
    requires TakenOn(l, m, w) && Serial(l.ch.stages)
    requires Owned(l.ch.cfg, l.ch.stages, l.env.past.handed, l.ch.ledger.pending.Keys)
    requires Ascending(l.env.past.handed) && Own(l.ch.cfg, l.env.past.handed, w.token)
    requires Orderly(l.ch.stages, l.ch.ledger.pending.Keys, l.ch.cells) && !Strays(l.ch, w)
    requires Faithful(l.ch.stages, l.ch.ledger.pending.Keys, l.env.broker)
    requires l.env.broker.applied ==> l.ch.stages.inFlight
    ensures Orderly(m.ch.stages, l.ch.ledger.pending.Keys, m.ch.cells)
    ensures Faithful(m.ch.stages, l.ch.ledger.pending.Keys, m.env.broker)
  {
    var st, next, keys, cells := l.ch.stages, m.ch.stages, l.ch.ledger.pending.Keys, l.ch.cells;
    OwnIsSole(l.ch.cfg, st, l.env.past.handed, keys, w.token);
    if w.settlement == Ack {
      RecordOrderly(st, next, keys, cells, w.token);
    } else {
      JoinOrderly(st, next, keys, cells, w);
    }
  }
}
