/**
 A completed settlement leaves the stages: what is still staged collides with nothing, as before.
 */
module LandingProofs {
  import opened Deliveries
  import opened Lanes
  import opened StageTags
  import opened Dispatching
  import opened Settling
  import opened SettleSteps
  import opened WireProofs
  import opened Completing

  // A landing accounts for exactly the flight: its tokens, its ledger entries and what the broker knows.
  ghost predicate Balanced(l: Lane, landing: Landing) {
    var flight, keys, broker := FlightTags(l.ch.stages), l.ch.ledger.pending.Keys, l.env.broker;
    && !l.ch.cfg.earlyAck && Idle(Landed(l.ch.stages))
    && TokenTags(landing.tokens) == flight
    && (forall a :: a in landing.tokens ==> Own(l.ch.cfg, l.env.past.handed, a))
    && landing.prefix <= l.env.past.arrivedTop
    && (forall t :: t in keys && t !in landing.removed ==> t > landing.prefix)
    && (if landing.terminal then landing.final != Pending && keys - landing.removed == keys - flight
        else landing.final == Pending && landing.removed == {} && !landing.poison && !broker.applied)
    && (landing.poison ==> !broker.applied && landing.terminal && |landing.tokens| == 1)
    && (landing.terminal && !landing.poison ==> broker.applied || !broker.alive)
  }

  // `n` is `l` after its flight has landed and the next settlement has been launched.
  ghost predicate Completed(l: Lane, n: Lane, landing: Landing) {
    && n.ch.cfg == l.ch.cfg
    && n.ch.stages == Drained(Landed(l.ch.stages))
    && n.ch.cells == Mark(l.ch.cells, landing.tokens, landing.final)
    && n.ch.ledger.pending.Keys == l.ch.ledger.pending.Keys - landing.removed
    && n.ch.ledger.ackedPrefix == landing.prefix
    && n.env.broker == Told(l.ch.cfg, l.env.broker, landing).(applied := false)
    && n.env.past == l.env.past.(gone := n.env.past.gone, leaving := n.env.past.leaving)
  }

  lemma LandedMembers(st: Stages)
    requires Serial(st) && Idle(Landed(st))
    ensures var next := Drained(Landed(st));
            && next.batch == st.batch
            && (forall w :: Individual(next, w) ==> w in st.queue)
            && (forall th :: Cumulative(next, th) ==> th in st.throughQueue)
  {
  }

  // The flight leaves the targets behind it, and the watermark below them.
  ghost predicate Flown(st: Stages, low: nat, landing: Landing) {
    || (st.throughs == [] && landing.prefix == low
        && exists w :: st.settlements == [w] && landing.tokens == [w.token])
    || (st.settlements == [] && landing.terminal && !landing.poison
        && exists th :: st.throughs == [th] && landing.tokens == th.affected
                        && (landing.prefix == low || landing.prefix == th.token.tag))
  }

  lemma LandsFlown(l: Lane, landing: Landing)
    requires Serial(l.ch.stages) && Lands(l, landing)
    ensures Flown(l.ch.stages, l.ch.ledger.ackedPrefix, landing)
  {
    var st := l.ch.stages;
    if st.settlements != [] {
      assert st.settlements == [st.settlements[0]] && st.throughs == [];
    } else {
      assert st.throughs == [st.throughs[0]];
    }
  }

  lemma LandedClimbs(low: nat, st: Stages, landing: Landing)
    requires Serial(st) && Idle(Landed(st)) && Climbs(low, st) && Flown(st, low, landing)
    ensures Climbs(landing.prefix, Drained(Landed(st)))
  {
    var next := Drained(Landed(st));
    LandedMembers(st);
    forall q | Cumulative(next, q) ensures landing.prefix < q.token.tag {
      assert Cumulative(st, q);
      if th :| th in st.throughs && landing.prefix == th.token.tag {
      }
    }
  }

  lemma LandedCalled(st: Stages, asks: set<Ask>, through: nat)
    requires Serial(st) && Idle(Landed(st)) && Called(st, asks, through)
    ensures Called(Drained(Landed(st)), asks, through)
  {
    var next := Drained(Landed(st));
    LandedMembers(st);
    assert forall w :: Individual(next, w) ==> Individual(st, w);
    assert forall th :: Cumulative(next, th) ==> Cumulative(st, th);
  }

  // The flight touches nothing that stays staged.
  ghost predicate Clears(st: Stages, keys: set<nat>, landing: Landing) {
    var flight := TokenTags(landing.tokens);
    && (forall w :: w in st.queue ==> w.token.tag !in flight)
    && (forall q :: q in st.throughQueue ==> q.token.tag !in flight)
    && (landing.terminal || forall t :: t in st.batch && t in keys ==> t !in flight)
  }

  lemma WorkClears(st: Stages, keys: set<nat>, w: Work, landing: Landing)
    requires Waits(st) && Single(st, keys)
    requires st.settlements == [w] && landing.tokens == [w.token]
    ensures Clears(st, keys, landing)
  {
    assert TokenTags([w.token]) == TokenTags([]) + {w.token.tag} by {
      assert [w.token][..0] == [];
    }
    assert Individual(st, w);
    forall q | q in st.throughQueue ensures q.token.tag != w.token.tag {
      assert Cumulative(st, q);
    }
  }

  lemma ThroughClears(low: nat, st: Stages, keys: set<nat>, th: Through, landing: Landing)
    requires Waits(st) && Climbs(low, st) && st.throughs == [th]
    requires forall a :: a in th.affected ==> a.tag <= th.token.tag
    requires landing.tokens == th.affected && landing.terminal
    ensures Clears(st, keys, landing)
  {
    assert th in st.throughs;
    forall q | q in st.throughQueue ensures q.token.tag !in TokenTags(th.affected) {
      if q.token.tag in TokenTags(th.affected) {
        var a := TokenTagsFind(th.affected, q.token.tag);
      }
    }
  }

  lemma FlownClears(low: nat, st: Stages, keys: set<nat>, landing: Landing)
    requires Waits(st) && Single(st, keys) && Climbs(low, st) && Flown(st, low, landing)
    requires forall th, a :: th in st.throughs && a in th.affected ==> a.tag <= th.token.tag
    ensures Clears(st, keys, landing)
  {
    if st.throughs == [] {
      var w :| st.settlements == [w] && landing.tokens == [w.token];
      WorkClears(st, keys, w, landing);
    } else {
      var th :| st.throughs == [th] && landing.tokens == th.affected;
      assert th in st.throughs;
      ThroughClears(low, st, keys, th, landing);
    }
  }

  // Claims of tokens outside the flight survive.
  ghost predicate Kept(cells: map<Token, Cell>, marked: map<Token, Cell>, tokens: seq<Token>) {
    forall t :: IsHeld(cells, t) && t.tag !in TokenTags(tokens) ==> IsHeld(marked, t)
  }

  lemma MarkedKept(cells: map<Token, Cell>, tokens: seq<Token>, final: DeliveryState)
    ensures Kept(cells, Mark(cells, tokens, final), tokens)
  {
    MarkAt(cells, tokens, final);
    forall t | IsHeld(cells, t) && t.tag !in TokenTags(tokens) ensures IsHeld(Mark(cells, tokens, final), t) {
      if t in tokens {
        TokenTagsHas(tokens, t);
      }
    }
  }

  lemma LandedWaits(st: Stages)
    requires Serial(st) && Idle(Landed(st)) && Waits(st)
    ensures Waits(Drained(Landed(st)))
  {
  }

  lemma LandedOrderly(
      st: Stages, keys: set<nat>, fewer: set<nat>, cells: map<Token, Cell>, marked: map<Token, Cell>, landing: Landing)
    requires Serial(st) && Idle(Landed(st)) && Orderly(st, keys, cells)
    requires Clears(st, keys, landing) && Kept(cells, marked, landing.tokens)
    requires fewer == if landing.terminal then keys - TokenTags(landing.tokens) else keys
    requires forall t :: t in st.batch ==> st.batch[t].tag == t
    ensures Orderly(Drained(Landed(st)), fewer, marked)
  {
    var next := Drained(Landed(st));
    LandedMembers(st);
    LandedWaits(st);
    assert forall w :: Individual(next, w) ==> Individual(st, w);
    assert forall th :: Cumulative(next, th) ==> Cumulative(st, th);
    assert Backed(next, fewer, marked) && Single(next, fewer);
  }

  // What stays staged lists none of the flight's tokens.
  ghost predicate ClearsAll(st: Stages, landing: Landing) {
    forall q, a :: q in st.throughQueue && a in q.affected ==> a.tag !in TokenTags(landing.tokens)
  }

  lemma FlownClearsAll(low: nat, st: Stages, keys: set<nat>, cells: map<Token, Cell>, landing: Landing)
    requires Apart(st, keys, cells) && Flown(st, low, landing)
    ensures ClearsAll(st, landing)
  {
    forall q, a | q in st.throughQueue && a in q.affected ensures a.tag !in TokenTags(landing.tokens) {
      assert Cumulative(st, q);
      TokenTagsHas(q.affected, a);
      if st.throughs == [] {
        var w :| st.settlements == [w] && landing.tokens == [w.token];
        assert Individual(st, w);
        assert [w.token][..0] == [];
      } else {
        var th :| st.throughs == [th] && landing.tokens == th.affected;
        assert th in st.throughs;
      }
    }
  }

  lemma FlownDistinct(st: Stages, low: nat, keys: set<nat>, cells: map<Token, Cell>, landing: Landing)
    requires Backed(st, keys, cells) && Apart(st, keys, cells) && Flown(st, low, landing)
    ensures Distinct(landing.tokens) && TokenTags(landing.tokens) <= keys
  {
    forall t | t in TokenTags(landing.tokens) ensures t in keys {
      var a := TokenTagsFind(landing.tokens, t);
      if w :| st.settlements == [w] && landing.tokens == [w.token] {
        assert Individual(st, w);
      } else {
        var th :| st.throughs == [th] && landing.tokens == th.affected;
        assert Cumulative(st, th);
      }
    }
    if th :| st.throughs == [th] && landing.tokens == th.affected {
      assert Cumulative(st, th);
    }
  }

  lemma LandedDisjoint(st: Stages)
    requires Serial(st) && Idle(Landed(st))
    requires forall i, j :: 0 <= i < j < |st.throughQueue| ==>
               TokenTags(st.throughQueue[i].affected) !! TokenTags(st.throughQueue[j].affected)
    ensures var next := Drained(Landed(st));
            && (forall th, q :: th in next.throughs && q in next.throughQueue ==>
                  TokenTags(th.affected) !! TokenTags(q.affected))
            && (forall i, j :: 0 <= i < j < |next.throughQueue| ==>
                  TokenTags(next.throughQueue[i].affected) !! TokenTags(next.throughQueue[j].affected))
  {
  }

  lemma LandedApart(
      st: Stages, keys: set<nat>, fewer: set<nat>, cells: map<Token, Cell>, marked: map<Token, Cell>, landing: Landing)
    requires Serial(st) && Idle(Landed(st)) && Apart(st, keys, cells)
    requires ClearsAll(st, landing) && Kept(cells, marked, landing.tokens)
    requires fewer == if landing.terminal then keys - TokenTags(landing.tokens) else keys
    ensures Apart(Drained(Landed(st)), fewer, marked)
  {
    var next := Drained(Landed(st));
    LandedMembers(st);
    LandedDisjoint(st);
    assert forall w :: Individual(next, w) ==> Individual(st, w);
    assert forall th :: Cumulative(next, th) ==> Cumulative(st, th);
  }

  lemma LandsFaithful(l: Lane, landing: Landing, next: Stages)
    requires Balanced(l, landing)
    requires Faithful(l.ch.stages, l.ch.ledger.pending.Keys, l.env.broker)
    requires landing.poison ==> TokenTags(landing.tokens) <= l.ch.ledger.pending.Keys
    requires FlightTags(l.ch.stages) !! TagSet(l.env.broker.transit)
    ensures Faithful(next, l.ch.ledger.pending.Keys - landing.removed,
                     Told(l.ch.cfg, l.env.broker, landing).(applied := false))
  {
    var keys := l.ch.ledger.pending.Keys;
    if landing.poison {
      assert landing.tokens[..0] == [];
      assert TokenTags(landing.tokens) == TokenTags([]) + {landing.tokens[0].tag};
    }
  }

  lemma PoisonKnown(st: Stages, low: nat, keys: set<nat>, cells: map<Token, Cell>, landing: Landing)
    requires Backed(st, keys, cells) && Flown(st, low, landing) && landing.poison
    ensures TokenTags(landing.tokens) <= keys
  {
    var w :| st.settlements == [w] && landing.tokens == [w.token];
    assert Individual(st, w);
    assert [w.token][..0] == [];
  }

  lemma FlownOrderly(l: Lane, n: Lane, landing: Landing)
    requires Rules(l) && Recorded(l) && Tracked(l) && Peaceful(l.env.past)
    requires Balanced(l, landing) && Completed(l, n, landing) && Flown(l.ch.stages, l.ch.ledger.ackedPrefix, landing)
    requires FlightTags(l.ch.stages) !! TagSet(l.env.broker.transit)
    ensures Orderly(n.ch.stages, n.ch.ledger.pending.Keys, n.ch.cells)
    ensures Faithful(n.ch.stages, n.ch.ledger.pending.Keys, n.env.broker)
  {
    var st, keys, low := l.ch.stages, l.ch.ledger.pending.Keys, l.ch.ledger.ackedPrefix;
    MarkedKept(l.ch.cells, landing.tokens, landing.final);
    FlownClears(low, st, keys, landing);
    LandedOrderly(st, keys, n.ch.ledger.pending.Keys, l.ch.cells, n.ch.cells, landing);
    if landing.poison {
      PoisonKnown(st, low, keys, l.ch.cells, landing);
    }
    LandsFaithful(l, landing, n.ch.stages);
  }

  lemma FlownRules(l: Lane, n: Lane, landing: Landing)
    requires Rules(l) && Recorded(l) && Tracked(l)
    requires Balanced(l, landing) && Completed(l, n, landing) && Flown(l.ch.stages, l.ch.ledger.ackedPrefix, landing)
    requires FlightTags(l.ch.stages) !! TagSet(l.env.broker.transit)
    ensures Rules(n)
  {
    var st, keys, low := l.ch.stages, l.ch.ledger.pending.Keys, l.ch.ledger.ackedPrefix;
    LandedCalled(st, l.env.past.asks, l.env.past.through);
    if !l.env.past.crossed {
      LandedClimbs(low, st, landing);
    }
    if Peaceful(l.env.past) {
      FlownOrderly(l, n, landing);
    }
    if Clean(l.env.past) {
      MarkedKept(l.ch.cells, landing.tokens, landing.final);
      FlownClearsAll(low, st, keys, l.ch.cells, landing);
      LandedApart(st, keys, n.ch.ledger.pending.Keys, l.ch.cells, n.ch.cells, landing);
    }
  }
}
