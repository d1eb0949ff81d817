/**
 The acknowledgement flush keeps the invariant, and the cumulative acknowledgement it
 launches covers exactly the deliveries the embedder has acknowledged.
 */
module FlushProofs {
  import opened Deliveries
  import opened Lanes
  import opened StageTags
  import opened Dispatching
  import opened Settling
  import opened SettleFrames
  import opened SettleSteps
  import opened SettleProofs
  import opened Disciplines

  // What a flush makes of the stages: the run in one burst, the rest behind it or one by one.
  ghost predicate Flushed(st: Stages, next: Stages, prefix: seq<Token>, rest: seq<Work>) {
    && next.mail == st.mail && next.batch == map[] && next.throughQueue == []
    && next.inFlight == (prefix != [] || rest != [])
    && next.throughs == (if prefix == [] then [] else [Through(prefix[|prefix| - 1], prefix)])
    && next.settlements == (if prefix == [] && rest != [] then [rest[0]] else [])
    && next.queue == (if prefix == [] && rest != [] then rest[1..] else rest)
  }

  lemma FlushShape(l: Lane, prefix: seq<Token>, rest: seq<Work>)
    requires Serial(l.ch.stages) && !l.ch.stages.inFlight
    ensures var m := Flush(l, prefix, rest);
            && Flushed(l.ch.stages, m.ch.stages, prefix, rest)
            && m.ch == l.ch.(stages := m.ch.stages)
            && m.env == l.env.(broker := m.env.broker)
            && m.env.broker == l.env.broker.(applied := l.env.broker.applied && prefix == [] && rest == [])
  {
  }

  // The run and the rest together are the recorded acknowledgements that are still pending.
  lemma FlushSplit(ledger: Ledger, batch: map<nat, Token>, prefix: seq<Token>, rest: seq<Work>)
    requires IsPrefix(ledger, batch, prefix) && IsRest(ledger, batch, Reach(ledger, prefix), rest)
    requires forall t :: t in ledger.pending ==> ledger.ackedPrefix < t
    ensures forall t :: t in TokenTags(prefix) || t in WorkTags(rest) <==> t in batch && t in ledger.pending
    ensures TokenTags(prefix) !! WorkTags(rest)
  {
    forall t | t in TokenTags(prefix) ensures t in batch && t in ledger.pending && t <= Reach(ledger, prefix) {
      var a := TokenTagsFind(prefix, t);
    }
    forall t | t in WorkTags(rest) ensures t in batch && t in ledger.pending && t > Reach(ledger, prefix) {
      var w := WorkTagsFind(rest, t);
    }
  }

  lemma FlushedTags(st: Stages, next: Stages, prefix: seq<Token>, rest: seq<Work>)
    requires Flushed(st, next, prefix, rest)
    ensures ThroughTags(next.throughs) == TokenTags(prefix)
    ensures WorkTags(next.settlements) + WorkTags(next.queue) == WorkTags(rest)
    ensures forall t :: Staged(next, t) <==> t in TokenTags(prefix) || t in WorkTags(rest)
  {
    if prefix == [] && rest != [] {
      assert [rest[0]] + rest[1..] == rest;
      WorkTagsConcat([rest[0]], rest[1..]);
    }
  }

  lemma FlushedOwned(l: Lane, next: Stages, prefix: seq<Token>, rest: seq<Work>)
    requires Owned(l.ch.cfg, l.ch.stages, l.env.past.handed, l.ch.ledger.pending.Keys)
    requires Flushed(l.ch.stages, next, prefix, rest)
    requires IsPrefix(l.ch.ledger, l.ch.stages.batch, prefix)
    requires IsRest(l.ch.ledger, l.ch.stages.batch, Reach(l.ch.ledger, prefix), rest)
    requires forall t :: t in l.ch.ledger.pending ==> l.ch.ledger.ackedPrefix < t
    ensures Serial(next)
    ensures Owned(l.ch.cfg, next, l.env.past.handed, l.ch.ledger.pending.Keys)
  {
    if prefix != [] {
      assert Covers(l.ch.cfg, l.env.past.handed, l.ch.ledger.pending.Keys, next.throughs[0]);
    } else if rest != [] {
      assert rest[0] in rest;
      assert forall w :: w in rest[1..] ==> w in rest;
    }
  }

  lemma BurstPartitioned(st: Stages, next: Stages, ledger: Ledger, prefix: seq<Token>, rest: seq<Work>)
    requires Flushed(st, next, prefix, rest) && prefix != []
    requires IsPrefix(ledger, st.batch, prefix) && IsRest(ledger, st.batch, Reach(ledger, prefix), rest)
    requires forall t :: t in ledger.pending ==> ledger.ackedPrefix < t
    ensures Partitioned(next, ledger.pending.Keys)
  {
    FlushedTags(st, next, prefix, rest);
    FlushSplit(ledger, st.batch, prefix, rest);
  }

  lemma SinglesPartitioned(st: Stages, next: Stages, ledger: Ledger, rest: seq<Work>)
    requires Flushed(st, next, [], rest)
    requires IsPrefix(ledger, st.batch, []) && IsRest(ledger, st.batch, Reach(ledger, []), rest)
    requires forall t :: t in ledger.pending ==> ledger.ackedPrefix < t
    ensures Partitioned(next, ledger.pending.Keys)
  {
    FlushedTags(st, next, [], rest);
    FlushSplit(ledger, st.batch, [], rest);
    if rest != [] && rest[0].token.tag in WorkTags(rest[1..]) {
      var w := WorkTagsFind(rest[1..], rest[0].token.tag);
    }
  }

  lemma FlushedPartitioned(
      st: Stages, next: Stages, ledger: Ledger, prefix: seq<Token>, rest: seq<Work>)
    requires Flushed(st, next, prefix, rest)
    requires IsPrefix(ledger, st.batch, prefix) && IsRest(ledger, st.batch, Reach(ledger, prefix), rest)
    requires forall t :: t in ledger.pending ==> ledger.ackedPrefix < t
    ensures Partitioned(next, ledger.pending.Keys)
  {
    if prefix != [] {
      BurstPartitioned(st, next, ledger, prefix, rest);
    } else {
      SinglesPartitioned(st, next, ledger, rest);
    }
  }

  lemma FlushedRequested(
      st: Stages, next: Stages, ledger: Ledger, prefix: seq<Token>, rest: seq<Work>,
      requested: map<nat, Settlement>)
    requires Flushed(st, next, prefix, rest) && Requested(st, requested)
    requires IsPrefix(ledger, st.batch, prefix) && IsRest(ledger, st.batch, Reach(ledger, prefix), rest)
    ensures Requested(next, requested)
  {
    assert forall w :: w in next.queue || w in next.settlements ==> w in rest;
  }

  // The stages after a flush: nothing but the recorded, still pending acknowledgements.
  lemma FlushedStaged(l: Lane, next: Stages, prefix: seq<Token>, rest: seq<Work>)
    requires Serial(l.ch.stages) && !l.ch.stages.inFlight
    requires Flushed(l.ch.stages, next, prefix, rest)
    requires IsPrefix(l.ch.ledger, l.ch.stages.batch, prefix)
    requires IsRest(l.ch.ledger, l.ch.stages.batch, Reach(l.ch.ledger, prefix), rest)
    requires forall t :: t in l.ch.ledger.pending ==> l.ch.ledger.ackedPrefix < t
    ensures forall t :: Staged(next, t) <==> Staged(l.ch.stages, t) && t in l.ch.ledger.pending
  {
    FlushedTags(l.ch.stages, next, prefix, rest);
    FlushSplit(l.ch.ledger, l.ch.stages.batch, prefix, rest);
  }

  // Moving settlements between stages keeps what the flags and the mailbox say about them.
  lemma RestagedProgressing(
      cfg: Config, st: Stages, next: Stages, keys: set<nat>, cells: map<Token, Cell>, handed: seq<TransportDelivery>)
    requires forall d :: d in handed ==> OwnToken(cfg, d) in cells
    requires Progressing(cfg, st, keys, cells, handed) && next.mail == st.mail
    requires forall t :: t in keys && Staged(st, t) ==> Staged(next, t)
    ensures Progressing(cfg, next, keys, cells, handed)
  {
  }

  lemma RestagedExact(
      cfg: Config, st: Stages, next: Stages, keys: set<nat>, cells: map<Token, Cell>,
      requested: map<nat, Settlement>, handed: seq<TransportDelivery>)
    requires forall d :: d in handed ==> OwnToken(cfg, d) in cells
    requires MailOnce(st, keys, cells, requested) && Flagged(cfg, st, keys, cells, handed, requested)
    requires next.mail == st.mail
    requires forall t :: t in keys ==> (Staged(st, t) <==> Staged(next, t))
    ensures MailOnce(next, keys, cells, requested) && Flagged(cfg, next, keys, cells, handed, requested)
  {
  }

  lemma FlushTracked(l: Lane, m: Lane, prefix: seq<Token>, rest: seq<Work>)
    requires Recorded(l) && Tracked(l) && Watermarked(l.ch.ledger, l.env.past.arrivedTop)
    requires !l.ch.stages.inFlight && Flushed(l.ch.stages, m.ch.stages, prefix, rest)
    requires IsPrefix(l.ch.ledger, l.ch.stages.batch, prefix)
    requires IsRest(l.ch.ledger, l.ch.stages.batch, Reach(l.ch.ledger, prefix), rest)
    requires m.ch == l.ch.(stages := m.ch.stages) && m.env.past == l.env.past && !m.env.broker.applied
    ensures Tracked(m)
  {
    FlushedOwned(l, m.ch.stages, prefix, rest);
    FlushedStaged(l, m.ch.stages, prefix, rest);
    RestagedProgressing(l.ch.cfg, l.ch.stages, m.ch.stages, l.ch.ledger.pending.Keys, l.ch.cells, l.env.past.handed);
  }

  lemma FlushExact(l: Lane, m: Lane, prefix: seq<Token>, rest: seq<Work>)
    requires Recorded(l) && Tracked(l) && Exact(l) && Watermarked(l.ch.ledger, l.env.past.arrivedTop)
    requires !l.ch.stages.inFlight && Flushed(l.ch.stages, m.ch.stages, prefix, rest)
    requires IsPrefix(l.ch.ledger, l.ch.stages.batch, prefix)
    requires IsRest(l.ch.ledger, l.ch.stages.batch, Reach(l.ch.ledger, prefix), rest)
    requires m.ch == l.ch.(stages := m.ch.stages) && m.env == l.env.(broker := l.env.broker.(applied := false))
    ensures Exact(m)
  {
    var past, keys := l.env.past, l.ch.ledger.pending.Keys;
    FlushedPartitioned(l.ch.stages, m.ch.stages, l.ch.ledger, prefix, rest);
    FlushedRequested(l.ch.stages, m.ch.stages, l.ch.ledger, prefix, rest, past.requested);
    FlushedStaged(l, m.ch.stages, prefix, rest);
    RestagedExact(l.ch.cfg, l.ch.stages, m.ch.stages, keys, l.ch.cells, past.requested, past.handed);
  }

  // What a flush launches is recorded and pending: the run up to its reach, the rest above it.
  ghost predicate Drawn(ledger: Ledger, batch: map<nat, Token>, prefix: seq<Token>, rest: seq<Work>) {
    && (forall a :: a in prefix ==> a.tag in batch && a == batch[a.tag] && a.tag in ledger.pending)
    && (forall w :: w in rest ==>
          && w.settlement == Ack
          && w.token.tag in batch && w.token == batch[w.token.tag] && w.token.tag in ledger.pending)
    && (forall a :: a in prefix ==> ledger.ackedPrefix < a.tag)
    && (forall a, w :: a in prefix && w in rest ==> a.tag < w.token.tag)
  }

  lemma FlushDrawn(ledger: Ledger, batch: map<nat, Token>, prefix: seq<Token>, rest: seq<Work>)
    requires IsPrefix(ledger, batch, prefix) && IsRest(ledger, batch, Reach(ledger, prefix), rest)
    ensures Drawn(ledger, batch, prefix, rest)
  {
  }

  lemma FlushedMembers(st: Stages, next: Stages, prefix: seq<Token>, rest: seq<Work>)
    requires Flushed(st, next, prefix, rest)
    ensures forall w :: Individual(next, w) ==> w in rest
    ensures forall th :: Cumulative(next, th) ==>
              prefix != [] && th == Through(prefix[|prefix| - 1], prefix)
  {
    assert rest != [] ==> rest[0] in rest;
  }

  lemma FlushedClimbs(st: Stages, next: Stages, ledger: Ledger, prefix: seq<Token>, rest: seq<Work>)
    requires Flushed(st, next, prefix, rest) && Drawn(ledger, st.batch, prefix, rest)
    ensures Climbs(ledger.ackedPrefix, next)
  {
    FlushedMembers(st, next, prefix, rest);
    assert prefix != [] ==> prefix[|prefix| - 1] in prefix;
  }

  lemma FlushedCalled(
      st: Stages, next: Stages, ledger: Ledger, asks: set<Ask>, through: nat, prefix: seq<Token>, rest: seq<Work>)
    requires Flushed(st, next, prefix, rest) && Drawn(ledger, st.batch, prefix, rest)
    requires Called(st, asks, through)
    ensures Called(next, asks, through)
  {
    FlushedMembers(st, next, prefix, rest);
  }

  lemma RunApart(prefix: seq<Token>, rest: seq<Work>)
    requires forall a, w :: a in prefix && w in rest ==> a.tag < w.token.tag
    ensures forall w :: w in rest ==> w.token.tag !in TokenTags(prefix)
  {
    forall w | w in rest ensures w.token.tag !in TokenTags(prefix) {
      if w.token.tag in TokenTags(prefix) {
        var a := TokenTagsFind(prefix, w.token.tag);
      }
    }
  }

  lemma FlushedBacked(
      st: Stages, next: Stages, ledger: Ledger, cells: map<Token, Cell>, prefix: seq<Token>, rest: seq<Work>)
    requires Backed(st, ledger.pending.Keys, cells)
    requires Flushed(st, next, prefix, rest) && Drawn(ledger, st.batch, prefix, rest)
    ensures Backed(next, ledger.pending.Keys, cells)
  {
    FlushedMembers(st, next, prefix, rest);
    assert prefix != [] ==> prefix[|prefix| - 1] in prefix;
  }

  lemma FlushedWaits(st: Stages, next: Stages, prefix: seq<Token>, rest: seq<Work>)
    requires Flushed(st, next, prefix, rest)
    requires forall a, w :: a in prefix && w in rest ==> a.tag < w.token.tag
    requires forall i, j :: 0 <= i < j < |rest| ==> rest[i].token.tag < rest[j].token.tag
    ensures Waits(next)
  {
    RunApart(prefix, rest);
  }

  lemma FlushedOrderly(
      st: Stages, next: Stages, ledger: Ledger, cells: map<Token, Cell>, prefix: seq<Token>, rest: seq<Work>)
    requires Orderly(st, ledger.pending.Keys, cells)
    requires Flushed(st, next, prefix, rest) && Drawn(ledger, st.batch, prefix, rest)
    requires forall i, j :: 0 <= i < j < |rest| ==> rest[i].token.tag < rest[j].token.tag
    ensures Orderly(next, ledger.pending.Keys, cells)
  {
    FlushedBacked(st, next, ledger, cells, prefix, rest);
    FlushedWaits(st, next, prefix, rest);
    FlushedMembers(st, next, prefix, rest);
    assert prefix != [] ==> prefix[|prefix| - 1] in prefix;
    assert Single(next, ledger.pending.Keys);
  }

  lemma FlushedApart(
      st: Stages, next: Stages, ledger: Ledger, cells: map<Token, Cell>, prefix: seq<Token>, rest: seq<Work>)
    requires Orderly(st, ledger.pending.Keys, cells)
    requires Flushed(st, next, prefix, rest) && Drawn(ledger, st.batch, prefix, rest) && Distinct(prefix)
    ensures Apart(next, ledger.pending.Keys, cells)
  {
    FlushedMembers(st, next, prefix, rest);
    RunApart(prefix, rest);
  }

  lemma FlushDisciplined(l: Lane, m: Lane, prefix: seq<Token>, rest: seq<Work>)
    requires Disciplined(l) && !l.ch.stages.inFlight && !l.env.broker.applied
    requires Flushed(l.ch.stages, m.ch.stages, prefix, rest)
    requires IsPrefix(l.ch.ledger, l.ch.stages.batch, prefix)
    requires IsRest(l.ch.ledger, l.ch.stages.batch, Reach(l.ch.ledger, prefix), rest)
    requires m.ch == l.ch.(stages := m.ch.stages) && m.env == l.env
    ensures Disciplined(m)
  {
    LookAtRules(l);
    FlushDrawn(l.ch.ledger, l.ch.stages.batch, prefix, rest);
    FlushedClimbs(l.ch.stages, m.ch.stages, l.ch.ledger, prefix, rest);
    FlushedCalled(l.ch.stages, m.ch.stages, l.ch.ledger, l.env.past.asks, l.env.past.through, prefix, rest);
    if Peaceful(l.env.past) && !l.ch.cfg.earlyAck {
      FlushedOrderly(l.ch.stages, m.ch.stages, l.ch.ledger, l.ch.cells, prefix, rest);
      if Clean(l.env.past) {
        FlushedApart(l.ch.stages, m.ch.stages, l.ch.ledger, l.ch.cells, prefix, rest);
      }
    }
    RulesMakeDiscipline(m);
  }

  // The actor flushes the recorded acknowledgements of an idle channel.
  lemma FlushInv(l: Lane, waiting: seq<TransportDelivery>, prefix: seq<Token>, rest: seq<Work>)
    requires Inv(l, waiting) && !l.ch.stages.inFlight
    requires IsPrefix(l.ch.ledger, l.ch.stages.batch, prefix)
    requires IsRest(l.ch.ledger, l.ch.stages.batch, Reach(l.ch.ledger, prefix), rest)
    ensures Inv(Flush(l, prefix, rest), waiting)
  {
    var m := Flush(l, prefix, rest);
    FlushShape(l, prefix, rest);
    CoreCells(l, m, waiting);
    FlushTracked(l, m, prefix, rest);
    FlushDisciplined(l, m, prefix, rest);
    if !l.env.past.explicit && !l.ch.cfg.earlyAck {
      FlushExact(l, m, prefix, rest);
    }
  }
}
