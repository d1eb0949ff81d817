/**
 The embedder's calls and the actor's handling of them keep the invariant of a lane.
 */
module SettleProofs {
  import opened Deliveries
  import opened Lanes
  import opened StageTags
  import opened Dispatching
  import opened Settling
  import opened SettleFrames
  import opened SettleSteps
  import opened Disciplines
  import opened ClaimProofs

  // Flags of tokens never matter to the deliveries' side of a lane.
  lemma CoreCells(l: Lane, m: Lane, waiting: seq<TransportDelivery>)
    requires Core(l, waiting)
    requires m.ch.cfg == l.ch.cfg && m.ch.intake == l.ch.intake && m.ch.ledger == l.ch.ledger
    requires m.env.broker == l.env.broker.(applied := m.env.broker.applied)
    requires m.env.past == l.env.past.(
               requested := m.env.past.requested, asks := m.env.past.asks, through := m.env.past.through,
               explicit := m.env.past.explicit,
               crossed := m.env.past.crossed, overlapped := m.env.past.overlapped, stray := m.env.past.stray)
    requires Clean(m.env.past) ==> Clean(l.env.past)
    requires l.ch.cells.Keys <= m.ch.cells.Keys
    requires l.ch.cfg.earlyAck ==> forall d :: d in l.env.past.handed ==>
               m.ch.cells[OwnToken(l.ch.cfg, d)].state == l.ch.cells[OwnToken(l.ch.cfg, d)].state
    ensures Core(m, waiting)
  {
  }

  // Neither does a command in the mailbox matter to what is staged.
  lemma CellsDisciplined(l: Lane, m: Lane)
    requires Recorded(l) && Tracked(l) && Disciplined(l)
    requires m.ch.cfg == l.ch.cfg && m.ch.ledger == l.ch.ledger
    requires m.ch.stages == l.ch.stages.(mail := m.ch.stages.mail)
    requires m.env.broker == l.env.broker
    requires m.env.past == l.env.past.(requested := m.env.past.requested, asks := m.env.past.asks)
    requires l.env.past.asks <= m.env.past.asks
    requires forall c :: c in m.ch.stages.mail && c.Settle? ==>
               c in l.ch.stages.mail || Ask(c.token.tag, c.settlement) in m.env.past.asks
    requires forall token :: IsHeld(l.ch.cells, token) ==> IsHeld(m.ch.cells, token)
    ensures Disciplined(m)
  {
    LookAtRules(l);
    MailCalled(l.ch.stages, m.ch.stages, l.env.past.asks, m.env.past.asks, l.env.past.through);
    RulesFrame(l, m);
    RulesMakeDiscipline(m);
  }

  lemma MailCalled(st: Stages, next: Stages, asks: set<Ask>, more: set<Ask>, through: nat)
    requires Called(st, asks, through) && next == st.(mail := next.mail) && asks <= more
    requires forall c :: c in next.mail && c.Settle? ==> c in st.mail || Ask(c.token.tag, c.settlement) in more
    ensures Called(next, more, through)
  {
    assert forall v :: Individual(next, v) ==> Individual(st, v);
    assert forall th :: Cumulative(next, th) ==> Cumulative(st, th);
  }

  lemma OwnTokenOf(cfg: Config, handed: seq<TransportDelivery>, token: Token)
    requires Own(cfg, handed, token)
    ensures token == OwnToken(cfg, DeliveryOf(token))
  {
  }

  // Staging a work item adds its tag to the staged ones.
  lemma StageAdds(l: Lane, w: Work)
    requires Serial(l.ch.stages)
    ensures forall t :: Staged(Stage(l, w).ch.stages, t) <==> Staged(l.ch.stages, t) || t == w.token.tag
  {
    WorkTagsAppend(l.ch.stages.queue, w);
    WorkTagsAppend(l.ch.stages.settlements, w);
  }

  lemma StageOwned(l: Lane, w: Work, handed: seq<TransportDelivery>, keys: set<nat>)
    requires Serial(l.ch.stages) && Owned(l.ch.cfg, l.ch.stages, handed, keys)
    requires Own(l.ch.cfg, handed, w.token) && !l.ch.cfg.earlyAck
    ensures Serial(Stage(l, w).ch.stages) && Owned(l.ch.cfg, Stage(l, w).ch.stages, handed, keys)
  {
  }

  lemma BatchPartitioned(st: Stages, keys: set<nat>, token: Token)
    requires Partitioned(st, keys) && token.tag in keys && !Staged(st, token.tag)
    ensures Partitioned(st.(batch := st.batch[token.tag := token]), keys)
  {
  }

  lemma QueuePartitioned(st: Stages, keys: set<nat>, w: Work)
    requires Partitioned(st, keys) && w.token.tag in keys && !Staged(st, w.token.tag)
    ensures Partitioned(st.(queue := st.queue + [w]), keys)
  {
    WorkTagsAppend(st.queue, w);
    forall i | 0 <= i < |st.queue| ensures st.queue[i].token.tag != w.token.tag {
      WorkTagsHas(st.queue, st.queue[i]);
    }
  }

  lemma LaunchPartitioned(st: Stages, keys: set<nat>, w: Work)
    requires Partitioned(st, keys) && w.token.tag in keys && !Staged(st, w.token.tag)
    ensures Partitioned(st.(inFlight := true, settlements := st.settlements + [w]), keys)
  {
    WorkTagsAppend(st.settlements, w);
  }

  lemma StagePartitioned(l: Lane, w: Work, keys: set<nat>)
    requires Partitioned(l.ch.stages, keys)
    requires w.token.tag in keys && !Staged(l.ch.stages, w.token.tag)
    ensures Partitioned(Stage(l, w).ch.stages, keys)
  {
    var st := l.ch.stages;
    if w.settlement == Ack {
      BatchPartitioned(st, keys, w.token);
    } else if st.inFlight {
      QueuePartitioned(st, keys, w);
    } else {
      LaunchPartitioned(st, keys, w);
    }
  }

  lemma MailedRest(st: Stages, rest: Stages, token: Token)
    requires st.mail != [] && rest.mail == st.mail[1..]
    requires st.mail[0].SettleThrough? || st.mail[0].token != token
    ensures Mailed(st, token) <==> Mailed(rest, token)
  {
    if Mailed(st, token) {
      var settlement :| Settle(token, settlement) in st.mail;
      assert Settle(token, settlement) in rest.mail;
    }
  }

  // `next` is `st` after its first command, a settlement, has been staged.
  ghost predicate Advanced(st: Stages, next: Stages) {
    && st.mail != [] && st.mail[0].Settle?
    && next.mail == st.mail[1..]
    && (forall t :: Staged(next, t) <==> Staged(st, t) || t == st.mail[0].token.tag)
  }

  lemma AdvanceProgressing(
      cfg: Config, st: Stages, next: Stages, keys: set<nat>, cells: map<Token, Cell>, handed: seq<TransportDelivery>)
    requires forall d :: d in handed ==> OwnToken(cfg, d) in cells
    requires Progressing(cfg, st, keys, cells, handed)
    requires Advanced(st, next) && st.mail[0].token in cells
    ensures var token := st.mail[0].token;
            Progressing(cfg, next, keys, cells[token := cells[token].(settling := true)], handed)
  {
    forall d | d in handed && OwnToken(cfg, d) != st.mail[0].token
      ensures Mailed(st, OwnToken(cfg, d)) <==> Mailed(next, OwnToken(cfg, d))
    {
      MailedRest(st, next, OwnToken(cfg, d));
    }
  }

  lemma IgnoreProgressing(
      cfg: Config, st: Stages, next: Stages, keys: set<nat>, cells: map<Token, Cell>, handed: seq<TransportDelivery>)
    requires forall d :: d in handed ==> OwnToken(cfg, d) in cells
    requires Progressing(cfg, st, keys, cells, handed)
    requires st.mail != [] && next == st.(mail := st.mail[1..])
    requires st.mail[0].Settle? ==> st.mail[0].token in cells && cells[st.mail[0].token].settling
    ensures Progressing(cfg, next, keys, cells, handed)
  {
    forall d | d in handed && (st.mail[0].SettleThrough? || OwnToken(cfg, d) != st.mail[0].token)
      ensures Mailed(st, OwnToken(cfg, d)) <==> Mailed(next, OwnToken(cfg, d))
    {
      MailedRest(st, next, OwnToken(cfg, d));
    }
  }

  lemma AdvanceMailOnce(
      cfg: Config, st: Stages, next: Stages, keys: set<nat>, cells: map<Token, Cell>,
      requested: map<nat, Settlement>, handed: seq<TransportDelivery>)
    requires MailOnce(st, keys, cells, requested) && Advanced(st, next)
    requires Ascending(handed) && forall c :: c in st.mail && c.Settle? ==> Own(cfg, handed, c.token)
    requires st.mail[0].token in cells
    ensures var token := st.mail[0].token;
            MailOnce(next, keys, cells[token := cells[token].(settling := true)], requested)
  {
    forall i | 0 <= i < |next.mail| && next.mail[i].Settle?
      ensures next.mail[i] in st.mail && next.mail[i].token.tag != st.mail[0].token.tag
    {
      assert next.mail[i] == st.mail[i + 1];
      assert st.mail[0] in st.mail;
      OwnTagsDiffer(cfg, handed, next.mail[i].token, st.mail[0].token);
    }
  }

  lemma AdvanceFlagged(
      cfg: Config, st: Stages, next: Stages, keys: set<nat>, cells: map<Token, Cell>,
      handed: seq<TransportDelivery>, requested: map<nat, Settlement>)
    requires forall d :: d in handed ==> OwnToken(cfg, d) in cells
    requires Flagged(cfg, st, keys, cells, handed, requested) && Advanced(st, next)
    requires Ascending(handed) && Own(cfg, handed, st.mail[0].token)
    requires st.mail[0].token in cells && Asked(requested, st.mail[0].token.tag, st.mail[0].settlement)
    requires cells[st.mail[0].token].state == TerminalOf(st.mail[0].settlement)
    ensures var token := st.mail[0].token;
            Flagged(cfg, next, keys, cells[token := cells[token].(settling := true)], handed, requested)
  {
    forall d | d in handed && d.tag == st.mail[0].token.tag ensures OwnToken(cfg, d) == st.mail[0].token {
      AscendingUnique(handed, d, DeliveryOf(st.mail[0].token));
    }
  }

  // `m` is `l` after its first command has been claimed and staged.
  ghost predicate Claimed(l: Lane, m: Lane) {
    && l.ch.stages.mail != [] && l.ch.stages.mail[0].token in l.ch.cells
    && (var token := l.ch.stages.mail[0].token;
        m.ch == l.ch.(stages := m.ch.stages,
                      cells := l.ch.cells[token := l.ch.cells[token].(settling := true)]))
    && m.env == Env(l.env.broker.(applied := m.env.broker.applied),
                    l.env.past.(overlapped := m.env.past.overlapped, stray := m.env.past.stray))
    && (Clean(m.env.past) ==> Clean(l.env.past))
    && (m.env.broker.applied ==> m.ch.stages.inFlight)
    && Advanced(l.ch.stages, m.ch.stages)
  }

  lemma ClaimedTracked(l: Lane, m: Lane, waiting: seq<TransportDelivery>)
    requires Core(l, waiting) && Tracked(l) && Claimed(l, m)
    requires Serial(m.ch.stages)
    requires Owned(l.ch.cfg, m.ch.stages, l.env.past.handed, l.ch.ledger.pending.Keys)
    ensures Core(m, waiting) && Tracked(m)
  {
    CoreCells(l, m, waiting);
    AdvanceProgressing(l.ch.cfg, l.ch.stages, m.ch.stages, l.ch.ledger.pending.Keys, l.ch.cells, l.env.past.handed);
  }

  lemma ClaimedExact(l: Lane, m: Lane, waiting: seq<TransportDelivery>)
    requires Core(l, waiting) && Tracked(l) && Exact(l) && !l.ch.cfg.earlyAck
    requires Core(m, waiting) && Claimed(l, m)
    requires Partitioned(m.ch.stages, l.ch.ledger.pending.Keys)
    requires Requested(m.ch.stages, l.env.past.requested)
    ensures Exact(m)
  {
    var c, past, keys := l.ch.stages.mail[0], l.env.past, l.ch.ledger.pending.Keys;
    assert c in l.ch.stages.mail;
    AdvanceMailOnce(l.ch.cfg, l.ch.stages, m.ch.stages, keys, l.ch.cells, past.requested, past.handed);
    AdvanceFlagged(l.ch.cfg, l.ch.stages, m.ch.stages, keys, l.ch.cells, past.handed, past.requested);
  }

  lemma HandleClaimed(l: Lane)
    requires Serial(l.ch.stages) && (l.env.broker.applied ==> l.ch.stages.inFlight)
    requires l.ch.stages.mail != [] && l.ch.stages.mail[0].Settle?
    requires l.ch.stages.mail[0].token in l.ch.cells && !l.ch.cells[l.ch.stages.mail[0].token].settling
    ensures Claimed(l, HandleSettle(l))
  {
    var c := l.ch.stages.mail[0];
    var w := Work(c.token, c.settlement);
    StageAdds(Claim(Note(PopMail(l), w), c.token), w);
  }

  lemma PopTracked(l: Lane)
    requires Recorded(l) && Tracked(l)
    requires l.ch.stages.mail != []
    requires l.ch.stages.mail[0].Settle? ==>
               l.ch.stages.mail[0].token in l.ch.cells && l.ch.cells[l.ch.stages.mail[0].token].settling
    ensures Tracked(PopMail(l))
  {
    IgnoreProgressing(l.ch.cfg, l.ch.stages, PopMail(l).ch.stages, l.ch.ledger.pending.Keys, l.ch.cells,
                      l.env.past.handed);
  }

  lemma PopExact(l: Lane)
    requires Recorded(l) && Exact(l) && l.ch.stages.mail != []
    ensures Exact(PopMail(l))
  {
  }

  // The actor ignores a command: one for a token already being settled, or a refused settle-through.
  lemma PopMailInv(l: Lane, waiting: seq<TransportDelivery>)
    requires Inv(l, waiting) && l.ch.stages.mail != []
    requires l.ch.stages.mail[0].Settle? ==>
               l.ch.stages.mail[0].token in l.ch.cells && l.ch.cells[l.ch.stages.mail[0].token].settling
    ensures Inv(PopMail(l), waiting)
  {
    CoreCells(l, PopMail(l), waiting);
    PopTracked(l);
    CellsDisciplined(l, PopMail(l));
    if !l.env.past.explicit && !l.ch.cfg.earlyAck {
      PopExact(l);
    }
  }

  lemma HandleTracked(l: Lane, waiting: seq<TransportDelivery>)
    requires Core(l, waiting) && Tracked(l)
    requires l.ch.stages.mail != [] && l.ch.stages.mail[0].Settle?
    requires l.ch.stages.mail[0].token in l.ch.cells && !l.ch.cells[l.ch.stages.mail[0].token].settling
    ensures Core(HandleSettle(l), waiting) && Tracked(HandleSettle(l))
  {
    var c, keys := l.ch.stages.mail[0], l.ch.ledger.pending.Keys;
    assert c in l.ch.stages.mail;
    var w := Work(c.token, c.settlement);
    var ready := Claim(Note(PopMail(l), w), c.token);
    assert Owned(l.ch.cfg, ready.ch.stages, l.env.past.handed, keys);
    StageOwned(ready, w, l.env.past.handed, keys);
    HandleClaimed(l);
    ClaimedTracked(l, HandleSettle(l), waiting);
  }

  lemma HandleExact(l: Lane, waiting: seq<TransportDelivery>)
    requires Core(l, waiting) && Tracked(l) && Exact(l) && !l.ch.cfg.earlyAck
    requires l.ch.stages.mail != [] && l.ch.stages.mail[0].Settle?
    requires l.ch.stages.mail[0].token in l.ch.cells && !l.ch.cells[l.ch.stages.mail[0].token].settling
    requires Core(HandleSettle(l), waiting)
    ensures Exact(HandleSettle(l))
  {
    var c, keys := l.ch.stages.mail[0], l.ch.ledger.pending.Keys;
    var w := Work(c.token, c.settlement);
    var ready := Claim(Note(PopMail(l), w), c.token);
    assert c in l.ch.stages.mail;
    StagePartitioned(ready, w, keys);
    StageRequested(ready, w, l.env.past.requested);
    HandleClaimed(l);
    ClaimedExact(l, HandleSettle(l), waiting);
  }

  // Without settle-throughs no settlement strays: a mailed one is in the ledger and not staged.
  lemma MailKeepsOn(l: Lane)
    requires Recorded(l) && l.ch.stages.mail != [] && l.ch.stages.mail[0].Settle?
    requires MailOnce(l.ch.stages, l.ch.ledger.pending.Keys, l.ch.cells, l.env.past.requested)
    ensures var w := Work(l.ch.stages.mail[0].token, l.ch.stages.mail[0].settlement);
            !Strays(PopMail(l).ch, w) && !Overlaps(PopMail(l).ch, w)
  {
    assert l.ch.stages.mail[0] in l.ch.stages.mail;
  }

  lemma HandleTakenOn(l: Lane)
    requires Serial(l.ch.stages) && (l.env.broker.applied ==> l.ch.stages.inFlight)
    requires l.ch.stages.mail != [] && l.ch.stages.mail[0].Settle?
    requires l.ch.stages.mail[0].token in l.ch.cells && !l.ch.cells[l.ch.stages.mail[0].token].settling
    ensures TakenOn(PopMail(l), HandleSettle(l), Work(l.ch.stages.mail[0].token, l.ch.stages.mail[0].settlement))
  {
  }

  lemma HandleDisciplined(l: Lane, waiting: seq<TransportDelivery>)
    requires Core(l, waiting) && Settled(l)
    requires l.ch.stages.mail != [] && l.ch.stages.mail[0].Settle?
    requires l.ch.stages.mail[0].token in l.ch.cells && !l.ch.cells[l.ch.stages.mail[0].token].settling
    ensures Disciplined(HandleSettle(l))
  {
    var c := l.ch.stages.mail[0];
    var w := Work(c.token, c.settlement);
    assert c in l.ch.stages.mail;
    LookAtRules(l);
    assert Ask(c.token.tag, c.settlement) in l.env.past.asks;
    CellsDisciplined(l, PopMail(l));
    LookAtRules(PopMail(l));
    if !l.env.past.explicit {
      MailKeepsOn(l);
    }
    HandleTakenOn(l);
    TakenOnRules(PopMail(l), HandleSettle(l), w);
    RulesMakeDiscipline(HandleSettle(l));
  }

  lemma StageRequested(l: Lane, w: Work, requested: map<nat, Settlement>)
    requires Requested(l.ch.stages, requested) && Asked(requested, w.token.tag, w.settlement)
    ensures Requested(Stage(l, w).ch.stages, requested)
  {
  }

  lemma ClaimInv(l: Lane, waiting: seq<TransportDelivery>)
    requires Inv(l, waiting)
    requires l.ch.stages.mail != [] && l.ch.stages.mail[0].Settle?
    requires l.ch.stages.mail[0].token in l.ch.cells && !l.ch.cells[l.ch.stages.mail[0].token].settling
    ensures Inv(HandleSettle(l), waiting)
  {
    HandleTracked(l, waiting);
    HandleDisciplined(l, waiting);
    if !l.env.past.explicit && !l.ch.cfg.earlyAck {
      HandleExact(l, waiting);
    }
  }

  // The actor handles a mailed settlement.
  lemma HandleSettleInv(l: Lane, waiting: seq<TransportDelivery>)
    requires Inv(l, waiting)
    requires l.ch.stages.mail != [] && l.ch.stages.mail[0].Settle?
    ensures l.ch.stages.mail[0].token in l.ch.cells
    ensures Inv(HandleSettle(l), waiting)
  {
    var c := l.ch.stages.mail[0];
    assert c in l.ch.stages.mail;
    if l.ch.cells[c.token].settling {
      PopMailInv(l, waiting);
    } else {
      ClaimInv(l, waiting);
    }
  }

  // ---------------------------------------------------------------- the embedder's calls

  lemma PostProgressing(
      cfg: Config, st: Stages, next: Stages, keys: set<nat>, cells: map<Token, Cell>,
      handed: seq<TransportDelivery>, token: Token, settlement: Settlement)
    requires forall d :: d in handed ==> OwnToken(cfg, d) in cells
    requires Progressing(cfg, st, keys, cells, handed) && token in cells
    requires next == st.(mail := st.mail + [Settle(token, settlement)])
    ensures Progressing(cfg, next, keys,
                        cells[token := cells[token].(state := TerminalOf(settlement))], handed)
  {
    assert Settle(token, settlement) in next.mail;
    forall other | Mailed(st, other) ensures Mailed(next, other) {
      var s :| Settle(other, s) in st.mail;
      assert Settle(other, s) in next.mail;
    }
  }

  lemma PostMailOnce(
      st: Stages, next: Stages, keys: set<nat>, cells: map<Token, Cell>, requested: map<nat, Settlement>,
      token: Token, settlement: Settlement)
    requires MailOnce(st, keys, cells, requested)
    requires token in cells && cells[token] == Cell(Pending, false)
    requires token.tag in keys && !Staged(st, token.tag)
    requires forall c :: c in st.mail && c.Settle? && c.token != token ==> c.token.tag != token.tag
    requires next == st.(mail := st.mail + [Settle(token, settlement)])
    ensures MailOnce(next, keys, cells[token := Cell(TerminalOf(settlement), false)],
                     requested[token.tag := settlement])
  {
    forall c | c in st.mail && c.Settle? ensures c.token != token {
      assert cells[c.token].state != Pending;
    }
  }

  lemma PostRequested(st: Stages, next: Stages, requested: map<nat, Settlement>, tag: nat, settlement: Settlement)
    requires Requested(st, requested) && !Staged(st, tag)
    requires next == st.(mail := next.mail)
    ensures Requested(next, requested[tag := settlement])
  {
    forall w | w in st.queue ensures w.token.tag != tag {
      WorkTagsHas(st.queue, w);
    }
    forall w | w in st.settlements ensures w.token.tag != tag {
      WorkTagsHas(st.settlements, w);
    }
    forall th, a | th in st.throughs && a in th.affected ensures a.tag != tag {
      ThroughTagsHas(st.throughs, th, a);
    }
  }

  // `m` is `l` after the embedder has settled a pending token.
  ghost predicate Posted(l: Lane, m: Lane, token: Token, settlement: Settlement) {
    && token in l.ch.cells && l.ch.cells[token].state == Pending
    && m.ch == l.ch.(stages := m.ch.stages,
                     cells := l.ch.cells[token := l.ch.cells[token].(state := TerminalOf(settlement))])
    && m.ch.stages == l.ch.stages.(mail := l.ch.stages.mail + [Settle(token, settlement)])
    && m.env.broker == l.env.broker
    && m.env.past == l.env.past.(requested := l.env.past.requested[token.tag := settlement],
                                 asks := l.env.past.asks + {Ask(token.tag, settlement)})
  }

  lemma PostTracked(l: Lane, m: Lane, token: Token, settlement: Settlement)
    requires Recorded(l) && Recorded(m) && Tracked(l) && !l.ch.cfg.earlyAck
    requires Posted(l, m, token, settlement) && Own(l.ch.cfg, l.env.past.handed, token)
    ensures Tracked(m)
  {
    PostProgressing(l.ch.cfg, l.ch.stages, m.ch.stages, l.ch.ledger.pending.Keys, l.ch.cells,
                    l.env.past.handed, token, settlement);
  }

  lemma PostFlagged(
      cfg: Config, st: Stages, next: Stages, keys: set<nat>, cells: map<Token, Cell>,
      handed: seq<TransportDelivery>, requested: map<nat, Settlement>, token: Token, settlement: Settlement)
    requires forall d :: d in handed ==> OwnToken(cfg, d) in cells
    requires Flagged(cfg, st, keys, cells, handed, requested) && token in cells
    requires next == st.(mail := next.mail) && !Staged(st, token.tag)
    ensures Flagged(cfg, next, keys, cells[token := cells[token].(state := TerminalOf(settlement))], handed,
                    requested[token.tag := settlement])
  {
    assert forall t :: Staged(next, t) <==> Staged(st, t);
  }

  lemma PostExact(l: Lane, m: Lane, token: Token, settlement: Settlement)
    requires Recorded(l) && Recorded(m) && Tracked(l) && Exact(l) && Ascending(l.env.past.handed)
    requires Posted(l, m, token, settlement) && Own(l.ch.cfg, l.env.past.handed, token)
    ensures Exact(m)
  {
    var st, past, keys := l.ch.stages, l.env.past, l.ch.ledger.pending.Keys;
    OwnTokenOf(l.ch.cfg, past.handed, token);
    forall c | c in st.mail && c.Settle? && c.token != token ensures c.token.tag != token.tag {
      OwnTagsDiffer(l.ch.cfg, past.handed, c.token, token);
    }
    PostMailOnce(st, m.ch.stages, keys, l.ch.cells, past.requested, token, settlement);
    PostRequested(st, m.ch.stages, past.requested, token.tag, settlement);
    PostFlagged(l.ch.cfg, st, m.ch.stages, keys, l.ch.cells, past.handed, past.requested, token, settlement);
  }

  lemma PostDisciplined(l: Lane, m: Lane, token: Token, settlement: Settlement)
    requires Recorded(l) && Tracked(l) && Disciplined(l) && Posted(l, m, token, settlement)
    ensures Disciplined(m)
  {
    CellsDisciplined(l, m);
  }

  // The embedder settles a pending token.
  lemma PostInv(l: Lane, waiting: seq<TransportDelivery>, token: Token, settlement: Settlement)
    requires Inv(l, waiting)
    requires Own(l.ch.cfg, l.env.past.handed, token)
    requires token in l.ch.cells && l.ch.cells[token].state == Pending
    ensures Inv(Post(l, token, settlement), waiting)
  {
    var m := Post(l, token, settlement);
    OwnTokenOf(l.ch.cfg, l.env.past.handed, token);
    assert !l.ch.cfg.earlyAck;
    CoreCells(l, m, waiting);
    PostTracked(l, m, token, settlement);
    PostDisciplined(l, m, token, settlement);
    if !l.env.past.explicit {
      PostExact(l, m, token, settlement);
    }
  }

  lemma ThroughProgressing(
      cfg: Config, st: Stages, next: Stages, keys: set<nat>, cells: map<Token, Cell>, more: map<Token, Cell>,
      handed: seq<TransportDelivery>, token: Token)
    requires forall d :: d in handed ==> OwnToken(cfg, d) in cells
    requires Progressing(cfg, st, keys, cells, handed)
    requires next == st.(mail := st.mail + [SettleThrough(token)])
    requires forall t :: t in cells ==> t in more && more[t] == cells[t]
    ensures Progressing(cfg, next, keys, more, handed)
  {
    forall other | Mailed(st, other) ensures Mailed(next, other) {
      var s :| Settle(other, s) in st.mail;
      assert Settle(other, s) in next.mail;
    }
  }

  lemma ThroughTracked(l: Lane, m: Lane, token: Token)
    requires Recorded(l) && Recorded(m) && Tracked(l)
    requires m.env == l.env
    requires m.ch == l.ch.(stages := m.ch.stages, cells := m.ch.cells)
    requires m.ch.stages == l.ch.stages.(mail := l.ch.stages.mail + [SettleThrough(token)])
    requires forall t :: t in l.ch.cells ==> t in m.ch.cells && m.ch.cells[t] == l.ch.cells[t]
    requires Live(l.ch.cfg, token) ==> Own(l.ch.cfg, l.env.past.handed, token)
    requires token in m.ch.cells && token.subscription == l.ch.cfg.id
    ensures Tracked(m)
  {
    ThroughProgressing(l.ch.cfg, l.ch.stages, m.ch.stages, l.ch.ledger.pending.Keys, l.ch.cells, m.ch.cells,
                       l.env.past.handed, token);
  }

  lemma ThroughDisciplined(l: Lane, m: Lane, token: Token)
    requires Recorded(l) && Tracked(l) && Disciplined(l)
    requires m.env == l.env
    requires m.ch == l.ch.(stages := m.ch.stages, cells := m.ch.cells)
    requires m.ch.stages == l.ch.stages.(mail := l.ch.stages.mail + [SettleThrough(token)])
    requires forall t :: t in l.ch.cells ==> t in m.ch.cells && m.ch.cells[t] == l.ch.cells[t]
    ensures Disciplined(m)
  {
    CellsDisciplined(l, m);
  }

  lemma ThroughExact(l: Lane, m: Lane, token: Token)
    requires Recorded(l) && Recorded(m) && Exact(l)
    requires m.env == l.env
    requires m.ch == l.ch.(stages := m.ch.stages, cells := m.ch.cells)
    requires m.ch.stages == l.ch.stages.(mail := l.ch.stages.mail + [SettleThrough(token)])
    requires forall t :: t in l.ch.cells ==> t in m.ch.cells && m.ch.cells[t] == l.ch.cells[t]
    ensures Exact(m)
  {
  }

  // The embedder asks for a settle-through, with a token it was handed here or on another channel.
  lemma PostThroughInv(l: Lane, waiting: seq<TransportDelivery>, token: Token, cell: Cell)
    requires Inv(l, waiting)
    requires token.subscription == l.ch.cfg.id
    requires Live(l.ch.cfg, token) ==> Own(l.ch.cfg, l.env.past.handed, token)
    ensures Inv(PostThrough(l, token, cell), waiting)
  {
    var m := PostThrough(l, token, cell);
    CoreCells(l, m, waiting);
    ThroughTracked(l, m, token);
    ThroughDisciplined(l, m, token);
    if !l.env.past.explicit && !l.ch.cfg.earlyAck {
      ThroughExact(l, m, token);
    }
  }
}
