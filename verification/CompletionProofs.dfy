/**
 Completion of a settlement: bytes and ledger entries leave together, the next settlement of
 the channel is launched, and the invariant holds again.
 */
module CompletionProofs {
  import opened Deliveries
  import opened Lanes
  import opened StageTags
  import opened Dispatching
  import opened DispatchProofs
  import opened Settling
  import opened SettleFrames
  import opened SettleSteps
  import opened SettleProofs
  import opened FlushProofs
  import opened WireProofs
  import opened Disciplines
  import opened Completing
  import opened LandingProofs

  // ---------------------------------------------------------------- deliveries' side

  lemma BudgetedFree(cfg: Config, intake: Intake, past: History, token: Token, after: History)
    requires Budgeted(cfg, intake, past) && !cfg.earlyAck && Ascending(past.handed)
    requires DeliveryOf(token) in past.handed
    requires Clean(past) ==> token.tag !in past.gone
    requires after == past.(gone := past.gone + {token.tag}, leaving := after.leaving)
    ensures Budgeted(cfg, intake.(bufferedBytes := SatSub(intake.bufferedBytes, token.bytes)), after)
  {
    if token.tag in past.gone {
      assert past.gone + {token.tag} == past.gone;
    } else {
      OutstandingRelease(past.handed, past.gone, DeliveryOf(token));
    }
  }

  lemma FreeBytesCore(l: Lane, waiting: seq<TransportDelivery>, token: Token)
    requires Core(l, waiting) && !l.ch.cfg.earlyAck
    requires Own(l.ch.cfg, l.env.past.handed, token)
    requires Clean(l.env.past) ==> token.tag !in l.env.past.gone
    ensures Core(FreeBytes(l, token), waiting)
  {
    var m := FreeBytes(l, token);
    assert DeliveryOf(token) in l.env.past.handed;
    BudgetedFree(l.ch.cfg, l.ch.intake, l.env.past, token, m.env.past);
  }

  lemma {:induction false} FreeAllShape(l: Lane, tokens: seq<Token>)
    ensures FreeAll(l, tokens).ch == l.ch.(intake := FreeAll(l, tokens).ch.intake)
    ensures FreeAll(l, tokens).ch.intake.buffer == l.ch.intake.buffer
    ensures FreeAll(l, tokens).env.broker == l.env.broker
    ensures var past := FreeAll(l, tokens).env.past;
            && past == l.env.past.(gone := past.gone, leaving := past.leaving)
            && past.gone == l.env.past.gone + TokenTags(tokens)
            && past.leaving == l.env.past.leaving + TokenTags(tokens) * l.ch.ledger.pending.Keys
  {
    if tokens != [] {
      FreeAllShape(l, tokens[..|tokens| - 1]);
    }
  }

  lemma {:induction false} FreeAllCore(l: Lane, waiting: seq<TransportDelivery>, tokens: seq<Token>)
    requires Core(l, waiting) && !l.ch.cfg.earlyAck
    requires forall a :: a in tokens ==> Own(l.ch.cfg, l.env.past.handed, a)
    requires Clean(l.env.past) ==> Distinct(tokens) && forall a :: a in tokens ==> a.tag !in l.env.past.gone
    ensures Core(FreeAll(l, tokens), waiting)
  {
    if tokens != [] {
      var n := |tokens| - 1;
      FreeAllCore(l, waiting, tokens[..n]);
      FreeAllShape(l, tokens[..n]);
      if Clean(l.env.past) && tokens[n].tag in TokenTags(tokens[..n]) {
        var a := TokenTagsFind(tokens[..n], tokens[n].tag);
        assert false;
      }
      FreeBytesCore(FreeAll(l, tokens[..n]), waiting, tokens[n]);
    }
  }

  lemma StrikeCore(l: Lane, waiting: seq<TransportDelivery>, removed: set<nat>, prefix: nat)
    requires Core(l, waiting)
    requires removed * l.ch.ledger.pending.Keys <= l.env.past.gone
    requires forall t :: t in l.ch.ledger.pending && t !in removed ==> t > prefix
    requires prefix <= l.env.past.arrivedTop
    ensures Core(Strike(l, removed, prefix), waiting)
  {
    assert Strike(l, removed, prefix).ch.ledger.pending.Keys == l.ch.ledger.pending.Keys - removed;
  }

  lemma ConcludeCore(l: Lane, waiting: seq<TransportDelivery>, landing: Landing)
    requires Core(l, waiting) && !l.ch.cfg.earlyAck
    requires forall a :: a in landing.tokens ==> Own(l.ch.cfg, l.env.past.handed, a)
    ensures Core(Conclude(l, landing), waiting)
  {
    MarkAt(l.ch.cells, landing.tokens, landing.final);
    if landing.poison && landing.tokens != [] {
      var token := landing.tokens[0];
      assert token in landing.tokens && DeliveryOf(token) in l.env.past.handed;
      UntouchedApply(l.ch.cfg, l.ch.intake.buffer, waiting, l.env.past.arrived, l.env.broker,
                     PoisonOp(l.ch.cfg, token.tag), Conclude(l, landing).env.broker);
    }
  }

  lemma FinishCore(l: Lane, waiting: seq<TransportDelivery>, landing: Landing)
    requires Core(l, waiting) && !l.ch.cfg.earlyAck
    requires forall a :: a in landing.tokens ==> Own(l.ch.cfg, l.env.past.handed, a)
    requires landing.removed * l.ch.ledger.pending.Keys <= l.env.past.gone
    requires forall t :: t in l.ch.ledger.pending && t !in landing.removed ==> t > landing.prefix
    requires landing.prefix <= l.env.past.arrivedTop
    ensures Core(Finish(l, landing), waiting)
  {
    var struck := Strike(l, landing.removed, landing.prefix);
    StrikeCore(l, waiting, landing.removed, landing.prefix);
    ConcludeCore(struck, waiting, landing);
    CoreCells(Conclude(struck, landing), Finish(l, landing), waiting);
  }

  // ---------------------------------------------------------------- launching what was queued

  lemma DrainedStaged(st: Stages)
    requires Idle(st)
    ensures Serial(Drained(st))
    ensures Drained(st).mail == st.mail && Drained(st).batch == st.batch
    ensures forall t :: Staged(Drained(st), t) <==> Staged(st, t)
  {
    if st.queue != [] {
      assert [st.queue[0]] + st.queue[1..] == st.queue;
      WorkTagsConcat([st.queue[0]], st.queue[1..]);
    } else if st.throughQueue != [] {
      assert [st.throughQueue[0]] + st.throughQueue[1..] == st.throughQueue;
      ThroughTagsConcat([st.throughQueue[0]], st.throughQueue[1..]);
    }
  }

  lemma DrainedOwned(cfg: Config, st: Stages, handed: seq<TransportDelivery>, keys: set<nat>)
    requires Idle(st) && Owned(cfg, st, handed, keys) && !cfg.earlyAck
    ensures Owned(cfg, Drained(st), handed, keys)
  {
  }

  lemma DrainedPartitioned(st: Stages, keys: set<nat>)
    requires Idle(st) && Partitioned(st, keys)
    ensures Partitioned(Drained(st), keys)
  {
    if st.queue != [] {
      assert [st.queue[0]] + st.queue[1..] == st.queue;
      WorkTagsConcat([st.queue[0]], st.queue[1..]);
      assert WorkTags([st.queue[0]]) == WorkTags([]) + {st.queue[0].token.tag};
      if st.queue[0].token.tag in WorkTags(st.queue[1..]) {
        var w := WorkTagsFind(st.queue[1..], st.queue[0].token.tag);
        assert false;
      }
    }
  }

  // ---------------------------------------------------------------- settlements' side

  /** The tokens of a completed flight leave the stages and their cells are set to `final`; in a
      terminal completion their ledger entries leave as well. */
  ghost predicate Unstaged(
      st: Stages, next: Stages, cells: map<Token, Cell>, marked: map<Token, Cell>, landing: Landing)
  {
    && next.mail == st.mail
    && (forall t :: Staged(st, t) && t !in TokenTags(landing.tokens) ==> Staged(next, t))
    && (forall t :: t in cells ==> t in marked)
    && (forall t :: t in marked ==>
          if t in landing.tokens then marked[t] == Cell(landing.final, false)
          else t in cells && marked[t] == cells[t])
  }

  // An own token is determined by its tag.
  lemma SameToken(cfg: Config, handed: seq<TransportDelivery>, tokens: seq<Token>, d: TransportDelivery)
    requires Ascending(handed) && d in handed && d.tag in TokenTags(tokens)
    requires forall a :: a in tokens ==> Own(cfg, handed, a)
    ensures OwnToken(cfg, d) in tokens
  {
    var a := TokenTagsFind(tokens, d.tag);
    AscendingUnique(handed, d, DeliveryOf(a));
  }

  lemma UnstagedProgressing(
      cfg: Config, st: Stages, next: Stages, keys: set<nat>, fewer: set<nat>, cells: map<Token, Cell>,
      marked: map<Token, Cell>, handed: seq<TransportDelivery>, landing: Landing)
    requires forall d :: d in handed ==> OwnToken(cfg, d) in cells
    requires Progressing(cfg, st, keys, cells, handed) && Unstaged(st, next, cells, marked, landing)
    requires fewer <= keys && Ascending(handed)
    requires forall a :: a in landing.tokens ==> Own(cfg, handed, a)
    requires if landing.terminal then fewer !! TokenTags(landing.tokens) else landing.final == Pending
    ensures Progressing(cfg, next, fewer, marked, handed)
  {
    forall d | d in handed && d.tag in fewer && OwnToken(cfg, d) !in landing.tokens
      ensures d.tag !in TokenTags(landing.tokens)
    {
      if d.tag in TokenTags(landing.tokens) {
        SameToken(cfg, handed, landing.tokens, d);
      }
    }
    forall d | d in handed && OwnToken(cfg, d) in landing.tokens ensures d.tag in TokenTags(landing.tokens) {
      TokenTagsHas(landing.tokens, OwnToken(cfg, d));
    }
    assert forall token :: Mailed(st, token) <==> Mailed(next, token);
  }

  lemma UnstagedFlagged(
      cfg: Config, st: Stages, next: Stages, keys: set<nat>, fewer: set<nat>, cells: map<Token, Cell>,
      marked: map<Token, Cell>, handed: seq<TransportDelivery>, requested: map<nat, Settlement>, landing: Landing)
    requires forall d :: d in handed ==> OwnToken(cfg, d) in cells
    requires Flagged(cfg, st, keys, cells, handed, requested) && Unstaged(st, next, cells, marked, landing)
    requires Ascending(handed)
    requires forall a :: a in landing.tokens ==> Own(cfg, handed, a)
    requires forall t :: Staged(next, t) ==> Staged(st, t) && t !in TokenTags(landing.tokens)
    requires if landing.terminal then landing.final != Pending && fewer == keys - TokenTags(landing.tokens)
             else landing.final == Pending && fewer == keys && TokenTags(landing.tokens) <= keys
    ensures Flagged(cfg, next, fewer, marked, handed, requested)
  {
    forall d | d in handed ensures OwnToken(cfg, d) in landing.tokens <==> d.tag in TokenTags(landing.tokens) {
      if d.tag in TokenTags(landing.tokens) {
        SameToken(cfg, handed, landing.tokens, d);
      } else if OwnToken(cfg, d) in landing.tokens {
        TokenTagsHas(landing.tokens, OwnToken(cfg, d));
      }
    }
  }

  lemma UnstagedMailOnce(
      st: Stages, next: Stages, keys: set<nat>, fewer: set<nat>, cells: map<Token, Cell>,
      marked: map<Token, Cell>, requested: map<nat, Settlement>, landing: Landing)
    requires MailOnce(st, keys, cells, requested) && Unstaged(st, next, cells, marked, landing)
    requires forall t :: Staged(next, t) ==> Staged(st, t)
    requires forall t :: t in TokenTags(landing.tokens) ==> Staged(st, t)
    requires forall t :: t in keys && t !in TokenTags(landing.tokens) ==> t in fewer
    ensures MailOnce(next, fewer, marked, requested)
  {
    forall c | c in st.mail && c.Settle? ensures c.token !in landing.tokens {
      if c.token in landing.tokens {
        TokenTagsHas(landing.tokens, c.token);
      }
    }
  }

  // ---------------------------------------------------------------- what a landing promises

  lemma WorkBalanced(l: Lane, waiting: seq<TransportDelivery>, outcome: Outcome)
    requires Core(l, waiting) && Tracked(l) && l.ch.stages.settlements != []
    requires WorkAnswer(l.env.broker, l.ch.stages.settlements[0], outcome)
    ensures Balanced(l, LandWork(l.ch, l.ch.stages.settlements[0], outcome))
  {
    var w := l.ch.stages.settlements[0];
    assert l.ch.stages.settlements == [w] && w in l.ch.stages.settlements;
    FlightWork(l.ch.stages, w);
    assert [w.token][..0] == [] && TokenTags([w.token]) == TokenTags([]) + {w.token.tag};
  }

  // A cumulative settlement's listed entries are those between the watermark and its target.
  lemma CoversBetween(cfg: Config, handed: seq<TransportDelivery>, keys: set<nat>, low: nat, th: Through)
    requires Covers(cfg, handed, keys, th) && forall t :: t in keys ==> low < t
    ensures keys - Between(low, th.token.tag) == keys - TokenTags(th.affected)
    ensures forall t :: t in keys && t !in Between(low, th.token.tag) ==> t > th.token.tag
  {
    BetweenHas(low, th.token.tag);
    forall t | t in TokenTags(th.affected) ensures t <= th.token.tag {
      var a := TokenTagsFind(th.affected, t);
    }
  }

  lemma ThroughBalanced(l: Lane, waiting: seq<TransportDelivery>, outcome: Outcome)
    requires Core(l, waiting) && Tracked(l) && l.ch.stages.throughs != []
    requires ThroughAnswer(l.env.broker, outcome)
    ensures Balanced(l, LandThrough(l.ch, l.ch.stages.throughs[0], outcome))
  {
    var th, prefix := l.ch.stages.throughs[0], l.ch.ledger.ackedPrefix;
    assert l.ch.stages.throughs == [th] && th in l.ch.stages.throughs && th.token in th.affected;
    FlightThrough(l.ch.stages, th);
    CoversBetween(l.ch.cfg, l.env.past.handed, l.ch.ledger.pending.Keys, prefix, th);
    assert DeliveryOf(th.token) in l.env.past.handed;
  }

  lemma LandsBalanced(l: Lane, waiting: seq<TransportDelivery>, landing: Landing)
    requires Core(l, waiting) && Tracked(l) && Lands(l, landing)
    ensures Balanced(l, landing)
  {
    var st := l.ch.stages;
    if outcome :| st.settlements != [] && WorkAnswer(l.env.broker, st.settlements[0], outcome)
                  && landing == LandWork(l.ch, st.settlements[0], outcome) {
      WorkBalanced(l, waiting, outcome);
    } else {
      var outcome :| ThroughAnswer(l.env.broker, outcome) && landing == LandThrough(l.ch, st.throughs[0], outcome);
      ThroughBalanced(l, waiting, outcome);
    }
  }

  lemma LandedStages(st: Stages)
    requires Serial(st) && Idle(Landed(st))
    ensures var next := Drained(Landed(st));
            && Serial(next) && next.mail == st.mail
            && (forall t :: Staged(next, t) || t in FlightTags(st) <==> Staged(st, t))
  {
    DrainedStaged(Landed(st));
  }

  lemma LandedOwned(cfg: Config, st: Stages, handed: seq<TransportDelivery>, keys: set<nat>, fewer: set<nat>)
    requires Serial(st) && Idle(Landed(st)) && Owned(cfg, st, handed, keys) && !cfg.earlyAck && fewer <= keys
    ensures Owned(cfg, Drained(Landed(st)), handed, fewer)
  {
    OwnedMore(cfg, Landed(st), handed, keys, handed, fewer);
    DrainedOwned(cfg, Landed(st), handed, fewer);
  }

  lemma LandedPartitioned(st: Stages, keys: set<nat>, fewer: set<nat>)
    requires Serial(st) && Idle(Landed(st)) && Partitioned(st, keys)
    requires keys - FlightTags(st) <= fewer
    ensures Partitioned(Drained(Landed(st)), fewer)
    ensures forall t :: Staged(Drained(Landed(st)), t) ==> t !in FlightTags(st)
  {
    DrainedPartitioned(Landed(st), fewer);
    DrainedStaged(Landed(st));
  }

  lemma LandedRequested(st: Stages, requested: map<nat, Settlement>)
    requires Idle(Landed(st)) && Requested(st, requested) && st.throughQueue == []
    ensures Requested(Drained(Landed(st)), requested)
  {
  }

  lemma CompletedTracked(l: Lane, n: Lane, landing: Landing)
    requires Recorded(l) && Recorded(n) && Tracked(l) && Ascending(l.env.past.handed)
    requires Balanced(l, landing) && Completed(l, n, landing)
    ensures Tracked(n)
  {
    var st, keys, fewer := l.ch.stages, l.ch.ledger.pending.Keys, n.ch.ledger.pending.Keys;
    LandedStages(st);
    LandedOwned(l.ch.cfg, st, l.env.past.handed, keys, fewer);
    MarkAt(l.ch.cells, landing.tokens, landing.final);
    UnstagedProgressing(l.ch.cfg, st, n.ch.stages, keys, fewer, l.ch.cells, n.ch.cells, l.env.past.handed, landing);
  }

  lemma CompletedStages(l: Lane, n: Lane, landing: Landing)
    requires Balanced(l, landing) && Completed(l, n, landing) && Serial(l.ch.stages)
    requires Partitioned(l.ch.stages, l.ch.ledger.pending.Keys) && Requested(l.ch.stages, l.env.past.requested)
    ensures Partitioned(n.ch.stages, n.ch.ledger.pending.Keys)
    ensures Requested(n.ch.stages, l.env.past.requested)
  {
    LandedPartitioned(l.ch.stages, l.ch.ledger.pending.Keys, n.ch.ledger.pending.Keys);
    LandedRequested(l.ch.stages, l.env.past.requested);
  }

  lemma CompletedCells(l: Lane, n: Lane, landing: Landing)
    requires Recorded(l) && Recorded(n) && Ascending(l.env.past.handed) && Serial(l.ch.stages)
    requires Balanced(l, landing) && Completed(l, n, landing)
    requires Partitioned(l.ch.stages, l.ch.ledger.pending.Keys)
    requires MailOnce(l.ch.stages, l.ch.ledger.pending.Keys, l.ch.cells, l.env.past.requested)
    requires Flagged(l.ch.cfg, l.ch.stages, l.ch.ledger.pending.Keys, l.ch.cells, l.env.past.handed,
                     l.env.past.requested)
    ensures MailOnce(n.ch.stages, n.ch.ledger.pending.Keys, n.ch.cells, l.env.past.requested)
    ensures Flagged(l.ch.cfg, n.ch.stages, n.ch.ledger.pending.Keys, n.ch.cells, l.env.past.handed,
                    l.env.past.requested)
  {
    var st, keys, fewer := l.ch.stages, l.ch.ledger.pending.Keys, n.ch.ledger.pending.Keys;
    LandedStages(st);
    LandedPartitioned(st, keys, fewer);
    MarkAt(l.ch.cells, landing.tokens, landing.final);
    UnstagedMailOnce(st, n.ch.stages, keys, fewer, l.ch.cells, n.ch.cells, l.env.past.requested, landing);
    UnstagedFlagged(l.ch.cfg, st, n.ch.stages, keys, fewer, l.ch.cells, n.ch.cells, l.env.past.handed,
                    l.env.past.requested, landing);
  }

  lemma CompletedDisciplined(l: Lane, n: Lane, landing: Landing)
    requires Recorded(l) && Tracked(l) && Disciplined(l)
    requires Lands(l, landing) && Balanced(l, landing) && Completed(l, n, landing)
    requires FlightTags(l.ch.stages) !! TagSet(l.env.broker.transit)
    ensures Disciplined(n)
  {
    LookAtRules(l);
    LandsFlown(l, landing);
    MarkAt(l.ch.cells, landing.tokens, landing.final);
    FlownRules(l, n, landing);
    RulesMakeDiscipline(n);
  }

  lemma CompletedSettled(l: Lane, n: Lane, landing: Landing)
    requires Recorded(l) && Recorded(n) && Settled(l) && Ascending(l.env.past.handed)
    requires Lands(l, landing) && Balanced(l, landing) && Completed(l, n, landing)
    requires FlightTags(l.ch.stages) !! TagSet(l.env.broker.transit)
    ensures Settled(n)
  {
    CompletedTracked(l, n, landing);
    CompletedDisciplined(l, n, landing);
    if !l.env.past.explicit {
      CompletedStages(l, n, landing);
      CompletedCells(l, n, landing);
    }
  }

  // ---------------------------------------------------------------- with a dispatch pass in between

  // `m` is `l` with its flight landed, and with the bytes and tags of a terminal one released.
  ghost predicate Begun(l: Lane, m: Lane, landing: Landing) {
    && m.ch == Land(l).ch.(intake := m.ch.intake)
    && m.env.broker == Land(l).env.broker
    && m.env.past == l.env.past.(gone := m.env.past.gone, leaving := m.env.past.leaving)
    && if landing.terminal then
         && m.env.past.gone == l.env.past.gone + TokenTags(landing.tokens)
         && m.env.past.leaving == TokenTags(landing.tokens) * l.ch.ledger.pending.Keys
       else m.env.past.leaving == {}
  }

  lemma BeginCore(l: Lane, waiting: seq<TransportDelivery>, landing: Landing)
    requires Inv(l, waiting) && Balanced(l, landing)
    requires Clean(l.env.past) ==>
               Distinct(landing.tokens) && TokenTags(landing.tokens) <= l.ch.ledger.pending.Keys
    ensures Core(Begin(l, landing), waiting) && Begun(l, Begin(l, landing), landing)
  {
    CoreCells(l, Land(l), waiting);
    if landing.terminal {
      if Clean(l.env.past) {
        forall a | a in landing.tokens ensures a.tag !in l.env.past.gone {
          TokenTagsHas(landing.tokens, a);
        }
      }
      FreeAllCore(Land(l), waiting, landing.tokens);
      FreeAllShape(Land(l), landing.tokens);
    }
  }

  // An operation on a handed-off tag is the same for the broker before and after a dispatch pass.
  lemma ToldMoved(
      cfg: Config, landing: Landing, handed: seq<TransportDelivery>, dropped: set<nat>, a: Broker, b: Broker)
    requires forall t :: t in landing.tokens ==> Own(cfg, handed, t)
    requires forall d :: d in handed ==> d.tag !in dropped
    requires b == a.(unsettled := b.unsettled, wire := b.wire)
    requires a.alive ==> b.unsettled == a.unsettled - dropped
    ensures var f, g := Told(cfg, a, landing), Told(cfg, b, landing);
            && g == f.(unsettled := g.unsettled, wire := g.wire)
            && (f.alive ==> g.unsettled == f.unsettled - dropped)
  {
    if landing.poison && landing.tokens != [] {
      assert landing.tokens[0] in landing.tokens;
      assert DeliveryOf(landing.tokens[0]) in handed;
    }
  }

  lemma BooksFinish(m: Lane, n: Lane, landing: Landing)
    requires BooksMoved(m, n) && !m.ch.cfg.earlyAck
    requires forall a :: a in landing.tokens ==> Own(m.ch.cfg, m.env.past.handed, a)
    ensures BooksMoved(Finish(m, landing), Finish(n, landing))
  {
    var f, g, dropped := Finish(m, landing), Finish(n, landing), n.env.past.gone - m.env.past.gone;
    ToldMoved(m.ch.cfg, landing, m.env.past.handed, dropped, m.env.broker, n.env.broker);
    assert f.ch.ledger.pending.Keys == m.ch.ledger.pending.Keys - landing.removed;
    assert g.ch.ledger.pending.Keys == n.ch.ledger.pending.Keys - landing.removed;
  }

  lemma CellsFinish(
      cfg: Config, a: History, b: History, cells: map<Token, Cell>, after: map<Token, Cell>,
      tokens: seq<Token>, final: DeliveryState)
    requires CellsMoved(cfg, a, b, cells, after)
    requires forall t :: t in tokens ==> Own(cfg, a.handed, t)
    ensures CellsMoved(cfg, a, b, Mark(cells, tokens, final), Mark(after, tokens, final))
  {
    MarkAt(cells, tokens, final);
    MarkAt(after, tokens, final);
    assert forall d :: DeliveryOf(OwnToken(cfg, d)) == d;
  }

  lemma CellsMovedFrame(
      cfg: Config, a: History, b: History, c: History, d: History, cells: map<Token, Cell>, after: map<Token, Cell>)
    requires CellsMoved(cfg, a, b, cells, after)
    requires c.handed == a.handed && d.handed == b.handed && d.gone == b.gone
    ensures CellsMoved(cfg, c, d, cells, after)
  {
  }

  // What a dispatch pass does commutes with closing the books of a completed settlement.
  lemma DispatchedFinish(m: Lane, n: Lane, landing: Landing)
    requires Dispatched(m, n) && !m.ch.cfg.earlyAck
    requires forall a :: a in landing.tokens ==> Own(m.ch.cfg, m.env.past.handed, a)
    ensures Dispatched(Finish(m, landing), Finish(n, landing))
  {
    var f, g := Finish(m, landing), Finish(n, landing);
    BooksFinish(m, n, landing);
    CellsFinish(m.ch.cfg, m.env.past, n.env.past, m.ch.cells, n.ch.cells, landing.tokens, landing.final);
    CellsMovedFrame(m.ch.cfg, m.env.past, n.env.past, f.env.past, g.env.past, f.ch.cells, g.ch.cells);
  }

  // When settlements do not overlap, a flight's tokens are distinct and in the ledger.
  lemma LandsDistinct(l: Lane, landing: Landing)
    requires Recorded(l) && Tracked(l) && Disciplined(l)
    requires Lands(l, landing) && Balanced(l, landing) && Clean(l.env.past)
    ensures Distinct(landing.tokens) && TokenTags(landing.tokens) <= l.ch.ledger.pending.Keys
  {
    LookAtRules(l);
    LandsFlown(l, landing);
    FlownDistinct(l.ch.stages, l.ch.ledger.ackedPrefix, l.ch.ledger.pending.Keys, l.ch.cells, landing);
  }

  // Only deliveries already handed over are in flight.
  lemma FlightSeen(l: Lane, waiting: seq<TransportDelivery>, landing: Landing)
    requires Core(l, waiting) && Balanced(l, landing)
    ensures FlightTags(l.ch.stages) !! TagSet(l.env.broker.transit)
  {
    forall t | t in TokenTags(landing.tokens) ensures t !in TagSet(l.env.broker.transit) {
      var a := TokenTagsFind(landing.tokens, t);
      assert DeliveryOf(a) in l.env.past.handed;
      if t in TagSet(l.env.broker.transit) {
        var d := TagSetFind(l.env.broker.transit, t);
      }
    }
  }

  // The first part of a completion: the freed bytes can be put to use.
  lemma CompletionBegins(l: Lane, waiting: seq<TransportDelivery>, landing: Landing)
    requires Inv(l, waiting) && Lands(l, landing)
    ensures Balanced(l, landing)
    ensures Core(Begin(l, landing), waiting) && Begun(l, Begin(l, landing), landing)
  {
    LandsBalanced(l, waiting, landing);
    if Clean(l.env.past) {
      LandsDistinct(l, landing);
    }
    BeginCore(l, waiting, landing);
  }

  lemma FinishMoved(l: Lane, landing: Landing, b: Lane, m: Lane, rest: seq<TransportDelivery>)
    requires Balanced(l, landing) && Begun(l, b, landing) && Dispatched(b, m) && Core(m, rest)
    ensures Core(Finish(m, landing), rest)
    ensures Finish(m, landing).env.past.leaving == {}
  {
    assert forall d :: d in b.env.past.handed ==> d in m.env.past.handed;
    FinishCore(m, rest, landing);
  }

  lemma FinishCompleted(l: Lane, m: Lane, landing: Landing)
    requires Balanced(l, landing) && Begun(l, m, landing)
    ensures Completed(l, Finish(m, landing), landing)
  {
    assert Finish(m, landing).ch.ledger.pending.Keys == l.ch.ledger.pending.Keys - landing.removed;
  }

  lemma FinishSettled(l: Lane, waiting: seq<TransportDelivery>, landing: Landing, n: Lane)
    requires Inv(l, waiting) && Lands(l, landing) && Balanced(l, landing)
    requires Completed(l, n, landing) && Recorded(n)
    ensures Settled(n)
  {
    FlightSeen(l, waiting, landing);
    CompletedSettled(l, n, landing);
  }

  // Without a dispatch pass in between.
  lemma FinishBegun(l: Lane, waiting: seq<TransportDelivery>, landing: Landing)
    requires Inv(l, waiting) && Lands(l, landing)
    ensures Core(Finish(Begin(l, landing), landing), waiting)
    ensures Settled(Finish(Begin(l, landing), landing))
  {
    var m := Begin(l, landing);
    CompletionBegins(l, waiting, landing);
    DispatchedSame(m);
    FinishMoved(l, landing, m, m, waiting);
    FinishCompleted(l, m, landing);
    FinishSettled(l, waiting, landing, Finish(m, landing));
  }

  /** A completion, with whatever the dispatch pass in its middle did (`m` stands for the lane after
      that pass), leads from the invariant to the invariant. */
  lemma CompletionInv(
      l: Lane, waiting: seq<TransportDelivery>, landing: Landing, m: Lane, rest: seq<TransportDelivery>)
    requires Inv(l, waiting) && Lands(l, landing)
    requires Dispatched(Begin(l, landing), m) && Core(m, rest)
    ensures Inv(Finish(m, landing), rest)
  {
    CompletionBegins(l, waiting, landing);
    FinishBegun(l, waiting, landing);
    FinishMoved(l, landing, Begin(l, landing), m, rest);
    DispatchedFinish(Begin(l, landing), m, landing);
    DispatchedSettled(Finish(Begin(l, landing), landing), Finish(m, landing), waiting, rest);
  }
}
