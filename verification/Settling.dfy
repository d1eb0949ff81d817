/**
 The settlement side of a lane: what must hold of the stages a settlement passes on its way
 to the broker, in every run (`Tracked`), in runs whose settlements do not collide
 (`Disciplined`), and in runs whose cumulative settlements all come from the acknowledgement
 flush (`Exact`).
 */
module Settling {
  import opened Deliveries
  import opened Lanes
  import opened Dispatching

  function DeliveryOf(token: Token): TransportDelivery {
    TransportDelivery(token.tag, token.bytes, token.attempts)
  }

  // The token was made for this channel, not for an earlier generation of it.
  predicate Live(cfg: Config, token: Token) {
    token.subscription == cfg.id && token.identity == cfg.identity
  }

  // One of this channel's own tokens, already in the embedder's hands.
  predicate Own(cfg: Config, handed: seq<TransportDelivery>, token: Token) {
    Live(cfg, token) && DeliveryOf(token) in handed
  }

  ghost predicate Mailed(st: Stages, token: Token) {
    exists settlement :: Settle(token, settlement) in st.mail
  }

  predicate Staged(st: Stages, tag: nat) {
    || tag in st.batch
    || tag in WorkTags(st.queue)
    || tag in WorkTags(st.settlements)
    || tag in ThroughTags(st.throughQueue)
    || tag in ThroughTags(st.throughs)
  }

  function FlightTags(st: Stages): set<nat> {
    WorkTags(st.settlements) + ThroughTags(st.throughs)
  }

  // ---------------------------------------------------------------- every run

  // At most one settlement of a channel is in flight, and nothing queues behind nothing.
  predicate Serial(st: Stages) {
    && |st.settlements| + |st.throughs| == (if st.inFlight then 1 else 0)
    && (st.queue != [] || st.throughQueue != [] ==> st.inFlight)
  }

  // A cumulative settlement lists every ledger entry it covers, its target last.
  ghost predicate Covers(cfg: Config, handed: seq<TransportDelivery>, keys: set<nat>, th: Through) {
    && th.affected != []
    && th.affected[|th.affected| - 1] == th.token
    && (forall a :: a in th.affected ==> Own(cfg, handed, a) && a.tag <= th.token.tag)
    && (forall t :: t in keys && t <= th.token.tag ==> t in TokenTags(th.affected))
  }

  // Every token the actor settles is one of its own.
  ghost predicate Owned(cfg: Config, st: Stages, handed: seq<TransportDelivery>, keys: set<nat>) {
    && (forall t :: t in st.batch ==> st.batch[t].tag == t && Own(cfg, handed, st.batch[t]))
    && (forall w :: w in st.queue ==> Own(cfg, handed, w.token))
    && (forall w :: w in st.settlements ==> Own(cfg, handed, w.token))
    && (forall th :: th in st.throughQueue ==> Covers(cfg, handed, keys, th))
    && (forall th :: th in st.throughs ==> Covers(cfg, handed, keys, th))
    && (forall c :: c in st.mail && (c.Settle? || Live(cfg, c.token)) ==> Own(cfg, handed, c.token))
    && (cfg.earlyAck ==>
          && st.batch == map[] && !st.inFlight
          && (forall c :: c in st.mail ==> c.SettleThrough?))
  }

  // A delivery the embedder has settled is on its way: in the mailbox or staged.
  ghost predicate Progressing(
      cfg: Config, st: Stages, keys: set<nat>, cells: map<Token, Cell>, handed: seq<TransportDelivery>)
    requires forall d :: d in handed ==> OwnToken(cfg, d) in cells
  {
    forall d :: d in handed && d.tag in keys && !cfg.earlyAck ==>
      var cell := cells[OwnToken(cfg, d)];
      && (cell.state != Pending && !Mailed(st, OwnToken(cfg, d)) ==> cell.settling)
      && (cell.settling ==> Staged(st, d.tag))
  }

  predicate Addressed(cfg: Config, mail: seq<Command>, cells: map<Token, Cell>) {
    forall c :: c in mail ==> c.token in cells && c.token.subscription == cfg.id
  }

  ghost predicate Tracked(l: Lane)
    requires Recorded(l)
  {
    && Serial(l.ch.stages)
    && Addressed(l.ch.cfg, l.ch.stages.mail, l.ch.cells)
    && Owned(l.ch.cfg, l.ch.stages, l.env.past.handed, l.ch.ledger.pending.Keys)
    && Progressing(l.ch.cfg, l.ch.stages, l.ch.ledger.pending.Keys, l.ch.cells, l.env.past.handed)
    && (l.env.broker.applied ==> l.ch.stages.inFlight)
  }

  // ---------------------------------------------------------------- runs in which settlements do not collide

  predicate Individual(st: Stages, w: Work) {
    w in st.queue || w in st.settlements
  }

  predicate Cumulative(st: Stages, th: Through) {
    th in st.throughs || th in st.throughQueue
  }

  // A staged cumulative settlement lists the tag.
  predicate Listed(st: Stages, tag: nat) {
    tag in ThroughTags(st.throughs) || tag in ThroughTags(st.throughQueue)
  }

  // The tags on their way to the broker; those only recorded are not.
  function UnderWay(st: Stages): set<nat> {
    WorkTags(st.queue) + WorkTags(st.settlements) + ThroughTags(st.throughs) + ThroughTags(st.throughQueue)
  }

  predicate IsHeld(cells: map<Token, Cell>, token: Token) {
    token in cells && cells[token].settling
  }

  predicate Distinct(tokens: seq<Token>) {
    forall i, j :: 0 <= i < j < |tokens| ==> tokens[i].tag != tokens[j].tag
  }

  // The targets of the cumulative settlements ascend, in the order they will complete, from the watermark.
  ghost predicate Climbs(low: nat, st: Stages) {
    && (forall th :: Cumulative(st, th) ==> low < th.token.tag)
    && (forall th, q :: th in st.throughs && q in st.throughQueue ==> th.token.tag < q.token.tag)
    && (forall i, j :: 0 <= i < j < |st.throughQueue| ==>
          st.throughQueue[i].token.tag < st.throughQueue[j].token.tag)
  }

  // What is going to be named on the wire is in the ledger and claimed.
  ghost predicate Backed(st: Stages, keys: set<nat>, cells: map<Token, Cell>) {
    && (forall th :: Cumulative(st, th) ==> th.token.tag in keys && IsHeld(cells, th.token))
    && (forall w :: Individual(st, w) ==> w.token.tag in keys && IsHeld(cells, w.token))
    && (forall t :: t in st.batch && t in keys ==> IsHeld(cells, st.batch[t]))
  }

  // What is in flight does not settle what is queued.
  ghost predicate Waits(st: Stages) {
    && (forall i, j :: 0 <= i < j < |st.queue| ==> st.queue[i].token.tag != st.queue[j].token.tag)
    && (forall w, v :: w in st.queue && v in st.settlements ==> w.token.tag != v.token.tag)
    && (forall th, w :: th in st.throughs && w in st.queue ==> w.token.tag !in TokenTags(th.affected))
  }

  // Nothing settled by itself is also the target of a cumulative settlement, or recorded for one.
  ghost predicate Single(st: Stages, keys: set<nat>) {
    && (forall th, w :: Cumulative(st, th) && Individual(st, w) ==> w.token.tag != th.token.tag)
    && (forall t, w :: t in st.batch && t in keys && Individual(st, w) ==> w.token.tag != t)
  }

  ghost predicate Orderly(st: Stages, keys: set<nat>, cells: map<Token, Cell>) {
    Backed(st, keys, cells) && Waits(st) && Single(st, keys)
  }

  // Every token of a cumulative settlement is in the ledger and claimed, and listed once.
  ghost predicate Entered(st: Stages, keys: set<nat>, cells: map<Token, Cell>) {
    && (forall th, a :: Cumulative(st, th) && a in th.affected ==> a.tag in keys && IsHeld(cells, a))
    && (forall th :: Cumulative(st, th) ==> Distinct(th.affected))
  }

  // No cumulative settlement under way shares a token with another settlement under way.
  ghost predicate Disjoint(st: Stages) {
    && (forall th, w :: Cumulative(st, th) && Individual(st, w) ==> w.token.tag !in TokenTags(th.affected))
    && (forall th, q :: th in st.throughs && q in st.throughQueue ==>
          TokenTags(th.affected) !! TokenTags(q.affected))
    && (forall i, j :: 0 <= i < j < |st.throughQueue| ==>
          TokenTags(st.throughQueue[i].affected) !! TokenTags(st.throughQueue[j].affected))
  }

  ghost predicate Apart(st: Stages, keys: set<nat>, cells: map<Token, Cell>) {
    Entered(st, keys, cells) && Disjoint(st)
  }

  // What the broker waits for is the ledger and what is under way, minus what it has just been told.
  ghost predicate Faithful(st: Stages, keys: set<nat>, broker: Broker) {
    && !broker.violated
    && (broker.alive ==>
          broker.unsettled == keys + TagSet(broker.transit) - if broker.applied then FlightTags(st) else {})
  }

  // Nothing is settled uncalled for: by itself as the embedder asked, cumulatively if it asked for an
  // acknowledgement or for a settle-through at least that far.
  ghost predicate Called(st: Stages, asks: set<Ask>, through: nat) {
    && (forall c :: c in st.mail && c.Settle? ==> Ask(c.token.tag, c.settlement) in asks)
    && (forall t :: t in st.batch ==> Ask(t, Ack) in asks)
    && (forall w :: Individual(st, w) ==> Ask(w.token.tag, w.settlement) in asks)
    && (forall th, a :: Cumulative(st, th) && a in th.affected ==> Ask(a.tag, Ack) in asks || a.tag <= through)
  }

  ghost predicate Rules(l: Lane) {
    var st, keys, past := l.ch.stages, l.ch.ledger.pending.Keys, l.env.past;
    && Called(st, past.asks, past.through)
    && (past.crossed ==> past.overlapped) && (past.overlapped || past.stray ==> past.explicit)
    && (!past.crossed ==> Climbs(l.ch.ledger.ackedPrefix, st))
    && (Peaceful(past) && !l.ch.cfg.earlyAck ==> Orderly(st, keys, l.ch.cells) && Faithful(st, keys, l.env.broker))
    && (Clean(past) && !l.ch.cfg.earlyAck ==> Apart(st, keys, l.ch.cells))
  }

  // Proofs look into `Disciplined` only where they say so.
  predicate Look(k: int) {
    true
  }

  ghost predicate Disciplined(l: Lane) {
    forall k {:trigger Look(k)} :: Look(k) ==> Rules(l)
  }

  lemma LookAtRules(l: Lane)
    requires Disciplined(l)
    ensures Rules(l)
  {
    assert Look(0);
  }

  // ---------------------------------------------------------------- flush-driven runs

  // Each claimed tag stands in exactly one stage.
  ghost predicate Partitioned(st: Stages, keys: set<nat>) {
    && st.throughQueue == []
    && st.batch.Keys !! WorkTags(st.queue) && st.batch.Keys !! FlightTags(st)
    && WorkTags(st.queue) !! FlightTags(st)
    && (forall i, j :: 0 <= i < j < |st.queue| ==> st.queue[i].token.tag != st.queue[j].token.tag)
    && st.batch.Keys <= keys && WorkTags(st.queue) <= keys && FlightTags(st) <= keys
    && (forall th, i, j :: th in st.throughs && 0 <= i < j < |th.affected| ==>
          th.affected[i].tag != th.affected[j].tag)
  }

  predicate Asked(requested: map<nat, Settlement>, tag: nat, settlement: Settlement) {
    tag in requested && requested[tag] == settlement
  }

  // A staged token was asked for, and a cumulative one only by plain acknowledgements.
  ghost predicate Requested(st: Stages, requested: map<nat, Settlement>) {
    && (forall t :: t in st.batch ==> Asked(requested, t, Ack))
    && (forall w :: w in st.queue ==> Asked(requested, w.token.tag, w.settlement))
    && (forall w :: w in st.settlements ==> Asked(requested, w.token.tag, w.settlement))
    && (forall th, a :: th in st.throughs && a in th.affected ==> Asked(requested, a.tag, Ack))
  }

  // A mailed settlement is its token's only one, and nothing else has claimed the token.
  ghost predicate MailOnce(
      st: Stages, keys: set<nat>, cells: map<Token, Cell>, requested: map<nat, Settlement>)
  {
    && (forall i, j :: 0 <= i < j < |st.mail| && st.mail[i].Settle? && st.mail[j].Settle? ==>
          st.mail[i].token != st.mail[j].token)
    && (forall c :: c in st.mail && c.Settle? ==>
          && c.token.tag in keys && !Staged(st, c.token.tag)
          && Asked(requested, c.token.tag, c.settlement)
          && c.token in cells && cells[c.token] == Cell(TerminalOf(c.settlement), false))
  }

  // The actor holds exactly the staged tokens, and each still says what its settlement call made of it.
  ghost predicate Flagged(
      cfg: Config, st: Stages, keys: set<nat>, cells: map<Token, Cell>, handed: seq<TransportDelivery>,
      requested: map<nat, Settlement>)
    requires forall d :: d in handed ==> OwnToken(cfg, d) in cells
  {
    forall d :: d in handed ==>
      var cell := cells[OwnToken(cfg, d)];
      if d.tag in keys then
        && (cell.settling <==> Staged(st, d.tag))
        && (Staged(st, d.tag) ==> d.tag in requested && cell.state == TerminalOf(requested[d.tag]))
      else cell.state != Pending
  }

  ghost predicate Exact(l: Lane)
    requires Recorded(l)
  {
    var st, keys := l.ch.stages, l.ch.ledger.pending.Keys;
    && Partitioned(st, keys)
    && Requested(st, l.env.past.requested)
    && MailOnce(st, keys, l.ch.cells, l.env.past.requested)
    && Flagged(l.ch.cfg, st, keys, l.ch.cells, l.env.past.handed, l.env.past.requested)
  }

  ghost predicate Settled(l: Lane)
    requires Recorded(l)
  {
    Tracked(l) && Disciplined(l) && (!l.env.past.explicit && !l.ch.cfg.earlyAck ==> Exact(l))
  }

  // The invariant of a lane between two commands.
  ghost predicate Inv(l: Lane, waiting: seq<TransportDelivery>) {
    Core(l, waiting) && l.env.past.leaving == {} && Settled(l)
  }

  // The step from `l` to `m` keeps `good`, whatever is undelivered, and leaves that alone.
  ghost predicate Preserves(good: (Lane, seq<TransportDelivery>) -> bool, l: Lane, m: Lane) {
    && m.ch.cfg == l.ch.cfg && m.ch.intake.buffer == l.ch.intake.buffer
    && (forall waiting {:trigger good(l, waiting)} :: good(l, waiting) ==> good(m, waiting))
  }

  lemma PreservesTrans(good: (Lane, seq<TransportDelivery>) -> bool, l: Lane, m: Lane, n: Lane)
    requires Preserves(good, l, m) && Preserves(good, m, n)
    ensures Preserves(good, l, n)
  {
    forall waiting | good(l, waiting) ensures good(n, waiting) {
      assert good(m, waiting);
    }
  }
}
