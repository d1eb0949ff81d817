/**
 The embedder's own settle-through: the fence, the walk over the ledger prefix, and what an
 accepted one stages.
 */
module Throughs {
  import opened Options
  import opened Deliveries
  import opened Lanes
  import opened StageTags
  import opened Settling
  import opened SettleFrames
  import opened SettleSteps
  import opened SettleProofs
  import opened Disciplines
  import opened ClaimProofs

  datatype Result<T> = Ok(value: T) | Err(kind: ErrorKind)

  /** The tokens of the ledger entries above the watermark up to `high`, if they are contiguous,
      pending and handed over; otherwise what is wrong with the first one that is not. */
  function Walk(ledger: Ledger, high: nat): Result<seq<Token>>
    decreases high
  {
    if high <= ledger.ackedPrefix then Ok([])
    else
      var before := Walk(ledger, high - 1);
      if before.Err? then before
      else if high !in ledger.pending then Err(Transport)
      else if ledger.pending[high].state != Pending then Err(AlreadySettled)
      else
        match ledger.pending[high].token
        case None => Err(Transport)
        case Some(token) => Ok(before.value + [token])
  }

  // The walk succeeds exactly when every tag of the prefix is in the ledger, pending, and has a token; a
  // delivery whose hand-off failed has one too.
  lemma {:induction false} WalkOk(ledger: Ledger, high: nat)
    ensures Walk(ledger, high).Ok? <==>
              forall t: nat :: ledger.ackedPrefix < t <= high ==>
                t in ledger.pending && ledger.pending[t].state == Pending && ledger.pending[t].token.Some?
    decreases high
  {
    if high > ledger.ackedPrefix {
      WalkOk(ledger, high - 1);
    }
  }

  predicate Holds(ledger: Ledger, tag: nat, token: Token) {
    tag in ledger.pending && ledger.pending[tag].token == Some(token)
  }

  // `tokens` are the ledger's tokens above the watermark, one per tag.
  ghost predicate Spells(ledger: Ledger, tokens: seq<Token>) {
    forall i :: 0 <= i < |tokens| ==> Holds(ledger, ledger.ackedPrefix + 1 + i, tokens[i])
  }

  lemma {:induction false} WalkTokens(ledger: Ledger, high: nat, tokens: seq<Token>)
    requires Walk(ledger, high) == Ok(tokens)
    ensures Spells(ledger, tokens)
    ensures |tokens| == if high <= ledger.ackedPrefix then 0 else high - ledger.ackedPrefix
    decreases high
  {
    if high > ledger.ackedPrefix {
      var before := Walk(ledger, high - 1).value;
      WalkTokens(ledger, high - 1, before);
      assert forall i :: 0 <= i < |before| ==> tokens[i] == before[i];
    }
  }

  function LiveOnly(cfg: Config, tokens: seq<Token>): seq<Token> {
    if tokens == [] then [] else
      var last := tokens[|tokens| - 1];
      LiveOnly(cfg, tokens[..|tokens| - 1]) + if last.identity == cfg.identity then [last] else []
  }

  lemma {:induction false} LiveOnlyAll(cfg: Config, tokens: seq<Token>)
    requires forall a :: a in tokens ==> a.identity == cfg.identity
    ensures LiveOnly(cfg, tokens) == tokens
  {
    if tokens != [] {
      LiveOnlyAll(cfg, tokens[..|tokens| - 1]);
    }
  }

  // Why a settle-through is refused before the ledger is walked.
  function Fence(ch: Channel, token: Token): Option<ErrorKind>
    requires token in ch.cells
  {
    if ch.cells[token].state != Pending then Some(AlreadySettled)
    else if ch.cells[token].settling then Some(AlreadySettling)
    else if token.identity != ch.cfg.identity then Some(StaleGeneration)
    else if token.tag <= ch.ledger.ackedPrefix then Some(AlreadySettled)
    else None
  }

  // What the walk has found, without tokens of other generations.
  function Sifted(cfg: Config, walk: Result<seq<Token>>): Result<seq<Token>> {
    if walk.Err? then walk
    else if LiveOnly(cfg, walk.value) == [] then Err(StaleGeneration)
    else Ok(LiveOnly(cfg, walk.value))
  }

  function Verdict(ch: Channel, token: Token): Result<seq<Token>>
    requires token in ch.cells
  {
    match Fence(ch, token)
    case Some(kind) => Err(kind)
    case None => Sifted(ch.cfg, Walk(ch.ledger, token.tag))
  }

  function Flag(cells: map<Token, Cell>, tokens: seq<Token>): map<Token, Cell> {
    if tokens == [] then cells else
      var flagged, last := Flag(cells, tokens[..|tokens| - 1]), tokens[|tokens| - 1];
      if last in flagged then flagged[last := flagged[last].(settling := true)] else flagged
  }

  lemma {:induction false} FlagAt(cells: map<Token, Cell>, tokens: seq<Token>)
    ensures Flag(cells, tokens).Keys == cells.Keys
    ensures forall t :: t in cells ==>
              Flag(cells, tokens)[t] == if t in tokens then cells[t].(settling := true) else cells[t]
  {
    if tokens != [] {
      FlagAt(cells, tokens[..|tokens| - 1]);
    }
  }

  function StageThrough(st: Stages, th: Through): Stages {
    if st.inFlight then st.(throughQueue := st.throughQueue + [th])
    else st.(inFlight := true, throughs := st.throughs + [th])
  }

  function AcceptThrough(l: Lane, token: Token, affected: seq<Token>): Lane {
    Lane(
      l.ch.(cells := Flag(l.ch.cells, [token] + affected),
            stages := StageThrough(l.ch.stages, Through(token, affected))),
      Env(l.env.broker.(applied := l.env.broker.applied && l.ch.stages.inFlight),
          l.env.past.(
            explicit := true,
            through := if token.tag > l.env.past.through then token.tag else l.env.past.through,
            crossed := l.env.past.crossed || Listed(l.ch.stages, token.tag),
            overlapped := l.env.past.overlapped || !(TokenTags(affected) !! UnderWay(l.ch.stages)))))
  }

  function HandleThrough(l: Lane): Lane
    requires l.ch.stages.mail != [] && l.ch.stages.mail[0].token in l.ch.cells
  {
    var token := l.ch.stages.mail[0].token;
    var verdict := Verdict(l.ch, token);
    if verdict.Err? then PopMail(l) else AcceptThrough(PopMail(l), token, verdict.value)
  }

  // ---------------------------------------------------------------- what is staged

  lemma PrefixHanded(l: Lane, waiting: seq<TransportDelivery>, token: Token, t: nat)
    returns (d: TransportDelivery)
    requires Core(l, waiting) && l.env.past.leaving == {} && !l.ch.cfg.earlyAck
    requires Own(l.ch.cfg, l.env.past.handed, token)
    requires t in l.ch.ledger.pending && t <= token.tag
    ensures d in l.env.past.handed && d.tag == t
    ensures l.ch.ledger.pending[t].token == Some(OwnToken(l.ch.cfg, d))
  {
    if t in TagSet(waiting) {
      var w := TagSetFind(waiting, t);
      assert false;
    }
    d := TagSetFind(l.env.past.handed, t);
  }

  // One token per tag above the watermark, all in the embedder's hands.
  ghost predicate Contiguous(cfg: Config, handed: seq<TransportDelivery>, ledger: Ledger, tokens: seq<Token>) {
    forall i :: 0 <= i < |tokens| ==>
      && tokens[i].tag == ledger.ackedPrefix + 1 + i
      && tokens[i].tag in ledger.pending
      && Own(cfg, handed, tokens[i])
  }

  lemma WalkContiguous(l: Lane, waiting: seq<TransportDelivery>, token: Token)
    requires Core(l, waiting) && l.env.past.leaving == {} && !l.ch.cfg.earlyAck
    requires Own(l.ch.cfg, l.env.past.handed, token)
    requires Walk(l.ch.ledger, token.tag).Ok?
    ensures Contiguous(l.ch.cfg, l.env.past.handed, l.ch.ledger, Walk(l.ch.ledger, token.tag).value)
  {
    var ledger, walk := l.ch.ledger, Walk(l.ch.ledger, token.tag).value;
    WalkTokens(ledger, token.tag, walk);
    forall i | 0 <= i < |walk|
      ensures walk[i].tag == ledger.ackedPrefix + 1 + i && walk[i].tag in ledger.pending
           && Own(l.ch.cfg, l.env.past.handed, walk[i])
    {
      var t := ledger.ackedPrefix + 1 + i;
      assert Holds(ledger, t, walk[i]);
      var d := PrefixHanded(l, waiting, token, t);
    }
  }

  lemma ContiguousCovers(
      cfg: Config, handed: seq<TransportDelivery>, ledger: Ledger, token: Token, tokens: seq<Token>)
    requires Contiguous(cfg, handed, ledger, tokens) && Ascending(handed)
    requires |tokens| == token.tag - ledger.ackedPrefix > 0 && Own(cfg, handed, token)
    requires forall t :: t in ledger.pending ==> ledger.ackedPrefix < t
    ensures Covers(cfg, handed, ledger.pending.Keys, Through(token, tokens))
  {
    if token != tokens[|tokens| - 1] {
      OwnTagsDiffer(cfg, handed, token, tokens[|tokens| - 1]);
    }
    forall t | t in ledger.pending && t <= token.tag ensures t in TokenTags(tokens) {
      var i := t - ledger.ackedPrefix - 1;
      assert tokens[i].tag == t;
      TokenTagsHas(tokens, tokens[i]);
    }
  }

  /** An accepted settle-through stages exactly the tokens the embedder holds for the tags between the
      watermark and its target, every one of them made for this channel, its own token last. */
  lemma AcceptedCovers(l: Lane, waiting: seq<TransportDelivery>, token: Token)
    requires Core(l, waiting) && l.env.past.leaving == {} && token in l.ch.cells
    requires Live(l.ch.cfg, token) ==> Own(l.ch.cfg, l.env.past.handed, token)
    requires token.subscription == l.ch.cfg.id
    requires Verdict(l.ch, token).Ok?
    ensures !l.ch.cfg.earlyAck
    ensures var affected := Verdict(l.ch, token).value;
            && Covers(l.ch.cfg, l.env.past.handed, l.ch.ledger.pending.Keys, Through(token, affected))
            && |affected| == token.tag - l.ch.ledger.ackedPrefix
            && Contiguous(l.ch.cfg, l.env.past.handed, l.ch.ledger, affected)
  {
    var walk := Walk(l.ch.ledger, token.tag).value;
    OwnTokenOf(l.ch.cfg, l.env.past.handed, token);
    assert !l.ch.cfg.earlyAck;
    WalkContiguous(l, waiting, token);
    WalkTokens(l.ch.ledger, token.tag, walk);
    LiveOnlyAll(l.ch.cfg, walk);
    ContiguousCovers(l.ch.cfg, l.env.past.handed, l.ch.ledger, token, walk);
  }

  lemma WalkSucceedsIff(l: Lane, waiting: seq<TransportDelivery>, token: Token)
    requires Core(l, waiting) && l.env.past.leaving == {} && !l.ch.cfg.earlyAck
    requires Own(l.ch.cfg, l.env.past.handed, token)
    ensures Walk(l.ch.ledger, token.tag).Ok?
            <==> forall t: nat :: l.ch.ledger.ackedPrefix < t <= token.tag ==> t in l.ch.ledger.pending
  {
    WalkOk(l.ch.ledger, token.tag);
    forall t | t in l.ch.ledger.pending && t <= token.tag ensures l.ch.ledger.pending[t].token.Some? {
      var d := PrefixHanded(l, waiting, token, t);
    }
  }

  lemma WalkIsLive(l: Lane, waiting: seq<TransportDelivery>, token: Token)
    requires Core(l, waiting) && l.env.past.leaving == {} && !l.ch.cfg.earlyAck
    requires Own(l.ch.cfg, l.env.past.handed, token) && token.tag > l.ch.ledger.ackedPrefix
    requires Walk(l.ch.ledger, token.tag).Ok?
    ensures LiveOnly(l.ch.cfg, Walk(l.ch.ledger, token.tag).value) != []
  {
    var walk := Walk(l.ch.ledger, token.tag).value;
    WalkContiguous(l, waiting, token);
    WalkTokens(l.ch.ledger, token.tag, walk);
    LiveOnlyAll(l.ch.cfg, walk);
  }

  /** A settle-through of a token the embedder holds is accepted if and only if the token is free and
      no delivery between the watermark and it has been settled yet; the rest of the lane's state,
      other settlements under way included, plays no part. */
  lemma AcceptedIff(l: Lane, waiting: seq<TransportDelivery>, token: Token)
    requires Inv(l, waiting) && Own(l.ch.cfg, l.env.past.handed, token)
    ensures token in l.ch.cells
    ensures Verdict(l.ch, token).Ok?
            <==> && l.ch.cells[token] == Cell(Pending, false) && token.tag > l.ch.ledger.ackedPrefix
                 && forall t: nat :: l.ch.ledger.ackedPrefix < t <= token.tag ==> t in l.ch.ledger.pending
  {
    OwnTokenOf(l.ch.cfg, l.env.past.handed, token);
    if !l.ch.cfg.earlyAck {
      WalkSucceedsIff(l, waiting, token);
      if token.tag > l.ch.ledger.ackedPrefix && Walk(l.ch.ledger, token.tag).Ok? {
        WalkIsLive(l, waiting, token);
      }
    }
  }

  lemma StageThroughOwned(cfg: Config, st: Stages, handed: seq<TransportDelivery>, keys: set<nat>, th: Through)
    requires Serial(st) && Owned(cfg, st, handed, keys) && Covers(cfg, handed, keys, th) && !cfg.earlyAck
    ensures Serial(StageThrough(st, th)) && Owned(cfg, StageThrough(st, th), handed, keys)
  {
  }

  lemma StageThroughAdds(st: Stages, th: Through)
    ensures forall t :: Staged(st, t) ==> Staged(StageThrough(st, th), t)
    ensures forall t :: t in TokenTags(th.affected) ==> Staged(StageThrough(st, th), t)
  {
    assert (st.throughQueue + [th])[..|st.throughQueue|] == st.throughQueue;
    assert (st.throughs + [th])[..|st.throughs|] == st.throughs;
  }

  lemma AcceptProgressing(
      cfg: Config, st: Stages, next: Stages, keys: set<nat>, cells: map<Token, Cell>,
      handed: seq<TransportDelivery>, tokens: seq<Token>)
    requires forall d :: d in handed ==> OwnToken(cfg, d) in cells
    requires Progressing(cfg, st, keys, cells, handed) && next.mail == st.mail
    requires forall t :: Staged(st, t) ==> Staged(next, t)
    requires forall a :: a in tokens ==> Staged(next, a.tag)
    ensures Flag(cells, tokens).Keys == cells.Keys
    ensures Progressing(cfg, next, keys, Flag(cells, tokens), handed)
  {
    FlagAt(cells, tokens);
    assert forall token :: Mailed(st, token) <==> Mailed(next, token);
  }

  lemma AcceptTracked(l: Lane, token: Token, affected: seq<Token>)
    requires Recorded(l) && Tracked(l) && !l.ch.cfg.earlyAck
    requires Covers(l.ch.cfg, l.env.past.handed, l.ch.ledger.pending.Keys, Through(token, affected))
    ensures Recorded(AcceptThrough(l, token, affected)) && Tracked(AcceptThrough(l, token, affected))
  {
    var th, st, keys := Through(token, affected), l.ch.stages, l.ch.ledger.pending.Keys;
    StageThroughOwned(l.ch.cfg, st, l.env.past.handed, keys, th);
    StageThroughAdds(st, th);
    forall a | a in [token] + affected ensures Staged(StageThrough(st, th), a.tag) {
      TokenTagsHas(affected, a);
    }
    AcceptProgressing(l.ch.cfg, st, StageThrough(st, th), keys, l.ch.cells, l.env.past.handed, [token] + affected);
  }

  lemma AcceptCore(l: Lane, waiting: seq<TransportDelivery>, token: Token, affected: seq<Token>)
    requires Core(l, waiting) && !l.ch.cfg.earlyAck
    ensures Core(AcceptThrough(l, token, affected), waiting)
  {
    FlagAt(l.ch.cells, [token] + affected);
    CoreCells(l, AcceptThrough(l, token, affected), waiting);
  }

  // ---------------------------------------------------------------- what an accepted one collides with

  // A free token and the ledger prefix up to it.
  ghost predicate Acceptable(l: Lane, token: Token, affected: seq<Token>) {
    && !l.ch.cfg.earlyAck && token in l.ch.cells && !l.ch.cells[token].settling
    && token.tag > l.ch.ledger.ackedPrefix
    && Covers(l.ch.cfg, l.env.past.handed, l.ch.ledger.pending.Keys, Through(token, affected))
    && Distinct(affected) && (forall a :: a in affected ==> a.tag in l.ch.ledger.pending)
  }

  lemma JoinedThroughs(st: Stages, th: Through)
    requires Serial(st)
    ensures forall w :: Individual(StageThrough(st, th), w) <==> Individual(st, w)
    ensures forall q :: Cumulative(StageThrough(st, th), q) <==> Cumulative(st, q) || q == th
    ensures st.inFlight ==> StageThrough(st, th).throughs == st.throughs
    ensures !st.inFlight ==> StageThrough(st, th).throughQueue == [] && st.queue == []
    ensures forall q :: Cumulative(st, q) ==> st.inFlight
  {
  }

  // Every staged target at or above a ledger entry lists it.
  lemma UnlistedAbove(cfg: Config, st: Stages, handed: seq<TransportDelivery>, keys: set<nat>, t: nat)
    requires Owned(cfg, st, handed, keys) && t in keys
    ensures !Listed(st, t) <==> forall th :: Cumulative(st, th) ==> th.token.tag < t
  {
    forall th | Cumulative(st, th) && th.token.tag >= t ensures Listed(st, t) {
      var a := TokenTagsFind(th.affected, t);
      CumulativeStaged(st, th, a);
    }
    if Listed(st, t) {
      var th, a := ListedFind(st, t);
    }
  }

  lemma ListedFind(st: Stages, t: nat) returns (th: Through, a: Token)
    requires Listed(st, t)
    ensures Cumulative(st, th) && a in th.affected && a.tag == t
  {
    if t in ThroughTags(st.throughs) {
      th, a := ThroughTagsFind(st.throughs, t);
    } else {
      th, a := ThroughTagsFind(st.throughQueue, t);
    }
  }

  // The targets go on climbing exactly when the new one is above all of them.
  lemma TargetsClimb(low: nat, st: Stages, th: Through)
    requires Climbs(low, st) && Serial(st) && low < th.token.tag
    ensures Climbs(low, StageThrough(st, th)) <==> forall q :: Cumulative(st, q) ==> q.token.tag < th.token.tag
  {
    var next := StageThrough(st, th);
    JoinedThroughs(st, th);
    if Climbs(low, next) {
      forall q | Cumulative(st, q) ensures q.token.tag < th.token.tag {
        assert next.throughQueue[|st.throughQueue|] == th;
        if q in st.throughQueue {
          var i :| 0 <= i < |st.throughQueue| && st.throughQueue[i] == q;
          assert next.throughQueue[i] == q;
        }
      }
    }
  }

  /** The fence does not look at the cumulative settlements under way: what it lets through keeps the
      watermark climbing if and only if none of them lists the token. */
  lemma AcceptClimbsIff(l: Lane, token: Token, affected: seq<Token>)
    requires Recorded(l) && Tracked(l) && Climbs(l.ch.ledger.ackedPrefix, l.ch.stages)
    requires Acceptable(l, token, affected)
    ensures Climbs(l.ch.ledger.ackedPrefix, AcceptThrough(l, token, affected).ch.stages)
            <==> !Listed(l.ch.stages, token.tag)
  {
    assert token in affected;
    UnlistedAbove(l.ch.cfg, l.ch.stages, l.env.past.handed, l.ch.ledger.pending.Keys, token.tag);
    TargetsClimb(l.ch.ledger.ackedPrefix, l.ch.stages, Through(token, affected));
  }

  lemma AcceptOrderly(
      st: Stages, th: Through, keys: set<nat>, cells: map<Token, Cell>, flagged: map<Token, Cell>)
    requires Serial(st) && Orderly(st, keys, cells) && Sole(st, th.token)
    requires th.token.tag in keys && !IsHeld(cells, th.token) && IsHeld(flagged, th.token)
    requires forall t :: IsHeld(cells, t) ==> IsHeld(flagged, t)
    ensures Orderly(StageThrough(st, th), keys, flagged)
  {
    var next := StageThrough(st, th);
    JoinedThroughs(st, th);
    assert Waits(next);
    assert Backed(next, keys, flagged) && Single(next, keys);
  }

  lemma OutsideUnderWay(st: Stages, tags: set<nat>)
    requires tags !! UnderWay(st)
    ensures forall w :: Individual(st, w) ==> w.token.tag !in tags
    ensures forall th :: Cumulative(st, th) ==> TokenTags(th.affected) !! tags
  {
    forall w | Individual(st, w) ensures w.token.tag !in tags {
      if w in st.queue {
        WorkTagsHas(st.queue, w);
      } else {
        WorkTagsHas(st.settlements, w);
      }
    }
    forall th, t | Cumulative(st, th) && t in TokenTags(th.affected) ensures t !in tags {
      var a := TokenTagsFind(th.affected, t);
      CumulativeStaged(st, th, a);
    }
  }

  lemma AcceptDisjoint(st: Stages, th: Through)
    requires Serial(st) && Disjoint(st) && TokenTags(th.affected) !! UnderWay(st)
    ensures Disjoint(StageThrough(st, th))
  {
    JoinedThroughs(st, th);
    OutsideUnderWay(st, TokenTags(th.affected));
    forall i | 0 <= i < |st.throughQueue|
      ensures TokenTags(st.throughQueue[i].affected) !! TokenTags(th.affected)
    {
      assert Cumulative(st, st.throughQueue[i]);
    }
  }

  lemma AcceptApart(
      st: Stages, th: Through, keys: set<nat>, cells: map<Token, Cell>, flagged: map<Token, Cell>)
    requires Serial(st) && Apart(st, keys, cells) && TokenTags(th.affected) !! UnderWay(st)
    requires Distinct(th.affected)
    requires forall a :: a in th.affected ==> a.tag in keys && IsHeld(flagged, a)
    requires forall t :: IsHeld(cells, t) ==> IsHeld(flagged, t)
    ensures Apart(StageThrough(st, th), keys, flagged)
  {
    AcceptDisjoint(st, th);
    JoinedThroughs(st, th);
  }

  lemma AcceptCalled(st: Stages, th: Through, asks: set<Ask>, through: nat, reach: nat)
    requires Serial(st) && Called(st, asks, through) && through <= reach && th.token.tag <= reach
    requires forall a :: a in th.affected ==> a.tag <= th.token.tag
    ensures Called(StageThrough(st, th), asks, reach)
  {
    JoinedThroughs(st, th);
  }

  lemma FlagHolds(l: Lane, tokens: seq<Token>)
    requires Recorded(l) && forall a :: a in tokens ==> Own(l.ch.cfg, l.env.past.handed, a)
    ensures forall a :: a in tokens ==> IsHeld(Flag(l.ch.cells, tokens), a)
    ensures forall t :: IsHeld(l.ch.cells, t) ==> IsHeld(Flag(l.ch.cells, tokens), t)
  {
    FlagAt(l.ch.cells, tokens);
    forall a | a in tokens ensures a in l.ch.cells {
      OwnTokenOf(l.ch.cfg, l.env.past.handed, a);
    }
  }

  // Without an overlap nothing is on its way to the broker twice; without a listed target, nothing comes late.
  lemma AcceptRules(l: Lane, token: Token, affected: seq<Token>)
    requires Recorded(l) && Tracked(l) && Rules(l) && Ascending(l.env.past.handed)
    requires Acceptable(l, token, affected)
    ensures Rules(AcceptThrough(l, token, affected))
  {
    var st, keys, th := l.ch.stages, l.ch.ledger.pending.Keys, Through(token, affected);
    var m := AcceptThrough(l, token, affected);
    assert token in affected;
    TokenTagsHas(affected, token);
    FlagHolds(l, [token] + affected);
    AcceptCalled(st, th, l.env.past.asks, l.env.past.through, m.env.past.through);
    if !m.env.past.crossed {
      AcceptClimbsIff(l, token, affected);
    }
    if Peaceful(m.env.past) {
      OwnIsSole(l.ch.cfg, st, l.env.past.handed, keys, token);
      AcceptOrderly(st, th, keys, l.ch.cells, m.ch.cells);
    }
    if Clean(m.env.past) {
      AcceptApart(st, th, keys, l.ch.cells, m.ch.cells);
    }
  }

  lemma AcceptInv(l: Lane, waiting: seq<TransportDelivery>, token: Token, affected: seq<Token>)
    requires Inv(l, waiting) && Acceptable(l, token, affected)
    ensures Inv(AcceptThrough(l, token, affected), waiting)
  {
    AcceptCore(l, waiting, token, affected);
    AcceptTracked(l, token, affected);
    LookAtRules(l);
    AcceptRules(l, token, affected);
    RulesMakeDiscipline(AcceptThrough(l, token, affected));
  }

  lemma AcceptKeeps(l: Lane, token: Token, affected: seq<Token>)
    requires l.ch.stages.mail != [] && l.ch.stages.mail[0].SettleThrough?
    requires Acceptable(l, token, affected)
    ensures Preserves(Inv, l, AcceptThrough(PopMail(l), token, affected))
  {
    var m := PopMail(l);
    PopKeeps(l);
    forall waiting | Inv(m, waiting) ensures Inv(AcceptThrough(m, token, affected), waiting) {
      AcceptInv(m, waiting, token, affected);
    }
    PreservesTrans(Inv, l, m, AcceptThrough(m, token, affected));
  }

  lemma PopKeeps(l: Lane)
    requires l.ch.stages.mail != [] && l.ch.stages.mail[0].SettleThrough?
    ensures Preserves(Inv, l, PopMail(l))
  {
    forall waiting | Inv(l, waiting) ensures Inv(PopMail(l), waiting) {
      PopMailInv(l, waiting);
    }
  }

  lemma MailAccepted(l: Lane, waiting: seq<TransportDelivery>, token: Token)
    requires Inv(l, waiting)
    requires l.ch.stages.mail != [] && l.ch.stages.mail[0] == SettleThrough(token)
    ensures token in l.ch.cells
    ensures Verdict(l.ch, token).Ok? ==> Acceptable(l, token, Verdict(l.ch, token).value)
  {
    assert SettleThrough(token) in l.ch.stages.mail;
    if Verdict(l.ch, token).Ok? {
      AcceptedCovers(l, waiting, token);
    }
  }

  // The actor handles a settle-through: it stages the prefix, or nothing at all.
  lemma HandleThroughInv(l: Lane, waiting: seq<TransportDelivery>)
    requires Inv(l, waiting)
    requires l.ch.stages.mail != [] && l.ch.stages.mail[0].SettleThrough?
    ensures l.ch.stages.mail[0].token in l.ch.cells
    ensures Inv(HandleThrough(l), waiting)
  {
    var token := l.ch.stages.mail[0].token;
    MailAccepted(l, waiting, token);
    if Verdict(l.ch, token).Ok? {
      AcceptKeeps(l, token, Verdict(l.ch, token).value);
    } else {
      PopKeeps(l);
    }
  }
}
