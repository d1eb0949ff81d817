/**
 What becomes of a collision. A settle-through accepted for a token that a staged cumulative
 settlement lists, or a rejection or release that comes too late, makes the broker close the
 channel once everything ahead of it has succeeded; the former moves the watermark back too. A
 settle-through that lists a token already on its way releases that token's bytes twice.
 */
module Collisions {
  import opened Deliveries
  import opened Lanes
  import opened StageTags
  import opened Dispatching
  import opened Settling
  import opened SettleSteps
  import opened Disciplines
  import opened ClaimProofs
  import opened SettleProofs
  import opened WireProofs
  import opened Completing
  import opened LandingProofs
  import opened CompletionProofs
  import opened Throughs
  import opened LaneMaps

  // ---------------------------------------------------------------- success after success

  predicate Busy(st: Stages) {
    st.settlements != [] || st.throughs != []
  }

  // The operation in flight has reached the broker.
  function Reported(l: Lane): Lane
    requires Busy(l.ch.stages)
  {
    if l.env.broker.applied then l else Apply(l)
  }

  function Success(ch: Channel): Landing
    requires Busy(ch.stages)
  {
    if ch.stages.settlements != [] then LandWork(ch, ch.stages.settlements[0], Done)
    else LandThrough(ch, ch.stages.throughs[0], Done)
  }

  // The flight reaches the broker and its success comes back.
  function Succeed(l: Lane): Lane
    requires Busy(l.ch.stages)
  {
    Finish(Begin(Reported(l), Success(l.ch)), Success(l.ch))
  }

  // Everything under way.
  function Pipeline(st: Stages): nat {
    |st.settlements| + |st.throughs| + |st.queue| + |st.throughQueue|
  }

  function Successes(l: Lane, n: nat): Lane
    decreases n
  {
    if n == 0 || !Busy(l.ch.stages) then l else Successes(Succeed(l), n - 1)
  }

  lemma SuccessLands(l: Lane)
    requires Busy(l.ch.stages)
    ensures Lands(Reported(l), Success(l.ch))
  {
    assert if l.ch.stages.settlements != [] then WorkAnswer(Reported(l).env.broker, l.ch.stages.settlements[0], Done)
           else ThroughAnswer(Reported(l).env.broker, Done);
  }

  // One success, field by field.
  lemma SucceedShape(l: Lane)
    requires Busy(l.ch.stages)
    ensures var m, landing := Succeed(l), Success(l.ch);
            && m.ch.cfg == l.ch.cfg && m.ch.stages == Drained(Landed(l.ch.stages))
            && m.ch.ledger == Ledger(l.ch.ledger.pending - landing.removed, landing.prefix)
            && m.ch.cells == Mark(l.ch.cells, landing.tokens, landing.final)
            && m.ch.intake == FreeAll(Land(Reported(l)), landing.tokens).ch.intake
            && m.env.broker == Reported(l).env.broker.(applied := false)
            && m.env.past == l.env.past.(gone := m.env.past.gone, leaving := m.env.past.leaving)
            && m.env.past.gone == l.env.past.gone + TokenTags(landing.tokens)
  {
    FreeAllShape(Land(Reported(l)), Success(l.ch).tokens);
  }

  // Where settlements do not collide, the broker accepts what it is told and the channel lives on.
  lemma ReportedLives(l: Lane, waiting: seq<TransportDelivery>)
    requires Inv(l, waiting) && Busy(l.ch.stages) && l.env.broker.alive && Peaceful(l.env.past)
    ensures Inv(Reported(l), waiting) && Reported(l).env.broker.alive
  {
    if !l.env.broker.applied {
      ApplyInv(l, waiting);
      LookAtRules(Apply(l));
    }
  }

  lemma SucceedInv(l: Lane, waiting: seq<TransportDelivery>)
    requires Inv(l, waiting) && Busy(l.ch.stages) && l.env.broker.alive && Peaceful(l.env.past)
    ensures Inv(Succeed(l), waiting) && Succeed(l).env.broker.alive && Peaceful(Succeed(l).env.past)
    ensures !Succeed(l).env.broker.applied && Pipeline(Succeed(l).ch.stages) < Pipeline(l.ch.stages)
  {
    var landing := Success(l.ch);
    ReportedLives(l, waiting);
    SuccessLands(l);
    CompletionBegins(Reported(l), waiting, landing);
    DispatchedSame(Begin(Reported(l), landing));
    CompletionInv(Reported(l), waiting, landing, Begin(Reported(l), landing), waiting);
    SucceedShape(l);
    PipelineShrinks(l.ch.stages);
  }

  lemma PipelineShrinks(st: Stages)
    requires Serial(st) && Busy(st)
    ensures Pipeline(Drained(Landed(st))) == Pipeline(st) - 1
  {
  }

  lemma FirstWork(ws: seq<Work>)
    requires ws != []
    ensures WorkTags(ws) == WorkTags([ws[0]]) + WorkTags(ws[1..])
  {
    assert [ws[0]] + ws[1..] == ws;
    WorkTagsConcat([ws[0]], ws[1..]);
  }

  lemma FirstThrough(ths: seq<Through>)
    requires ths != []
    ensures ThroughTags(ths) == ThroughTags([ths[0]]) + ThroughTags(ths[1..])
  {
    assert [ths[0]] + ths[1..] == ths;
    ThroughTagsConcat([ths[0]], ths[1..]);
  }

  // What is launched next was under way before.
  lemma DrainedUnderWay(st: Stages)
    requires Idle(st)
    ensures UnderWay(Drained(st)) == WorkTags(st.queue) + ThroughTags(st.throughQueue)
  {
    if st.queue != [] {
      FirstWork(st.queue);
      assert st.settlements + [st.queue[0]] == [st.queue[0]];
    } else if st.throughQueue != [] {
      FirstThrough(st.throughQueue);
      assert st.throughs + [st.throughQueue[0]] == [st.throughQueue[0]];
    }
  }

  lemma LandedUnderWay(st: Stages)
    requires Serial(st) && Busy(st)
    ensures UnderWay(st) == FlightTags(st) + UnderWay(Drained(Landed(st)))
  {
    DrainedUnderWay(Landed(st));
  }

  lemma LandedTargets(st: Stages, th: Through)
    requires Serial(st) && Cumulative(st, th)
    ensures th in st.throughs || Cumulative(Drained(Landed(st)), th)
  {
  }

  // What one success does to the stages, the watermark and the settled tags.
  ghost predicate Moves(l: Lane, m: Lane) {
    var st := l.ch.stages;
    && m.ch.cfg == l.ch.cfg && m.ch.stages == Drained(Landed(st)) && m.env.past.handed == l.env.past.handed
    && l.ch.ledger.ackedPrefix <= m.ch.ledger.ackedPrefix
    && (forall th :: th in st.throughs ==> th.token.tag == m.ch.ledger.ackedPrefix)
    && m.env.past.gone == l.env.past.gone + FlightTags(st)
    && m.env.past.overlapped == l.env.past.overlapped && !m.env.broker.applied
  }

  lemma SuccessTags(st: Stages, ch: Channel)
    requires ch.stages == st && Serial(st) && Busy(st)
    ensures TokenTags(Success(ch).tokens) == FlightTags(st)
  {
    if st.settlements != [] {
      assert st.settlements == [st.settlements[0]];
      FlightWork(st, st.settlements[0]);
      assert [st.settlements[0].token][..0] == [];
    } else {
      assert st.throughs == [st.throughs[0]];
      FlightThrough(st, st.throughs[0]);
    }
  }

  lemma SucceedMoves(l: Lane)
    requires Serial(l.ch.stages) && Busy(l.ch.stages) && Climbs(l.ch.ledger.ackedPrefix, l.ch.stages)
    ensures Moves(l, Succeed(l))
  {
    SucceedShape(l);
    SuccessTags(l.ch.stages, l.ch);
    if l.ch.stages.throughs != [] {
      assert Cumulative(l.ch.stages, l.ch.stages.throughs[0]);
    }
  }

  // The channel lives and nothing has collided; proofs look into it only where they say so.
  ghost predicate Healthy(l: Lane, waiting: seq<TransportDelivery>) {
    forall k {:trigger Look(k)} :: Look(k) ==> Inv(l, waiting) && l.env.broker.alive && Peaceful(l.env.past)
  }

  lemma HealthySerial(l: Lane, waiting: seq<TransportDelivery>)
    requires Healthy(l, waiting)
    ensures Serial(l.ch.stages)
  {
    assert Look(0);
  }

  lemma HealthyStep(l: Lane, waiting: seq<TransportDelivery>)
    requires Healthy(l, waiting) && Busy(l.ch.stages)
    ensures Healthy(Succeed(l), waiting) && Pipeline(Succeed(l).ch.stages) == Pipeline(l.ch.stages) - 1
  {
    assert Look(0);
    SucceedInv(l, waiting);
    SucceedShape(l);
    PipelineShrinks(l.ch.stages);
  }

  lemma HealthyMoves(l: Lane, waiting: seq<TransportDelivery>)
    requires Healthy(l, waiting) && Busy(l.ch.stages)
    ensures Moves(l, Succeed(l))
  {
    assert Look(0);
    LookAtRules(l);
    SucceedMoves(l);
  }

  lemma HealthyNext(l: Lane, waiting: seq<TransportDelivery>) returns (m: Lane)
    requires Healthy(l, waiting) && Busy(l.ch.stages)
    ensures Healthy(m, waiting) && Moves(l, m) && Pipeline(m.ch.stages) == Pipeline(l.ch.stages) - 1
    ensures Successes(l, Pipeline(l.ch.stages)) == Successes(m, Pipeline(m.ch.stages))
  {
    m := Succeed(l);
    HealthyStep(l, waiting);
    HealthyMoves(l, waiting);
  }

  // Where everything that was under way has succeeded.
  ghost predicate Over(l: Lane, m: Lane) {
    && m.ch.cfg == l.ch.cfg && m.env.past.handed == l.env.past.handed
    && Pipeline(m.ch.stages) == 0 && !m.ch.stages.inFlight
    && l.ch.ledger.ackedPrefix <= m.ch.ledger.ackedPrefix
    && (forall th :: Cumulative(l.ch.stages, th) ==> th.token.tag <= m.ch.ledger.ackedPrefix)
    && m.env.past.gone == l.env.past.gone + UnderWay(l.ch.stages)
    && m.env.past.overlapped == l.env.past.overlapped
  }

  lemma OverSoon(l: Lane, m: Lane, n: Lane)
    requires Serial(l.ch.stages) && Busy(l.ch.stages) && Moves(l, m) && Over(m, n)
    ensures Over(l, n)
  {
    LandedUnderWay(l.ch.stages);
    forall th | Cumulative(l.ch.stages, th) && th !in l.ch.stages.throughs ensures Cumulative(m.ch.stages, th) {
      LandedTargets(l.ch.stages, th);
    }
  }

  /** Everything under way succeeds: the channel ends idle and healthy, all of it is settled and nothing
      else is, and the watermark has passed every staged target. */
  lemma {:induction false} AllSucceeds(l: Lane, waiting: seq<TransportDelivery>)
    requires Healthy(l, waiting)
    ensures Healthy(Successes(l, Pipeline(l.ch.stages)), waiting)
    ensures Over(l, Successes(l, Pipeline(l.ch.stages)))
    decreases Pipeline(l.ch.stages)
  {
    HealthySerial(l, waiting);
    if Busy(l.ch.stages) {
      var m := HealthyNext(l, waiting);
      AllSucceeds(m, waiting);
      OverSoon(l, m, Successes(m, Pipeline(m.ch.stages)));
    }
  }

  // ---------------------------------------------------------------- one more settlement in the line

  // Two lanes that differ in their tokens and in what they have staged at most.
  ghost predicate Alike(l: Lane, m: Lane) {
    && m.ch.cfg == l.ch.cfg && m.ch.intake == l.ch.intake && m.ch.ledger == l.ch.ledger
    && m.env.broker == l.env.broker
    && m.env.past.gone == l.env.past.gone && m.env.past.handed == l.env.past.handed
  }

  // `m` has one more cumulative settlement at the end of its line, which `l` goes through like `m`.
  ghost predicate Trails(l: Lane, m: Lane, q: Through) {
    Alike(l, m) && m.ch.stages == l.ch.stages.(throughQueue := l.ch.stages.throughQueue + [q])
  }

  // The line is through, and the last one has been launched.
  ghost predicate Launched(l: Lane, m: Lane, q: Through) {
    Alike(l, m) && m.ch.stages == l.ch.stages.(inFlight := true, throughs := [q])
  }

  lemma {:induction false} FreeAllBytes(l: Lane, tokens: seq<Token>)
    ensures FreeAll(l, tokens).ch.intake
         == l.ch.intake.(bufferedBytes := SatSub(l.ch.intake.bufferedBytes, TokenBytes(tokens)))
  {
    if tokens != [] {
      FreeAllBytes(l, tokens[..|tokens| - 1]);
    }
  }

  function TokenBytes(tokens: seq<Token>): nat {
    if tokens == [] then 0 else TokenBytes(tokens[..|tokens| - 1]) + tokens[|tokens| - 1].bytes
  }

  // Alike lanes with the same flight come out of its success alike.
  lemma SucceedAlike(l: Lane, m: Lane)
    requires Alike(l, m) && Busy(l.ch.stages)
    requires m.ch.stages.settlements == l.ch.stages.settlements && m.ch.stages.throughs == l.ch.stages.throughs
    ensures Alike(Succeed(l), Succeed(m))
    ensures Succeed(l).ch.stages == Drained(Landed(l.ch.stages)) && Succeed(m).ch.stages == Drained(Landed(m.ch.stages))
  {
    SucceedShape(l);
    SucceedShape(m);
    assert Success(l.ch) == Success(m.ch);
    FreeAllBytes(Land(Reported(l)), Success(l.ch).tokens);
    FreeAllBytes(Land(Reported(m)), Success(m.ch).tokens);
  }

  lemma LineMoves(st: Stages, next: Stages, q: Through)
    requires Serial(st) && Busy(st) && next == st.(throughQueue := st.throughQueue + [q])
    ensures var l, m := Drained(Landed(st)), Drained(Landed(next));
            if Pipeline(l) > 0 then m == l.(throughQueue := l.throughQueue + [q])
            else m == l.(inFlight := true, throughs := [q])
  {
    if st.queue == [] && st.throughQueue != [] {
      assert (st.throughQueue + [q])[1..] == st.throughQueue[1..] + [q];
    }
  }

  lemma TrailStep(l: Lane, m: Lane, q: Through)
    requires Serial(l.ch.stages) && Busy(l.ch.stages) && Trails(l, m, q)
    ensures if Pipeline(Succeed(l).ch.stages) > 0 then Trails(Succeed(l), Succeed(m), q)
            else Launched(Succeed(l), Succeed(m), q)
  {
    SucceedAlike(l, m);
    LineMoves(l.ch.stages, m.ch.stages, q);
  }

  lemma IdleOrBusy(st: Stages)
    requires Serial(st)
    ensures Busy(st) <==> Pipeline(st) > 0
  {
  }

  lemma {:induction false} TrailsToTheEnd(l: Lane, m: Lane, waiting: seq<TransportDelivery>, q: Through)
    requires Healthy(l, waiting) && Busy(l.ch.stages) && Trails(l, m, q)
    ensures var n := Pipeline(l.ch.stages); Launched(Successes(l, n), Successes(m, n), q)
    decreases Pipeline(l.ch.stages)
  {
    HealthySerial(l, waiting);
    HealthyStep(l, waiting);
    HealthySerial(Succeed(l), waiting);
    TrailStep(l, m, q);
    IdleOrBusy(Succeed(l).ch.stages);
    if Pipeline(Succeed(l).ch.stages) > 0 {
      TrailsToTheEnd(Succeed(l), Succeed(m), waiting, q);
    }
  }

  // ---------------------------------------------------------------- too late for the broker

  // What is settled for good, the broker does not wait for.
  lemma GoneUnsettled(l: Lane, waiting: seq<TransportDelivery>, t: nat)
    requires Healthy(l, waiting) && !l.env.broker.applied && !l.ch.cfg.earlyAck && t in l.env.past.gone
    ensures l.env.broker.alive && !l.env.broker.violated && t !in l.env.broker.unsettled
  {
    assert Look(0);
    LookAtRules(l);
    var a := TagSetFind(l.env.past.arrived, t);
    if t in TagSet(l.env.broker.transit) {
      var d := TagSetFind(l.env.broker.transit, t);
    }
  }

  // An accepted settle-through waits behind everything that is under way.
  lemma AcceptTrails(l: Lane, token: Token, affected: seq<Token>)
    requires Serial(l.ch.stages) && Busy(l.ch.stages)
    ensures Trails(l, AcceptThrough(l, token, affected), Through(token, affected))
  {
  }

  // A free token that is listed is below the target of the cumulative settlement listing it.
  lemma ListedBelow(l: Lane, waiting: seq<TransportDelivery>, token: Token) returns (th: Through)
    requires Inv(l, waiting) && Peaceful(l.env.past) && !l.ch.cfg.earlyAck
    requires Own(l.ch.cfg, l.env.past.handed, token) && !IsHeld(l.ch.cells, token)
    requires Listed(l.ch.stages, token.tag)
    ensures Cumulative(l.ch.stages, th) && token.tag < th.token.tag
  {
    LookAtRules(l);
    var a;
    th, a := ListedFind(l.ch.stages, token.tag);
    OwnIsSole(l.ch.cfg, l.ch.stages, l.env.past.handed, l.ch.ledger.pending.Keys, token);
  }

  lemma ListedUnderWay(st: Stages, t: nat)
    requires Serial(st) && Listed(st, t)
    ensures t in UnderWay(st) && Busy(st)
  {
  }

  // The lane once everything ahead of an accepted settle-through has succeeded.
  function Ahead(l: Lane, token: Token, affected: seq<Token>): Lane {
    Successes(AcceptThrough(l, token, affected), Pipeline(l.ch.stages))
  }

  lemma AheadLaunched(l: Lane, waiting: seq<TransportDelivery>, token: Token, affected: seq<Token>) returns (m: Lane)
    requires Healthy(l, waiting) && Busy(l.ch.stages)
    ensures m == Successes(l, Pipeline(l.ch.stages))
    ensures Healthy(m, waiting) && Over(l, m) && !m.env.broker.applied
    ensures Launched(m, Ahead(l, token, affected), Through(token, affected))
  {
    m := Successes(l, Pipeline(l.ch.stages));
    HealthySerial(l, waiting);
    AcceptTrails(l, token, affected);
    TrailsToTheEnd(l, AcceptThrough(l, token, affected), waiting, Through(token, affected));
    AllSucceeds(l, waiting);
    IdleUnapplied(m, waiting);
  }

  lemma IdleUnapplied(l: Lane, waiting: seq<TransportDelivery>)
    requires Healthy(l, waiting) && !l.ch.stages.inFlight
    ensures !l.env.broker.applied
  {
    assert Look(0);
  }

  /** The other half of the fence's gap: a settle-through accepted for a token that a staged cumulative
      settlement lists reaches the broker, when all before it succeeds, for a tag settled already, and its
      success moves the watermark back to it. */
  lemma CrossingIsFatal(l: Lane, waiting: seq<TransportDelivery>, token: Token, affected: seq<Token>)
    requires Inv(l, waiting) && l.env.broker.alive && Peaceful(l.env.past)
    requires Acceptable(l, token, affected) && Listed(l.ch.stages, token.tag)
    ensures var m := Ahead(l, token, affected);
            && m.ch.stages.settlements == [] && m.ch.stages.throughs == [Through(token, affected)]
            && m.env.broker.alive && !m.env.broker.violated && Apply(m).env.broker.violated
            && Succeed(m).ch.ledger.ackedPrefix == token.tag < m.ch.ledger.ackedPrefix
  {
    assert Healthy(l, waiting);
    assert token in affected;
    ListedUnderWay(l.ch.stages, token.tag);
    var th := ListedBelow(l, waiting, token);
    CrossingEnds(l, waiting, token, affected, th);
  }

  lemma CrossingEnds(l: Lane, waiting: seq<TransportDelivery>, token: Token, affected: seq<Token>, th: Through)
    requires Healthy(l, waiting) && Busy(l.ch.stages) && !l.ch.cfg.earlyAck
    requires token.tag in UnderWay(l.ch.stages) && Cumulative(l.ch.stages, th) && token.tag < th.token.tag
    ensures var m := Ahead(l, token, affected);
            && m.ch.stages.settlements == [] && m.ch.stages.throughs == [Through(token, affected)]
            && m.env.broker.alive && !m.env.broker.violated && Apply(m).env.broker.violated
            && Succeed(m).ch.ledger.ackedPrefix == token.tag < m.ch.ledger.ackedPrefix
  {
    var m := AheadLaunched(l, waiting, token, affected);
    GoneUnsettled(m, waiting, token.tag);
    SucceedShape(Ahead(l, token, affected));
  }

  // ---------------------------------------------------------------- late rejections and releases

  // `m` has one more individual settlement at the end of its queue.
  ghost predicate QueuesAfter(l: Lane, m: Lane, w: Work) {
    Alike(l, m) && m.ch.stages == l.ch.stages.(mail := m.ch.stages.mail, queue := l.ch.stages.queue + [w])
  }

  lemma QueueMoves(st: Stages, next: Stages, w: Work)
    requires Serial(st) && Busy(st) && next == st.(mail := next.mail, queue := st.queue + [w])
    ensures var l, m := Drained(Landed(st)), Drained(Landed(next));
            if st.queue != [] then m == l.(mail := m.mail, queue := l.queue + [w]) && |l.queue| == |st.queue| - 1
            else m.settlements == [w]
  {
    if st.queue != [] {
      assert (st.queue + [w])[1..] == st.queue[1..] + [w];
    }
  }

  lemma QueueStep(l: Lane, m: Lane, w: Work)
    requires Serial(l.ch.stages) && Busy(l.ch.stages) && QueuesAfter(l, m, w)
    ensures Alike(Succeed(l), Succeed(m))
    ensures if l.ch.stages.queue != [] then
              QueuesAfter(Succeed(l), Succeed(m), w) && |Succeed(l).ch.stages.queue| == |l.ch.stages.queue| - 1
            else Succeed(m).ch.stages.settlements == [w]
  {
    SucceedAlike(l, m);
    QueueMoves(l.ch.stages, m.ch.stages, w);
  }

  // Success after success a healthy lane stays healthy and what was in flight stays settled.
  lemma {:induction false} HealthyRuns(l: Lane, waiting: seq<TransportDelivery>, n: nat)
    requires Healthy(l, waiting) && Busy(l.ch.stages) && n > 0
    ensures var m := Successes(l, n);
            && Healthy(m, waiting) && m.ch.cfg == l.ch.cfg && !m.env.broker.applied
            && l.env.past.gone + FlightTags(l.ch.stages) <= m.env.past.gone
    decreases n
  {
    HealthyStep(l, waiting);
    HealthyMoves(l, waiting);
    if n > 1 && Busy(Succeed(l).ch.stages) {
      HealthyRuns(Succeed(l), waiting, n - 1);
    }
  }

  // Its turn comes after the flight and the queue.
  lemma {:induction false} QueueToTheFront(l: Lane, m: Lane, waiting: seq<TransportDelivery>, w: Work)
    requires Healthy(l, waiting) && Busy(l.ch.stages) && QueuesAfter(l, m, w)
    ensures var n := |l.ch.stages.queue| + 1;
            Alike(Successes(l, n), Successes(m, n)) && Successes(m, n).ch.stages.settlements == [w]
    decreases |l.ch.stages.queue|
  {
    HealthySerial(l, waiting);
    HealthyStep(l, waiting);
    QueueStep(l, m, w);
    if l.ch.stages.queue != [] {
      NextBusy(l);
      QueueToTheFront(Succeed(l), Succeed(m), waiting, w);
    }
  }

  lemma NextBusy(l: Lane)
    requires Serial(l.ch.stages) && Busy(l.ch.stages) && l.ch.stages.queue != []
    ensures Busy(Succeed(l).ch.stages)
  {
    SucceedShape(l);
  }

  // How many settlements go before one that is claimed now.
  function Turns(st: Stages): nat {
    if st.inFlight then |st.queue| + 1 else 0
  }

  lemma ClaimJoins(l: Lane, m: Lane, w: Work)
    requires Serial(l.ch.stages) && (l.env.broker.applied ==> l.ch.stages.inFlight)
    requires TakenOn(l, m, w) && w.settlement != Ack
    ensures if l.ch.stages.inFlight then Busy(l.ch.stages) && QueuesAfter(l, m, w)
            else m.ch.stages.settlements == [w] && Alike(l, m)
  {
  }

  lemma StraySettled(l: Lane, waiting: seq<TransportDelivery>, w: Work)
    requires Inv(l, waiting) && !l.ch.cfg.earlyAck
    requires Own(l.ch.cfg, l.env.past.handed, w.token) && Strays(l.ch, w)
    ensures w.token.tag in l.env.past.gone || (l.ch.stages.inFlight && w.token.tag in FlightTags(l.ch.stages))
  {
    assert DeliveryOf(w.token) in l.env.past.handed;
  }

  /** A rejection or release claimed for a token that has left the ledger, or that the cumulative settlement
      in flight lists, reaches the broker for a tag settled already once its turn comes. */
  lemma StrayIsFatal(l: Lane, waiting: seq<TransportDelivery>, m: Lane, w: Work)
    requires Inv(l, waiting) && l.env.broker.alive && Peaceful(l.env.past) && !l.ch.cfg.earlyAck
    requires Own(l.ch.cfg, l.env.past.handed, w.token) && TakenOn(l, m, w) && Strays(l.ch, w)
    ensures var n := Successes(m, Turns(l.ch.stages));
            && n.ch.stages.settlements == [w] && n.env.broker.alive && !n.env.broker.violated
            && Apply(n).env.broker.violated
  {
    assert Healthy(l, waiting);
    StraySettled(l, waiting, w);
    ClaimJoins(l, m, w);
    StrayEnds(l, waiting, m, w);
  }

  lemma StrayEnds(l: Lane, waiting: seq<TransportDelivery>, m: Lane, w: Work)
    requires Healthy(l, waiting) && !l.ch.cfg.earlyAck
    requires if l.ch.stages.inFlight then Busy(l.ch.stages) && QueuesAfter(l, m, w)
             else m.ch.stages.settlements == [w] && Alike(l, m)
    requires w.token.tag in l.env.past.gone || (l.ch.stages.inFlight && w.token.tag in FlightTags(l.ch.stages))
    ensures var n := Successes(m, Turns(l.ch.stages));
            && n.ch.stages.settlements == [w] && n.env.broker.alive && !n.env.broker.violated
            && Apply(n).env.broker.violated
  {
    if l.ch.stages.inFlight {
      var n := |l.ch.stages.queue| + 1;
      QueueToTheFront(l, m, waiting, w);
      HealthyRuns(l, waiting, n);
      LateIsFatal(Successes(l, n), waiting, Successes(m, n), w);
    } else {
      IdleUnapplied(l, waiting);
      LateIsFatal(l, waiting, m, w);
    }
  }

  lemma LateIsFatal(l: Lane, waiting: seq<TransportDelivery>, m: Lane, w: Work)
    requires Healthy(l, waiting) && !l.env.broker.applied && !l.ch.cfg.earlyAck && w.token.tag in l.env.past.gone
    requires Alike(l, m) && m.ch.stages.settlements == [w]
    ensures m.env.broker.alive && !m.env.broker.violated && Apply(m).env.broker.violated
  {
    GoneUnsettled(l, waiting, w.token.tag);
  }

  // ---------------------------------------------------------------- bytes released twice

  // The bytes of the tokens whose tags are in `tags`.
  function SharedBytes(tokens: seq<Token>, tags: set<nat>): nat {
    if tokens == [] then 0 else
      SharedBytes(tokens[..|tokens| - 1], tags)
      + if tokens[|tokens| - 1].tag in tags then tokens[|tokens| - 1].bytes else 0
  }

  // Settling distinct tokens takes away the bytes of those that were not settled.
  lemma {:induction false} OutstandingFreed(handed: seq<TransportDelivery>, gone: set<nat>, tokens: seq<Token>)
    requires Ascending(handed) && Distinct(tokens) && forall a :: a in tokens ==> DeliveryOf(a) in handed
    ensures Outstanding(handed, gone + TokenTags(tokens)) + TokenBytes(tokens)
         == Outstanding(handed, gone) + SharedBytes(tokens, gone)
  {
    if tokens == [] {
      assert gone + {} == gone;
    } else {
      var n := |tokens| - 1;
      var last, before := tokens[n], gone + TokenTags(tokens[..n]);
      OutstandingFreed(handed, gone, tokens[..n]);
      if last.tag in TokenTags(tokens[..n]) {
        var a := TokenTagsFind(tokens[..n], last.tag);
        assert false;
      }
      assert gone + TokenTags(tokens) == before + {last.tag};
      if last.tag in gone {
        assert before + {last.tag} == before;
      } else {
        assert DeliveryOf(last) in handed;
        OutstandingRelease(handed, before, DeliveryOf(last));
      }
    }
  }

  lemma {:induction false} SharedSame(tokens: seq<Token>, a: set<nat>, b: set<nat>)
    requires forall t :: t in tokens ==> (t.tag in a <==> t.tag in b)
    ensures SharedBytes(tokens, a) == SharedBytes(tokens, b)
  {
    if tokens != [] {
      SharedSame(tokens[..|tokens| - 1], a, b);
    }
  }

  predicate Counted(l: Lane) {
    l.ch.intake.bufferedBytes == Held(l.ch.cfg, l.ch.intake.buffer, l.env.past)
  }

  /** One landing: the count is what is held afterwards if and only if none of the bytes it releases were
      released before, or nothing is held any more. */
  lemma LandingIsExactIff(l: Lane, tokens: seq<Token>)
    requires !l.ch.cfg.earlyAck && Ascending(l.env.past.handed) && Distinct(tokens) && Counted(l)
    requires forall a :: a in tokens ==> DeliveryOf(a) in l.env.past.handed
    ensures var m := FreeAll(l, tokens);
            Counted(m) <==> SharedBytes(tokens, l.env.past.gone) == 0
                            || Held(m.ch.cfg, m.ch.intake.buffer, m.env.past) == 0
  {
    FreeAllShape(l, tokens);
    FreeAllBytes(l, tokens);
    OutstandingFreed(l.env.past.handed, l.env.past.gone, tokens);
  }

  lemma HealthyCounted(l: Lane, waiting: seq<TransportDelivery>)
    requires Healthy(l, waiting) && !l.env.past.overlapped && l.ch.cfg.maxBufferedBytes < U64_MAX
    ensures Counted(l) && Ascending(l.env.past.handed)
  {
    assert Look(0);
  }

  /** An accepted settle-through, everything before it succeeding: after its own success the count is what
      is held if and only if it shares no bytes with what was under way when it was accepted, or nothing is
      held any more. Acknowledgements that are only recorded do not matter. */
  lemma OverlapLosesBytes(l: Lane, waiting: seq<TransportDelivery>, token: Token, affected: seq<Token>)
    requires Inv(l, waiting) && l.env.broker.alive && Peaceful(l.env.past) && Clean(l.env.past)
    requires l.ch.cfg.maxBufferedBytes < U64_MAX
    requires Acceptable(l, token, affected) && l.ch.stages.inFlight
    ensures Ahead(l, token, affected).ch.stages.throughs == [Through(token, affected)]
    ensures var m := Succeed(Ahead(l, token, affected));
            Counted(m) <==> SharedBytes(affected, UnderWay(l.ch.stages)) == 0
                            || Held(m.ch.cfg, m.ch.intake.buffer, m.env.past) == 0
  {
    assert Healthy(l, waiting);
    forall a | a in affected
      ensures a.tag in l.env.past.gone + UnderWay(l.ch.stages) <==> a.tag in UnderWay(l.ch.stages)
      ensures DeliveryOf(a) in l.env.past.handed
    {
    }
    SharedSame(affected, l.env.past.gone + UnderWay(l.ch.stages), UnderWay(l.ch.stages));
    OverlapEnds(l, waiting, token, affected);
  }

  lemma OverlapEnds(l: Lane, waiting: seq<TransportDelivery>, token: Token, affected: seq<Token>)
    requires Healthy(l, waiting) && Busy(l.ch.stages) && !l.ch.cfg.earlyAck
    requires !l.env.past.overlapped && l.ch.cfg.maxBufferedBytes < U64_MAX
    requires Distinct(affected) && forall a :: a in affected ==> DeliveryOf(a) in l.env.past.handed
    ensures Ahead(l, token, affected).ch.stages.throughs == [Through(token, affected)]
    ensures var m := Succeed(Ahead(l, token, affected));
            Counted(m) <==> SharedBytes(affected, l.env.past.gone + UnderWay(l.ch.stages)) == 0
                            || Held(m.ch.cfg, m.ch.intake.buffer, m.env.past) == 0
  {
    var a := AheadLaunched(l, waiting, token, affected);
    var b := Ahead(l, token, affected);
    HealthyCounted(a, waiting);
    LastLanding(a, b, token, affected);
  }

  lemma LastLanding(a: Lane, b: Lane, token: Token, affected: seq<Token>)
    requires Launched(a, b, Through(token, affected)) && a.ch.stages.settlements == []
    requires !a.ch.cfg.earlyAck && Ascending(a.env.past.handed) && Counted(a)
    requires Distinct(affected) && forall t :: t in affected ==> DeliveryOf(t) in a.env.past.handed
    ensures b.ch.stages.throughs == [Through(token, affected)]
    ensures var m := Succeed(b);
            Counted(m) <==> SharedBytes(affected, a.env.past.gone) == 0
                            || Held(m.ch.cfg, m.ch.intake.buffer, m.env.past) == 0
  {
    SucceedShape(b);
    FreeAllShape(Land(Reported(b)), affected);
    LandingIsExactIff(Land(Reported(b)), affected);
  }
}
