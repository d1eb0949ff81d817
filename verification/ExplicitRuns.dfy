/**
 Runs in which the embedder uses settle-through itself. The byte count stays within its bounds
 but can fall behind what is held, and the watermark can move back; both need a settle-through
 that lists a token another settlement already holds.
 */
module ExplicitRuns {
  import opened Options
  import opened Deliveries
  import opened Lanes
  import opened StageTags
  import opened Dispatching
  import opened Receiving
  import opened Settling
  import opened SettleSteps
  import opened SettleProofs
  import opened Completing
  import opened CompletionProofs
  import opened Throughs
  import opened Collisions
  import opened Handlers

  /** A completion never moves the watermark back, unless a settle-through was accepted for a token that
      a staged cumulative settlement lists. */
  lemma WatermarkNeverMovesBack(l: Lane, waiting: seq<TransportDelivery>, landing: Landing)
    requires Inv(l, waiting) && !l.env.past.crossed && Lands(l, landing)
    ensures landing.prefix >= l.ch.ledger.ackedPrefix
  {
    LookAtRules(l);
    if l.ch.stages.throughs != [] {
      assert Cumulative(l.ch.stages, l.ch.stages.throughs[0]);
    }
  }

  // ---------------------------------------------------------------- the shortest such runs

  const CFG := Config(SubscriptionId("jobs"), Identity(0, 0, 1), false, false, None, false, 100)
  const D1 := TransportDelivery(1, 10, 1)
  const D2 := TransportDelivery(2, 10, 1)
  const D3 := TransportDelivery(3, 30, 1)
  const T1 := OwnToken(CFG, D1)
  const T2 := OwnToken(CFG, D2)
  const T3 := OwnToken(CFG, D3)

  function Unclouded(ds: seq<TransportDelivery>, top: nat): History {
    History(ds, top, ds, top, {}, {}, map[], {}, 0, false, false, false, false)
  }

  // Three deliveries in the embedder's hands, nothing settled.
  function Start(): Lane {
    Lane(
      Channel(CFG, Intake([], 50, [], false),
              Ledger(map[1 := Entry(Pending, Some(T1)), 2 := Entry(Pending, Some(T2)), 3 := Entry(Pending, Some(T3))], 0),
              Stages([], map[], [], [], false, [], []),
              map[T1 := Cell(Pending, false), T2 := Cell(Pending, false), T3 := Cell(Pending, false)]),
      Env(Broker(true, false, [], {1, 2, 3}, [], false),
          Unclouded([D1, D2, D3], 3)))
  }

  // One delivery's way to the embedder on an idle lane: sent, received, admitted, handed over.
  function Deliver(l: Lane, d: TransportDelivery): Lane
    requires l.env.broker.transit == [] && l.ch.intake.buffer == []
  {
    HandOver(Admit(Receive(Send(l, d)), d))
  }

  function Fresh(): Lane {
    Lane(FreshChannel(CFG), FreshEnv())
  }

  function Second(): Lane {
    Lane(
      Channel(CFG, Intake([], 20, [], false),
              Ledger(map[1 := Entry(Pending, Some(T1)), 2 := Entry(Pending, Some(T2))], 0),
              Stages([], map[], [], [], false, [], []), map[T1 := Cell(Pending, false), T2 := Cell(Pending, false)]),
      Env(Broker(true, false, [], {1, 2}, [], false), Unclouded([D1, D2], 2)))
  }

  function First(): Lane {
    Lane(
      Channel(CFG, Intake([], 10, [], false), Ledger(map[1 := Entry(Pending, Some(T1))], 0),
              Stages([], map[], [], [], false, [], []), map[T1 := Cell(Pending, false)]),
      Env(Broker(true, false, [], {1}, [], false), Unclouded([D1], 1)))
  }

  lemma FirstReached()
    ensures Deliver(Fresh(), D1) == First()
  {
    var l, m := Deliver(Fresh(), D1), First();
    assert l.ch.ledger.pending == m.ch.ledger.pending;
    assert l.ch.cells == m.ch.cells;
  }

  lemma SecondReached()
    ensures Deliver(First(), D2) == Second()
  {
    var l, m := Deliver(First(), D2), Second();
    assert l.ch.ledger.pending == m.ch.ledger.pending;
    assert l.ch.cells == m.ch.cells;
  }

  lemma StartReached()
    ensures Deliver(Second(), D3) == Start()
  {
    var l, m := Deliver(Second(), D3), Start();
    assert l.ch.ledger.pending == m.ch.ledger.pending;
    assert l.ch.cells == m.ch.cells;
  }

  function SettleNow(l: Lane, token: Token, settlement: Settlement): Lane
    requires token in l.ch.cells && l.ch.stages.mail == []
  {
    HandleSettle(Post(l, token, settlement))
  }

  function ThroughNow(l: Lane, token: Token): Lane
    requires token in l.ch.cells && l.ch.stages.mail == []
  {
    HandleThrough(PostThrough(l, token, Cell(Pending, false)))
  }

  // A settlement of the first delivery, not a plain acknowledgement, is in flight.
  function Settling1(settlement: Settlement): Lane {
    var l := Start();
    Lane(
      l.ch.(stages := Stages([], map[], [], [], true, [Work(T1, settlement)], []),
            cells := l.ch.cells[T1 := Cell(TerminalOf(settlement), true)]),
      l.env.(past := l.env.past.(requested := map[1 := settlement], asks := {Ask(1, settlement)})))
  }

  // A settle-through of the second delivery, which lists the first one too, has been accepted.
  function Overlapping(settlement: Settlement): Lane {
    var l := Settling1(settlement);
    Lane(
      l.ch.(stages := Stages([], map[], [], [Through(T2, [T1, T2])], true, [Work(T1, settlement)], []),
            cells := l.ch.cells[T2 := Cell(Pending, true)]),
      l.env.(past := l.env.past.(explicit := true, through := 2, overlapped := true)))
  }

  lemma SettlingReached(settlement: Settlement)
    requires settlement != Ack
    ensures SettleNow(Start(), T1, settlement) == Settling1(settlement)
  {
    var l := SettleNow(Start(), T1, settlement);
    assert l.ch.cells == Settling1(settlement).ch.cells;
  }

  lemma WalkStep(ledger: Ledger, high: nat, before: seq<Token>, token: Token)
    requires high > ledger.ackedPrefix && Walk(ledger, high - 1) == Ok(before)
    requires Holds(ledger, high, token) && ledger.pending[high].state == Pending
    ensures Walk(ledger, high) == Ok(before + [token])
  {
  }

  lemma StartWalk()
    ensures Walk(Start().ch.ledger, 1) == Ok([T1]) && Walk(Start().ch.ledger, 2) == Ok([T1, T2])
  {
    var ledger := Start().ch.ledger;
    WalkStep(ledger, 1, [], T1);
    assert [] + [T1] == [T1] && [T1] + [T2] == [T1, T2];
    WalkStep(ledger, 2, [T1], T2);
  }

  // With the walk of its prefix known, an acceptable settle-through is accepted as it stands.
  lemma Accepts(ch: Channel, token: Token, tokens: seq<Token>)
    requires token in ch.cells && ch.cells[token] == Cell(Pending, false)
    requires token.identity == ch.cfg.identity && token.tag > ch.ledger.ackedPrefix
    requires Walk(ch.ledger, token.tag) == Ok(tokens) && tokens != []
    requires forall a :: a in tokens ==> a.identity == ch.cfg.identity
    ensures Verdict(ch, token) == Ok(tokens)
  {
    SiftedAll(ch.cfg, tokens);
    assert Fence(ch, token) == None;
  }

  lemma SiftedAll(cfg: Config, tokens: seq<Token>)
    requires tokens != [] && forall a :: a in tokens ==> a.identity == cfg.identity
    ensures Sifted(cfg, Ok(tokens)) == Ok(tokens)
  {
    LiveOnlyAll(cfg, tokens);
  }

  // What an accepted settle-through makes of a lane with an empty mailbox.
  lemma AcceptedShape(l: Lane, token: Token, tokens: seq<Token>)
    requires l.ch.stages.mail == [] && token in l.ch.cells && Verdict(l.ch, token) == Ok(tokens)
    ensures ThroughNow(l, token) == AcceptThrough(l, token, tokens)
  {
    var m := PostThrough(l, token, Cell(Pending, false));
    assert PopMail(m) == l;
  }

  lemma FlagPair(cells: map<Token, Cell>, a: Token, b: Token)
    requires a in cells && b in cells && cells[a].settling
    ensures Flag(cells, [b] + [a, b]) == cells[b := cells[b].(settling := true)]
  {
    FlagAt(cells, [b] + [a, b]);
  }

  // A settle-through of `b` accepted behind the flight that holds `a`.
  lemma OverlapShape(l: Lane, a: Token, b: Token)
    requires l.ch.stages.mail == [] && l.ch.stages.inFlight
    requires l.ch.stages.throughQueue == [] && l.ch.stages.throughs == [] && a.tag in UnderWay(l.ch.stages)
    requires a in l.ch.cells && l.ch.cells[a].settling && b in l.ch.cells && l.ch.cells[b] == Cell(Pending, false)
    requires a.identity == b.identity == l.ch.cfg.identity && b.tag > l.ch.ledger.ackedPrefix
    requires Walk(l.ch.ledger, b.tag) == Ok([a, b]) && b.tag > l.env.past.through
    ensures ThroughNow(l, b)
         == Lane(l.ch.(stages := l.ch.stages.(throughQueue := [Through(b, [a, b])]),
                       cells := l.ch.cells[b := Cell(Pending, true)]),
                 Env(l.env.broker, l.env.past.(explicit := true, through := b.tag, overlapped := true)))
  {
    Accepts(l.ch, b, [a, b]);
    AcceptedShape(l, b, [a, b]);
    FlagPair(l.ch.cells, a, b);
    assert a in [a, b];
    TokenTagsHas([a, b], a);
  }

  lemma OverlappingReached(settlement: Settlement)
    ensures ThroughNow(Settling1(settlement), T2) == Overlapping(settlement)
  {
    StartWalk();
    WorkTagsHas([Work(T1, settlement)], Work(T1, settlement));
    OverlapShape(Settling1(settlement), T1, T2);
  }

  // The rejection has landed; the settle-through that lists the same token again is in flight.
  function AfterReject(): Lane {
    var l := Overlapping(Reject(false));
    Lane(
      l.ch.(intake := Intake([], 40, [], false), ledger := Ledger(l.ch.ledger.pending - {1}, 0),
            stages := Stages([], map[], [], [], true, [], [Through(T2, [T1, T2])]),
            cells := l.ch.cells[T1 := Cell(Rejected, false)]),
      l.env.(broker := Broker(true, false, [], {2, 3}, [WireReject(1, false)], false),
             past := l.env.past.(gone := {1})))
  }

  lemma FreeOne(l: Lane, token: Token)
    ensures FreeAll(l, [token]) == FreeBytes(l, token)
  {
    assert [token][..0] == [];
  }

  lemma FreeTwo(l: Lane, a: Token, b: Token)
    ensures FreeAll(l, [a, b]) == FreeBytes(FreeBytes(l, a), b)
  {
    assert [a, b][..1] == [a];
    FreeOne(l, a);
  }

  lemma RejectedReached()
    ensures Succeed(Overlapping(Reject(false))) == AfterReject()
  {
    var l, m := Overlapping(Reject(false)), AfterReject();
    var landing := LandWork(l.ch, l.ch.stages.settlements[0], Done);
    FreeOne(Land(Apply(l)), T1);
    assert [T1][..0] == [];
    var n := Finish(Begin(Apply(l), landing), landing);
    assert n.env.past.gone == {1} && n.env.past.leaving == {};
    assert n.env.broker == m.env.broker;
    assert n.ch.cells == m.ch.cells;
  }

  // From a fresh lane to three deliveries in the embedder's hands.
  ghost predicate ThreeHanded() {
    Deliver(Fresh(), D1) == First() && Deliver(First(), D2) == Second() && Deliver(Second(), D3) == Start()
  }

  lemma ThreeAreHanded()
    ensures ThreeHanded()
  {
    FirstReached();
    SecondReached();
    StartReached();
  }

  /** The count falls behind what is held: the first delivery is rejected while a settle-through of the
      second lists it too, and so its bytes leave twice. */
  lemma CountCanFallBehind()
    ensures ThreeHanded()
    ensures SettleNow(Start(), T1, Reject(false)) == Settling1(Reject(false))
    ensures ThroughNow(Settling1(Reject(false)), T2) == Overlapping(Reject(false))
    ensures Succeed(Overlapping(Reject(false))) == AfterReject()
    ensures var l := Succeed(AfterReject());
            l.ch.intake.bufferedBytes == 20 && Held(l.ch.cfg, l.ch.intake.buffer, l.env.past) == 30
  {
    ThreeAreHanded();
    SettlingReached(Reject(false));
    OverlappingReached(Reject(false));
    RejectedReached();
    BytesAtTheEnd();
  }

  lemma BytesAtTheEnd()
    ensures var l := Succeed(AfterReject());
            l.ch.intake.bufferedBytes == 20 && Held(l.ch.cfg, l.ch.intake.buffer, l.env.past) == 30
  {
    var l := AfterReject();
    var landing := LandThrough(l.ch, l.ch.stages.throughs[0], Done);
    var n := Begin(Apply(l), landing);
    FreeTwo(Land(Apply(l)), T1, T2);
    assert n.env.past.gone == {1, 2};
    assert Finish(n, landing).env.past.gone == {1, 2};
    HeldAtEnd({1, 2});
  }

  lemma HeldAtEnd(gone: set<nat>)
    requires gone == {1, 2}
    ensures Outstanding([D1, D2, D3], gone) == 30
  {
    assert [D1, D2, D3][..2] == [D1, D2] && [D1, D2][..1] == [D1] && [D1][..0] == [];
    assert Outstanding([D1], gone) == 0;
    assert Outstanding([D1, D2], gone) == 0;
  }

  // A delayed release of the first delivery was not published: its token is pending again.
  function AfterPublishFailure(): Lane {
    var l := Overlapping(Release(5));
    l.(ch := l.ch.(
      stages := Stages([], map[], [], [], true, [], [Through(T2, [T1, T2])]),
      cells := l.ch.cells[T1 := Cell(Pending, false)]))
  }

  lemma PublishFailureReached()
    ensures var l := Overlapping(Release(5));
            var landing := LandWork(l.ch, l.ch.stages.settlements[0], Failed(Publish));
            Lands(l, landing) && Finish(Begin(l, landing), landing) == AfterPublishFailure()
  {
    var l := Overlapping(Release(5));
    var landing := LandWork(l.ch, l.ch.stages.settlements[0], Failed(Publish));
    assert WorkAnswer(l.env.broker, l.ch.stages.settlements[0], Failed(Publish));
    assert [T1][..0] == [];
    var n := Finish(Begin(l, landing), landing);
    assert n.ch.ledger.pending == l.ch.ledger.pending;
    assert n.ch.cells == AfterPublishFailure().ch.cells;
    assert n.env.past.leaving == {};
  }

  // So a settle-through of the first delivery is accepted behind that of the second.
  function Behind(): Lane {
    var l := AfterPublishFailure();
    Lane(
      l.ch.(stages := Stages([], map[], [], [Through(T1, [T1])], true, [], [Through(T2, [T1, T2])]),
            cells := l.ch.cells[T1 := Cell(Pending, true)]),
      l.env.(past := l.env.past.(crossed := true)))
  }

  lemma BehindReached()
    ensures ThroughNow(AfterPublishFailure(), T1) == Behind()
  {
    var l := AfterPublishFailure();
    StartWalk();
    Accepts(l.ch, T1, [T1]);
    AcceptedShape(l, T1, [T1]);
    FlagAt(l.ch.cells, [T1] + [T1]);
    assert T1 in [T1, T2];
    ThroughTagsHas(l.ch.stages.throughs, Through(T2, [T1, T2]), T1);
    assert Flag(l.ch.cells, [T1] + [T1]) == Behind().ch.cells;
  }

  // What a successful settle-through leaves behind.
  lemma ThroughSucceeds(l: Lane, th: Through)
    requires l.ch.stages.settlements == [] && l.ch.stages.throughs == [th] && l.ch.stages.queue == []
    requires !l.env.broker.applied
    ensures var m := Succeed(l);
            && m.ch.ledger.ackedPrefix == th.token.tag
            && m.ch.stages.settlements == []
            && m.ch.stages.throughs == l.ch.stages.throughQueue[..if l.ch.stages.throughQueue == [] then 0 else 1]
            && m.env.broker == BrokerApply(l.env.broker, WireAck(th.token.tag, true)).(applied := false)
  {
    SucceedShape(l);
  }

  /** The watermark moves back from 2 to 1, and the broker is told about a tag it has already settled. A
      delayed release of the first delivery is in flight when a settle-through of the second is accepted;
      the release is not published, so the first token is pending again, and a settle-through of it is
      accepted while the flight that will settle it is up. */
  lemma WatermarkCanMoveBack()
    ensures ThreeHanded()
    ensures SettleNow(Start(), T1, Release(5)) == Settling1(Release(5))
    ensures ThroughNow(Settling1(Release(5)), T2) == Overlapping(Release(5))
    ensures var l := Overlapping(Release(5));
            var landing := LandWork(l.ch, l.ch.stages.settlements[0], Failed(Publish));
            Lands(l, landing) && Finish(Begin(l, landing), landing) == AfterPublishFailure()
    ensures Peaceful(AfterPublishFailure().env.past) && Listed(AfterPublishFailure().ch.stages, T1.tag)
    ensures ThroughNow(AfterPublishFailure(), T1) == Behind() && Behind().env.past.crossed
    ensures var l := Succeed(Behind());
            && l.ch.ledger.ackedPrefix == 2 && l.env.broker.alive && l.ch.stages.throughs != []
            && (var m := Succeed(l); m.ch.ledger.ackedPrefix == 1 && m.env.broker.violated)
  {
    ThreeAreHanded();
    SettlingReached(Release(5));
    OverlappingReached(Release(5));
    PublishFailureReached();
    assert T1 in [T1, T2];
    ThroughTagsHas(AfterPublishFailure().ch.stages.throughs, Through(T2, [T1, T2]), T1);
    BehindReached();
    WatermarkAtTheEnd();
  }

  lemma WatermarkAtTheEnd()
    ensures var l := Succeed(Behind());
            && l.ch.ledger.ackedPrefix == 2 && l.env.broker.alive && l.ch.stages.throughs != []
            && (var m := Succeed(l); m.ch.ledger.ackedPrefix == 1 && m.env.broker.violated)
  {
    var l := Succeed(Behind());
    ThroughSucceeds(Behind(), Through(T2, [T1, T2]));
    assert l.ch.stages.throughs == [Through(T1, [T1])];
    assert 1 !in l.env.broker.unsettled;
    assert l.ch.stages.queue == [] by { SucceedQueue(Behind()); }
    ThroughSucceeds(l, Through(T1, [T1]));
  }

  lemma SucceedQueue(l: Lane)
    requires l.ch.stages.settlements == [] && l.ch.stages.throughs != [] && l.ch.stages.queue == []
    ensures Succeed(l).ch.stages.queue == []
  {
    SucceedShape(l);
  }

  // ---------------------------------------------------------------- settle-throughs in a pipeline

  // A settle-through of the first delivery is in flight, one of the second waits behind it.
  function Piped(): Lane {
    var l := Start();
    Lane(
      l.ch.(stages := Stages([], map[], [], [Through(T2, [T1, T2])], true, [], [Through(T1, [T1])]),
            cells := l.ch.cells[T1 := Cell(Pending, true)][T2 := Cell(Pending, true)]),
      l.env.(past := l.env.past.(explicit := true, through := 2, overlapped := true)))
  }

  function PipedOne(): Lane {
    var l := Start();
    Lane(
      l.ch.(stages := Stages([], map[], [], [], true, [], [Through(T1, [T1])]),
            cells := l.ch.cells[T1 := Cell(Pending, true)]),
      l.env.(past := l.env.past.(explicit := true, through := 1)))
  }

  lemma PipedOneReached()
    ensures ThroughNow(Start(), T1) == PipedOne()
  {
    var l := Start();
    StartWalk();
    Accepts(l.ch, T1, [T1]);
    AcceptedShape(l, T1, [T1]);
    FlagAt(l.ch.cells, [T1] + [T1]);
    assert Flag(l.ch.cells, [T1] + [T1]) == PipedOne().ch.cells;
  }

  // A settle-through of `b` accepted behind that of `a`.
  lemma PipeShape(l: Lane, a: Token, b: Token)
    requires l.ch.stages.mail == [] && l.ch.stages.inFlight && a.tag < b.tag
    requires l.ch.stages.throughQueue == [] && l.ch.stages.throughs == [Through(a, [a])]
    requires a in l.ch.cells && l.ch.cells[a].settling && b in l.ch.cells && l.ch.cells[b] == Cell(Pending, false)
    requires a.identity == b.identity == l.ch.cfg.identity && b.tag > l.ch.ledger.ackedPrefix
    requires Walk(l.ch.ledger, b.tag) == Ok([a, b]) && b.tag > l.env.past.through
    ensures ThroughNow(l, b)
         == Lane(l.ch.(stages := l.ch.stages.(throughQueue := [Through(b, [a, b])]),
                       cells := l.ch.cells[b := Cell(Pending, true)]),
                 Env(l.env.broker, l.env.past.(explicit := true, through := b.tag, overlapped := true)))
  {
    Accepts(l.ch, b, [a, b]);
    AcceptedShape(l, b, [a, b]);
    FlagPair(l.ch.cells, a, b);
    assert a in [a, b] && a in [a];
    TokenTagsHas([a, b], a);
    ThroughTagsHas(l.ch.stages.throughs, Through(a, [a]), a);
    if Listed(l.ch.stages, b.tag) {
      var th, c := ListedFind(l.ch.stages, b.tag);
    }
  }

  lemma PipedReached()
    ensures ThroughNow(PipedOne(), T2) == Piped()
  {
    StartWalk();
    PipeShape(PipedOne(), T1, T2);
  }

  // What a successful settle-through leaves in the count and among the settled.
  lemma ThroughFrees(l: Lane, th: Through)
    requires l.ch.stages.settlements == [] && l.ch.stages.throughs == [th]
    ensures var m := Succeed(l);
            && m.ch.intake.bufferedBytes == SatSub(l.ch.intake.bufferedBytes, TokenBytes(th.affected))
            && m.ch.intake.buffer == l.ch.intake.buffer && m.ch.cfg == l.ch.cfg
            && m.env.past.handed == l.env.past.handed
            && m.env.past.gone == l.env.past.gone + TokenTags(th.affected)
  {
    SucceedShape(l);
    FreeAllBytes(Land(Reported(l)), th.affected);
  }

  /** Nobody has to misuse anything: two settle-throughs in a row, the second accepted before the first is
      answered, both succeed, and the first delivery's bytes have left twice. The watermark and the
      broker are content. */
  lemma PipelineLosesBytes()
    ensures ThreeHanded()
    ensures ThroughNow(Start(), T1) == PipedOne() && ThroughNow(PipedOne(), T2) == Piped()
    ensures Peaceful(Piped().env.past) && !Clean(Piped().env.past)
    ensures var m := Succeed(Piped());
            m.ch.stages.throughs == [Through(T2, [T1, T2])] && m.ch.ledger.ackedPrefix == 1
            && (var n := Succeed(m);
                && n.ch.ledger.ackedPrefix == 2 && n.env.broker.alive && !n.env.broker.violated
                && n.ch.intake.bufferedBytes == 20 && Held(n.ch.cfg, n.ch.intake.buffer, n.env.past) == 30)
  {
    ThreeAreHanded();
    PipedOneReached();
    PipedReached();
    PipeStages();
    PipeBytes();
  }

  lemma PipeStages()
    ensures var m := Succeed(Piped());
            && m.ch.stages == Stages([], map[], [], [], true, [], [Through(T2, [T1, T2])])
            && m.ch.ledger.ackedPrefix == 1
            && (var n := Succeed(m); n.ch.ledger.ackedPrefix == 2 && n.env.broker.alive && !n.env.broker.violated)
  {
    var l, m := Piped(), Succeed(Piped());
    ThroughSucceeds(l, Through(T1, [T1]));
    SucceedShape(l);
    assert m.env.broker.unsettled == {2, 3};
    ThroughSucceeds(m, Through(T2, [T1, T2]));
  }

  // Two successes in a row, the second listing the first one's token again.
  lemma PairFrees(l: Lane, a: Token, b: Token)
    requires l.ch.stages.settlements == [] && l.ch.stages.throughs == [Through(a, [a])]
    requires Succeed(l).ch.stages.settlements == [] && Succeed(l).ch.stages.throughs == [Through(b, [a, b])]
    ensures var n := Succeed(Succeed(l));
            && n.ch.intake.bufferedBytes
               == SatSub(SatSub(l.ch.intake.bufferedBytes, a.bytes), a.bytes + b.bytes)
            && n.ch.intake.buffer == l.ch.intake.buffer && n.ch.cfg == l.ch.cfg
            && n.env.past.handed == l.env.past.handed && n.env.past.gone == l.env.past.gone + {a.tag, b.tag}
  {
    ThroughFrees(l, Through(a, [a]));
    ThroughFrees(Succeed(l), Through(b, [a, b]));
    assert [a][..0] == [] && [a, b][..1] == [a];
    assert TokenTags([a, b]) == TokenTags([a]) + {b.tag};
  }

  lemma PipeBytes()
    ensures var n := Succeed(Succeed(Piped()));
            n.ch.intake.bufferedBytes == 20 && Held(n.ch.cfg, n.ch.intake.buffer, n.env.past) == 30
  {
    PipeStages();
    PairFrees(Piped(), T1, T2);
    HeldAtEnd(Succeed(Succeed(Piped())).env.past.gone);
  }

  // ---------------------------------------------------------------- a rejection that comes too late

  /** The embedder rejects the first delivery while a settle-through of the second, which lists it, is in
      flight; the actor takes the rejection from its mailbox after the settle-through has succeeded. It is
      claimed, and the broker is told about a tag it has already settled. */
  lemma RejectionCanComeTooLate(l: Lane, waiting: seq<TransportDelivery>, th: Through, a: Token)
    requires Inv(l, waiting) && l.env.broker.alive && Peaceful(l.env.past)
    requires l.ch.stages.mail == [] && l.ch.stages.throughs == [th] && l.ch.stages.queue == []
    requires l.ch.stages.throughQueue == [] && a in th.affected && a in l.ch.cells && l.ch.cells[a].state == Pending
    ensures var m := Succeed(Post(l, a, Reject(false)));
            && m.ch.stages.mail == [Settle(a, Reject(false))] && a in m.ch.cells
            && (var n := HandleSettle(m);
                && n.ch.stages.settlements == [Work(a, Reject(false))] && n.env.past.stray
                && n.env.broker.alive && Apply(n).env.broker.violated)
  {
    var p := Post(l, a, Reject(false));
    assert th in l.ch.stages.throughs;
    PostInv(l, waiting, a, Reject(false));
    assert Healthy(p, waiting);
    LateShape(p, th, a);
    LateUnsettled(p, waiting, th, a);
    LateClaim(Succeed(p), a);
  }

  lemma LateClaim(m: Lane, a: Token)
    requires m.ch.stages.mail == [Settle(a, Reject(false))] && !m.ch.stages.inFlight && m.ch.stages.settlements == []
    requires a in m.ch.cells && !m.ch.cells[a].settling && a.tag !in m.ch.ledger.pending
    requires m.env.broker.alive && a.tag !in m.env.broker.unsettled
    ensures var n := HandleSettle(m);
            && n.ch.stages.settlements == [Work(a, Reject(false))] && n.env.past.stray
            && n.env.broker.alive && Apply(n).env.broker.violated
  {
  }

  // The settle-through has landed: the token is free again, its tag has left the ledger.
  lemma LateShape(p: Lane, th: Through, a: Token)
    requires Serial(p.ch.stages) && p.ch.stages.mail == [Settle(a, Reject(false))] && p.ch.stages.throughs == [th]
    requires p.ch.stages.queue == [] && p.ch.stages.throughQueue == [] && a in th.affected
    requires a.tag <= th.token.tag && forall t :: t in p.ch.ledger.pending ==> p.ch.ledger.ackedPrefix < t
    ensures var m := Succeed(p);
            && m.ch.stages == p.ch.stages.(inFlight := false, settlements := [], throughs := [])
            && a in m.ch.cells && !m.ch.cells[a].settling && a.tag !in m.ch.ledger.pending
  {
    SucceedShape(p);
    MarkAt(p.ch.cells, th.affected, Acked);
    BetweenHas(p.ch.ledger.ackedPrefix, th.token.tag);
  }

  lemma LateUnsettled(p: Lane, waiting: seq<TransportDelivery>, th: Through, a: Token)
    requires Healthy(p, waiting) && p.ch.stages.throughs == [th] && a in th.affected && !p.ch.cfg.earlyAck
    ensures var broker := Succeed(p).env.broker;
            broker.alive && !broker.applied && !broker.violated && a.tag !in broker.unsettled
  {
    HealthyStep(p, waiting);
    HealthyMoves(p, waiting);
    ThroughTagsHas(p.ch.stages.throughs, th, a);
    GoneUnsettled(Succeed(p), waiting, a.tag);
  }
}
