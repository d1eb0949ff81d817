/**
 Lazy creation of one recovery coordinator per broker, racing with `close`. Every step is atomic:
 what happens under one mutex, or one call to the outside. Callers and the closer interleave
 their steps in any order.
 */
module ClientPool {
  type Broker = nat
  type Coordinator = nat
  type CallerId = nat

  datatype Lifecycle = Open(generation: nat) | Closing | Closed

  /** Where a call to `coordinator()` stands.
      - `Looking`: the pool was open, the registry not yet consulted
      - `Waiting`: not found, waiting for the broker's initializer lock
      - `Holding`: lock held, the registry to be consulted again
      - `Missing`: still not found, a coordinator to be spawned
      - `Committing`, `Discarding`: spawned, to be published or, having failed that, closed */
  datatype Stage =
    | Looking
    | Waiting
    | Holding
    | Missing
    | Committing(own: Coordinator)
    | Discarding(own: Coordinator)
    | Finished(found: Coordinator)
    | Refused

  datatype Caller = Caller(broker: Broker, generation: nat, stage: Stage)

  datatype Closer = Idle | Marked | Draining(todo: set<Coordinator>) | Ended

  // Who is to close a spawned coordinator.
  datatype Place = Held(caller: CallerId) | Registered | Drained | Gone

  /** The pool, and what has happened to it: the broker each coordinator was spawned for, how often
      it was closed, and who is to close it. */
  datatype State = State(
    lifecycle: Lifecycle,
    registry: map<Broker, Coordinator>,
    holders: map<Broker, CallerId>,
    callers: map<CallerId, Caller>,
    closer: Closer,
    spawned: map<Coordinator, Broker>,
    closes: map<Coordinator, nat>,
    place: map<Coordinator, Place>)

  predicate Locking(stage: Stage) {
    stage.Holding? || stage.Missing? || stage.Committing? || stage.Discarding?
  }

  predicate Owning(stage: Stage) {
    stage.Committing? || stage.Discarding?
  }

  predicate Done(stage: Stage) {
    stage.Finished? || stage.Refused?
  }

  // ---------------------------------------------------------------- invariant

  predicate InRegistry(s: State, b: Broker, c: Coordinator) {
    b in s.registry && s.registry[b] == c
  }

  predicate InHand(s: State, k: CallerId, c: Coordinator) {
    k in s.callers && Owning(s.callers[k].stage) && s.callers[k].stage.own == c
  }

  predicate HasLock(s: State, b: Broker, k: CallerId) {
    b in s.holders && s.holders[b] == k
  }

  predicate SpawnedFor(s: State, b: Broker, c: Coordinator) {
    c in s.spawned && s.spawned[c] == b
  }

  // A coordinator is where it is said to be: with a caller, in the registry, with the closer, or closed.
  predicate PlaceHolds(s: State, c: Coordinator)
    requires c in s.place && c in s.spawned && c in s.closes
  {
    && s.closes[c] == (if s.place[c] == Gone then 1 else 0)
    && match s.place[c]
       case Held(k) => InHand(s, k, c) && s.callers[k].broker == s.spawned[c]
       case Registered => InRegistry(s, s.spawned[c], c)
       case Drained => s.closer.Draining? && c in s.closer.todo
       case Gone => true
  }

  ghost predicate Placed(s: State) {
    && s.place.Keys == s.closes.Keys == s.spawned.Keys
    && (forall c {:trigger PlaceHolds(s, c)} :: c in s.spawned ==> PlaceHolds(s, c))
  }

  ghost predicate Listed(s: State)
    requires s.place.Keys == s.spawned.Keys
  {
    && (forall b, c {:trigger InRegistry(s, b, c)} ::
          InRegistry(s, b, c) ==> SpawnedFor(s, b, c) && s.place[c] == Registered)
    && (forall k, c {:trigger InHand(s, k, c)} ::
          InHand(s, k, c) ==> c in s.spawned && s.place[c] == Held(k))
    && (s.closer.Draining? ==> forall c :: c in s.closer.todo ==> c in s.spawned && s.place[c] == Drained)
  }

  ghost predicate Locked(s: State) {
    && (forall k {:trigger Locking(s.callers[k].stage)} :: k in s.callers && Locking(s.callers[k].stage) ==>
          HasLock(s, s.callers[k].broker, k))
    && (forall b, k {:trigger HasLock(s, b, k)} :: HasLock(s, b, k) ==>
          k in s.callers && s.callers[k].broker == b && Locking(s.callers[k].stage))
  }

  ghost predicate Unique(s: State) {
    && (forall b, c, d {:trigger SpawnedFor(s, b, c), SpawnedFor(s, b, d)} ::
          SpawnedFor(s, b, c) && SpawnedFor(s, b, d) ==> c == d)
    && (forall k, c {:trigger SpawnedFor(s, s.callers[k].broker, c)} ::
          k in s.callers && s.callers[k].stage == Missing ==> !SpawnedFor(s, s.callers[k].broker, c))
  }

  // While the pool is open nothing has been given up; once it drains, nothing is registered.
  ghost predicate Phased(s: State)
    requires s.place.Keys == s.spawned.Keys
  {
    && (s.lifecycle.Open? <==> s.closer == Idle)
    && (s.lifecycle.Open? ==>
          && (forall c {:trigger s.place[c]} :: c in s.spawned ==> s.place[c] == Registered || s.place[c].Held?)
          && (forall k {:trigger s.callers[k]} :: k in s.callers ==>
                && !s.callers[k].stage.Discarding?
                && (Done(s.callers[k].stage) || s.callers[k].generation == s.lifecycle.generation)))
    && (s.closer.Draining? || s.closer == Ended ==> s.registry == map[])
  }

  // A call that returned has its broker's coordinator, registered as long as the pool is open; none is
  // refused before the pool closes.
  ghost predicate Served(s: State) {
    forall k {:trigger s.callers[k]} :: k in s.callers ==>
      && (s.callers[k].stage.Finished? ==> SpawnedFor(s, s.callers[k].broker, s.callers[k].stage.found))
      && (s.lifecycle.Open? ==>
            && s.callers[k].stage != Refused
            && (s.callers[k].stage.Finished? ==> InRegistry(s, s.callers[k].broker, s.callers[k].stage.found)))
  }

  ghost predicate Valid(s: State) {
    Placed(s) && Listed(s) && Locked(s) && Unique(s) && Phased(s) && Served(s)
  }

  // ---------------------------------------------------------------- a caller's steps

  function Move(s: State, k: CallerId, stage: Stage): State
    requires k in s.callers
  {
    s.(callers := s.callers[k := s.callers[k].(stage := stage)])
  }

  function Unlock(s: State, k: CallerId): State
    requires k in s.callers
  {
    s.(holders := s.holders - {s.callers[k].broker})
  }

  function Enter(s: State, k: CallerId, broker: Broker): State {
    s.(callers := s.callers[k :=
      if s.lifecycle.Open? then Caller(broker, s.lifecycle.generation, Looking) else Caller(broker, 0, Refused)])
  }

  // Lifecycle and registry are read under one lock.
  predicate Refuses(s: State, caller: Caller) {
    s.lifecycle != Open(caller.generation)
  }

  function Look(s: State, k: CallerId): State
    requires k in s.callers
  {
    var caller := s.callers[k];
    Move(s, k, if Refuses(s, caller) then Refused
               else if caller.broker in s.registry then Finished(s.registry[caller.broker]) else Waiting)
  }

  function Acquire(s: State, k: CallerId): State
    requires k in s.callers
  {
    Move(s, k, Holding).(holders := s.holders[s.callers[k].broker := k])
  }

  // The second look, under the initializer lock: only a miss here leads to a spawn.
  function LookAgain(s: State, k: CallerId): State
    requires k in s.callers
  {
    var caller := s.callers[k];
    if Refuses(s, caller) then Move(Unlock(s, k), k, Refused)
    else if caller.broker in s.registry then Move(Unlock(s, k), k, Finished(s.registry[caller.broker]))
    else Move(s, k, Missing)
  }

  function Spawn(s: State, k: CallerId, c: Coordinator): State
    requires k in s.callers
  {
    Move(s, k, Committing(c)).(
      spawned := s.spawned[c := s.callers[k].broker], closes := s.closes[c := 0], place := s.place[c := Held(k)])
  }

  function Commit(s: State, k: CallerId): State
    requires k in s.callers && s.callers[k].stage.Committing?
  {
    var caller, c := s.callers[k], s.callers[k].stage.own;
    if Refuses(s, caller) then Move(s, k, Discarding(c))
    else Move(Unlock(s, k), k, Finished(c)).(registry := s.registry[caller.broker := c], place := s.place[c := Registered])
  }

  // The caller whose commit failed closes what it spawned.
  function Discard(s: State, k: CallerId): State
    requires k in s.callers && s.callers[k].stage.Discarding? && s.callers[k].stage.own in s.closes
  {
    var c := s.callers[k].stage.own;
    Move(Unlock(s, k), k, Refused).(closes := s.closes[c := s.closes[c] + 1], place := s.place[c := Gone])
  }

  // ---------------------------------------------------------------- the closer's steps

  function Mark(s: State): State {
    if s.lifecycle.Open? then s.(lifecycle := Closing, closer := Marked) else s
  }

  function TakeAll(s: State): State {
    s.(closer := Draining(s.registry.Values), registry := map[],
       place := map c | c in s.place :: if s.place[c] == Registered then Drained else s.place[c])
  }

  function CloseOne(s: State, c: Coordinator): State
    requires s.closer.Draining? && c in s.closes
  {
    s.(closer := Draining(s.closer.todo - {c}), closes := s.closes[c := s.closes[c] + 1],
       place := s.place[c := Gone])
  }

  function End(s: State): State {
    s.(lifecycle := Closed, closer := Ended)
  }

  // ---------------------------------------------------------------- every step keeps the invariant

  // Where a step leaves the registry, the owning callers, the closer and the history alone.
  lemma BooksFrame(s: State, t: State)
    requires Placed(s) && Listed(s)
    requires t.registry == s.registry && t.closer == s.closer
    requires t.spawned == s.spawned && t.closes == s.closes && t.place == s.place
    requires forall k, c :: InHand(s, k, c) <==> InHand(t, k, c)
    requires forall k :: k in s.callers ==> k in t.callers && t.callers[k].broker == s.callers[k].broker
    ensures Placed(t) && Listed(t)
  {
    forall c | c in t.spawned ensures PlaceHolds(t, c) {
      assert PlaceHolds(s, c);
    }
    forall b, c | InRegistry(t, b, c) ensures SpawnedFor(t, b, c) && t.place[c] == Registered {
      assert InRegistry(s, b, c);
    }
  }

  lemma UniqueFrame(s: State, t: State)
    requires Unique(s) && t.spawned == s.spawned
    requires forall k :: k in t.callers && t.callers[k].stage == Missing ==>
               || (k in s.callers && s.callers[k].stage == Missing && s.callers[k].broker == t.callers[k].broker)
               || forall c :: !SpawnedFor(s, t.callers[k].broker, c)
    ensures Unique(t)
  {
    forall k, c | k in t.callers && t.callers[k].stage == Missing ensures !SpawnedFor(t, t.callers[k].broker, c) {
      assert !SpawnedFor(s, t.callers[k].broker, c);
    }
    forall b, c, d | SpawnedFor(t, b, c) && SpawnedFor(t, b, d) ensures c == d {
      assert SpawnedFor(s, b, c) && SpawnedFor(s, b, d);
    }
  }

  // The locks and the callers that hold them, after one caller has moved.
  lemma LockFrame(s: State, t: State, k: CallerId)
    requires Locked(s) && k in t.callers
    requires forall other :: other != k ==> (other in s.callers <==> other in t.callers)
    requires forall other :: other != k && other in s.callers ==> t.callers[other] == s.callers[other]
    requires k in s.callers ==> s.callers[k].broker == t.callers[k].broker
    requires k !in s.callers ==> !Locking(t.callers[k].stage)
    requires
      || (t.holders == s.holders && k in s.callers && (Locking(s.callers[k].stage) <==> Locking(t.callers[k].stage)))
      || (t.holders == s.holders && k !in s.callers)
      || (t.holders == s.holders[t.callers[k].broker := k] && t.callers[k].broker !in s.holders
          && Locking(t.callers[k].stage))
      || (t.holders == s.holders - {t.callers[k].broker} && k in s.callers && Locking(s.callers[k].stage)
          && !Locking(t.callers[k].stage))
    ensures Locked(t)
  {
    forall b, other | HasLock(t, b, other)
      ensures other in t.callers && t.callers[other].broker == b && Locking(t.callers[other].stage)
    {
      assert HasLock(s, b, other) || other == k;
      if k in s.callers && Locking(s.callers[k].stage) {
        assert HasLock(s, s.callers[k].broker, k);
      }
    }
    forall other | other in t.callers && Locking(t.callers[other].stage)
      ensures HasLock(t, t.callers[other].broker, other)
    {
      if other != k {
        assert Locking(s.callers[other].stage);
        assert HasLock(s, s.callers[other].broker, other);
      } else if k in s.callers && Locking(s.callers[k].stage) {
        assert HasLock(s, s.callers[k].broker, k);
      }
    }
  }

  // Nothing that a returned call relies on goes away.
  lemma ServedFrame(s: State, t: State, k: CallerId)
    requires Served(s) && k in t.callers
    requires forall b, c :: SpawnedFor(s, b, c) ==> SpawnedFor(t, b, c)
    requires t.lifecycle.Open? ==> s.lifecycle.Open? && forall b, c :: InRegistry(s, b, c) ==> InRegistry(t, b, c)
    requires forall other :: other != k && other in t.callers ==>
               other in s.callers && t.callers[other] == s.callers[other]
    requires t.callers[k].stage.Finished? ==> SpawnedFor(t, t.callers[k].broker, t.callers[k].stage.found)
    requires t.lifecycle.Open? ==>
               && t.callers[k].stage != Refused
               && (t.callers[k].stage.Finished? ==> InRegistry(t, t.callers[k].broker, t.callers[k].stage.found))
    ensures Served(t)
  {
    forall other | other in t.callers && other != k
      ensures t.callers[other].stage.Finished? ==>
                SpawnedFor(s, t.callers[other].broker, t.callers[other].stage.found)
    {
      assert s.callers[other] == t.callers[other];
    }
  }

  lemma EnterKeeps(s: State, k: CallerId, broker: Broker)
    requires Valid(s) && k !in s.callers
    ensures Valid(Enter(s, k, broker))
  {
    var t := Enter(s, k, broker);
    BooksFrame(s, t);
    UniqueFrame(s, t);
    LockFrame(s, t, k);
    ServedFrame(s, t, k);
  }

  // A caller that owns nothing moves to a stage that owns nothing.
  lemma MoveKeeps(s: State, k: CallerId, t: State)
    requires Valid(s) && k in s.callers && !Owning(s.callers[k].stage) && !Done(s.callers[k].stage)
    requires t == s.(callers := t.callers, holders := t.holders)
    requires k in t.callers && t.callers == s.callers[k := s.callers[k].(stage := t.callers[k].stage)]
    requires !Owning(t.callers[k].stage)
    requires
      || (t.holders == s.holders && (Locking(s.callers[k].stage) <==> Locking(t.callers[k].stage)))
      || (t.holders == s.holders[t.callers[k].broker := k] && t.callers[k].broker !in s.holders
          && Locking(t.callers[k].stage))
      || (t.holders == s.holders - {t.callers[k].broker} && Locking(s.callers[k].stage)
          && !Locking(t.callers[k].stage))
    requires t.callers[k].stage == Missing ==> forall c :: !SpawnedFor(s, s.callers[k].broker, c)
    requires t.callers[k].stage.Finished? ==> InRegistry(s, s.callers[k].broker, t.callers[k].stage.found)
    requires t.callers[k].stage == Refused ==> !s.lifecycle.Open?
    ensures Valid(t)
  {
    BooksFrame(s, t);
    UniqueFrame(s, t);
    LockFrame(s, t, k);
    ServedFrame(s, t, k);
  }

  lemma LookKeeps(s: State, k: CallerId)
    requires Valid(s) && k in s.callers && s.callers[k].stage == Looking
    ensures Valid(Look(s, k))
  {
    MoveKeeps(s, k, Look(s, k));
  }

  lemma AcquireKeeps(s: State, k: CallerId)
    requires Valid(s) && k in s.callers && s.callers[k].stage == Waiting && s.callers[k].broker !in s.holders
    ensures Valid(Acquire(s, k))
  {
    MoveKeeps(s, k, Acquire(s, k));
  }

  // Under the lock, a miss in the registry of an open pool means nothing was ever spawned.
  lemma MissMeansNone(s: State, k: CallerId, c: Coordinator)
    requires Valid(s) && k in s.callers && s.callers[k].stage == Holding
    requires s.lifecycle.Open? && s.callers[k].broker !in s.registry
    ensures !SpawnedFor(s, s.callers[k].broker, c)
  {
    if SpawnedFor(s, s.callers[k].broker, c) {
      assert PlaceHolds(s, c);
      assert s.place[c].Held?;
      var other := s.place[c].caller;
      assert Locking(s.callers[other].stage) && Locking(s.callers[k].stage);
    }
  }

  lemma LookAgainKeeps(s: State, k: CallerId)
    requires Valid(s) && k in s.callers && s.callers[k].stage == Holding
    ensures Valid(LookAgain(s, k))
  {
    if LookAgain(s, k).callers[k].stage == Missing {
      forall c ensures !SpawnedFor(s, s.callers[k].broker, c) {
        MissMeansNone(s, k, c);
      }
    }
    MoveKeeps(s, k, LookAgain(s, k));
  }

  // Nobody else is about to spawn for the same broker.
  lemma SpawnUnique(s: State, k: CallerId, c: Coordinator)
    requires Locked(s) && Unique(s) && k in s.callers && s.callers[k].stage == Missing && c !in s.spawned
    ensures Unique(Spawn(s, k, c))
  {
    var t, broker := Spawn(s, k, c), s.callers[k].broker;
    forall b, d, e | SpawnedFor(t, b, d) && SpawnedFor(t, b, e) ensures d == e {
      assert d != c ==> SpawnedFor(s, b, d);
      assert e != c ==> SpawnedFor(s, b, e);
      assert !SpawnedFor(s, broker, d) && !SpawnedFor(s, broker, e);
    }
    forall other, d | other in t.callers && t.callers[other].stage == Missing
      ensures !SpawnedFor(t, t.callers[other].broker, d)
    {
      assert !SpawnedFor(s, s.callers[other].broker, d);
      assert Locking(s.callers[other].stage) && Locking(s.callers[k].stage);
      assert HasLock(s, s.callers[other].broker, other) && HasLock(s, broker, k);
    }
  }

  lemma SpawnBooks(s: State, k: CallerId, c: Coordinator)
    requires Placed(s) && Listed(s) && k in s.callers && s.callers[k].stage == Missing && c !in s.spawned
    ensures Placed(Spawn(s, k, c)) && Listed(Spawn(s, k, c))
  {
    var t := Spawn(s, k, c);
    forall d | d in t.spawned ensures PlaceHolds(t, d) {
      if d != c {
        assert PlaceHolds(s, d);
      }
    }
    forall b, d | InRegistry(t, b, d) ensures SpawnedFor(t, b, d) && t.place[d] == Registered {
      assert InRegistry(s, b, d) && SpawnedFor(s, b, d);
    }
    forall other, d | InHand(t, other, d) ensures d in t.spawned && t.place[d] == Held(other) {
      assert other != k ==> InHand(s, other, d);
    }
  }

  lemma SpawnKeeps(s: State, k: CallerId, c: Coordinator)
    requires Valid(s) && k in s.callers && s.callers[k].stage == Missing && c !in s.spawned
    ensures Valid(Spawn(s, k, c))
    ensures forall d :: !SpawnedFor(s, s.callers[k].broker, d)
  {
    SpawnBooks(s, k, c);
    SpawnUnique(s, k, c);
    LockFrame(s, Spawn(s, k, c), k);
    ServedFrame(s, Spawn(s, k, c), k);
  }

  // A committed coordinator never replaces another one.
  lemma CommitNeverOverwrites(s: State, k: CallerId)
    requires Valid(s) && k in s.callers && s.callers[k].stage.Committing?
    ensures s.callers[k].broker !in s.registry
  {
    var c, b := s.callers[k].stage.own, s.callers[k].broker;
    assert InHand(s, k, c) && PlaceHolds(s, c);
    if b in s.registry {
      assert InRegistry(s, b, s.registry[b]);
      assert SpawnedFor(s, b, s.registry[b]) && SpawnedFor(s, b, c);
    }
  }

  lemma CommitBooks(s: State, k: CallerId)
    requires Placed(s) && Listed(s) && k in s.callers && s.callers[k].stage.Committing?
    requires s.callers[k].broker !in s.registry
    ensures Placed(Commit(s, k)) && Listed(Commit(s, k))
  {
    var t, own := Commit(s, k), s.callers[k].stage.own;
    assert InHand(s, k, own) && PlaceHolds(s, own);
    forall c | c in t.spawned ensures PlaceHolds(t, c) {
      assert PlaceHolds(s, c);
    }
    forall b, c | InRegistry(t, b, c) ensures SpawnedFor(t, b, c) && t.place[c] == Registered {
      if InRegistry(s, b, c) {
        assert SpawnedFor(s, b, c);
      }
    }
    forall other, c | InHand(t, other, c) ensures c in t.spawned && t.place[c] == Held(other) {
      assert InHand(s, other, c);
    }
  }

  lemma CommitKeeps(s: State, k: CallerId)
    requires Valid(s) && k in s.callers && s.callers[k].stage.Committing?
    ensures Valid(Commit(s, k))
  {
    var t := Commit(s, k);
    CommitNeverOverwrites(s, k);
    CommitBooks(s, k);
    UniqueFrame(s, t);
    assert Locking(s.callers[k].stage);
    LockFrame(s, t, k);
    assert InHand(s, k, s.callers[k].stage.own) && PlaceHolds(s, s.callers[k].stage.own);
    ServedFrame(s, t, k);
  }

  lemma DiscardBooks(s: State, k: CallerId)
    requires Placed(s) && Listed(s) && k in s.callers && s.callers[k].stage.Discarding?
    ensures s.callers[k].stage.own in s.closes && Placed(Discard(s, k)) && Listed(Discard(s, k))
  {
    var own := s.callers[k].stage.own;
    assert InHand(s, k, own) && PlaceHolds(s, own);
    var t := Discard(s, k);
    forall c | c in t.spawned ensures PlaceHolds(t, c) {
      assert PlaceHolds(s, c);
    }
    forall b, c | InRegistry(t, b, c) ensures SpawnedFor(t, b, c) && t.place[c] == Registered {
      assert InRegistry(s, b, c) && SpawnedFor(s, b, c);
    }
    forall other, c | InHand(t, other, c) ensures c in t.spawned && t.place[c] == Held(other) {
      assert InHand(s, other, c);
    }
  }

  lemma DiscardKeeps(s: State, k: CallerId)
    requires Valid(s) && k in s.callers && s.callers[k].stage.Discarding?
    ensures s.callers[k].stage.own in s.closes && Valid(Discard(s, k))
  {
    DiscardBooks(s, k);
    UniqueFrame(s, Discard(s, k));
    assert Locking(s.callers[k].stage);
    LockFrame(s, Discard(s, k), k);
    ServedFrame(s, Discard(s, k), k);
  }

  // The closer's steps leave callers and locks alone.
  lemma CloserFrame(s: State, t: State)
    requires Locked(s) && Unique(s) && Served(s)
    requires t.callers == s.callers && t.holders == s.holders && t.spawned == s.spawned
    requires !t.lifecycle.Open?
    ensures Locked(t) && Unique(t) && Served(t)
  {
    UniqueFrame(s, t);
    forall k | k in t.callers && t.callers[k].stage.Finished?
      ensures SpawnedFor(t, t.callers[k].broker, t.callers[k].stage.found)
    {
      assert SpawnedFor(s, s.callers[k].broker, s.callers[k].stage.found);
    }
    forall b, k | HasLock(t, b, k)
      ensures k in t.callers && t.callers[k].broker == b && Locking(t.callers[k].stage)
    {
      assert HasLock(s, b, k);
    }
    forall k | k in t.callers && Locking(t.callers[k].stage) ensures HasLock(t, t.callers[k].broker, k) {
      assert HasLock(s, s.callers[k].broker, k);
    }
  }

  lemma MarkKeeps(s: State)
    requires Valid(s)
    ensures Valid(Mark(s))
  {
    if s.lifecycle.Open? {
      var t := Mark(s);
      CloserFrame(s, t);
      forall c | c in t.spawned ensures PlaceHolds(t, c) {
        assert PlaceHolds(s, c);
      }
      forall b, c | InRegistry(t, b, c) ensures SpawnedFor(t, b, c) && t.place[c] == Registered {
        assert InRegistry(s, b, c) && SpawnedFor(s, b, c);
      }
      forall k, c | InHand(t, k, c) ensures c in t.spawned && t.place[c] == Held(k) {
        assert InHand(s, k, c);
      }
    }
  }

  lemma TakeAllKeeps(s: State)
    requires Valid(s) && s.closer == Marked
    ensures Valid(TakeAll(s))
  {
    var t := TakeAll(s);
    CloserFrame(s, t);
    forall c | c in t.spawned ensures PlaceHolds(t, c) {
      assert PlaceHolds(s, c);
    }
    forall c | c in t.closer.todo ensures c in t.spawned && t.place[c] == Drained {
      var b :| b in s.registry && s.registry[b] == c;
      assert InRegistry(s, b, c) && SpawnedFor(s, b, c);
    }
    forall k, c | InHand(t, k, c) ensures c in t.spawned && t.place[c] == Held(k) {
      assert InHand(s, k, c);
    }
  }

  lemma CloseOneKeeps(s: State, c: Coordinator)
    requires Valid(s) && s.closer.Draining? && c in s.closer.todo
    ensures c in s.closes && Valid(CloseOne(s, c))
  {
    assert PlaceHolds(s, c);
    var t := CloseOne(s, c);
    CloserFrame(s, t);
    forall d | d in t.spawned ensures PlaceHolds(t, d) {
      assert PlaceHolds(s, d);
    }
    forall k, d | InHand(t, k, d) ensures d in t.spawned && t.place[d] == Held(k) {
      assert InHand(s, k, d);
    }
  }

  lemma EndKeeps(s: State)
    requires Valid(s) && s.closer == Draining({})
    ensures Valid(End(s))
  {
    var t := End(s);
    CloserFrame(s, t);
    forall c | c in t.spawned ensures PlaceHolds(t, c) {
      assert PlaceHolds(s, c);
    }
    forall k, c | InHand(t, k, c) ensures c in t.spawned && t.place[c] == Held(k) {
      assert InHand(s, k, c);
    }
  }

  // ---------------------------------------------------------------- what it means

  /** Under every interleaving at most one coordinator is ever spawned for a broker, none is closed
      twice, and none in the registry is closed. */
  lemma OneCoordinatorPerBroker(s: State, c: Coordinator, d: Coordinator)
    requires Valid(s) && c in s.spawned && d in s.spawned && s.spawned[c] == s.spawned[d]
    ensures c == d
    ensures c in s.closes && s.closes[c] <= 1
    ensures forall b :: b in s.registry ==> s.registry[b] in s.closes && s.closes[s.registry[b]] == 0
  {
    assert SpawnedFor(s, s.spawned[c], c) && SpawnedFor(s, s.spawned[c], d);
    assert PlaceHolds(s, c);
    forall b | b in s.registry ensures s.registry[b] in s.closes && s.closes[s.registry[b]] == 0 {
      assert InRegistry(s, b, s.registry[b]) && SpawnedFor(s, b, s.registry[b]);
      assert PlaceHolds(s, s.registry[b]);
    }
  }

  // All successful calls for a broker return the same coordinator; until the pool closes none is refused.
  lemma CallersShare(s: State, j: CallerId, k: CallerId)
    requires Valid(s) && j in s.callers && k in s.callers && s.callers[j].broker == s.callers[k].broker
    ensures s.callers[j].stage.Finished? && s.callers[k].stage.Finished? ==>
              s.callers[j].stage.found == s.callers[k].stage.found
    ensures s.lifecycle.Open? ==> s.callers[k].stage != Refused
  {
    if s.callers[j].stage.Finished? && s.callers[k].stage.Finished? {
      assert SpawnedFor(s, s.callers[j].broker, s.callers[j].stage.found);
      assert SpawnedFor(s, s.callers[k].broker, s.callers[k].stage.found);
    }
  }

  // Once `close` has ended and every caller has returned, each spawned coordinator was closed exactly once.
  lemma NothingLeaks(s: State)
    requires Valid(s) && s.closer == Ended
    requires forall k :: k in s.callers ==> Done(s.callers[k].stage)
    ensures forall c :: c in s.spawned ==> c in s.closes && s.closes[c] == 1
  {
    forall c | c in s.spawned ensures c in s.closes && s.closes[c] == 1 {
      assert PlaceHolds(s, c);
    }
  }

  // ---------------------------------------------------------------- the pool itself

  // One step of one of the parties. A step that is not enabled does nothing.
  datatype Event =
    | Enters(k: CallerId, broker: Broker)
    | Proceeds(k: CallerId)
    | Closes
    | ClosesOne(c: Coordinator)

  class Pool {
    var lifecycle: Lifecycle
    var registry: map<Broker, Coordinator>
    var holders: map<Broker, CallerId>
    var callers: map<CallerId, Caller>
    var closer: Closer
    var nextCoordinator: Coordinator
    ghost var spawned: map<Coordinator, Broker>
    ghost var closes: map<Coordinator, nat>
    ghost var place: map<Coordinator, Place>

    ghost function View(): State
      reads this
    {
      State(lifecycle, registry, holders, callers, closer, spawned, closes, place)
    }

    ghost predicate Sound()
      reads this
    {
      Valid(View()) && forall c :: c in spawned ==> c < nextCoordinator
    }

    constructor (generation: nat)
      ensures Sound() && lifecycle == Open(generation) && callers == map[] && spawned == map[]
    {
      lifecycle, closer, nextCoordinator := Open(generation), Idle, 0;
      registry, holders, callers := map[], map[], map[];
      spawned, closes, place := map[], map[], map[];
    }

    method StartCall(k: CallerId, broker: Broker)
      requires Sound() && k !in callers
      modifies this`callers
      ensures Sound() && View() == Enter(old(View()), k, broker)
    {
      EnterKeeps(View(), k, broker);
      if lifecycle.Open? {
        callers := callers[k := Caller(broker, lifecycle.generation, Looking)];
      } else {
        callers := callers[k := Caller(broker, 0, Refused)];
      }
    }

    // Lifecycle and registry are read under one lock.
    method Ready(caller: Caller) returns (refused: bool, found: bool, c: Coordinator)
      ensures refused <==> lifecycle != Open(caller.generation)
      ensures found <==> !refused && caller.broker in registry
      ensures found ==> c == registry[caller.broker]
    {
      refused, found, c := lifecycle != Open(caller.generation), false, 0;
      if !refused && caller.broker in registry {
        found, c := true, registry[caller.broker];
      }
    }

    method FirstLook(k: CallerId)
      requires Sound() && k in callers && callers[k].stage == Looking
      modifies this`callers
      ensures Sound() && View() == Look(old(View()), k)
    {
      LookKeeps(View(), k);
      var refused, found, c := Ready(callers[k]);
      var stage := if refused then Refused else if found then Finished(c) else Waiting;
      callers := callers[k := callers[k].(stage := stage)];
    }

    method LockInitializer(k: CallerId)
      requires Sound() && k in callers && callers[k].stage == Waiting && callers[k].broker !in holders
      modifies this`callers, this`holders
      ensures Sound() && View() == Acquire(old(View()), k)
    {
      AcquireKeeps(View(), k);
      holders := holders[callers[k].broker := k];
      callers := callers[k := callers[k].(stage := Holding)];
    }

    method SecondLook(k: CallerId)
      requires Sound() && k in callers && callers[k].stage == Holding
      modifies this`callers, this`holders
      ensures Sound() && View() == LookAgain(old(View()), k)
    {
      LookAgainKeeps(View(), k);
      var refused, found, c := Ready(callers[k]);
      if refused || found {
        holders := holders - {callers[k].broker};
        callers := callers[k := callers[k].(stage := if refused then Refused else Finished(c))];
      } else {
        callers := callers[k := callers[k].(stage := Missing)];
      }
    }

    // Nothing was ever spawned for this broker before.
    method SpawnCoordinator(k: CallerId)
      requires Sound() && k in callers && callers[k].stage == Missing
      modifies this`callers, this`nextCoordinator, this`spawned, this`closes, this`place
      ensures Sound() && View() == Spawn(old(View()), k, old(nextCoordinator))
      ensures forall d :: d in old(spawned) ==> old(spawned)[d] != old(callers)[k].broker
    {
      SpawnKeeps(View(), k, nextCoordinator);
      assert forall d :: d in spawned ==> spawned[d] != callers[k].broker by {
        forall d | d in spawned ensures spawned[d] != callers[k].broker {
          assert !SpawnedFor(View(), callers[k].broker, d);
        }
      }
      var c := nextCoordinator;
      nextCoordinator := nextCoordinator + 1;
      spawned, closes, place := spawned[c := callers[k].broker], closes[c := 0], place[c := Held(k)];
      callers := callers[k := callers[k].(stage := Committing(c))];
    }

    method CommitCoordinator(k: CallerId)
      requires Sound() && k in callers && callers[k].stage.Committing?
      modifies this`callers, this`holders, this`registry, this`place
      ensures Sound() && View() == Commit(old(View()), k)
      ensures old(callers)[k].broker !in old(registry)
    {
      CommitKeeps(View(), k);
      CommitNeverOverwrites(View(), k);
      var caller := callers[k];
      var c := caller.stage.own;
      if lifecycle == Open(caller.generation) {
        registry := registry[caller.broker := c];
        holders := holders - {caller.broker};
        callers := callers[k := caller.(stage := Finished(c))];
        place := place[c := Registered];
      } else {
        callers := callers[k := caller.(stage := Discarding(c))];
      }
    }

    method DiscardCoordinator(k: CallerId)
      requires Sound() && k in callers && callers[k].stage.Discarding?
      modifies this`callers, this`holders, this`closes, this`place
      ensures Sound() && old(callers)[k].stage.own in old(closes) && View() == Discard(old(View()), k)
    {
      DiscardKeeps(View(), k);
      var caller := callers[k];
      closes, place := closes[caller.stage.own := closes[caller.stage.own] + 1], place[caller.stage.own := Gone];
      holders := holders - {caller.broker};
      callers := callers[k := caller.(stage := Refused)];
    }

    method MarkClosing()
      requires Sound()
      modifies this`lifecycle, this`closer
      ensures Sound() && View() == Mark(old(View()))
    {
      MarkKeeps(View());
      if lifecycle.Open? {
        lifecycle, closer := Closing, Marked;
      }
    }

    method TakeCoordinators()
      requires Sound() && closer == Marked
      modifies this`registry, this`closer, this`place
      ensures Sound() && View() == TakeAll(old(View()))
    {
      TakeAllKeeps(View());
      closer := Draining(registry.Values);
      place := map c | c in place :: if place[c] == Registered then Drained else place[c];
      registry := map[];
    }

    method CloseCoordinator(c: Coordinator)
      requires Sound() && closer.Draining? && c in closer.todo
      modifies this`closer, this`closes, this`place
      ensures Sound() && c in old(closes) && View() == CloseOne(old(View()), c)
    {
      CloseOneKeeps(View(), c);
      closer := Draining(closer.todo - {c});
      closes, place := closes[c := closes[c] + 1], place[c := Gone];
    }

    method FinishClosing()
      requires Sound() && closer == Draining({})
      modifies this`closer, this`lifecycle
      ensures Sound() && View() == End(old(View()))
    {
      EndKeeps(View());
      lifecycle, closer := Closed, Ended;
    }

    method Proceed(k: CallerId)
      requires Sound() && k in callers
      modifies this
      ensures Sound()
    {
      match callers[k].stage
      case Looking => FirstLook(k);
      case Waiting =>
        if callers[k].broker !in holders {
          LockInitializer(k);
        }
      case Holding => SecondLook(k);
      case Missing => SpawnCoordinator(k);
      case Committing(_) => CommitCoordinator(k);
      case Discarding(_) => DiscardCoordinator(k);
      case _ =>
    }

    // Callers and closer in any order: the invariant holds throughout.
    method Run(events: seq<Event>)
      requires Sound()
      modifies this
      ensures Sound()
    {
      for i := 0 to |events|
        invariant Sound()
      {
        match events[i]
        case Enters(k, broker) =>
          if k !in callers {
            StartCall(k, broker);
          }
        case Proceeds(k) =>
          if k in callers {
            Proceed(k);
          }
        case Closes =>
          if closer == Idle {
            MarkClosing();
          } else if closer == Marked {
            TakeCoordinators();
          } else if closer == Draining({}) {
            FinishClosing();
          }
        case ClosesOne(c) =>
          if closer.Draining? && c in closer.todo {
            CloseCoordinator(c);
          }
      }
    }
  }
}
