/**
 The fan-in consumer over the sets of several brokers: round-robin polling, permanent
 retirement of closed sources, and the one-shot signal that tells the owner to fetch the
 consumer again.
 */
module Composite {
  import opened Options

  const COUNTER_SIZE: nat := 0x1_0000_0000_0000_0000

  datatype Error = Closed | SourceReplaced | Failure(code: nat)

  datatype Result<+T> = Ok(value: T) | Err(error: Error)

  // What a source answers when it is polled.
  datatype Poll = Item(delivery: nat) | Empty | Gone | Fails(code: nat)

  // The source polled at `offset` of a rotation that starts at `start`.
  function At(start: nat, offset: nat, n: nat): nat
    requires start < n && offset < n
  {
    if start + offset < n then start + offset else start + offset - n
  }

  lemma AtLeastOnce(a: nat, n: nat)
    requires a >= 1
    ensures a * n >= n
  {
    assert a * n == (a - 1) * n + n;
  }

  lemma SameRemainder(p: nat, s: nat, q: nat, r: nat, n: nat)
    requires s < n && r < n && p * n + s == q * n + r
    ensures s == r
  {
    if p < q {
      AtLeastOnce(q - p, n);
    } else if p > q {
      AtLeastOnce(p - q, n);
    }
  }

  lemma Remainder(x: nat, q: nat, r: nat, n: nat)
    requires r < n && x == q * n + r
    ensures x % n == r
  {
    SameRemainder(x / n, x % n, q, r, n);
  }

  lemma AtIsModular(start: nat, offset: nat, n: nat)
    requires start < n && offset < n
    ensures At(start, offset, n) == (start + offset) % n
  {
    Remainder(start + offset, if start + offset < n then 0 else 1, At(start, offset, n), n);
  }

  // Every source is somewhere in the rotation.
  lemma OffsetOf(start: nat, i: nat, n: nat) returns (k: nat)
    requires start < n && i < n
    ensures k < n && At(start, k, n) == i
  {
    k := if i >= start then i - start else i + n - start;
  }

  // A source that ends a round: it has a delivery or an error.
  predicate Speaks(p: Poll) {
    p.Item? || p.Fails?
  }

  /** A round from offset `k` on: the sources found closed on the way are retired, and the first live one
      that speaks ends it. Gives the retired ones afterwards and that source, or n if none spoke. */
  function Sweep(retired: seq<bool>, polls: seq<Poll>, start: nat, k: nat): (swept: (seq<bool>, nat))
    requires start < |polls| == |retired| && k <= |polls|
    ensures |swept.0| == |polls| && swept.1 <= |polls|
    decreases |polls| - k
  {
    if k == |polls| then (retired, |polls|)
    else
      var i := At(start, k, |polls|);
      if !retired[i] && Speaks(polls[i]) then (retired, i)
      else Sweep(if polls[i] == Gone then retired[i := true] else retired, polls, start, k + 1)
  }

  // What one round over the sources comes to.
  datatype Round = Found(delivery: nat, from: nat) | Broken(code: nat, from: nat) | Nothing

  // A source with nothing to give: retired before, empty, or closed.
  predicate Passed(before: seq<bool>, polls: seq<Poll>, i: nat)
    requires i < |before| == |polls|
  {
    before[i] || polls[i] == Empty || polls[i] == Gone
  }

  function Retirements(retired: seq<bool>): nat {
    if retired == [] then 0 else
      Retirements(retired[..|retired| - 1]) + if retired[|retired| - 1] then 1 else 0
  }

  predicate AllRetired(retired: seq<bool>) {
    forall i :: 0 <= i < |retired| ==> retired[i]
  }

  lemma {:induction false} RetirementsBound(retired: seq<bool>)
    ensures Retirements(retired) <= |retired|
    ensures Retirements(retired) == |retired| <==> AllRetired(retired)
  {
    if retired != [] {
      var n := |retired| - 1;
      RetirementsBound(retired[..n]);
      assert AllRetired(retired) <==> AllRetired(retired[..n]) && retired[n];
    }
  }

  lemma {:induction false} RetirementsGrow(retired: seq<bool>, i: nat)
    requires i < |retired| && !retired[i]
    ensures Retirements(retired[i := true]) == Retirements(retired) + 1
  {
    var n := |retired| - 1;
    if i == n {
      assert retired[i := true][..n] == retired[..n];
    } else {
      assert retired[i := true][..n] == retired[..n][i := true];
      RetirementsGrow(retired[..n], i);
    }
  }

  // ---------------------------------------------------------------- batches

  // What a source answers to a request for several deliveries.
  datatype BatchPoll = Part(deliveries: seq<nat>) | BatchGone | BatchFails(code: nat)

  function Clamp(max: nat): nat {
    if max < 1 then 1 else if max > 256 then 256 else max
  }

  // What the first `k` sources of a rotation contribute, up to `max` deliveries, in polling order.
  function Gathered(before: seq<bool>, polls: seq<BatchPoll>, start: nat, k: nat, max: nat): (batch: seq<nat>)
    requires start < |polls| == |before| && k <= |polls|
    ensures |batch| <= max
  {
    if k == 0 then [] else
      var batch := Gathered(before, polls, start, k - 1, max);
      var i := At(start, k - 1, |polls|);
      if before[i] || !polls[i].Part? then batch
      else
        var room := max - |batch|;
        batch + if |polls[i].deliveries| <= room then polls[i].deliveries else polls[i].deliveries[..room]
  }

  // A source's own answer.
  function PassedOn(p: Poll): Result<Option<nat>> {
    match p
    case Item(d) => Ok(Some(d))
    case Empty => Ok(None)
    case Gone => Err(Closed)
    case Fails(code) => Err(Failure(code))
  }

  function BatchPassedOn(p: BatchPoll): Result<seq<nat>> {
    match p
    case Part(deliveries) => Ok(deliveries)
    case BatchGone => Err(Closed)
    case BatchFails(code) => Err(Failure(code))
  }

  // ---------------------------------------------------------------- several calls

  // The counter wraps around like a `usize`.
  function Bump(counter: nat): nat {
    if counter + 1 == COUNTER_SIZE then 0 else counter + 1
  }

  function CounterAfter(counter: nat, calls: nat): nat {
    if calls == 0 then counter else Bump(CounterAfter(counter, calls - 1))
  }

  lemma {:induction false} CounterAfterIs(counter: nat, calls: nat)
    requires counter < COUNTER_SIZE && calls <= COUNTER_SIZE
    ensures CounterAfter(counter, calls)
         == if counter + calls < COUNTER_SIZE then counter + calls else counter + calls - COUNTER_SIZE
  {
    if calls > 0 {
      CounterAfterIs(counter, calls - 1);
    }
  }

  // The source the call after `i` others starts with.
  function StartOf(counter: nat, i: nat, n: nat): (start: nat)
    requires n > 0
    ensures start < n
  {
    CounterAfter(counter, i) % n
  }

  predicate Rounds(rounds: seq<seq<Poll>>, n: nat) {
    forall j :: 0 <= j < |rounds| ==> |rounds[j]| == n
  }

  // The retired sources after the first `j` calls.
  function RetiredAfter(retired: seq<bool>, counter: nat, rounds: seq<seq<Poll>>, j: nat): (after: seq<bool>)
    requires retired != [] && Rounds(rounds, |retired|) && j <= |rounds|
    ensures |after| == |retired|
  {
    if j == 0 then retired
    else
      Sweep(RetiredAfter(retired, counter, rounds, j - 1), rounds[j - 1], StartOf(counter, j - 1, |retired|), 0).0
  }

  // The source that answers call `j`, or the number of sources if none does.
  function Server(retired: seq<bool>, counter: nat, rounds: seq<seq<Poll>>, j: nat): nat
    requires retired != [] && Rounds(rounds, |retired|) && j < |rounds|
  {
    Sweep(RetiredAfter(retired, counter, rounds, j), rounds[j], StartOf(counter, j, |retired|), 0).1
  }

  // Each call that a source spoke in was answered with what the first of them said.
  ghost predicate Answered(
      retired: seq<bool>, counter: nat, rounds: seq<seq<Poll>>, answers: seq<Result<Option<nat>>>)
    requires retired != [] && Rounds(rounds, |retired|) && |answers| <= |rounds|
  {
    forall j :: 0 <= j < |answers| && Server(retired, counter, rounds, j) < |retired| ==>
      answers[j] == PassedOn(rounds[j][Server(retired, counter, rounds, j)])
  }

  class Consumer {
    const n: nat
    var retired: seq<bool>
    var roundRobin: nat
    var pendingError: Option<nat>
    var pendingSignal: bool
    var closedByCaller: bool
    ghost var surfaced: nat

    // Every signal, surfaced or pending, stands for a retirement that left another source live.
    ghost predicate Valid()
      reads this
    {
      && |retired| == n && roundRobin < COUNTER_SIZE
      && surfaced + (if pendingSignal then 1 else 0) <= Retirements(retired)
      && (n > 0 ==> surfaced + (if pendingSignal then 1 else 0) <= n - 1)
    }

    constructor (n: nat)
      ensures Valid() && this.n == n && !AnyRetired() && surfaced == 0
    {
      this.n := n;
      retired := seq(n, _ => false);
      roundRobin, pendingError, pendingSignal, closedByCaller := 0, None, false, false;
      surfaced := 0;
    }

    ghost predicate AnyRetired()
      reads this
    {
      exists i :: 0 <= i < |retired| && retired[i]
    }

    // The starting source of this call.
    method Rotate() returns (start: nat)
      requires Valid() && n > 0
      modifies this`roundRobin
      ensures Valid() && start == old(roundRobin) % n
      ensures roundRobin == Bump(old(roundRobin))
    {
      start := roundRobin % n;
      roundRobin := Bump(roundRobin);
    }

    // Idempotent. A first retirement leaves a signal, unless it is the last one or the owner has closed.
    method Retire(i: nat)
      requires Valid() && i < n
      modifies this`retired, this`pendingSignal
      ensures Valid()
      ensures retired == old(retired)[i := true]
      ensures pendingSignal == (old(pendingSignal)
                || (!old(retired[i]) && !AllRetired(retired) && !closedByCaller))
    {
      if retired[i] {
        assert retired[i := true] == retired;
        return;
      }
      RetirementsGrow(retired, i);
      retired := retired[i := true];
      RetirementsBound(retired);
      if AllRetired(retired) || closedByCaller {
        return;
      }
      if !pendingSignal {
        pendingSignal := true;
      }
    }

    // The signal outranks a stashed batch error, which then stays for the next call.
    method TakePending() returns (error: Option<Error>)
      requires Valid()
      modifies this`pendingSignal, this`pendingError, this`surfaced
      ensures Valid()
      ensures old(pendingSignal) ==>
                error == Some(SourceReplaced) && pendingError == old(pendingError) && surfaced == old(surfaced) + 1
      ensures !old(pendingSignal) ==>
                && error == (if old(pendingError) == None then None else Some(Failure(old(pendingError).value)))
                && pendingError == None && surfaced == old(surfaced)
      ensures !pendingSignal
    {
      if pendingSignal {
        pendingSignal := false;
        surfaced := surfaced + 1;
        return Some(SourceReplaced);
      }
      error := if pendingError == None then None else Some(Failure(pendingError.value));
      pendingError := None;
    }

    // One round: the first source of the rotation that has a delivery or an error ends it.
    method Scan(start: nat, polls: seq<Poll>) returns (round: Round)
      requires Valid() && |polls| == n && start < n
      modifies this`retired, this`pendingSignal
      ensures Valid()
      ensures Sweep(old(retired), polls, start, 0) == (retired, if round == Nothing then n else round.from)
      ensures forall i :: 0 <= i < n && old(retired)[i] ==> retired[i]
      ensures forall i :: 0 <= i < n && retired[i] && !old(retired)[i] ==> polls[i] == Gone
      ensures old(pendingSignal) ==> pendingSignal
      ensures round == Nothing ==> forall i :: 0 <= i < n ==> Passed(old(retired), polls, i)
      ensures round != Nothing ==>
                && round.from < n && !old(retired)[round.from]
                && polls[round.from] == (if round.Found? then Item(round.delivery) else Fails(round.code))
                && !retired[round.from]
                && exists k :: 0 <= k < n && At(start, k, n) == round.from
                     && forall j :: 0 <= j < k ==> Passed(old(retired), polls, At(start, j, n))
    {
      for offset := 0 to n
        invariant Valid()
        invariant Sweep(retired, polls, start, offset) == Sweep(old(retired), polls, start, 0)
        invariant old(pendingSignal) ==> pendingSignal
        invariant forall i :: 0 <= i < n && old(retired)[i] ==> retired[i]
        invariant forall i :: 0 <= i < n && retired[i] && !old(retired)[i] ==> polls[i] == Gone
        invariant forall k :: 0 <= k < offset ==> Passed(old(retired), polls, At(start, k, n))
      {
        var i := At(start, offset, n);
        assert retired[i] ==> retired[i := true] == retired;
        if !retired[i] {
          match polls[i]
          case Item(d) =>
            return Found(d, i);
          case Empty =>
          case Gone =>
            Retire(i);
          case Fails(code) =>
            return Broken(code, i);
        }
      }
      forall i | 0 <= i < n ensures Passed(old(retired), polls, i) {
        var k := OffsetOf(start, i, n);
      }
      return Nothing;
    }

    /** One call. Over several sources the answer comes from the first one of the rotation that is not
        retired and has a delivery or an error; a source found closed is retired for good; a re-fetch
        signal surfaces before a stashed error, and nothing but `Closed` once all are retired. A single
        source's answer is passed on. */
    method TryNext(polls: seq<Poll>) returns (r: Result<Option<nat>>, from: nat)
      requires Valid() && |polls| == n
      modifies this
      ensures Valid() && closedByCaller == old(closedByCaller)
      ensures n == 0 ==> r == Err(Closed) && unchanged(this)
      ensures n == 1 ==> r == PassedOn(polls[0]) && from == 0 && unchanged(this)
      ensures n > 1 ==> roundRobin == Bump(old(roundRobin))
      ensures n > 1 ==>
                var swept := Sweep(old(retired), polls, old(roundRobin) % n, 0);
                && retired == swept.0
                && (swept.1 < n ==> from == swept.1 && r == PassedOn(polls[from]) && !old(retired)[from])
                && (swept.1 == n ==>
                      && (forall i :: 0 <= i < n ==> Passed(old(retired), polls, i))
                      && (r == Err(Closed) <==> AllRetired(retired))
                      && (r == Ok(None) || r == Err(Closed) || r == Err(SourceReplaced)
                          || (old(pendingError).Some? && r == Err(Failure(old(pendingError).value)))))
      ensures forall i :: 0 <= i < n && old(retired)[i] ==> retired[i]
      ensures forall i :: 0 <= i < n && retired[i] && !old(retired)[i] ==> polls[i] == Gone
      ensures n > 1 && AllRetired(old(retired)) ==> r == Err(Closed)
      ensures n > 1 && r == Ok(None) ==> !pendingSignal
      ensures surfaced == old(surfaced) + if r == Err(SourceReplaced) then 1 else 0
      ensures old(pendingSignal) ==> pendingError == old(pendingError)
    {
      if n == 1 {
        return PassedOn(polls[0]), 0;
      }
      if n == 0 {
        return Err(Closed), 0;
      }
      var start := Rotate();
      var round := Scan(start, polls);
      if round.Found? {
        return Ok(Some(round.delivery)), round.from;
      }
      if round.Broken? {
        return Err(Failure(round.code)), round.from;
      }
      if AllRetired(retired) {
        return Err(Closed), 0;
      }
      var pending := TakePending();
      if pending.Some? {
        return Err(pending.value), 0;
      }
      return Ok(None), 0;
    }

    /** As many calls as there are rounds of polls: each is answered by the source that speaks first in its
        rotation, with the sources retired that were found closed before. */
    method TryNextRepeatedly(rounds: seq<seq<Poll>>) returns (answers: seq<Result<Option<nat>>>)
      requires Valid() && n > 1 && Rounds(rounds, n)
      modifies this
      ensures Valid() && |answers| == |rounds|
      ensures retired == RetiredAfter(old(retired), old(roundRobin), rounds, |rounds|)
      ensures Answered(old(retired), old(roundRobin), rounds, answers)
    {
      answers := [];
      ghost var before, counter := retired, roundRobin;
      for j := 0 to |rounds|
        invariant Valid() && |before| == n && |answers| == j
        invariant retired == RetiredAfter(before, counter, rounds, j) && roundRobin == CounterAfter(counter, j)
        invariant Answered(before, counter, rounds, answers)
      {
        var r, _ := TryNext(rounds[j]);
        answers := answers + [r];
      }
    }

    // One round of a batch call: ends when the batch is full or a source fails.
    method Gather(start: nat, polls: seq<BatchPoll>, max: nat)
      returns (batch: seq<nat>, k: nat, failure: Option<nat>)
      requires Valid() && |polls| == n && start < n && max > 0
      modifies this`retired, this`pendingSignal
      ensures Valid()
      ensures forall i :: 0 <= i < n && old(retired)[i] ==> retired[i]
      ensures forall i :: 0 <= i < n && retired[i] && !old(retired)[i] ==> polls[i] == BatchGone
      ensures old(pendingSignal) ==> pendingSignal
      ensures k <= n && batch == Gathered(old(retired), polls, start, k, max)
      ensures k < n ==> |batch| == max || failure.Some?
      ensures failure.Some? ==>
                k < n && polls[At(start, k, n)] == BatchFails(failure.value) && !old(retired)[At(start, k, n)]
    {
      batch, k, failure := [], 0, None;
      while k < n
        invariant Valid() && k <= n && failure == None
        invariant forall i :: 0 <= i < n && old(retired)[i] ==> retired[i]
        invariant forall i :: 0 <= i < n && retired[i] && !old(retired)[i] ==> polls[i] == BatchGone
        invariant old(pendingSignal) ==> pendingSignal
        invariant batch == Gathered(old(retired), polls, start, k, max)
      {
        if |batch| >= max {
          return;
        }
        var i := At(start, k, n);
        if !retired[i] {
          match polls[i]
          case Part(deliveries) =>
            var room := max - |batch|;
            batch := batch + if |deliveries| <= room then deliveries else deliveries[..room];
          case BatchGone =>
            Retire(i);
          case BatchFails(code) =>
            return batch, k, Some(code);
        }
        k := k + 1;
      }
    }

    /** A batch call. Over several sources, an error met after deliveries have been drained is stashed, so
        that they are never lost; it cannot displace a pending signal. A single source's answer is passed on. */
    method TryNextBatch(max: nat, polls: seq<BatchPoll>) returns (r: Result<seq<nat>>, ghost k: nat)
      requires Valid() && |polls| == n
      modifies this
      ensures Valid() && closedByCaller == old(closedByCaller) && k <= n
      ensures n == 0 ==> r == Err(Closed) && unchanged(this)
      ensures n == 1 ==> r == BatchPassedOn(polls[0]) && unchanged(this)
      ensures forall i :: 0 <= i < n && old(retired)[i] ==> retired[i]
      ensures forall i :: 0 <= i < n && retired[i] && !old(retired)[i] ==> polls[i] == BatchGone
      ensures n > 1 && r.Ok? ==>
                && |r.value| <= Clamp(max)
                && r.value == Gathered(old(retired), polls, old(roundRobin) % n, k, Clamp(max))
      ensures n > 1 && r.Ok? && r.value != [] ==> (old(pendingSignal) ==> pendingSignal)
      ensures n > 1 && r.Ok? && r.value != [] && k == n ==> pendingError == old(pendingError)
      ensures n > 1 && r.Ok? && r.value != [] && k < n && |r.value| < Clamp(max) ==>
                var source := At(old(roundRobin) % n, k, n);
                polls[source].BatchFails? && pendingError == Some(polls[source].code)
      ensures n > 1 && r.Err? ==>
                || (r == Err(Closed) && AllRetired(retired))
                || r == Err(SourceReplaced)
                || (k < n && var source := At(old(roundRobin) % n, k, n);
                    !old(retired)[source] && polls[source].BatchFails? && r == Err(Failure(polls[source].code)))
                || (k == n && old(pendingError).Some? && r == Err(Failure(old(pendingError).value))
                    && pendingError == None)
      ensures n > 1 && AllRetired(old(retired)) ==> r == Err(Closed)
      ensures surfaced == old(surfaced) + if r == Err(SourceReplaced) then 1 else 0
    {
      k := 0;
      if n == 1 {
        return BatchPassedOn(polls[0]), k;
      }
      if n == 0 {
        return Err(Closed), k;
      }
      var limit := Clamp(max);
      var start := Rotate();
      var batch, reached, failure := Gather(start, polls, limit);
      k := reached;
      if failure.Some? {
        if batch == [] {
          return Err(Failure(failure.value)), k;
        }
        pendingError := failure;
      }
      if batch == [] {
        assert AllRetired(old(retired)) ==> AllRetired(retired);
        if AllRetired(retired) {
          return Err(Closed), k;
        }
        var pending := TakePending();
        if pending.Some? {
          return Err(pending.value), k;
        }
      }
      assert AllRetired(old(retired)) ==> batch == [] by {
        if AllRetired(old(retired)) {
          NothingGathered(old(retired), polls, start, k, limit);
        }
      }
      return Ok(batch), k;
    }

    /** A waiting call: `order` is the order in which the polls of the live sources resolve. The first
        delivery or error is the answer; a source that closes is retired, and what is then pending, the
        signal first, is the answer while others are live. A single source's answer is passed on. */
    method Next(order: seq<nat>, polls: seq<Poll>) returns (r: Result<nat>, from: nat)
      requires Valid() && |polls| == n
      requires forall k :: 0 <= k < |order| ==> order[k] < n && polls[order[k]] != Empty
      requires forall i :: 0 <= i < n && !retired[i] ==> i in order
      requires n == 1 ==> polls[0] != Empty
      modifies this
      ensures Valid() && closedByCaller == old(closedByCaller)
      ensures n == 0 ==> r == Err(Closed) && unchanged(this)
      ensures n == 1 ==>
                && unchanged(this) && from == 0
                && r == match polls[0]
                        case Item(d) => Ok(d)
                        case Fails(code) => Err(Failure(code))
                        case _ => Err(Closed)
      ensures n > 1 ==> roundRobin == Bump(old(roundRobin))
      ensures forall i :: 0 <= i < n && old(retired)[i] ==> retired[i]
      ensures forall i :: 0 <= i < n && retired[i] && !old(retired)[i] ==> polls[i] == Gone
      ensures n > 1 && r == Err(Closed) ==> AllRetired(retired)
      ensures n > 1 ==> forall d :: r == Ok(d) ==> from < n && polls[from] == Item(d) && !old(retired)[from]
      ensures n > 1 ==> forall code: nat :: r == Err(Failure(code)) ==>
                || (from < n && polls[from] == Fails(code) && !old(retired)[from])
                || (old(pendingError) == Some(code) && pendingError == None)
      ensures surfaced == old(surfaced) + if r == Err(SourceReplaced) then 1 else 0
      ensures old(pendingSignal) && r.Err? && r.error.Failure? ==> pendingSignal && pendingError == old(pendingError)
    {
      if n == 1 {
        if polls[0].Item? {
          return Ok(polls[0].delivery), 0;
        }
        return Err(if polls[0].Fails? then Failure(polls[0].code) else Closed), 0;
      }
      if n == 0 {
        return Err(Closed), 0;
      }
      var _ := Rotate();
      for k := 0 to |order|
        invariant Valid() && surfaced == old(surfaced) && closedByCaller == old(closedByCaller)
        invariant pendingError == old(pendingError) || pendingError == None
        invariant roundRobin == Bump(old(roundRobin))
        invariant old(pendingSignal) ==> pendingSignal && pendingError == old(pendingError)
        invariant forall i :: 0 <= i < n && old(retired)[i] ==> retired[i]
        invariant forall i :: 0 <= i < n && retired[i] && !old(retired)[i] ==> polls[i] == Gone
        invariant forall j :: 0 <= j < k ==> retired[order[j]]
      {
        var i := order[k];
        if !retired[i] {
          if polls[i].Item? {
            return Ok(polls[i].delivery), i;
          }
          if polls[i].Fails? {
            return Err(Failure(polls[i].code)), i;
          }
          Retire(i);
          if !AllRetired(retired) {
            var pending := TakePending();
            if pending.Some? {
              return Err(pending.value), i;
            }
          }
        }
      }
      forall i | 0 <= i < n ensures retired[i] {
        if !old(retired)[i] {
          var j :| 0 <= j < |order| && order[j] == i;
        }
      }
      return Err(Closed), 0;
    }

    // The owner closes: nothing pending is left to surface.
    method Close()
      requires Valid()
      modifies this`closedByCaller, this`pendingError, this`pendingSignal
      ensures Valid() && closedByCaller && pendingError == None && !pendingSignal
    {
      closedByCaller, pendingError, pendingSignal := true, None, false;
    }
  }

  lemma {:induction false} NothingGathered(before: seq<bool>, polls: seq<BatchPoll>, start: nat, k: nat, max: nat)
    requires start < |polls| == |before| && k <= |polls| && AllRetired(before)
    ensures Gathered(before, polls, start, k, max) == []
  {
    if k > 0 {
      NothingGathered(before, polls, start, k - 1, max);
    }
  }

  // ---------------------------------------------------------------- what it means

  // Of n sources at most n - 1 retirements are ever signalled.
  lemma SignalsBounded(consumer: Consumer)
    requires consumer.Valid() && consumer.n > 0
    ensures consumer.surfaced <= consumer.n - 1
    ensures consumer.surfaced <= Retirements(consumer.retired)
  {
  }

  // Every source comes first in one of the next n calls.
  ghost predicate Fair(counter: nat, n: nat)
    requires n > 0
  {
    forall source :: 0 <= source < n ==> Starts(counter, n, source)
  }

  ghost predicate Starts(counter: nat, n: nat, source: nat)
    requires n > 0
  {
    exists i :: 0 <= i < n && StartOf(counter, i, n) == source
  }

  lemma ShiftTo(q: nat, r: nat, n: nat, target: nat) returns (i: nat)
    requires r < n && target < n
    ensures i < n && (q * n + r + i) % n == target
  {
    if target >= r {
      i := target - r;
      Remainder(q * n + r + i, q, target, n);
    } else {
      i := target + n - r;
      assert q * n + n == (q + 1) * n;
      Remainder(q * n + r + i, q + 1, target, n);
    }
  }

  lemma AddMultiple(x: nat, m: nat, n: nat)
    requires n > 0
    ensures (x + m * n) % n == x % n
  {
    var q, r := x / n, x % n;
    assert x + m * n == (q + m) * n + r;
    Remainder(x + m * n, q + m, r, n);
  }

  // Counting without the wrap-around.
  lemma PlainStart(counter: nat, i: nat, n: nat)
    requires n > 0 && (counter + i < COUNTER_SIZE || COUNTER_SIZE % n == 0)
    requires counter < COUNTER_SIZE && i < COUNTER_SIZE
    ensures StartOf(counter, i, n) == (counter + i) % n
  {
    CounterAfterIs(counter, i);
    var x := counter + i;
    if x >= COUNTER_SIZE {
      var m := COUNTER_SIZE / n;
      assert m * n == COUNTER_SIZE;
      AddMultiple(x - COUNTER_SIZE, m, n);
    }
  }

  lemma FairWithoutWrap(counter: nat, n: nat, source: nat)
    requires 0 < n < COUNTER_SIZE && counter < COUNTER_SIZE && source < n
    requires counter + n <= COUNTER_SIZE || COUNTER_SIZE % n == 0
    ensures Starts(counter, n, source)
  {
    var i := ShiftTo(counter / n, counter % n, n, source);
    assert counter / n * n + counter % n == counter;
    PlainStart(counter, i, n);
  }

  // Before the wrap-around the starts run up to `r - 1`, after it they run from 0.
  lemma StartAroundWrap(q: nat, r: nat, a: nat, i: nat, n: nat)
    requires r < n && a < n && i < n && q * n + r == COUNTER_SIZE && 0 < a && n < COUNTER_SIZE
    ensures StartOf(COUNTER_SIZE - a, i, n)
         == if i >= a then i - a else if a - i <= r then r - (a - i) else r + n - (a - i)
  {
    CounterAfterIs(COUNTER_SIZE - a, i);
    if i >= a {
      Remainder(i - a, 0, i - a, n);
    } else {
      BackFromWrap(q, r, a - i, n);
    }
  }

  lemma BackFromWrap(q: nat, r: nat, back: nat, n: nat)
    requires r < n && 0 < back < n && q * n + r == COUNTER_SIZE && n < COUNTER_SIZE
    ensures (COUNTER_SIZE - back) % n == if back <= r then r - back else r + n - back
  {
    if back <= r {
      Remainder(COUNTER_SIZE - back, q, r - back, n);
    } else {
      assert q >= 1;
      assert (q - 1) * n + n == q * n;
      Remainder(COUNTER_SIZE - back, q - 1, r + n - back, n);
    }
  }

  lemma UnfairAtWrap(counter: nat, n: nat)
    requires 0 < n < COUNTER_SIZE && counter < COUNTER_SIZE
    requires counter + n > COUNTER_SIZE && COUNTER_SIZE % n != 0
    ensures !Fair(counter, n)
  {
    var q, r, a := COUNTER_SIZE / n, COUNTER_SIZE % n, COUNTER_SIZE - counter;
    assert q * n + r == COUNTER_SIZE;
    var missed := if n - a > r then n - a else r;
    forall i | 0 <= i < n ensures StartOf(counter, i, n) != missed {
      StartAroundWrap(q, r, a, i, n);
    }
    assert !Starts(counter, n, missed);
  }

  // Every source starts one of n consecutive calls exactly when the counter's wrap-around does not shift them.
  lemma FairIff(counter: nat, n: nat)
    requires 0 < n < COUNTER_SIZE && counter < COUNTER_SIZE
    ensures Fair(counter, n) <==> counter + n <= COUNTER_SIZE || COUNTER_SIZE % n == 0
  {
    if counter + n <= COUNTER_SIZE || COUNTER_SIZE % n == 0 {
      forall source | 0 <= source < n ensures Starts(counter, n, source) {
        FairWithoutWrap(counter, n, source);
      }
    } else {
      UnfairAtWrap(counter, n);
    }
  }

  // ---------------------------------------------------------------- a source that keeps a delivery ready

  // A round retires only sources found closed.
  lemma {:induction false} SweepSpares(retired: seq<bool>, polls: seq<Poll>, start: nat, k: nat, source: nat)
    requires start < |polls| == |retired| && k <= |polls| && source < |polls|
    requires !retired[source] && polls[source] != Gone
    ensures !Sweep(retired, polls, start, k).0[source]
    decreases |polls| - k
  {
    if k < |polls| {
      var i := At(start, k, |polls|);
      if retired[i] || !Speaks(polls[i]) {
        SweepSpares(if polls[i] == Gone then retired[i := true] else retired, polls, start, k + 1, source);
      }
    }
  }

  predicate KeepsReady(rounds: seq<seq<Poll>>, source: nat) {
    forall j :: 0 <= j < |rounds| ==> source < |rounds[j]| && rounds[j][source].Item?
  }

  lemma {:induction false} StaysLive(retired: seq<bool>, counter: nat, rounds: seq<seq<Poll>>, source: nat, j: nat)
    requires source < |retired| && !retired[source] && Rounds(rounds, |retired|) && KeepsReady(rounds, source)
    requires j <= |rounds|
    ensures !RetiredAfter(retired, counter, rounds, j)[source]
    decreases j
  {
    if j > 0 {
      StaysLive(retired, counter, rounds, source, j - 1);
      SweepSpares(RetiredAfter(retired, counter, rounds, j - 1), rounds[j - 1],
                  StartOf(counter, j - 1, |retired|), 0, source);
    }
  }

  // The call that starts with a live source which has a delivery is answered by it.
  lemma StartIsServed(retired: seq<bool>, counter: nat, rounds: seq<seq<Poll>>, source: nat, j: nat)
    requires source < |retired| && !retired[source] && Rounds(rounds, |retired|) && KeepsReady(rounds, source)
    requires j < |rounds| && StartOf(counter, j, |retired|) == source
    ensures Server(retired, counter, rounds, j) == source
  {
    StaysLive(retired, counter, rounds, source, j);
  }

  // One of the calls is answered by the source.
  ghost predicate IsServed(retired: seq<bool>, counter: nat, rounds: seq<seq<Poll>>, source: nat)
    requires retired != [] && Rounds(rounds, |retired|)
  {
    exists j :: 0 <= j < |rounds| && Server(retired, counter, rounds, j) == source
  }

  // Whatever the others answer, a live source that keeps a delivery ready is served within n calls.
  ghost predicate NobodyStarves(counter: nat, n: nat)
    requires n > 0
  {
    forall retired: seq<bool>, rounds: seq<seq<Poll>>, source: nat ::
      |retired| == |rounds| == n && Rounds(rounds, n) && source < n && !retired[source] && KeepsReady(rounds, source) ==>
        IsServed(retired, counter, rounds, source)
  }

  lemma FairServes(counter: nat, n: nat)
    requires n > 0 && Fair(counter, n)
    ensures NobodyStarves(counter, n)
  {
    forall retired: seq<bool>, rounds: seq<seq<Poll>>, source: nat |
      |retired| == |rounds| == n && Rounds(rounds, n) && source < n && !retired[source] && KeepsReady(rounds, source)
      ensures IsServed(retired, counter, rounds, source)
    {
      assert Starts(counter, n, source);
      var j :| 0 <= j < n && StartOf(counter, j, n) == source;
      StartIsServed(retired, counter, rounds, source, j);
    }
  }

  // With a delivery ready everywhere, every call is answered by the source it starts with.
  lemma MissedStarves(counter: nat, n: nat, source: nat)
    requires n > 0 && source < n && !Starts(counter, n, source)
    ensures !NobodyStarves(counter, n)
  {
    var retired := seq(n, _ => false);
    var round := seq(n, _ => Item(0));
    var rounds := seq(n, _ => round);
    assert KeepsReady(rounds, source);
    if IsServed(retired, counter, rounds, source) {
      var j :| 0 <= j < |rounds| && Server(retired, counter, rounds, j) == source;
      StartIsServed(retired, counter, rounds, StartOf(counter, j, n), j);
    }
  }

  /** A live source that keeps a delivery ready is served within n consecutive calls, whatever the others
      answer, if and only if the polling counter does not wrap around among them, or wraps around at a
      multiple of n. */
  lemma NobodyStarvesIff(counter: nat, n: nat)
    requires 0 < n < COUNTER_SIZE && counter < COUNTER_SIZE
    ensures NobodyStarves(counter, n) <==> counter + n <= COUNTER_SIZE || COUNTER_SIZE % n == 0
  {
    FairIff(counter, n);
    if Fair(counter, n) {
      FairServes(counter, n);
    } else {
      var source :| 0 <= source < n && !Starts(counter, n, source);
      MissedStarves(counter, n, source);
    }
  }
}
