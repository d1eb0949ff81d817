/**
 Publishing a batch: the requests are regrouped by broker, handed to the brokers in whatever
 order a hash map yields them, and the outcomes are put back in the order of the requests.
 */
module PublishBatch {
  import opened Options

  type Broker = nat
  type Error = nat

  datatype Outcome = Confirmed(messageId: nat) | Returned(messageId: nat)

  datatype Result<+T> = Ok(value: T) | Err(error: Error)

  datatype Request = Request(broker: Broker, messageId: nat)

  // How a broker's publisher answers one request: not accepted, or accepted and settled later.
  datatype Answer = NotAccepted(error: Error) | Accepted(later: Result<Outcome>)

  // What a request comes to: `down` holds the brokers no publisher can be acquired for.
  function Fate(down: map<Broker, Error>, request: Request, answer: Answer): Result<Outcome> {
    if request.broker in down then Err(down[request.broker])
    else
      match answer
      case NotAccepted(error) => Err(error)
      case Accepted(later) => later
  }

  predicate IsAccepted(down: map<Broker, Error>, request: Request, answer: Answer) {
    request.broker !in down && answer.Accepted?
  }

  function Fates(down: map<Broker, Error>, requests: seq<Request>, answers: seq<Answer>): seq<Result<Outcome>>
    requires |answers| == |requests|
  {
    seq(|requests|, i requires 0 <= i < |requests| => Fate(down, requests[i], answers[i]))
  }

  // The error kept is that of some failed request.
  ghost predicate Explained(fates: seq<Result<Outcome>>, error: Option<Error>) {
    error.Some? ==> exists i :: 0 <= i < |fates| && fates[i] == Err(error.value)
  }

  // Indices of requests for one broker, in the order of the requests.
  ghost predicate Group(requests: seq<Request>, b: Broker, indices: seq<nat>, upTo: nat)
    requires upTo <= |requests|
  {
    && (forall i :: i in indices ==> i < upTo && requests[i].broker == b)
    && (forall j, k :: 0 <= j < k < |indices| ==> indices[j] < indices[k])
  }

  ghost predicate Grouped(requests: seq<Request>, groups: map<Broker, seq<nat>>, upTo: nat)
    requires upTo <= |requests|
  {
    && (forall i :: 0 <= i < upTo ==> requests[i].broker in groups && i in groups[requests[i].broker])
    && (forall b :: b in groups ==> Group(requests, b, groups[b], upTo))
  }

  lemma GroupGrows(requests: seq<Request>, b: Broker, indices: seq<nat>, i: nat)
    requires i < |requests| && Group(requests, b, indices, i) && requests[i].broker == b
    ensures Group(requests, b, indices + [i], i + 1)
  {
    var more := indices + [i];
    forall j, k | 0 <= j < k < |more| ensures more[j] < more[k] {
      assert indices[j] in indices;
    }
  }

  lemma GroupedGrows(requests: seq<Request>, groups: map<Broker, seq<nat>>, i: nat, b: Broker, indices: seq<nat>)
    requires i < |requests| && Grouped(requests, groups, i) && b == requests[i].broker
    requires indices == if b in groups then groups[b] else []
    ensures Grouped(requests, groups[b := indices + [i]], i + 1)
  {
    var more := groups[b := indices + [i]];
    GroupGrows(requests, b, indices, i);
    forall other | other in more ensures Group(requests, other, more[other], i + 1) {
      if other != b {
        assert Group(requests, other, groups[other], i);
      }
    }
    forall j | 0 <= j < i + 1 ensures requests[j].broker in more && j in more[requests[j].broker] {
      if j < i {
        assert j in groups[requests[j].broker];
      } else {
        assert (indices + [i])[|indices|] == i;
      }
    }
  }

  method GroupByBroker(requests: seq<Request>) returns (groups: map<Broker, seq<nat>>)
    ensures Grouped(requests, groups, |requests|)
  {
    groups := map[];
    for i := 0 to |requests|
      invariant Grouped(requests, groups, i)
    {
      var b := requests[i].broker;
      var indices := if b in groups then groups[b] else [];
      GroupedGrows(requests, groups, i, b, indices);
      groups := groups[b := indices + [i]];
    }
  }

  // One request is settled: its outcome is recorded, unless its waiter is still out.
  ghost predicate Recorded(
      fates: seq<Result<Outcome>>, outcomes: seq<Option<Result<Outcome>>>, waiters: seq<nat>, i: nat)
    requires i < |fates| == |outcomes|
  {
    if i in waiters then outcomes[i] == None else outcomes[i] == Some(fates[i])
  }

  // The requests of `done` are settled, the others untouched.
  ghost predicate Progress(
      down: map<Broker, Error>, requests: seq<Request>, answers: seq<Answer>,
      outcomes: seq<Option<Result<Outcome>>>, waiters: seq<nat>, error: Option<Error>, done: set<nat>)
    requires |requests| == |answers|
  {
    var fates := Fates(down, requests, answers);
    && |outcomes| == |requests|
    && (forall i :: i in done ==> i < |requests|)
    && (forall i :: i in waiters ==> i in done && IsAccepted(down, requests[i], answers[i]))
    && (forall i :: i in done && IsAccepted(down, requests[i], answers[i]) ==> i in waiters)
    && (forall i :: i in done ==> Recorded(fates, outcomes, waiters, i))
    && (forall i :: 0 <= i < |requests| && i !in done ==> outcomes[i] == None)
    && (error == None ==> forall i :: i in done && i !in waiters ==> fates[i].Ok?)
    && Explained(fates, error)
  }

  // One request of a broker whose publisher is there, or of one whose publisher is not.
  method Submit(
      down: map<Broker, Error>, requests: seq<Request>, answers: seq<Answer>,
      outcomes: seq<Option<Result<Outcome>>>, waiters: seq<nat>, error: Option<Error>, ghost done: set<nat>, i: nat)
    returns (
      outcomes': seq<Option<Result<Outcome>>>, waiters': seq<nat>, error': Option<Error>)
    requires |requests| == |answers| && i < |requests| && i !in done
    requires Progress(down, requests, answers, outcomes, waiters, error, done)
    ensures Progress(down, requests, answers, outcomes', waiters', error', done + {i})
  {
    ghost var fates := Fates(down, requests, answers);
    assert fates[i] == Fate(down, requests[i], answers[i]);
    outcomes', waiters', error' := outcomes, waiters, error;
    if requests[i].broker in down {
      var failure := down[requests[i].broker];
      outcomes' := outcomes[i := Some(Err(failure))];
      error' := if error == None then Some(failure) else error;
    } else {
      match answers[i]
      case NotAccepted(failure) =>
        outcomes' := outcomes[i := Some(Err(failure))];
        error' := if error == None then Some(failure) else error;
      case Accepted(_) =>
        waiters' := waiters + [i];
    }
  }

  // One broker's requests, in their own order.
  method SubmitGroup(
      down: map<Broker, Error>, requests: seq<Request>, answers: seq<Answer>,
      outcomes: seq<Option<Result<Outcome>>>, waiters: seq<nat>, error: Option<Error>, ghost done: set<nat>,
      b: Broker, indices: seq<nat>)
    returns (
      outcomes': seq<Option<Result<Outcome>>>, waiters': seq<nat>, error': Option<Error>)
    requires |requests| == |answers| && Group(requests, b, indices, |requests|)
    requires forall i :: i in indices ==> i !in done
    requires Progress(down, requests, answers, outcomes, waiters, error, done)
    ensures Progress(down, requests, answers, outcomes', waiters', error', done + Indices(indices))
  {
    outcomes', waiters', error' := outcomes, waiters, error;
    assert done + Indices([]) == done;
    for n := 0 to |indices|
      invariant Progress(down, requests, answers, outcomes', waiters', error', done + Indices(indices[..n]))
    {
      assert indices[..n + 1][..n] == indices[..n];
      IndicesHas(indices[..n]);
      assert indices[n] in indices && forall j :: 0 <= j < n ==> indices[j] != indices[n];
      outcomes', waiters', error' := Submit(
        down, requests, answers, outcomes', waiters', error', done + Indices(indices[..n]), indices[n]);
      assert done + Indices(indices[..n]) + {indices[n]} == done + Indices(indices[..n + 1]);
    }
    assert indices[..|indices|] == indices;
  }

  ghost function Indices(xs: seq<nat>): set<nat> {
    if xs == [] then {} else Indices(xs[..|xs| - 1]) + {xs[|xs| - 1]}
  }

  lemma {:induction false} IndicesHas(xs: seq<nat>)
    ensures forall i :: i in Indices(xs) <==> i in xs
  {
    if xs != [] {
      IndicesHas(xs[..|xs| - 1]);
    }
  }

  ghost function Below(n: nat): set<nat> {
    if n == 0 then {} else Below(n - 1) + {n - 1}
  }

  lemma {:induction false} BelowHas(n: nat)
    ensures forall i :: i in Below(n) <==> 0 <= i < n
  {
    if n > 0 {
      BelowHas(n - 1);
    }
  }

  // Every broker's requests, the brokers in any order.
  method SubmitAll(
      down: map<Broker, Error>, requests: seq<Request>, answers: seq<Answer>, groups: map<Broker, seq<nat>>)
    returns (outcomes: seq<Option<Result<Outcome>>>, waiters: seq<nat>, error: Option<Error>)
    requires |requests| == |answers| && Grouped(requests, groups, |requests|)
    ensures Progress(down, requests, answers, outcomes, waiters, error, Below(|requests|))
  {
    outcomes, waiters, error := seq(|requests|, _ => None), [], None;
    var left := groups.Keys;
    ghost var done: set<nat> := {};
    while left != {}
      invariant left <= groups.Keys
      invariant Progress(down, requests, answers, outcomes, waiters, error, done)
      invariant forall i :: 0 <= i < |requests| ==> (i in done <==> requests[i].broker !in left)
      decreases left
    {
      var b :| b in left;
      assert Group(requests, b, groups[b], |requests|);
      IndicesHas(groups[b]);
      outcomes, waiters, error :=
        SubmitGroup(down, requests, answers, outcomes, waiters, error, done, b, groups[b]);
      done, left := done + Indices(groups[b]), left - {b};
    }
    BelowHas(|requests|);
    assert done == Below(|requests|);
  }

  // Every accepted publication is awaited, whatever has failed before.
  method AwaitAll(
      down: map<Broker, Error>, requests: seq<Request>, answers: seq<Answer>,
      outcomes: seq<Option<Result<Outcome>>>, waiters: seq<nat>, error: Option<Error>)
    returns (
      outcomes': seq<Option<Result<Outcome>>>, error': Option<Error>, awaited: set<nat>)
    requires |requests| == |answers|
    requires Progress(down, requests, answers, outcomes, waiters, error, Below(|requests|))
    ensures var fates := Fates(down, requests, answers);
            && |outcomes'| == |requests|
            && (forall i :: 0 <= i < |requests| ==> outcomes'[i] == Some(fates[i]))
            && (error' == None <==> forall i :: 0 <= i < |requests| ==> fates[i].Ok?)
            && Explained(fates, error')
    ensures awaited == set i: nat | i < |requests| && IsAccepted(down, requests[i], answers[i])
  {
    ghost var fates := Fates(down, requests, answers);
    BelowHas(|requests|);
    outcomes', error', awaited := outcomes, error, {};
    for n := 0 to |waiters|
      invariant |outcomes'| == |requests|
      invariant awaited == Indices(waiters[..n])
      invariant forall i :: 0 <= i < |requests| ==>
                  outcomes'[i] == if i in waiters && i !in waiters[..n] then None else Some(fates[i])
      invariant error' == None ==>
                  forall i :: 0 <= i < |requests| && (i !in waiters || i in waiters[..n]) ==> fates[i].Ok?
      invariant Explained(fates, error')
    {
      var i := waiters[n];
      assert i in waiters && waiters[..n + 1] == waiters[..n] + [i] && waiters[..n + 1][..n] == waiters[..n];
      var later := answers[i].later;
      assert fates[i] == later;
      outcomes' := outcomes'[i := Some(later)];
      if later.Err? && error' == None {
        error' := Some(later.error);
      }
      awaited := awaited + {i};
    }
    assert waiters[..|waiters|] == waiters;
    IndicesHas(waiters);
  }

  method Collect(outcomes: seq<Option<Result<Outcome>>>, error: Option<Error>, ghost fates: seq<Result<Outcome>>)
    returns (r: Result<seq<Outcome>>)
    requires |outcomes| == |fates| && forall i :: 0 <= i < |fates| ==> outcomes[i] == Some(fates[i])
    requires error == None <==> forall i :: 0 <= i < |fates| ==> fates[i].Ok?
    requires Explained(fates, error)
    ensures r.Ok? <==> forall i :: 0 <= i < |fates| ==> fates[i].Ok?
    ensures r.Ok? ==> |r.value| == |fates| && forall i :: 0 <= i < |fates| ==> fates[i] == Ok(r.value[i])
    ensures r.Err? ==> Explained(fates, Some(r.error))
  {
    if error.Some? {
      return Err(error.value);
    }
    var results: seq<Outcome> := [];
    for n := 0 to |outcomes|
      invariant |results| == n
      invariant forall i :: 0 <= i < n ==> fates[i] == Ok(results[i])
    {
      results := results + [outcomes[n].value.value];
    }
    return Ok(results);
  }

  /** A confirmed batch, whatever order the brokers are visited in: it succeeds if and only if every
      request does, and then entry i is the outcome of request i; a failure reported is that of some
      request; and every accepted publication has been awaited either way. */
  method Publish(down: map<Broker, Error>, requests: seq<Request>, answers: seq<Answer>)
    returns (r: Result<seq<Outcome>>, awaited: set<nat>)
    requires |requests| == |answers|
    ensures var fates := Fates(down, requests, answers);
            && (r.Ok? <==> forall i :: 0 <= i < |requests| ==> fates[i].Ok?)
            && (r.Ok? ==> |r.value| == |requests| && forall i :: 0 <= i < |requests| ==> fates[i] == Ok(r.value[i]))
            && (r.Err? ==> Explained(fates, Some(r.error)))
    ensures awaited == set i: nat | i < |requests| && IsAccepted(down, requests[i], answers[i])
  {
    var groups := GroupByBroker(requests);
    var outcomes, waiters, error := SubmitAll(down, requests, answers, groups);
    outcomes, error, awaited := AwaitAll(down, requests, answers, outcomes, waiters, error);
    r := Collect(outcomes, error, Fates(down, requests, answers));
  }

  // ---------------------------------------------------------------- blind mode

  // A blind publication is confirmed as soon as its publisher takes it.
  function BlindFate(down: map<Broker, Error>, request: Request, answer: Answer): Result<Outcome> {
    if request.broker in down then Err(down[request.broker])
    else
      match answer
      case NotAccepted(error) => Err(error)
      case Accepted(_) => Ok(Confirmed(request.messageId))
  }

  // The requests of `done` have been taken and confirmed, the others have not been tried.
  ghost predicate Taken(
      down: map<Broker, Error>, requests: seq<Request>, answers: seq<Answer>,
      outcomes: seq<Option<Outcome>>, done: set<nat>)
    requires |requests| == |answers|
  {
    && |outcomes| == |requests|
    && (forall i :: i in done ==>
          && i < |requests| && outcomes[i].Some?
          && BlindFate(down, requests[i], answers[i]) == Ok(outcomes[i].value))
    && (forall i :: 0 <= i < |requests| && i !in done ==> outcomes[i] == None)
  }

  // The first failure is reported at once: its request, and those after it, have not been taken.
  ghost predicate FailsFirst(
      down: map<Broker, Error>, requests: seq<Request>, answers: seq<Answer>, error: Error, done: set<nat>)
    requires |requests| == |answers|
  {
    exists i :: 0 <= i < |requests| && i !in done && BlindFate(down, requests[i], answers[i]) == Err(error)
  }

  method HandOverGroup(
      down: map<Broker, Error>, requests: seq<Request>, answers: seq<Answer>,
      outcomes: seq<Option<Outcome>>, ghost done: set<nat>, b: Broker, indices: seq<nat>)
    returns (outcomes': seq<Option<Outcome>>, error: Option<Error>, ghost done': set<nat>)
    requires |requests| == |answers| && Group(requests, b, indices, |requests|)
    requires forall i :: i in indices ==> i !in done
    requires Taken(down, requests, answers, outcomes, done)
    ensures Taken(down, requests, answers, outcomes', done')
    ensures error == None ==> done' == done + Indices(indices)
    ensures error.Some? ==> FailsFirst(down, requests, answers, error.value, done')
  {
    outcomes', error, done' := outcomes, None, done;
    for n := 0 to |indices|
      invariant Taken(down, requests, answers, outcomes', done')
      invariant error == None && done' == done + Indices(indices[..n])
    {
      assert indices[..n + 1][..n] == indices[..n];
      IndicesHas(indices[..n]);
      var i := indices[n];
      assert i in indices && forall j :: 0 <= j < n ==> indices[j] != i;
      match BlindFate(down, requests[i], answers[i])
      case Err(failure) =>
        return outcomes', Some(failure), done';
      case Ok(outcome) =>
        outcomes', done' := outcomes'[i := Some(outcome)], done' + {i};
    }
    assert indices[..|indices|] == indices;
  }

  // Every broker's requests, the brokers in any order, until one of them fails.
  method HandOverAll(
      down: map<Broker, Error>, requests: seq<Request>, answers: seq<Answer>, groups: map<Broker, seq<nat>>)
    returns (outcomes: seq<Option<Outcome>>, error: Option<Error>, ghost taken: set<nat>)
    requires |requests| == |answers| && Grouped(requests, groups, |requests|)
    ensures Taken(down, requests, answers, outcomes, taken)
    ensures error == None ==> taken == Below(|requests|)
    ensures error.Some? ==> FailsFirst(down, requests, answers, error.value, taken)
  {
    outcomes, error, taken := seq(|requests|, _ => None), None, {};
    var left := groups.Keys;
    while left != {}
      invariant left <= groups.Keys && error == None && Taken(down, requests, answers, outcomes, taken)
      invariant forall i :: 0 <= i < |requests| ==> (i in taken <==> requests[i].broker !in left)
      decreases left
    {
      var b :| b in left;
      assert Group(requests, b, groups[b], |requests|);
      IndicesHas(groups[b]);
      outcomes, error, taken := HandOverGroup(down, requests, answers, outcomes, taken, b, groups[b]);
      if error.Some? {
        return;
      }
      left := left - {b};
    }
    BelowHas(|requests|);
    assert taken == Below(|requests|);
  }

  /** A blind batch, whatever order the brokers are visited in: it succeeds if and only if every request is
      taken, and then entry i confirms request i. The first failure ends it; the requests taken until then,
      `taken`, are out, the failed one and the others are not. */
  method PublishBlind(down: map<Broker, Error>, requests: seq<Request>, answers: seq<Answer>)
    returns (r: Result<seq<Outcome>>, ghost taken: set<nat>)
    requires |requests| == |answers|
    ensures r.Ok? <==> forall i :: 0 <= i < |requests| ==> BlindFate(down, requests[i], answers[i]).Ok?
    ensures r.Ok? ==>
              && |r.value| == |requests|
              && forall i :: 0 <= i < |requests| ==> BlindFate(down, requests[i], answers[i]) == Ok(r.value[i])
    ensures r.Err? ==> exists i :: 0 <= i < |requests| && BlindFate(down, requests[i], answers[i]) == Err(r.error)
    ensures r.Ok? ==> taken == Below(|requests|)
    ensures r.Err? ==> FailsFirst(down, requests, answers, r.error, taken)
    ensures forall i :: i in taken ==> i < |requests| && BlindFate(down, requests[i], answers[i]).Ok?
  {
    var groups := GroupByBroker(requests);
    var outcomes, error;
    outcomes, error, taken := HandOverAll(down, requests, answers, groups);
    if error.Some? {
      return Err(error.value), taken;
    }
    BelowHas(|requests|);
    var results: seq<Outcome> := [];
    for n := 0 to |outcomes|
      invariant |results| == n
      invariant forall i :: 0 <= i < n ==> outcomes[i] == Some(results[i])
    {
      results := results + [outcomes[n].value];
    }
    return Ok(results), taken;
  }
}
