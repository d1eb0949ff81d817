/**
 The ordered scans of the actor: over the ledger and the recorded acknowledgements when they
 are flushed, and over the ledger prefix of a settle-through.
 */
module Scans {
  import opened Options
  import opened Deliveries
  import opened Lanes
  import opened StageTags
  import opened Settling
  import opened SettleFrames
  import opened SettleProofs
  import opened SettleSteps
  import opened Throughs

  // The next key of an ordered map, strictly above `low`.
  method NextAbove(keys: set<nat>, low: nat) returns (next: Option<nat>)
    ensures next == None <==> forall t :: t in keys ==> t <= low
    ensures forall least :: next == Some(least) ==>
              least in keys && low < least && forall t :: t in keys && t > low ==> least <= t
  {
    next := None;
    var left := keys;
    while left != {}
      invariant left <= keys
      invariant next == None ==> forall t :: t in keys && t !in left ==> t <= low
      invariant next.Some? ==>
                  && next.value in keys && low < next.value
                  && forall t :: t in keys && t !in left && t > low ==> next.value <= t
      decreases left
    {
      var t :| t in left;
      left := left - {t};
      if t > low && (next == None || t < next.value) {
        next := Some(t);
      }
    }
  }

  lemma RunGrows(ledger: Ledger, batch: map<nat, Token>, prefix: seq<Token>, tag: nat)
    requires IsRun(ledger, batch, prefix) && tag in ledger.pending && tag in batch && batch[tag].tag == tag
    requires tag > Reach(ledger, prefix)
    requires forall t :: t in ledger.pending && t > Reach(ledger, prefix) ==> tag <= t
    ensures IsRun(ledger, batch, prefix + [batch[tag]])
    ensures Reach(ledger, prefix + [batch[tag]]) == tag
  {
    var more := prefix + [batch[tag]];
    assert more[|more| - 1] == batch[tag];
    TokenTagsAppend(prefix, batch[tag]);
    assert prefix != [] ==> prefix[|prefix| - 1] in prefix;
  }

  // The run of recorded acknowledgements that starts at the settled watermark.
  method AckedRun(ledger: Ledger, batch: map<nat, Token>) returns (prefix: seq<Token>)
    requires forall t :: t in batch ==> batch[t].tag == t
    requires forall t :: t in ledger.pending ==> ledger.pending[t].state == Pending
    ensures IsPrefix(ledger, batch, prefix)
  {
    prefix := [];
    var low := ledger.ackedPrefix;
    while true
      invariant IsRun(ledger, batch, prefix) && low == Reach(ledger, prefix)
      decreases set t | t in ledger.pending && t > low
    {
      var next := NextAbove(ledger.pending.Keys, low);
      if next == None {
        return;
      }
      var tag := next.value;
      if tag !in batch || ledger.pending[tag].state != Pending {
        return;
      }
      RunGrows(ledger, batch, prefix, tag);
      ghost var above := set t | t in ledger.pending && t > low;
      prefix := prefix + [batch[tag]];
      low := tag;
      assert tag in above && tag !in set t | t in ledger.pending && t > low;
    }
  }

  // The stragglers with tags up to `low`.
  ghost predicate IsRestUpTo(ledger: Ledger, batch: map<nat, Token>, reach: nat, low: nat, rest: seq<Work>) {
    && (forall w :: w in rest ==>
          && w.settlement == Ack && reach < w.token.tag <= low
          && w.token.tag in batch && w.token == batch[w.token.tag] && w.token.tag in ledger.pending)
    && Climbing(rest)
    && (forall t :: t in batch && t in ledger.pending && reach < t <= low ==> t in WorkTags(rest))
  }

  predicate Climbing(rest: seq<Work>) {
    forall i, j :: 0 <= i < j < |rest| ==> rest[i].token.tag < rest[j].token.tag
  }

  lemma ClimbOn(rest: seq<Work>, w: Work)
    requires Climbing(rest) && forall x :: x in rest ==> x.token.tag < w.token.tag
    ensures Climbing(rest + [w])
  {
    forall i | 0 <= i < |rest| ensures rest[i].token.tag < w.token.tag {
      assert rest[i] in rest;
    }
  }

  lemma RestGrows(ledger: Ledger, batch: map<nat, Token>, reach: nat, low: nat, rest: seq<Work>, tag: nat)
    requires IsRestUpTo(ledger, batch, reach, low, rest) && reach <= low < tag && tag in batch
    requires batch[tag].tag == tag
    requires forall t :: t in batch && t > low ==> tag <= t
    ensures tag in ledger.pending ==> IsRestUpTo(ledger, batch, reach, tag, rest + [Work(batch[tag], Ack)])
    ensures tag !in ledger.pending ==> IsRestUpTo(ledger, batch, reach, tag, rest)
  {
    WorkTagsAppend(rest, Work(batch[tag], Ack));
    ClimbOn(rest, Work(batch[tag], Ack));
  }

  // The recorded acknowledgements beyond the run; those already settled drop out.
  method Stragglers(ledger: Ledger, batch: map<nat, Token>, reach: nat) returns (rest: seq<Work>)
    requires forall t :: t in batch ==> batch[t].tag == t
    requires forall t :: t in ledger.pending ==> ledger.pending[t].state == Pending
    ensures IsRest(ledger, batch, reach, rest)
  {
    rest := [];
    var low := reach;
    while true
      invariant low >= reach && IsRestUpTo(ledger, batch, reach, low, rest)
      decreases set t | t in batch && t > low
    {
      var next := NextAbove(batch.Keys, low);
      if next == None {
        return;
      }
      var tag := next.value;
      ghost var above := set t | t in batch && t > low;
      RestGrows(ledger, batch, reach, low, rest, tag);
      if tag in ledger.pending && ledger.pending[tag].state == Pending {
        rest := rest + [Work(batch[tag], Ack)];
      }
      low := tag;
      assert tag in above && tag !in set t | t in batch && t > low;
    }
  }

  // The walk stops with the same error at every tag from the first one that is missing.
  lemma {:induction false} WalkStuck(ledger: Ledger, tag: nat, high: nat)
    requires ledger.ackedPrefix < tag <= high && Walk(ledger, tag).Err?
    ensures Walk(ledger, high) == Walk(ledger, tag)
    decreases high
  {
    if tag < high {
      WalkStuck(ledger, tag, high - 1);
    }
  }

  /** The scan visits only the ledger's own keys; it finds the first gap all the same, and so agrees
      with the walk over every tag of the prefix. */
  method ValidateContiguousPrefix(ledger: Ledger, target: nat) returns (r: Result<seq<Token>>)
    ensures r == Walk(ledger, target)
  {
    var tokens: seq<Token> := [];
    var expected := ledger.ackedPrefix + 1;
    var low := ledger.ackedPrefix;
    while true
      invariant low == expected - 1 >= ledger.ackedPrefix
      invariant low <= target || low == ledger.ackedPrefix
      invariant Walk(ledger, low) == Ok(tokens)
      decreases set t | t in ledger.pending && t > low
    {
      var next := NextAbove(ledger.pending.Keys, low);
      if next == None || next.value > target {
        break;
      }
      var tag := next.value;
      if tag != expected {
        WalkStuck(ledger, expected, target);
        return Err(Transport);
      }
      var entry := ledger.pending[tag];
      if entry.state != Pending {
        WalkStuck(ledger, tag, target);
        return Err(AlreadySettled);
      }
      if entry.token == None {
        WalkStuck(ledger, tag, target);
        return Err(Transport);
      }
      ghost var above := set t | t in ledger.pending && t > low;
      tokens := tokens + [entry.token.value];
      expected := expected + 1;
      low := tag;
      assert tag in above && tag !in set t | t in ledger.pending && t > low;
    }
    if expected <= target {
      assert expected !in ledger.pending;
      WalkStuck(ledger, expected, target);
      return Err(Transport);
    }
    return Ok(tokens);
  }
}
